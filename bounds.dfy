/**
 * Bounds resolution and checking shared by the list and the string
 * validator.
 *
 * A validator names three options: a range option holding `[low, high]`
 * and two separate options for the lower and for the upper bound.  The
 * range option sets both sides; a separate option that is present (even
 * as `null`, `false` or `0`) then replaces its own side, whatever the order
 * of the keys.  `null` and `false` leave a side unbounded; an integer,
 * including `0`, is taken literally.  The measured quantity (an element
 * count or a string length) is compared with each side independently and
 * the upper-bound error, when there is one, comes first.
 */
module BoundsResolver {
  import opened Optional
  import opened Options
  import opened Errors

  /** The effective bounds of one validation; `None` means unbounded on that side. */
  datatype Bounds = Bounds(lower: Option<int>, upper: Option<int>)

  /** Whether a single integer `n` is also accepted as the range `[n, n]`. */
  datatype RangeShape = PairOnly | PairOrScalar

  /** The names under which a validator reads its bounds. */
  datatype BoundKeys = BoundKeys(range: string, lower: string, upper: string, shape: RangeShape)

  const LowerBoundMessage := "Value exceeding lower bound"
  const UpperBoundMessage := "Value exceeding upper bound"
  /** Errors coming from a bound check are tagged with this code. */
  const LengthCode := "length"
  const LowerBoundError := Error(LowerBoundMessage, Some(LengthCode))
  const UpperBoundError := Error(UpperBoundMessage, Some(LengthCode))

  const Unbounded := Bounds(None, None)

  /** The bounds a range option gives, or `None` when its shape is a usage error. */
  function RangeBounds(v: OptVal, shape: RangeShape): (r: Option<Bounds>)
    ensures r.Some? <==> (v.Arr? && |v.elems| == 2) || (v.Int? && shape == PairOrScalar)
    ensures v.Arr? && |v.elems| == 2 ==> r == Some(Bounds(Some(v.elems[0]), Some(v.elems[1])))
    ensures v.Int? && shape == PairOrScalar ==> r == Some(Bounds(Some(v.i), Some(v.i)))
  {
    match v
    case Arr(elems) => if |elems| == 2 then Some(Bounds(Some(elems[0]), Some(elems[1]))) else None
    case Int(n) => if shape == PairOrScalar then Some(Bounds(Some(n), Some(n))) else None
    case _ => None
  }

  /**
   * The bound a separate min/max option gives: `null` and `false` leave the
   * side unbounded, an integer is the bound; any other value is a usage
   * error (`None`).
   */
  function SideBound(v: OptVal): (r: Option<Option<int>>)
    ensures r == Some(None) <==> v == OptVal.Null || v == OptVal.Bool(false)
    ensures v.Int? <==> r.Some? && r.value.Some?
    ensures v.Int? ==> r.value.value == v.i
  {
    match v
    case Null => Some(None)
    case Bool(b) => if b then None else Some(None)
    case Int(n) => Some(Some(n))
    case _ => None
  }

  /** Whether an option map makes bounds resolution fail with a usage error. */
  predicate Malformed(opts: Options, keys: BoundKeys): (b: bool)
    ensures b ==> keys.range in opts || keys.lower in opts || keys.upper in opts
  {
    || (keys.range in opts && RangeBounds(opts[keys.range], keys.shape).None?)
    || (keys.lower in opts && SideBound(opts[keys.lower]).None?)
    || (keys.upper in opts && SideBound(opts[keys.upper]).None?)
  }

  /**
   * Starts from the range option (or from no bounds when it is absent) and
   * lets each present separate option replace its side.  `None` is a usage
   * error.
   */
  function Resolve(opts: Options, keys: BoundKeys): (r: Option<Bounds>)
    ensures r.None? <==> Malformed(opts, keys)
  {
    match if keys.range in opts then RangeBounds(opts[keys.range], keys.shape) else Some(Unbounded)
    case None => None
    case Some(start) =>
      var lower := if keys.lower in opts then SideBound(opts[keys.lower]) else Some(start.lower);
      var upper := if keys.upper in opts then SideBound(opts[keys.upper]) else Some(start.upper);
      if lower.None? || upper.None? then None else Some(Bounds(lower.value, upper.value))
  }

  /**
   * Precedence: a present separate option decides its side whatever the
   * range option says; otherwise the range option decides; with neither
   * the side is unbounded.
   */
  lemma ResolvePrecedence(opts: Options, keys: BoundKeys)
    requires !Malformed(opts, keys)
    ensures Resolve(opts, keys).Some?
    ensures keys.lower in opts ==> Resolve(opts, keys).value.lower == SideBound(opts[keys.lower]).value
    ensures keys.upper in opts ==> Resolve(opts, keys).value.upper == SideBound(opts[keys.upper]).value
    ensures keys.lower !in opts && keys.range in opts ==>
              Resolve(opts, keys).value.lower == RangeBounds(opts[keys.range], keys.shape).value.lower
    ensures keys.upper !in opts && keys.range in opts ==>
              Resolve(opts, keys).value.upper == RangeBounds(opts[keys.range], keys.shape).value.upper
    ensures keys.lower !in opts && keys.range !in opts ==> Resolve(opts, keys).value.lower == None
    ensures keys.upper !in opts && keys.range !in opts ==> Resolve(opts, keys).value.upper == None
  {
  }

  /** Options other than the three bound keys play no part in resolution. */
  lemma ResolveIgnoresOtherKeys(opts: Options, keys: BoundKeys, k: string, v: OptVal)
    requires k != keys.range && k != keys.lower && k != keys.upper
    ensures Resolve(opts[k := v], keys) == Resolve(opts, keys)
  {
  }

  predicate AboveUpper(measured: int, b: Bounds) {
    b.upper.Some? && measured > b.upper.value
  }

  predicate BelowLower(measured: int, b: Bounds) {
    b.lower.Some? && measured < b.lower.value
  }

  /** The errors a measured quantity draws from the bounds: upper first, then lower. */
  function BoundErrors(measured: int, b: Bounds): (r: seq<Error>)
    ensures r == [] <==> !AboveUpper(measured, b) && !BelowLower(measured, b)
    ensures |r| == 2 ==> r == [UpperBoundError, LowerBoundError]
  {
    (if AboveUpper(measured, b) then [UpperBoundError] else [])
    + (if BelowLower(measured, b) then [LowerBoundError] else [])
  }

  /**
   * What the bound errors mean: each side is reported exactly when it is
   * violated, every error carries the `length` code, nothing is reported
   * twice, the quantity is accepted exactly when it lies within both
   * bounds, and when both sides fail the upper-bound error comes first.
   */
  lemma BoundErrorsMeaning(measured: int, b: Bounds)
    ensures var r := BoundErrors(measured, b);
      && |r| <= 2
      && (forall e :: e in r ==> e == UpperBoundError || e == LowerBoundError)
      && (forall e :: e in r ==> e.code == Some(LengthCode))
      && (UpperBoundError in r <==> AboveUpper(measured, b))
      && (LowerBoundError in r <==> BelowLower(measured, b))
      && (|r| == 2 ==> r == [UpperBoundError, LowerBoundError])
      && (r == [] <==>
            (b.lower.None? || b.lower.value <= measured) && (b.upper.None? || measured <= b.upper.value))
  {
  }

  /**
   * A lower bound above the upper bound is not rejected as a usage error,
   * but then no quantity satisfies both sides, and each quantity draws at
   * least one error.
   */
  lemma InvertedBoundsRejectAll(measured: int, b: Bounds)
    requires b.lower.Some? && b.upper.Some? && b.lower.value > b.upper.value
    ensures BoundErrors(measured, b) != []
    ensures measured <= b.upper.value ==> BoundErrors(measured, b) == [LowerBoundError]
    ensures measured >= b.lower.value ==> BoundErrors(measured, b) == [UpperBoundError]
  {
  }

  /** An upper bound of `0` is literal: only the quantity `0` (or less) passes it. */
  lemma ZeroUpperBoundIsLiteral(measured: nat, b: Bounds)
    requires b.upper == Some(0)
    ensures UpperBoundError in BoundErrors(measured, b) <==> measured > 0
  {
  }

  /** Adds the bound errors of a measured quantity, one check after the other. */
  method AppendBoundErrors(errors: seq<Error>, measured: int, b: Bounds) returns (r: seq<Error>)
    ensures r == errors + BoundErrors(measured, b)
  {
    r := errors;
    if b.upper.Some? && measured > b.upper.value {
      r := r + [UpperBoundError];
    }
    if b.lower.Some? && measured < b.lower.value {
      r := r + [LowerBoundError];
    }
  }
}
