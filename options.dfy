/**
 * Validator options: a PHP array from option names to option values.
 *
 * An option value is one of the shapes the fixtures pass: `null`, a
 * boolean, an integer, a string or an array of integers.  A key that is
 * absent from the options is simply not in the map; `null` and `false` are
 * values like any other and are therefore distinguishable from absence.
 */
module Options {

  datatype OptVal =
    | Null
    | Bool(b: bool)
    | Int(i: int)
    | Str(s: string)
    | Arr(elems: seq<int>)

  type Options = map<string, OptVal>

  /**
   * The array literal `array(k1 => v1, ..., kn => vn)`: entries are taken
   * left to right and a later entry with an already-seen key replaces the
   * earlier value.  The keys of the result are exactly the keys written.
   */
  function FromPairs(pairs: seq<(string, OptVal)>): (m: Options)
    ensures forall k :: k in m <==> exists i :: 0 <= i < |pairs| && pairs[i].0 == k
  {
    if pairs == [] then map[]
    else
      var init := pairs[..|pairs| - 1];
      var last := pairs[|pairs| - 1];
      assert forall i :: 0 <= i < |init| ==> init[i] == pairs[i];
      FromPairs(init)[last.0 := last.1]
  }

  /** A literal of two entries: the second one is stored last. */
  lemma FromPairsOfTwo(p: (string, OptVal), q: (string, OptVal))
    ensures FromPairs([p, q]) == map[p.0 := p.1][q.0 := q.1]
  {
    assert [p, q][..1] == [p];
    assert [p][..0] == [];
  }

  /** No key is written twice in the literal. */
  predicate DistinctKeys(pairs: seq<(string, OptVal)>) {
    forall i, j :: 0 <= i < j < |pairs| ==> pairs[i].0 != pairs[j].0
  }

  /** The value stored for a key is the one of its last entry in the literal. */
  lemma {:induction false} FromPairsLastWins(pairs: seq<(string, OptVal)>, i: nat)
    requires i < |pairs|
    requires forall j :: i < j < |pairs| ==> pairs[j].0 != pairs[i].0
    ensures pairs[i].0 in FromPairs(pairs) && FromPairs(pairs)[pairs[i].0] == pairs[i].1
  {
    var init := pairs[..|pairs| - 1];
    if i < |pairs| - 1 {
      assert forall j :: i < j < |init| ==> init[j] == pairs[j];
      FromPairsLastWins(init, i);
      assert init[i] == pairs[i];
    }
  }

  /** Every key of `a` is stored in `b` with the same value when `b` holds every entry of `a`. */
  lemma EntriesIncluded(a: seq<(string, OptVal)>, b: seq<(string, OptVal)>)
    requires DistinctKeys(a) && DistinctKeys(b)
    requires forall i :: 0 <= i < |a| ==> a[i] in b
    ensures forall k :: k in FromPairs(a) ==> k in FromPairs(b) && FromPairs(b)[k] == FromPairs(a)[k]
  {
    forall k | k in FromPairs(a)
      ensures k in FromPairs(b) && FromPairs(b)[k] == FromPairs(a)[k]
    {
      var i :| 0 <= i < |a| && a[i].0 == k;
      FromPairsLastWins(a, i);
      var j :| 0 <= j < |b| && b[j] == a[i];
      FromPairsLastWins(b, j);
    }
  }

  /**
   * Writing the same distinct-key entries in another order gives the same
   * options: the order of keys in an options array never matters.
   */
  lemma FromPairsOrderIrrelevant(a: seq<(string, OptVal)>, b: seq<(string, OptVal)>)
    requires DistinctKeys(a) && DistinctKeys(b)
    requires multiset(a) == multiset(b)
    ensures FromPairs(a) == FromPairs(b)
  {
    forall i | 0 <= i < |a| ensures a[i] in b {
      assert a[i] in multiset(a);
    }
    forall j | 0 <= j < |b| ensures b[j] in a {
      assert b[j] in multiset(b);
    }
    EntriesIncluded(a, b);
    EntriesIncluded(b, a);
  }

  /** PHP's conversion of an option value to a boolean (`if ($option)`). */
  predicate Truthy(v: OptVal): (b: bool)
    ensures v == OptVal.Null || v == OptVal.Bool(false) || v == OptVal.Int(0) || v == OptVal.Str("") ==> !b
    ensures v == OptVal.Bool(true) ==> b
  {
    match v
    case Null => false
    case Bool(b) => b
    case Int(i) => i != 0
    case Str(s) => s != "" && s != "0"
    case Arr(elems) => elems != []
  }
}
