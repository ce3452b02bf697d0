/**
 * A Python `dict` from strings to strings: a map together with the order in
 * which its keys were first inserted, which is the order `dict.items()` yields.
 */
module PyDict {

  datatype Dict = Dict(keys: seq<string>, vals: map<string, string>) {

    /** Each key is listed once, and exactly the map's keys are listed. */
    ghost predicate Valid() {
      (forall i, j :: 0 <= i < j < |keys| ==> keys[i] != keys[j]) &&
      (forall k :: k in vals <==> k in keys)
    }

    /** `d[k] = v`: an existing key keeps its place, a new key goes last. */
    function Set(k: string, v: string): (d: Dict)
      ensures Valid() ==> d.Valid()
    {
      Dict(if k in vals then keys else keys + [k], vals[k := v])
    }
  }

  /**
   * `d[k] = v` binds `k` to `v`, leaves every other key as it was, keeps the
   * existing keys in their order and adds `k` last exactly when it is new.
   */
  lemma SetEffect(d: Dict, k: string, v: string)
    ensures k in d.Set(k, v).vals && d.Set(k, v).vals[k] == v
    ensures SameExcept(d, d.Set(k, v), {k})
    ensures |d.keys| <= |d.Set(k, v).keys| && d.Set(k, v).keys[..|d.keys|] == d.keys
    ensures |d.Set(k, v).keys| == if k in d.vals then |d.keys| else |d.keys| + 1
  {
  }

  const EMPTY: Dict := Dict([], map[])

  /**
   * `d` and `e` hold the same keys with the same values, except perhaps at the
   * keys in `changed`.
   */
  ghost predicate SameExcept(d: Dict, e: Dict, changed: set<string>) {
    forall k :: k !in changed ==>
      (k in d.vals <==> k in e.vals) && (k in d.vals ==> d.vals[k] == e.vals[k])
  }

  /** Changes confined to `a`, then to `b`, are confined to both together. */
  lemma SameExceptTrans(d: Dict, e: Dict, f: Dict, a: set<string>, b: set<string>)
    requires SameExcept(d, e, a) && SameExcept(e, f, b)
    ensures SameExcept(d, f, a + b)
  {
  }

  /** The dict a literal `{k0: v0, k1: v1, ...}` builds: later entries overwrite earlier ones. */
  function FromPairs(pairs: seq<(string, string)>): (d: Dict)
    ensures d.Valid()
    decreases |pairs|
  {
    if pairs == [] then EMPTY
    else FromPairs(pairs[..|pairs| - 1]).Set(pairs[|pairs| - 1].0, pairs[|pairs| - 1].1)
  }

  ghost predicate DistinctKeys(pairs: seq<(string, string)>) {
    forall i, j :: 0 <= i < j < |pairs| ==> pairs[i].0 != pairs[j].0
  }

  /**
   * A literal whose keys are distinct lists them in its own order, and each
   * key maps to the value written beside it.
   */
  lemma {:induction false} FromPairsDistinct(pairs: seq<(string, string)>)
    requires DistinctKeys(pairs)
    ensures |FromPairs(pairs).keys| == |pairs|
    ensures forall i :: 0 <= i < |pairs| ==>
      FromPairs(pairs).keys[i] == pairs[i].0 && FromPairs(pairs).vals[pairs[i].0] == pairs[i].1
    decreases |pairs|
  {
    if pairs != [] {
      var init := pairs[..|pairs| - 1];
      var last := pairs[|pairs| - 1];
      FromPairsDistinct(init);
      var d := FromPairs(init);
      assert FromPairs(pairs) == d.Set(last.0, last.1);
      forall i | 0 <= i < |init|
        ensures d.keys[i] != last.0
      {
        assert init[i] == pairs[i];
      }
      assert last.0 !in d.vals;
    }
  }
}
