/** The "first tier that yields a value wins" shape shared by every extractor. */
module Tiers {
  import opened Wrappers

  /** The first present value of `xs`, in order. */
  function FirstSome<T>(xs: seq<Option<T>>): (r: Option<T>)
    ensures r.None? <==> forall i :: 0 <= i < |xs| ==> xs[i].None?
    ensures r.Some? ==> exists k :: 0 <= k < |xs| && xs[k] == r && forall j :: 0 <= j < k ==> xs[j].None?
  {
    if xs == [] then None
    else if xs[0].Some? then xs[0]
    else FirstSome(xs[1..])
  }

  /** The tier at index `k` decides when every earlier tier came back empty. */
  lemma FirstSomeAt<T>(xs: seq<Option<T>>, k: nat)
    requires k < |xs| && xs[k].Some?
    requires forall j :: 0 <= j < k ==> xs[j].None?
    ensures FirstSome(xs) == xs[k]
  {
    var r := FirstSome(xs);
    var k' :| 0 <= k' < |xs| && xs[k'] == r && forall j :: 0 <= j < k' ==> xs[j].None?;
    assert k' == k;
  }

  /** What probing each key in order yields. */
  function Candidates<K, T>(keys: seq<K>, probe: K -> Option<T>): (r: seq<Option<T>>)
    ensures |r| == |keys| && forall i :: 0 <= i < |keys| ==> r[i] == probe(keys[i])
  {
    seq(|keys|, i requires 0 <= i < |keys| => probe(keys[i]))
  }

  /**
   * `for (const key of keys) { const v = probe(key); if (v) return v; }`:
   * probe the keys in order and stop at the first that yields a value.
   */
  method FirstAccepted<K, T>(keys: seq<K>, probe: K -> Option<T>) returns (found: Option<T>)
    ensures found == FirstSome(Candidates(keys, probe))
  {
    ghost var candidates := Candidates(keys, probe);
    for i := 0 to |keys|
      invariant forall j :: 0 <= j < i ==> candidates[j].None?
    {
      var candidate := probe(keys[i]);
      if candidate.Some? {
        FirstSomeAt(candidates, i);
        return candidate;
      }
    }
    return None;
  }
}
