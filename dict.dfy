/**
 * A `HashMap<String, String>` modelled as a sequence of key/value pairs
 * whose keys are pairwise distinct. The order of the sequence is the
 * iteration order of the map: the model takes it as given and never
 * relies on a particular one.
 */
module Dict {
  import opened Wrappers

  type Pairs = seq<(string, string)>

  /** The set of keys present. */
  function Keys(m: Pairs): (ks: set<string>)
    ensures forall k :: k in ks <==> exists i :: 0 <= i < |m| && m[i].0 == k
  {
    if m == [] then {}
    else
      var rest := Keys(m[1..]);
      assert forall i :: 1 <= i < |m| ==> m[i] == m[1..][i - 1];
      {m[0].0} + rest
  }

  /** No key occurs twice: the sequence is the entry list of a map. */
  predicate DistinctKeys(m: Pairs) {
    m == [] || (m[0].0 !in Keys(m[1..]) && DistinctKeys(m[1..]))
  }

  /** The value stored under `k`, if any (`HashMap::get`). */
  function Get(m: Pairs, k: string): (r: Option<string>)
    ensures r.None? <==> k !in Keys(m)
    ensures r.Some? ==> exists i :: 0 <= i < |m| && m[i] == (k, r.value)
  {
    if m == [] then None
    else if m[0].0 == k then Some(m[0].1)
    else
      var r := Get(m[1..], k);
      assert r.Some? ==> exists i :: 1 <= i < |m| && m[i] == (k, r.value);
      r
  }

  /**
   * `HashMap::insert`: afterwards `k` maps to `v` and every other key keeps
   * its value. An existing entry is overwritten where it stands; a new key
   * is appended.
   */
  function Insert(m: Pairs, k: string, v: string): (r: Pairs)
    ensures Keys(r) == Keys(m) + {k}
    ensures DistinctKeys(m) ==> DistinctKeys(r)
    ensures Get(r, k) == Some(v)
    ensures forall k' :: k' != k ==> Get(r, k') == Get(m, k')
  {
    if m == [] then [(k, v)]
    else if m[0].0 == k then
      var r := [(k, v)] + m[1..];
      assert r[1..] == m[1..];
      r
    else
      var rest := Insert(m[1..], k, v);
      var r := [m[0]] + rest;
      assert r[1..] == rest;
      r
  }
}
