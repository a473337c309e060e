/**
 The per-key summing merge of named outputs that the runner uses to combine the
 output maps of its processes (Python's `collections.Counter` with `update`,
 read back with `get(key, 0)`).
 */
module Tally {

  /** The value recorded for `key`, or 0 when the key is absent. */
  function Count(m: map<string, real>, key: string): real
  {
    if key in m then m[key] else 0.0
  }

  /** Adds the values of `b` onto those of `a`, key by key. */
  function Merge(a: map<string, real>, b: map<string, real>): (r: map<string, real>)
    ensures r.Keys == a.Keys + b.Keys
    ensures forall key :: Count(r, key) == Count(a, key) + Count(b, key)
  {
    map key | key in a.Keys + b.Keys :: Count(a, key) + Count(b, key)
  }

  /** The order in which maps are merged does not change any count. */
  lemma MergeCommutes(a: map<string, real>, b: map<string, real>)
    ensures Merge(a, b) == Merge(b, a)
  {
  }

  /** Chained merges can be regrouped. */
  lemma MergeAssociates(a: map<string, real>, b: map<string, real>, c: map<string, real>)
    ensures Merge(Merge(a, b), c) == Merge(a, Merge(b, c))
  {
  }
}
