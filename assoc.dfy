/** Insertion-ordered dictionaries: a JavaScript object with string keys
    that are not array indices, or a Python 3.7+ dict. Assigning to a key
    that is present replaces its value in place; assigning to a new key
    appends it. The key list is what `Object.keys` (or iteration over the
    dict) observes. */
module Assoc {
  import opened Common

  type AList<V> = seq<(string, V)>

  function Keys<V>(m: AList<V>): (ks: seq<string>)
    ensures |ks| == |m|
    ensures forall i :: 0 <= i < |m| ==> ks[i] == m[i].0
  {
    if m == [] then [] else [m[0].0] + Keys(m[1..])
  }

  function Lookup<V>(m: AList<V>, k: string): (r: Option<V>)
    ensures r.Some? <==> k in Keys(m)
  {
    if m == [] then None
    else if m[0].0 == k then Some(m[0].1)
    else Lookup(m[1..], k)
  }

  /** `m[k] = v`. Its effect on the key list and on lookups is stated by
      the two lemmas below, called where needed. */
  function Put<V>(m: AList<V>, k: string, v: V): (r: AList<V>)
    ensures |r| == |m| || |r| == |m| + 1
  {
    if m == [] then [(k, v)]
    else if m[0].0 == k then [(k, v)] + m[1..]
    else [m[0]] + Put(m[1..], k, v)
  }

  lemma KeysSnoc<V>(m: AList<V>, e: (string, V))
    ensures Keys(m + [e]) == Keys(m) + [e.0]
  {
  }

  /** Assignment keeps the key order and appends a key that is new. */
  lemma {:induction false} PutKeys<V>(m: AList<V>, k: string, v: V)
    ensures Keys(Put(m, k, v)) == AppendNew(Keys(m), k)
  {
    if m != [] && m[0].0 != k {
      PutKeys(m[1..], k, v);
      assert Keys(m) == [m[0].0] + Keys(m[1..]);
      assert Keys(Put(m, k, v)) == [m[0].0] + Keys(Put(m[1..], k, v));
    } else if m != [] {
      assert Keys(Put(m, k, v)) == [k] + Keys(m[1..]);
      assert Keys(m) == [k] + Keys(m[1..]);
    }
  }

  /** After `m[k] = v`, `k` reads `v` and every other key reads as before. */
  lemma {:induction false} PutLookup<V>(m: AList<V>, k: string, v: V, k': string)
    ensures Lookup(Put(m, k, v), k') == if k' == k then Some(v) else Lookup(m, k')
  {
    if m != [] && m[0].0 != k {
      PutLookup(m[1..], k, v, k');
    }
  }

  /** Assigning a key that is new to the object appends one entry at the end. */
  lemma {:induction false} PutFresh<V>(m: AList<V>, k: string, v: V)
    requires k !in Keys(m)
    ensures Put(m, k, v) == m + [(k, v)]
  {
    if m != [] {
      assert Keys(m) == [m[0].0] + Keys(m[1..]);
      assert m[0].0 != k;
      PutFresh(m[1..], k, v);
      assert m == [m[0]] + m[1..];
    }
  }
}
