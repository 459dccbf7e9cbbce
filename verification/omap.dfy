/**
 * Insertion-ordered dictionaries, as Python's `dict` behaves: a lookup finds
 * the key's entry, an assignment to a present key keeps its position and
 * replaces its value, and an assignment to a new key appends an entry.
 */
module OMaps {
  import opened Wrappers

  /** The entries in insertion order. */
  type OMap<K, V> = seq<(K, V)>

  function Keys<K, V>(m: OMap<K, V>): seq<K> {
    seq(|m|, i requires 0 <= i < |m| => m[i].0)
  }

  lemma KeysCons<K, V>(e: (K, V), m: OMap<K, V>)
    ensures Keys([e] + m) == [e.0] + Keys(m)
  {
  }

  lemma KeysAppend<K, V>(m: OMap<K, V>, e: (K, V))
    ensures Keys(m + [e]) == Keys(m) + [e.0]
  {
  }

  lemma KeysConcat<K, V>(a: OMap<K, V>, b: OMap<K, V>)
    ensures Keys(a + b) == Keys(a) + Keys(b)
  {
  }

  /** `m.get(k)`: the value of the first entry with key `k`. */
  function Get<K(==), V>(m: OMap<K, V>, k: K): (r: Option<V>)
    ensures r.Some? <==> k in Keys(m)
    ensures r.Some? ==> (k, r.value) in m
  {
    if m == [] then None
    else if m[0].0 == k then
      assert m[0] == (k, m[0].1);
      assert Keys(m)[0] == k;
      Some(m[0].1)
    else
      KeysCons(m[0], m[1..]);
      assert m == [m[0]] + m[1..];
      Get(m[1..], k)
  }

  /** `m[k] = v`. */
  function Put<K(==,!new), V>(m: OMap<K, V>, k: K, v: V): (r: OMap<K, V>)
    ensures Get(r, k) == Some(v)
    ensures forall k' :: k' != k ==> Get(r, k') == Get(m, k')
    ensures Keys(r) == if k in Keys(m) then Keys(m) else Keys(m) + [k]
  {
    if m == [] then [(k, v)]
    else if m[0].0 == k then
      KeysCons(m[0], m[1..]);
      KeysCons((k, v), m[1..]);
      assert m == [m[0]] + m[1..];
      [(k, v)] + m[1..]
    else
      var rest := Put(m[1..], k, v);
      KeysCons(m[0], m[1..]);
      KeysCons(m[0], rest);
      assert m == [m[0]] + m[1..];
      assert ([m[0]] + rest)[1..] == rest;
      [m[0]] + rest
  }

  /** The value of the LAST entry with key `k`: what a merge of these entries leaves behind. */
  function LastValue<K(==), V>(u: OMap<K, V>, k: K): Option<V> {
    if u == [] then None
    else if u[|u| - 1].0 == k then Some(u[|u| - 1].1)
    else LastValue(u[..|u| - 1], k)
  }

  /** `m.update(u)`, equally `{**m, **u}` and keyword-argument merging: entries of `u` in order, last write wins. */
  function Update<K(==,!new), V>(m: OMap<K, V>, u: OMap<K, V>): (r: OMap<K, V>)
    ensures forall k :: Get(r, k) == if k in Keys(u) then LastValue(u, k) else Get(m, k)
    decreases |u|
  {
    if u == [] then m
    else
      var init := u[..|u| - 1];
      var e := u[|u| - 1];
      var r := Put(Update(m, init), e.0, e.1);
      assert u == init + [e];
      KeysAppend(init, e);
      r
  }

  lemma {:induction false} LastValueAbsent<K, V>(u: OMap<K, V>, k: K)
    ensures LastValue(u, k).None? <==> k !in Keys(u)
  {
    if u != [] {
      LastValueAbsent(u[..|u| - 1], k);
      assert u == u[..|u| - 1] + [u[|u| - 1]];
      KeysAppend(u[..|u| - 1], u[|u| - 1]);
    }
  }

  /** Merging keeps the keys of `m` first, in their order. */
  lemma {:induction false} UpdateKeepsOrder<K(!new), V>(m: OMap<K, V>, u: OMap<K, V>)
    ensures |Update(m, u)| >= |m|
    ensures Keys(Update(m, u))[..|m|] == Keys(m)
    decreases |u|
  {
    if u != [] {
      var init := u[..|u| - 1];
      var e := u[|u| - 1];
      UpdateKeepsOrder(m, init);
      var mid := Update(m, init);
      var r := Put(mid, e.0, e.1);
      assert Update(m, u) == r;
      assert Keys(r)[..|Keys(mid)|] == Keys(mid);
      assert Keys(r)[..|m|] == Keys(mid)[..|m|];
    }
  }

  /** Merging never loses a key and adds exactly the keys of `u`. */
  lemma {:induction false} UpdateKeySet<K(!new), V>(m: OMap<K, V>, u: OMap<K, V>)
    ensures forall k :: k in Keys(Update(m, u)) <==> k in Keys(m) || k in Keys(u)
  {
    forall k ensures k in Keys(Update(m, u)) <==> k in Keys(m) || k in Keys(u) {
      var r := Update(m, u);
      assert Get(r, k).Some? <==> k in Keys(r);
      if k in Keys(u) {
        LastValueAbsent(u, k);
      } else {
        assert Get(m, k).Some? <==> k in Keys(m);
      }
    }
  }

  /** A lookup finds the first entry: keys of `a` are found in `a`, other keys in `b`. */
  lemma {:induction false} GetAppend<K, V>(a: OMap<K, V>, b: OMap<K, V>, k: K)
    ensures Get(a + b, k) == if k in Keys(a) then Get(a, k) else Get(b, k)
  {
    if a != [] {
      GetAppend(a[1..], b, k);
      assert (a + b)[1..] == a[1..] + b;
      KeysCons(a[0], a[1..]);
      assert a == [a[0]] + a[1..];
    } else {
      assert a + b == b;
    }
  }

  /** An assignment adds or replaces one entry and keeps the others. */
  lemma {:induction false} PutEntries<K(!new), V>(m: OMap<K, V>, k: K, v: V)
    ensures forall e :: e in Put(m, k, v) ==> e in m || e == (k, v)
  {
    if m != [] && m[0].0 != k {
      PutEntries(m[1..], k, v);
    }
  }

  /** The last value of a key is the value of one of its entries. */
  lemma {:induction false} LastValueMember<K, V>(u: OMap<K, V>, k: K)
    ensures LastValue(u, k).Some? ==> (k, LastValue(u, k).value) in u
  {
    if u != [] && u[|u| - 1].0 != k {
      LastValueMember(u[..|u| - 1], k);
      assert u == u[..|u| - 1] + [u[|u| - 1]];
    }
  }
}
