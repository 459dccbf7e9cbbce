/**
 * Generic sequence helpers: filtering, first-occurrence de-duplication and
 * the stable grouping that Python's insertion-ordered `dict` gives the
 * source wherever it collects items under a key.
 */
module Seqs {
  import opened OMaps

  function Last<T>(xs: seq<T>): T
    requires |xs| > 0
  {
    xs[|xs| - 1]
  }

  predicate Distinct<T(==)>(xs: seq<T>) {
    forall i, j :: 0 <= i < j < |xs| ==> xs[i] != xs[j]
  }

  /**
   * `a` is an order-preserving subsequence of `b`: `a` is obtained from `b`
   * by deleting elements.
   */
  ghost predicate IsSubseq<T>(a: seq<T>, b: seq<T>)
    decreases |b|
  {
    a == [] ||
    (b != [] &&
     ((Last(a) == Last(b) && IsSubseq(a[..|a| - 1], b[..|b| - 1])) || IsSubseq(a, b[..|b| - 1])))
  }

  /** The elements of `xs` that satisfy `p`, in order (a list comprehension with a condition). */
  function Filter<T>(xs: seq<T>, p: T -> bool): seq<T> {
    if xs == [] then []
    else Filter(xs[..|xs| - 1], p) + (if p(Last(xs)) then [Last(xs)] else [])
  }

  lemma FilterAppend<T>(xs: seq<T>, x: T, p: T -> bool)
    ensures Filter(xs + [x], p) == Filter(xs, p) + (if p(x) then [x] else [])
  {
    assert (xs + [x])[..|xs|] == xs;
  }

  lemma {:induction false} FilterConcat<T>(xs: seq<T>, ys: seq<T>, p: T -> bool)
    ensures Filter(xs + ys, p) == Filter(xs, p) + Filter(ys, p)
    decreases |ys|
  {
    if ys == [] {
      assert xs + ys == xs;
    } else {
      var init := ys[..|ys| - 1];
      FilterConcat(xs, init, p);
      assert xs + ys == (xs + init) + [Last(ys)];
      FilterAppend(xs + init, Last(ys), p);
      FilterAppend(init, Last(ys), p);
      assert init + [Last(ys)] == ys;
    }
  }

  /** Membership in a filter: exactly the members of `xs` satisfying `p`. */
  lemma {:induction false} FilterMembers<T>(xs: seq<T>, p: T -> bool)
    ensures forall x :: x in Filter(xs, p) <==> x in xs && p(x)
  {
    if xs != [] {
      FilterMembers(xs[..|xs| - 1], p);
      assert xs == xs[..|xs| - 1] + [Last(xs)];
    }
  }

  lemma {:induction false} FilterIsSubseq<T>(xs: seq<T>, p: T -> bool)
    ensures IsSubseq(Filter(xs, p), xs)
  {
    if xs != [] {
      FilterIsSubseq(xs[..|xs| - 1], p);
      var f := Filter(xs, p);
      if p(Last(xs)) {
        assert f == Filter(xs[..|xs| - 1], p) + [Last(xs)];
        assert f[..|f| - 1] == Filter(xs[..|xs| - 1], p);
        assert Last(f) == Last(xs);
        assert IsSubseq(f, xs);
      } else {
        assert f == Filter(xs[..|xs| - 1], p);
        assert f == [] || IsSubseq(f, xs[..|xs| - 1]);
      }
    }
  }

  lemma {:induction false} FilterMultiset<T>(xs: seq<T>, p: T -> bool)
    ensures multiset(Filter(xs, p)) <= multiset(xs)
  {
    if xs != [] {
      FilterMultiset(xs[..|xs| - 1], p);
      assert xs == xs[..|xs| - 1] + [Last(xs)];
    }
  }

  /** A filter keeps every copy of an accepted element and no copy of a rejected one. */
  lemma {:induction false} FilterCount<T>(xs: seq<T>, p: T -> bool, x: T)
    ensures multiset(Filter(xs, p))[x] == if p(x) then multiset(xs)[x] else 0
  {
    if xs != [] {
      FilterCount(xs[..|xs| - 1], p, x);
      assert xs == xs[..|xs| - 1] + [Last(xs)];
    }
  }

  lemma {:induction false} FilterLength<T>(xs: seq<T>, p: T -> bool)
    ensures |Filter(xs, p)| <= |xs|
  {
    if xs != [] {
      FilterLength(xs[..|xs| - 1], p);
    }
  }

  /** The elements of `xs` whose key is `k`, in order. */
  function WithKey<K(==), T>(xs: seq<T>, key: T -> K, k: K): seq<T> {
    if xs == [] then []
    else WithKey(xs[..|xs| - 1], key, k) + (if key(Last(xs)) == k then [Last(xs)] else [])
  }

  lemma WithKeyAppend<K, T>(xs: seq<T>, x: T, key: T -> K, k: K)
    ensures WithKey(xs + [x], key, k) == WithKey(xs, key, k) + (if key(x) == k then [x] else [])
  {
    assert (xs + [x])[..|xs|] == xs;
  }

  lemma {:induction false} WithKeyMembers<K, T>(xs: seq<T>, key: T -> K, k: K)
    ensures forall x :: x in WithKey(xs, key, k) <==> x in xs && key(x) == k
  {
    if xs != [] {
      WithKeyMembers(xs[..|xs| - 1], key, k);
      assert xs == xs[..|xs| - 1] + [Last(xs)];
    }
  }

  lemma {:induction false} WithKeyIsSubseq<K, T>(xs: seq<T>, key: T -> K, k: K)
    ensures IsSubseq(WithKey(xs, key, k), xs)
  {
    if xs != [] {
      WithKeyIsSubseq(xs[..|xs| - 1], key, k);
      var f := WithKey(xs, key, k);
      if key(Last(xs)) == k {
        assert f == WithKey(xs[..|xs| - 1], key, k) + [Last(xs)];
        assert f[..|f| - 1] == WithKey(xs[..|xs| - 1], key, k);
        assert Last(f) == Last(xs);
        assert IsSubseq(f, xs);
      } else {
        assert f == WithKey(xs[..|xs| - 1], key, k);
        assert f == [] || IsSubseq(f, xs[..|xs| - 1]);
      }
    }
  }

  lemma {:induction false} WithKeyAbsent<K, T>(xs: seq<T>, key: T -> K, k: K)
    requires k !in KeySeq(xs, key)
    ensures WithKey(xs, key, k) == []
  {
    if xs != [] {
      var ys := xs[..|xs| - 1];
      assert KeySeq(xs, key) == KeySeq(ys, key) + [key(Last(xs))];
      WithKeyAbsent(ys, key, k);
    }
  }

  /** Elements in order of first occurrence, each once. */
  function Dedup<T(==)>(xs: seq<T>): seq<T> {
    if xs == [] then []
    else
      var d := Dedup(xs[..|xs| - 1]);
      if Last(xs) in d then d else d + [Last(xs)]
  }

  lemma {:induction false} DedupProperties<T>(xs: seq<T>)
    ensures Distinct(Dedup(xs))
    ensures forall x :: x in Dedup(xs) <==> x in xs
  {
    if xs != [] {
      DedupProperties(xs[..|xs| - 1]);
      assert xs == xs[..|xs| - 1] + [Last(xs)];
    }
  }

  lemma DedupAppend<T>(xs: seq<T>, x: T)
    ensures Dedup(xs + [x]) == if x in Dedup(xs) then Dedup(xs) else Dedup(xs) + [x]
  {
    assert (xs + [x])[..|xs|] == xs;
  }

  /** The keys of the elements, in order. */
  function KeySeq<K, T>(xs: seq<T>, key: T -> K): seq<K> {
    seq(|xs|, i requires 0 <= i < |xs| => key(xs[i]))
  }

  /** The concatenation of the groups, in group order. */
  function Flatten<K, T>(gs: seq<(K, seq<T>)>): seq<T> {
    if gs == [] then [] else gs[0].1 + Flatten(gs[1..])
  }

  /** `groups[k].append(x)` on an insertion-ordered dictionary of lists. */
  function GroupInsert<K(==), T>(gs: seq<(K, seq<T>)>, k: K, x: T): seq<(K, seq<T>)> {
    if gs == [] then [(k, [x])]
    else if gs[0].0 == k then [(k, gs[0].1 + [x])] + gs[1..]
    else [gs[0]] + GroupInsert(gs[1..], k, x)
  }

  /** The loop `for x in xs: groups[key(x)].append(x)` over a `defaultdict(list)`. */
  function GroupBy<K(==), T>(xs: seq<T>, key: T -> K): seq<(K, seq<T>)> {
    if xs == [] then []
    else GroupInsert(GroupBy(xs[..|xs| - 1], key), key(Last(xs)), Last(xs))
  }

  /**
   * The reference description of a stable grouping: keys in first-occurrence
   * order, and each group holding exactly the elements with its key, in input order.
   */
  ghost predicate GroupedBy<K, T>(gs: seq<(K, seq<T>)>, xs: seq<T>, key: T -> K) {
    && Keys(gs) == Dedup(KeySeq(xs, key))
    && forall i :: 0 <= i < |gs| ==> gs[i].1 == WithKey(xs, key, gs[i].0)
  }

  lemma {:induction false} GroupInsertExisting<K, T>(gs: seq<(K, seq<T>)>, j: nat, k: K, x: T)
    requires j < |gs| && gs[j].0 == k
    requires forall i :: 0 <= i < j ==> gs[i].0 != k
    ensures GroupInsert(gs, k, x) == gs[j := (k, gs[j].1 + [x])]
  {
    if j > 0 {
      GroupInsertExisting(gs[1..], j - 1, k, x);
    }
  }

  lemma {:induction false} GroupInsertNew<K, T>(gs: seq<(K, seq<T>)>, k: K, x: T)
    requires forall i :: 0 <= i < |gs| ==> gs[i].0 != k
    ensures GroupInsert(gs, k, x) == gs + [(k, [x])]
  {
    if gs != [] {
      GroupInsertNew(gs[1..], k, x);
    }
  }

  lemma {:induction false} FlattenGroupInsert<K, T>(gs: seq<(K, seq<T>)>, k: K, x: T)
    ensures multiset(Flatten(GroupInsert(gs, k, x))) == multiset(Flatten(gs)) + multiset{x}
  {
    if gs != [] && gs[0].0 != k {
      FlattenGroupInsert(gs[1..], k, x);
      assert ([gs[0]] + GroupInsert(gs[1..], k, x))[1..] == GroupInsert(gs[1..], k, x);
    } else if gs != [] {
      assert ([(k, gs[0].1 + [x])] + gs[1..])[1..] == gs[1..];
    }
  }

  /** Stable grouping meets its reference description. */
  lemma {:induction false} GroupByGrouped<K, T>(xs: seq<T>, key: T -> K)
    ensures GroupedBy(GroupBy(xs, key), xs, key)
  {
    if xs != [] {
      var ys := xs[..|xs| - 1];
      var x := Last(xs);
      var k := key(x);
      assert xs == ys + [x];
      GroupByGrouped(ys, key);
      var gs := GroupBy(ys, key);
      DedupProperties(KeySeq(ys, key));
      assert KeySeq(xs, key) == KeySeq(ys, key) + [k];
      DedupAppend(KeySeq(ys, key), k);
      var r := GroupInsert(gs, k, x);
      if k in Keys(gs) {
        var j :| 0 <= j < |gs| && Keys(gs)[j] == k;
        forall i | 0 <= i < j ensures gs[i].0 != k {
          assert Keys(gs)[i] == gs[i].0;
          assert Keys(gs)[i] != Keys(gs)[j];
        }
        GroupInsertExisting(gs, j, k, x);
        assert Keys(r) == Keys(gs);
        forall i | 0 <= i < |r| ensures r[i].1 == WithKey(xs, key, r[i].0) {
          WithKeyAppend(ys, x, key, r[i].0);
          if i != j {
            assert Keys(gs)[i] != Keys(gs)[j];
          }
        }
      } else {
        forall i | 0 <= i < |gs| ensures gs[i].0 != k {
          assert Keys(gs)[i] == gs[i].0;
        }
        GroupInsertNew(gs, k, x);
        assert Keys(r) == Keys(gs) + [k];
        forall i | 0 <= i < |r| ensures r[i].1 == WithKey(xs, key, r[i].0) {
          WithKeyAppend(ys, x, key, r[i].0);
          if i == |gs| {
            assert k !in KeySeq(ys, key);
            WithKeyAbsent(ys, key, k);
            assert WithKey(xs, key, k) == [x];
            assert r[i] == (k, [x]);
          } else {
            assert Keys(gs)[i] != k;
            assert r[i] == gs[i];
            assert gs[i].1 == WithKey(ys, key, gs[i].0);
          }
        }
      }
    }
  }

  /** Concatenating the groups gives a permutation of the input. */
  lemma {:induction false} GroupByPermutation<K, T>(xs: seq<T>, key: T -> K)
    ensures multiset(Flatten(GroupBy(xs, key))) == multiset(xs)
  {
    if xs != [] {
      GroupByPermutation(xs[..|xs| - 1], key);
      FlattenGroupInsert(GroupBy(xs[..|xs| - 1], key), key(Last(xs)), Last(xs));
      assert xs == xs[..|xs| - 1] + [Last(xs)];
    }
  }

  lemma {:induction false} FlattenConcat<K, T>(a: seq<(K, seq<T>)>, b: seq<(K, seq<T>)>)
    ensures Flatten(a + b) == Flatten(a) + Flatten(b)
  {
    if a != [] {
      FlattenConcat(a[1..], b);
      assert (a + b)[1..] == a[1..] + b;
    } else {
      assert a + b == b;
    }
  }

  lemma {:induction false} IsSubseqRefl<T>(xs: seq<T>)
    ensures IsSubseq(xs, xs)
  {
    if xs != [] {
      IsSubseqRefl(xs[..|xs| - 1]);
    }
  }

  /** Nested loops that append: `[y for x in xs for y in f(x)]`. */
  function ConcatMap<A, B>(xs: seq<A>, f: A -> seq<B>): seq<B> {
    if xs == [] then [] else f(xs[0]) + ConcatMap(xs[1..], f)
  }

  lemma {:induction false} ConcatMapMembers<A, B>(xs: seq<A>, f: A -> seq<B>)
    ensures forall y :: y in ConcatMap(xs, f) <==> exists a :: a in xs && y in f(a)
  {
    if xs != [] {
      ConcatMapMembers(xs[1..], f);
      assert forall a :: a in xs <==> a == xs[0] || a in xs[1..];
    }
  }

  lemma {:induction false} ConcatMapConcat<A, B>(xs: seq<A>, ys: seq<A>, f: A -> seq<B>)
    ensures ConcatMap(xs + ys, f) == ConcatMap(xs, f) + ConcatMap(ys, f)
  {
    if xs == [] {
      assert xs + ys == ys;
    } else {
      ConcatMapConcat(xs[1..], ys, f);
      assert (xs + ys)[1..] == xs[1..] + ys;
    }
  }

  /** `[f(x) for x in xs]`. */
  function Map<A, B>(xs: seq<A>, f: A -> B): (ys: seq<B>)
    ensures |ys| == |xs|
    ensures forall i :: 0 <= i < |xs| ==> ys[i] == f(xs[i])
  {
    seq(|xs|, i requires 0 <= i < |xs| => f(xs[i]))
  }

  lemma MapMembers<A, B>(xs: seq<A>, f: A -> B)
    ensures forall y :: y in Map(xs, f) <==> exists x :: x in xs && y == f(x)
  {
    forall y | y in Map(xs, f) ensures exists x :: x in xs && y == f(x) {
      var i :| 0 <= i < |xs| && Map(xs, f)[i] == y;
      assert xs[i] in xs;
    }
    forall x | x in xs ensures f(x) in Map(xs, f) {
      var i :| 0 <= i < |xs| && xs[i] == x;
      assert Map(xs, f)[i] == f(x);
    }
  }

  lemma MapConcat<A, B>(xs: seq<A>, ys: seq<A>, f: A -> B)
    ensures Map(xs + ys, f) == Map(xs, f) + Map(ys, f)
  {
  }

  /** Every group of a stable grouping is non-empty. */
  lemma GroupsNonEmpty<K, T>(gs: seq<(K, seq<T>)>, xs: seq<T>, key: T -> K)
    requires GroupedBy(gs, xs, key)
    ensures forall i :: 0 <= i < |gs| ==> gs[i].1 != []
  {
    DedupProperties(KeySeq(xs, key));
    forall i | 0 <= i < |gs| ensures gs[i].1 != [] {
      var k := gs[i].0;
      assert Keys(gs)[i] == k;
      assert k in KeySeq(xs, key);
      var j :| 0 <= j < |xs| && KeySeq(xs, key)[j] == k;
      WithKeyMembers(xs, key, k);
      assert xs[j] in WithKey(xs, key, k);
    }
  }

  /** Permutations have the same length and the same members. */
  lemma SameMultiset<T>(a: seq<T>, b: seq<T>)
    requires multiset(a) == multiset(b)
    ensures |a| == |b|
    ensures forall x :: x in a <==> x in b
  {
    assert |a| == |multiset(a)|;
    forall x ensures x in a <==> x in b {
      assert x in a <==> x in multiset(a);
      assert x in b <==> x in multiset(b);
    }
  }
}
