/** Filtering, flattening, the stable sort and histories, which the other modules rely on. */
module Sequences {

  datatype Option<+T> = None | Some(value: T)

  function Min(a: nat, b: nat): nat {
    if a <= b then a else b
  }

  /** The elements of `s` that satisfy `p`, in order. */
  function Keep<T>(s: seq<T>, p: T -> bool): (r: seq<T>)
    ensures forall x :: x in r ==> x in s && p(x)
  {
    if s == [] then []
    else if p(s[|s| - 1]) then Keep(s[..|s| - 1], p) + [s[|s| - 1]]
    else Keep(s[..|s| - 1], p)
  }

  lemma {:induction false} KeepConcat<T>(a: seq<T>, b: seq<T>, p: T -> bool)
    ensures Keep(a + b, p) == Keep(a, p) + Keep(b, p)
  {
    if b == [] {
      assert a + b == a;
    } else {
      KeepConcat(a, b[..|b| - 1], p);
      assert (a + b)[..|a + b| - 1] == a + b[..|b| - 1];
    }
  }

  lemma {:induction false} KeepSnoc<T>(s: seq<T>, x: T, p: T -> bool)
    ensures Keep(s + [x], p) == if p(x) then Keep(s, p) + [x] else Keep(s, p)
  {
    assert (s + [x])[..|s|] == s;
  }

  lemma {:induction false} KeepCommutes<T>(s: seq<T>, p: T -> bool, q: T -> bool)
    ensures Keep(Keep(s, p), q) == Keep(Keep(s, q), p)
  {
    hide Keep;
    if s == [] {
      KeepNothing(p);
      KeepNothing(q);
    } else {
      var front, last := s[..|s| - 1], s[|s| - 1];
      assert s == front + [last];
      KeepCommutes(front, p, q);
      KeepSnoc(front, last, p);
      KeepSnoc(front, last, q);
      KeepSnoc(Keep(front, p), last, q);
      KeepSnoc(Keep(front, q), last, p);
    }
  }

  lemma KeepNothing<T>(p: T -> bool)
    ensures Keep([], p) == []
  {
  }

  lemma {:induction false} KeepOne<T>(x: T, p: T -> bool)
    ensures Keep([x], p) == if p(x) then [x] else []
  {
    assert [x] == [] + [x];
    KeepSnoc([], x, p);
  }

  /** Filtering respects permutation. */
  lemma {:induction false} KeepPermutes<T(!new)>(a: seq<T>, b: seq<T>, p: T -> bool)
    requires multiset(a) == multiset(b)
    ensures multiset(Keep(a, p)) == multiset(Keep(b, p))
  {
    forall x
      ensures multiset(Keep(a, p))[x] == multiset(Keep(b, p))[x]
    {
      KeepCount(a, p, x);
      KeepCount(b, p, x);
    }
    assert multiset(Keep(a, p)) == multiset(Keep(b, p));
  }

  lemma {:induction false} KeepCount<T>(s: seq<T>, p: T -> bool, x: T)
    ensures multiset(Keep(s, p))[x] == if p(x) then multiset(s)[x] else 0
  {
    if s != [] {
      KeepCount(s[..|s| - 1], p, x);
      assert s == s[..|s| - 1] + [s[|s| - 1]];
    }
  }

  // ----- Flattening -----

  /** Rust's `flat_map`. */
  function FlatMap<A, B>(s: seq<A>, f: A -> seq<B>): seq<B> {
    if s == [] then [] else FlatMap(s[..|s| - 1], f) + f(s[|s| - 1])
  }

  lemma {:induction false} FlatMapSnoc<A, B>(s: seq<A>, x: A, f: A -> seq<B>)
    ensures FlatMap(s + [x], f) == FlatMap(s, f) + f(x)
    ensures FlatMap([x], f) == f(x)
  {
    assert (s + [x])[..|s|] == s;
    assert [x][..0] == [];
  }

  lemma {:induction false} FlatMapConcat<A, B>(a: seq<A>, b: seq<A>, f: A -> seq<B>)
    ensures FlatMap(a + b, f) == FlatMap(a, f) + FlatMap(b, f)
  {
    hide FlatMap;
    if b == [] {
      assert a + b == a;
      FlatMapNothing(b, f);
    } else {
      var front, last := b[..|b| - 1], b[|b| - 1];
      FlatMapConcat(a, front, f);
      FlatMapSnoc(front, last, f);
      FlatMapSnoc(a + front, last, f);
      assert b == front + [last] && a + b == (a + front) + [last];
    }
  }

  /** Two passes are one when they agree element by element. */
  lemma {:induction false} Fusion<A, B, C>(s: seq<A>, f: A -> seq<B>, g: B -> seq<C>, h: A -> seq<C>)
    requires forall x :: x in s ==> FlatMap(f(x), g) == h(x)
    ensures FlatMap(FlatMap(s, f), g) == FlatMap(s, h)
  {
    hide FlatMap;
    if s == [] {
      FlatMapNothing(s, f);
      FlatMapNothing(s, h);
      FlatMapNothing(FlatMap(s, f), g);
    } else {
      var front, last := s[..|s| - 1], s[|s| - 1];
      assert s == front + [last];
      Fusion(front, f, g, h);
      FlatMapSnoc(front, last, f);
      FlatMapSnoc(front, last, h);
      FlatMapConcat(FlatMap(front, f), f(last), g);
    }
  }

  lemma {:induction false} FlatMapIdentity<A>(s: seq<A>, f: A -> seq<A>)
    requires forall x :: x in s ==> f(x) == [x]
    ensures FlatMap(s, f) == s
  {
    if s != [] {
      FlatMapIdentity(s[..|s| - 1], f);
    }
  }

  lemma {:induction false} FlatMapNothing<A, B>(s: seq<A>, f: A -> seq<B>)
    requires forall x :: x in s ==> f(x) == []
    ensures FlatMap(s, f) == []
  {
    if s != [] {
      FlatMapNothing(s[..|s| - 1], f);
    }
  }

  // ----- Sorting -----

  ghost predicate Sorted<T>(s: seq<T>, key: T -> int) {
    forall i, j :: 0 <= i < j < |s| ==> key(s[i]) <= key(s[j])
  }

  function HasKey<T>(key: T -> int, k: int): T -> bool {
    y => key(y) == k
  }

  function Insert<T>(x: T, s: seq<T>, key: T -> int): (r: seq<T>) {
    if s == [] || key(x) <= key(s[0]) then [x] + s
    else [s[0]] + Insert(x, s[1..], key)
  }

  /** Rust's `sort_by_key`: ascending keys, equal keys keep their order. */
  function SortByKey<T>(s: seq<T>, key: T -> int): (r: seq<T>) {
    if s == [] then [] else Insert(s[0], SortByKey(s[1..], key), key)
  }

  lemma {:induction false} InsertPermutes<T>(x: T, s: seq<T>, key: T -> int)
    ensures multiset(Insert(x, s, key)) == multiset([x] + s)
  {
    if s != [] && key(x) > key(s[0]) {
      InsertPermutes(x, s[1..], key);
      assert s == [s[0]] + s[1..];
    }
  }

  lemma {:induction false} InsertSorted<T>(x: T, s: seq<T>, key: T -> int)
    requires Sorted(s, key)
    ensures Sorted(Insert(x, s, key), key)
  {
    if s != [] && key(x) > key(s[0]) {
      InsertSorted(x, s[1..], key);
      InsertPermutes(x, s[1..], key);
      var t := Insert(x, s[1..], key);
      forall i | 0 <= i < |t|
        ensures key(s[0]) <= key(t[i])
      {
        assert t[i] in multiset(t);
        assert t[i] in multiset([x] + s[1..]);
        assert t[i] == x || t[i] in s[1..];
      }
    }
  }

  /** Inserting never moves `x` past an element with the same key. */
  lemma {:induction false} InsertStable<T>(x: T, s: seq<T>, key: T -> int, k: int)
    ensures Keep(Insert(x, s, key), HasKey(key, k)) == Keep([x] + s, HasKey(key, k))
  {
    hide Keep;
    var p := HasKey(key, k);
    if s != [] && key(x) > key(s[0]) {
      var head, tail := [s[0]], s[1..];
      InsertStable(x, tail, key, k);
      KeepConcat(head, Insert(x, tail, key), p);
      KeepConcat([x], tail, p);
      KeepConcat([x], s, p);
      assert s == head + tail;
      KeepConcat(head, tail, p);
      KeepOne(x, p);
      KeepOne(s[0], p);
    }
  }

  /** The sort is an ascending permutation that keeps the order of equal keys: these three
      clauses determine the result. */
  lemma {:induction false} SortIsStableSort<T>(s: seq<T>, key: T -> int)
    ensures Sorted(SortByKey(s, key), key)
    ensures multiset(SortByKey(s, key)) == multiset(s)
    ensures forall k :: Keep(SortByKey(s, key), HasKey(key, k)) == Keep(s, HasKey(key, k))
  {
    if s != [] {
      var rest := SortByKey(s[1..], key);
      SortIsStableSort(s[1..], key);
      InsertSorted(s[0], rest, key);
      InsertPermutes(s[0], rest, key);
      assert s == [s[0]] + s[1..];
      forall k
        ensures Keep(SortByKey(s, key), HasKey(key, k)) == Keep(s, HasKey(key, k))
      {
        InsertStable(s[0], rest, key, k);
        KeepConcat([s[0]], rest, HasKey(key, k));
        KeepConcat([s[0]], s[1..], HasKey(key, k));
      }
    }
  }

  /** Sorting is invisible exactly on input that is already ascending. */
  lemma {:induction false} SortFixesExactlySorted<T>(s: seq<T>, key: T -> int)
    ensures SortByKey(s, key) == s <==> Sorted(s, key)
  {
    SortIsStableSort(s, key);
    if Sorted(s, key) {
      SortOfSorted(s, key);
    }
  }

  lemma {:induction false} SortOfSorted<T>(s: seq<T>, key: T -> int)
    requires Sorted(s, key)
    ensures SortByKey(s, key) == s
  {
    if s != [] {
      SortOfSorted(s[1..], key);
      assert s == [s[0]] + s[1..];
    }
  }

  // ----- Histories -----

  /** At some point before `i` there was a `hit`, and no `reset` after it. */
  ghost predicate Since<T(!new)>(s: seq<T>, i: nat, hit: T -> bool, reset: T -> bool) {
    exists u: nat :: SinceAt(s, u, i, hit, reset)
  }

  ghost predicate SinceAt<T>(s: seq<T>, u: nat, i: nat, hit: T -> bool, reset: T -> bool) {
    u < i <= |s| && hit(s[u]) && forall j :: u < j < i ==> !reset(s[j])
  }

  lemma {:induction false} SinceStep<T(!new)>(s: seq<T>, i: nat, hit: T -> bool, reset: T -> bool)
    requires i < |s|
    ensures Since(s, i + 1, hit, reset) <==> hit(s[i]) || (!reset(s[i]) && Since(s, i, hit, reset))
  {
    if hit(s[i]) {
      assert SinceAt(s, i, i + 1, hit, reset);
    } else if Since(s, i + 1, hit, reset) {
      var u: nat :| SinceAt(s, u, i + 1, hit, reset);
      assert u < i;
      assert SinceAt(s, u, i, hit, reset);
    } else if !reset(s[i]) && Since(s, i, hit, reset) {
      var u: nat :| SinceAt(s, u, i, hit, reset);
      assert SinceAt(s, u, i + 1, hit, reset);
    }
  }
}
