/** Shared vocabulary: failure types, machine integers and the sequence folds that the models are specified with. */
module Prelude {

  datatype Option<+T> = None | Some(value: T)

  datatype Result<+T, +E> = Ok(value: T) | Err(error: E)

  const TWO_63: int := 0x8000_0000_0000_0000
  const TWO_64: int := 0x1_0000_0000_0000_0000

  type U64 = x: int | 0 <= x < TWO_64

  function Max(a: int, b: int): int {
    if a < b then b else a
  }

  function Min(a: int, b: int): int {
    if a < b then a else b
  }

  function Clamp(x: int, lo: int, hi: int): (r: int)
    requires lo <= hi
    ensures lo <= r <= hi
  {
    if x < lo then lo else if hi < x then hi else x
  }

  ghost predicate Distinct<A>(s: seq<A>) {
    forall i, j | 0 <= i < j < |s| :: s[i] != s[j]
  }

  function Sum(s: seq<int>): int {
    if s == [] then 0 else Sum(s[..|s| - 1]) + s[|s| - 1]
  }

  lemma SumStep(s: seq<int>, n: nat)
    requires n < |s|
    ensures Sum(s[..n + 1]) == Sum(s[..n]) + s[n]
  {
    assert s[..n + 1][..n] == s[..n];
  }

  /** The pieces f(s[0]), f(s[1]), ... laid end to end. */
  function FlatMap<A, B>(f: A -> seq<B>, s: seq<A>): seq<B> {
    if s == [] then [] else FlatMap(f, s[..|s| - 1]) + f(s[|s| - 1])
  }

  lemma {:induction false} FlatMapConcat<A, B>(f: A -> seq<B>, a: seq<A>, b: seq<A>)
    ensures FlatMap(f, a + b) == FlatMap(f, a) + FlatMap(f, b)
  {
    if b == [] {
      assert a + b == a;
    } else {
      FlatMapConcat(f, a, b[..|b| - 1]);
      assert (a + b)[..|a + b| - 1] == a + b[..|b| - 1];
    }
  }

  lemma FlatMapStep<A, B>(f: A -> seq<B>, s: seq<A>, n: nat)
    requires n < |s|
    ensures FlatMap(f, s[..n + 1]) == FlatMap(f, s[..n]) + f(s[n])
  {
    assert s[..n + 1][..n] == s[..n];
  }

  lemma {:induction false} FlatMapEmpty<A, B>(f: A -> seq<B>, s: seq<A>)
    ensures FlatMap(f, s) == [] <==> forall x | x in s :: f(x) == []
  {
    if s != [] {
      FlatMapEmpty(f, s[..|s| - 1]);
      assert s == s[..|s| - 1] + [s[|s| - 1]];
    }
  }

  lemma {:induction false} FlatMapMembers<A, B>(f: A -> seq<B>, s: seq<A>, y: B)
    ensures y in FlatMap(f, s) <==> exists x | x in s :: y in f(x)
  {
    if s != [] {
      FlatMapMembers(f, s[..|s| - 1], y);
      assert s == s[..|s| - 1] + [s[|s| - 1]];
    }
  }

  /** Removing one occurrence of x from a sequence that has one. */
  lemma SplitAt<A>(s: seq<A>, x: A) returns (left: seq<A>, right: seq<A>)
    requires x in s
    ensures s == left + [x] + right
    ensures multiset(left + right) == multiset(s) - multiset{x}
  {
    var k :| 0 <= k < |s| && s[k] == x;
    left, right := s[..k], s[k + 1..];
    assert s == left + [x] + right;
    assert multiset(s) == multiset(left) + multiset{x} + multiset(right);
  }

  lemma {:induction false} FlatMapPermutation<A, B>(f: A -> seq<B>, a: seq<A>, b: seq<A>)
    requires multiset(a) == multiset(b)
    ensures multiset(FlatMap(f, a)) == multiset(FlatMap(f, b))
    decreases |a|
  {
    if a == [] {
      assert |multiset(b)| == 0;
      assert b == [];
    } else {
      var init, x := a[..|a| - 1], a[|a| - 1];
      assert a == init + [x];
      assert x in multiset(b);
      var left, right := SplitAt(b, x);
      assert multiset(init) == multiset(a) - multiset{x};
      FlatMapPermutation(f, init, left + right);
      FlatMapConcat(f, left, right);
      FlatMapConcat(f, left + [x], right);
      FlatMapConcat(f, left, [x]);
      assert FlatMap(f, [x]) == f(x);
    }
  }

  function CountIf<A>(p: A -> bool, s: seq<A>): nat {
    if s == [] then 0 else CountIf(p, s[..|s| - 1]) + if p(s[|s| - 1]) then 1 else 0
  }

  lemma {:induction false} CountIfConcat<A>(p: A -> bool, a: seq<A>, b: seq<A>)
    ensures CountIf(p, a + b) == CountIf(p, a) + CountIf(p, b)
  {
    if b == [] {
      assert a + b == a;
    } else {
      CountIfConcat(p, a, b[..|b| - 1]);
      assert (a + b)[..|a + b| - 1] == a + b[..|b| - 1];
    }
  }

  lemma CountIfStep<A>(p: A -> bool, s: seq<A>, n: nat)
    requires n < |s|
    ensures CountIf(p, s[..n + 1]) == CountIf(p, s[..n]) + if p(s[n]) then 1 else 0
  {
    assert s[..n + 1][..n] == s[..n];
  }

  lemma {:induction false} CountIfBounds<A>(p: A -> bool, s: seq<A>)
    ensures CountIf(p, s) <= |s|
    ensures CountIf(p, s) == 0 <==> forall x | x in s :: !p(x)
  {
    if s != [] {
      CountIfBounds(p, s[..|s| - 1]);
      assert s == s[..|s| - 1] + [s[|s| - 1]];
    }
  }

  lemma {:induction false} CountIfAll<A>(p: A -> bool, s: seq<A>)
    requires forall x | x in s :: p(x)
    ensures CountIf(p, s) == |s|
  {
    if s != [] {
      CountIfAll(p, s[..|s| - 1]);
    }
  }

  lemma {:induction false} CountIfPermutation<A>(p: A -> bool, a: seq<A>, b: seq<A>)
    requires multiset(a) == multiset(b)
    ensures CountIf(p, a) == CountIf(p, b)
    decreases |a|
  {
    if a == [] {
      assert |multiset(b)| == 0;
      assert b == [];
    } else {
      var init, x := a[..|a| - 1], a[|a| - 1];
      assert a == init + [x];
      assert x in multiset(b);
      var left, right := SplitAt(b, x);
      assert multiset(init) == multiset(a) - multiset{x};
      CountIfPermutation(p, init, left + right);
      CountIfConcat(p, left, right);
      CountIfConcat(p, left + [x], right);
      CountIfConcat(p, left, [x]);
      assert CountIf(p, [x]) == if p(x) then 1 else 0;
    }
  }

  /** The elements that satisfy p, in their original order. */
  function Filter<A>(p: A -> bool, s: seq<A>): seq<A> {
    if s == [] then [] else Filter(p, s[..|s| - 1]) + if p(s[|s| - 1]) then [s[|s| - 1]] else []
  }

  lemma FilterStep<A>(p: A -> bool, s: seq<A>, n: nat)
    requires n < |s|
    ensures Filter(p, s[..n + 1]) == Filter(p, s[..n]) + if p(s[n]) then [s[n]] else []
  {
    assert s[..n + 1][..n] == s[..n];
  }

  lemma FilterSnoc<A>(p: A -> bool, s: seq<A>, x: A)
    ensures Filter(p, s + [x]) == Filter(p, s) + if p(x) then [x] else []
  {
    assert (s + [x])[..|s|] == s;
  }

  lemma {:induction false} FilterMembers<A>(p: A -> bool, s: seq<A>)
    ensures forall x :: x in Filter(p, s) <==> x in s && p(x)
  {
    if s != [] {
      FilterMembers(p, s[..|s| - 1]);
      assert s == s[..|s| - 1] + [s[|s| - 1]];
    }
  }

  lemma {:induction false} FilterConcat<A>(p: A -> bool, a: seq<A>, b: seq<A>)
    ensures Filter(p, a + b) == Filter(p, a) + Filter(p, b)
  {
    if b == [] {
      assert a + b == a;
    } else {
      FilterConcat(p, a, b[..|b| - 1]);
      assert (a + b)[..|a + b| - 1] == a + b[..|b| - 1];
    }
  }

  /** A sequence without repeats is as long as its set of elements. */
  lemma {:induction false} DistinctSize<A>(s: seq<A>)
    requires Distinct(s)
    ensures |set x | x in s| == |s|
  {
    if s != [] {
      var init, x := s[..|s| - 1], s[|s| - 1];
      DistinctSize(init);
      assert (set y | y in s) == (set y | y in init) + {x};
    }
  }
}
