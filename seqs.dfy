// Sequence helpers shared by the instance, encoder and audit models: the
// nested-loop enumeration (FlatMap), Python's range, sum, sorted and the
// sorted intersection of two index tuples.
module Seqs {

  /** A value, or nothing where the program raises instead of returning one. */
  datatype Option<T> = None | Some(value: T)

  /** Concatenation of f(x) for x in s, in order: a `for x in s: for ...` loop nest. */
  function FlatMap<T, U>(s: seq<T>, f: T -> seq<U>): seq<U>
  {
    if s == [] then [] else f(s[0]) + FlatMap(s[1..], f)
  }

  lemma {:induction false} FlatMapAppend<T, U>(s1: seq<T>, s2: seq<T>, f: T -> seq<U>)
    ensures FlatMap(s1 + s2, f) == FlatMap(s1, f) + FlatMap(s2, f)
  {
    if s1 == [] {
      assert s1 + s2 == s2;
    } else {
      assert (s1 + s2)[1..] == s1[1..] + s2;
      FlatMapAppend(s1[1..], s2, f);
    }
  }

  /** One more iteration of the outer loop appends f(s[p]). */
  lemma FlatMapStep<T, U>(s: seq<T>, p: nat, f: T -> seq<U>)
    requires p < |s|
    ensures FlatMap(s[..p + 1], f) == FlatMap(s[..p], f) + f(s[p])
  {
    assert s[..p + 1] == s[..p] + [s[p]];
    FlatMapAppend(s[..p], [s[p]], f);
    assert FlatMap([s[p]], f) == f(s[p]) + FlatMap([], f);
  }

  lemma {:induction false} FlatMapMember<T, U>(s: seq<T>, f: T -> seq<U>, u: U)
    ensures u in FlatMap(s, f) <==> exists x :: x in s && u in f(x)
  {
    if s != [] {
      FlatMapMember(s[1..], f, u);
      assert forall x :: x in s <==> x == s[0] || x in s[1..];
    }
  }

  /** Every x in s contributes an element count of `len`. */
  lemma {:induction false} FlatMapUniformLength<T, U>(s: seq<T>, f: T -> seq<U>, len: nat)
    requires forall x | x in s :: |f(x)| == len
    ensures |FlatMap(s, f)| == |s| * len
  {
    if s != [] {
      FlatMapUniformLength(s[1..], f, len);
      assert |s| * len == len + (|s| - 1) * len;
    }
  }

  lemma {:induction false} FlatMapNil<T, U>(s: seq<T>, f: T -> seq<U>)
    requires forall x | x in s :: f(x) == []
    ensures FlatMap(s, f) == []
  {
    if s != [] {
      FlatMapNil(s[1..], f);
    }
  }

  /** Python's range(lo, hi). */
  function Range(lo: int, hi: int): (r: seq<int>)
    ensures |r| == if lo < hi then hi - lo else 0
    ensures forall p | 0 <= p < |r| :: r[p] == lo + p
  {
    if lo < hi then seq(hi - lo, p => lo + p) else []
  }

  lemma RangeMember(lo: int, hi: int, x: int)
    ensures x in Range(lo, hi) <==> lo <= x < hi
  {
    if lo <= x < hi {
      assert Range(lo, hi)[x - lo] == x;
    }
  }

  lemma RangeStep(lo: int, hi: int)
    requires lo <= hi
    ensures Range(lo, hi + 1) == Range(lo, hi) + [hi]
  {
  }

  /** Python's sum over a finite sequence of numbers (exact, on reals). */
  function Sum(s: seq<real>): real
  {
    if s == [] then 0.0 else Sum(s[..|s| - 1]) + s[|s| - 1]
  }

  lemma {:induction false} SumAppend(s1: seq<real>, s2: seq<real>)
    ensures Sum(s1 + s2) == Sum(s1) + Sum(s2)
  {
    if s2 != [] {
      assert (s1 + s2)[..|s1 + s2| - 1] == s1 + s2[..|s2| - 1];
      SumAppend(s1, s2[..|s2| - 1]);
    } else {
      assert s1 + s2 == s1;
    }
  }

  function Get<K, V>(m: map<K, V>, k: K, default: V): V
  {
    if k in m then m[k] else default
  }

  function Elems<T>(s: seq<T>): set<T>
  {
    set x | x in s
  }

  predicate Sorted(s: seq<int>)
  {
    forall p, q | 0 <= p < q < |s| :: s[p] <= s[q]
  }

  predicate StrictlyIncreasing(s: seq<int>)
  {
    forall p, q | 0 <= p < q < |s| :: s[p] < s[q]
  }

  predicate Distinct<T(==)>(s: seq<T>)
  {
    forall p, q | 0 <= p < q < |s| :: s[p] != s[q]
  }

  function Insert(x: int, s: seq<int>): (r: seq<int>)
    requires Sorted(s)
    ensures Sorted(r) && multiset(r) == multiset(s) + multiset{x}
  {
    if s == [] then [x]
    else if x <= s[0] then
      SortedCons(x, s);
      [x] + s
    else
      assert s == [s[0]] + s[1..];
      var rest := Insert(x, s[1..]);
      LowerBound(s[0], rest, multiset(s[1..]) + multiset{x});
      SortedCons(s[0], rest);
      [s[0]] + rest
  }

  lemma SortedCons(h: int, s: seq<int>)
    requires Sorted(s) && (s == [] || h <= s[0])
    ensures Sorted([h] + s)
  {
  }

  /** A sequence whose elements all sit above h in a sorted sequence's multiset starts at h or above. */
  lemma LowerBound(h: int, r: seq<int>, m: multiset<int>)
    requires multiset(r) == m && forall y | y in m :: h <= y
    ensures r == [] || h <= r[0]
  {
    if r != [] {
      assert r[0] in multiset(r);
    }
  }

  /** Python's tuple(sorted(values)): ascending, duplicates kept. */
  function SortedTuple(s: seq<int>): (r: seq<int>)
    ensures Sorted(r) && multiset(r) == multiset(s)
  {
    if s == [] then []
    else
      assert s == [s[0]] + s[1..];
      Insert(s[0], SortedTuple(s[1..]))
  }

  /** Drops repeated neighbours of a sorted sequence. */
  function Dedup(s: seq<int>): (r: seq<int>)
    requires Sorted(s)
    ensures StrictlyIncreasing(r) && Elems(r) == Elems(s)
    ensures r != [] ==> s != [] && r[0] == s[0]
  {
    if |s| <= 1 then s
    else
      var rest := Dedup(s[1..]);
      assert Elems(s) == {s[0]} + Elems(s[1..]) by {
        assert s == [s[0]] + s[1..];
      }
      if s[0] == s[1] then rest else [s[0]] + rest
  }

  function Filter(xs: seq<int>, keep: set<int>): (r: seq<int>)
    ensures Elems(r) == Elems(xs) * keep
  {
    if xs == [] then []
    else
      assert Elems(xs) == {xs[0]} + Elems(xs[1..]) by {
        assert xs == [xs[0]] + xs[1..];
      }
      var head := if xs[0] in keep then [xs[0]] else [];
      var rest := Filter(xs[1..], keep);
      assert Elems(head + rest) == Elems(head) + Elems(rest);
      head + rest
  }

  lemma MultisetElems(r: seq<int>, s: seq<int>)
    requires multiset(r) == multiset(s)
    ensures Elems(r) == Elems(s)
  {
    forall x ensures x in Elems(r) <==> x in Elems(s) {
      assert x in r <==> x in multiset(r);
      assert x in s <==> x in multiset(s);
    }
  }

  /** Python's sorted(set(xs) & set(ys)). */
  function SortedIntersection(xs: seq<int>, ys: seq<int>): (r: seq<int>)
    ensures StrictlyIncreasing(r)
    ensures Elems(r) == Elems(xs) * Elems(ys)
  {
    var both := Filter(xs, Elems(ys));
    MultisetElems(SortedTuple(both), both);
    Dedup(SortedTuple(both))
  }

  /** A strictly increasing sequence lists each of its elements once. */
  lemma {:induction false} IncreasingCard(s: seq<int>)
    requires StrictlyIncreasing(s)
    ensures |Elems(s)| == |s|
  {
    if s != [] {
      var init := s[..|s| - 1];
      var last := s[|s| - 1];
      assert StrictlyIncreasing(init);
      IncreasingCard(init);
      assert last !in Elems(init) by {
        forall q | 0 <= q < |init| ensures init[q] != last {
          assert init[q] == s[q] < s[|s| - 1];
        }
      }
      assert s == init + [last];
      assert Elems(s) == Elems(init) + {last};
    }
  }

  /** Python's max(xs) of a nonempty sequence. */
  function Max(xs: seq<int>): (m: int)
    requires xs != []
    ensures m in xs && forall x | x in xs :: x <= m
  {
    if |xs| == 1 then xs[0]
    else
      var rest := Max(xs[1..]);
      assert forall x | x in xs :: x == xs[0] || x in xs[1..];
      if xs[0] > rest then xs[0] else rest
  }
}
