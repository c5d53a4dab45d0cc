/**
 Sequences under an arbitrary total preorder, which is what `T: Ord` promises:
 elements may compare equal without being the same value, so stability means
 something.
 */
module Ordering {

  ghost predicate TotalPreorder<T(!new)>(le: (T, T) -> bool) {
    && (forall x, y :: le(x, y) || le(y, x))
    && (forall x, y, z :: le(x, y) && le(y, z) ==> le(x, z))
  }

  ghost predicate Sorted<T>(le: (T, T) -> bool, s: seq<T>) {
    forall i, j | 0 <= i < j < |s| :: le(s[i], s[j])
  }

  predicate Same<T>(le: (T, T) -> bool, x: T, y: T) {
    le(x, y) && le(y, x)
  }

  /** The elements comparing equal to `x`, in their order of appearance. */
  ghost function Class<T>(le: (T, T) -> bool, s: seq<T>, x: T): seq<T> {
    if s == [] then [] else (if Same(le, s[0], x) then [s[0]] else []) + Class(le, s[1..], x)
  }

  ghost predicate SameClasses<T(!new)>(le: (T, T) -> bool, s: seq<T>, t: seq<T>) {
    forall x :: Class(le, s, x) == Class(le, t, x)
  }

  lemma {:induction false} ClassConcat<T>(le: (T, T) -> bool, s: seq<T>, t: seq<T>, x: T)
    ensures Class(le, s + t, x) == Class(le, s, x) + Class(le, t, x)
  {
    if s == [] {
      assert s + t == t;
    } else {
      var rest := s[1..];
      assert (s + t)[1..] == rest + t && (s + t)[0] == s[0];
      ClassConcat(le, rest, t, x);
      var head := if Same(le, s[0], x) then [s[0]] else [];
      assert Class(le, s, x) == head + Class(le, rest, x);
      assert Class(le, s + t, x) == head + Class(le, rest + t, x);
    }
  }

  lemma {:induction false} ClassEmpty<T>(le: (T, T) -> bool, s: seq<T>, x: T)
    requires forall i | 0 <= i < |s| :: !Same(le, s[i], x)
    ensures Class(le, s, x) == []
  {
    if s != [] {
      ClassEmpty(le, s[1..], x);
    }
  }

  lemma {:induction false} ClassWithin<T>(le: (T, T) -> bool, s: seq<T>, x: T)
    ensures forall y | y in Class(le, s, x) :: y in s && Same(le, y, x)
  {
    if s != [] {
      ClassWithin(le, s[1..], x);
    }
  }

  /** Equal classes contain every value equally often. */
  lemma {:induction false} ClassCounts<T>(le: (T, T) -> bool, s: seq<T>, x: T)
    requires le(x, x)
    ensures multiset(Class(le, s, x))[x] == multiset(s)[x]
  {
    if s != [] {
      ClassCounts(le, s[1..], x);
      var rest := Class(le, s[1..], x);
      assert s == [s[0]] + s[1..];
      if Same(le, s[0], x) {
        assert multiset([s[0]] + rest)[x] == multiset{s[0]}[x] + multiset(rest)[x];
      } else {
        assert s[0] != x;
      }
    }
  }

  lemma SameClassesPermute<T(!new)>(le: (T, T) -> bool, s: seq<T>, t: seq<T>)
    requires TotalPreorder(le) && SameClasses(le, s, t)
    ensures multiset(s) == multiset(t)
  {
    forall x ensures multiset(s)[x] == multiset(t)[x] {
      ClassCounts(le, s, x);
      ClassCounts(le, t, x);
      assert Class(le, s, x) == Class(le, t, x);
    }
  }

  lemma FirstOfClass<T(!new)>(le: (T, T) -> bool, s: seq<T>, t: seq<T>)
    requires TotalPreorder(le) && Sorted(le, s) && Sorted(le, t) && SameClasses(le, s, t) && s != []
    ensures t != [] && s[0] == t[0]
  {
    var x := s[0];
    assert Class(le, s, x) == Class(le, t, x);
    assert Class(le, s, x)[0] == x;
    ClassWithin(le, t, x);
    assert x in t;
    assert Class(le, s, t[0]) == Class(le, t, t[0]);
    assert t[0] in Class(le, t, t[0]);
    ClassWithin(le, s, t[0]);
    assert le(s[0], t[0]) && le(t[0], s[0]);
    assert Class(le, t, x)[0] == t[0];
  }

  /** There is only one stable way to sort: sortedness and the classes fix the sequence. */
  lemma {:induction false} StableSortUnique<T(!new)>(le: (T, T) -> bool, s: seq<T>, t: seq<T>)
    requires TotalPreorder(le) && Sorted(le, s) && Sorted(le, t) && SameClasses(le, s, t)
    ensures s == t
  {
    if t != [] {
      FirstOfClass(le, t, s);
    }
    if s != [] {
      FirstOfClass(le, s, t);
      forall x ensures Class(le, s[1..], x) == Class(le, t[1..], x) {
        assert Class(le, s, x) == Class(le, t, x);
        var head := if Same(le, s[0], x) then [s[0]] else [];
        assert Class(le, s, x) == head + Class(le, s[1..], x);
        assert Class(le, t, x) == head + Class(le, t[1..], x);
        assert Class(le, s[1..], x) == Class(le, s, x)[|head|..];
      }
      StableSortUnique(le, s[1..], t[1..]);
      assert s == [s[0]] + s[1..] && t == [t[0]] + t[1..];
    }
  }

  // ---- inversions -----------------------------------------------------------

  /** How many elements of `xs` are strictly greater than `y`. */
  ghost function Above<T>(le: (T, T) -> bool, xs: seq<T>, y: T): nat {
    if xs == [] then 0 else (if le(xs[0], y) then 0 else 1) + Above(le, xs[1..], y)
  }

  /** Strict inversions between an earlier piece and a later one. */
  ghost function Cross<T>(le: (T, T) -> bool, xs: seq<T>, ys: seq<T>): nat {
    if ys == [] then 0 else Above(le, xs, ys[0]) + Cross(le, xs, ys[1..])
  }

  /** Strict inversions of a sequence: pairs in the wrong order. */
  ghost function Inversions<T>(le: (T, T) -> bool, s: seq<T>): nat {
    if s == [] then 0
    else Inversions(le, s[..|s| - 1]) + Above(le, s[..|s| - 1], s[|s| - 1])
  }

  ghost function InversionPairs<T>(le: (T, T) -> bool, s: seq<T>): set<(int, int)> {
    set i, j | 0 <= i < j < |s| && !le(s[i], s[j]) :: (i, j)
  }

  ghost function AboveIndices<T>(le: (T, T) -> bool, xs: seq<T>, y: T): set<int> {
    set i | 0 <= i < |xs| && !le(xs[i], y)
  }

  lemma {:induction false} AboveSnoc<T>(le: (T, T) -> bool, xs: seq<T>, x: T, y: T)
    ensures Above(le, xs + [x], y) == Above(le, xs, y) + (if le(x, y) then 0 else 1)
  {
    if xs == [] {
      assert xs + [x] == [x];
    } else {
      assert (xs + [x])[1..] == xs[1..] + [x];
      AboveSnoc(le, xs[1..], x, y);
    }
  }

  ghost function Column(rows: set<int>, j: int): set<(int, int)> {
    set i | i in rows :: (i, j)
  }

  lemma {:induction false} AboveCounts<T>(le: (T, T) -> bool, xs: seq<T>, y: T, j: int)
    ensures Above(le, xs, y) == |Column(AboveIndices(le, xs, y), j)|
  {
    if xs == [] {
      assert Column(AboveIndices(le, xs, y), j) == {};
    } else {
      var n := |xs| - 1;
      AboveCounts(le, xs[..n], y, j);
      assert xs == xs[..n] + [xs[n]];
      AboveSnoc(le, xs[..n], xs[n], y);
      var before := AboveIndices(le, xs[..n], y);
      if le(xs[n], y) {
        assert AboveIndices(le, xs, y) == before;
      } else {
        assert AboveIndices(le, xs, y) == before + {n};
        assert Column(before + {n}, j) == Column(before, j) + {(n, j)};
      }
    }
  }

  lemma PairIn<T>(le: (T, T) -> bool, s: seq<T>, i: int, j: int)
    ensures (i, j) in InversionPairs(le, s) <==> 0 <= i < j < |s| && !le(s[i], s[j])
  {
  }

  lemma ColumnIn(rows: set<int>, n: int, i: int, j: int)
    ensures (i, j) in Column(rows, n) <==> i in rows && j == n
  {
  }

  lemma DisjointSize<T>(all: set<T>, a: set<T>, b: set<T>)
    requires forall x :: x in all <==> x in a || x in b
    requires forall x :: x in a ==> x !in b
    ensures |all| == |a| + |b|
  {
    assert all == a + b && a !! b;
  }

  /** The pairs whose later element is the last one form a column of their own. */
  lemma PairsStep<T>(le: (T, T) -> bool, s: seq<T>)
    requires s != []
    ensures var n := |s| - 1;
      |InversionPairs(le, s)| == |InversionPairs(le, s[..n])| + |Column(AboveIndices(le, s[..n], s[n]), n)|
  {
    var n := |s| - 1;
    var before, rows := InversionPairs(le, s[..n]), AboveIndices(le, s[..n], s[n]);
    var column := Column(rows, n);
    hide InversionPairs, Column;
    forall p
      ensures p in InversionPairs(le, s) <==> p in before || p in column
      ensures p in before ==> p !in column
    {
      assert p == (p.0, p.1);
      PairIn(le, s, p.0, p.1);
      PairIn(le, s[..n], p.0, p.1);
      ColumnIn(rows, n, p.0, p.1);
    }
    DisjointSize(InversionPairs(le, s), before, column);
  }

  lemma InversionsStep<T>(le: (T, T) -> bool, s: seq<T>)
    requires s != []
    ensures Inversions(le, s) == Inversions(le, s[..|s| - 1]) + Above(le, s[..|s| - 1], s[|s| - 1])
  {
  }

  /** The recursive count is the number of index pairs in the wrong order. */
  lemma {:induction false} InversionsCountPairs<T>(le: (T, T) -> bool, s: seq<T>)
    ensures Inversions(le, s) == |InversionPairs(le, s)|
  {
    if s == [] {
      assert InversionPairs(le, s) == {};
    } else {
      hide *;
      var n := |s| - 1;
      InversionsStep(le, s);
      InversionsCountPairs(le, s[..n]);
      AboveCounts(le, s[..n], s[n], n);
      PairsStep(le, s);
    }
  }

  lemma {:induction false} AboveConcat<T>(le: (T, T) -> bool, xs: seq<T>, ys: seq<T>, y: T)
    ensures Above(le, xs + ys, y) == Above(le, xs, y) + Above(le, ys, y)
  {
    if xs == [] {
      assert xs + ys == ys;
    } else {
      assert (xs + ys)[1..] == xs[1..] + ys;
      AboveConcat(le, xs[1..], ys, y);
    }
  }

  lemma {:induction false} CrossSnoc<T>(le: (T, T) -> bool, xs: seq<T>, ys: seq<T>, y: T)
    ensures Cross(le, xs, ys + [y]) == Cross(le, xs, ys) + Above(le, xs, y)
  {
    if ys == [] {
      assert ys + [y] == [y];
    } else {
      assert (ys + [y])[1..] == ys[1..] + [y];
      CrossSnoc(le, xs, ys[1..], y);
    }
  }

  lemma {:induction false} CrossConcat<T>(le: (T, T) -> bool, xs: seq<T>, ys: seq<T>, zs: seq<T>)
    ensures Cross(le, xs, ys + zs) == Cross(le, xs, ys) + Cross(le, xs, zs)
  {
    if ys == [] {
      assert ys + zs == zs;
    } else {
      assert (ys + zs)[1..] == ys[1..] + zs;
      CrossConcat(le, xs, ys[1..], zs);
    }
  }

  lemma {:induction false} CrossConcatLeft<T>(le: (T, T) -> bool, xs: seq<T>, ys: seq<T>, zs: seq<T>)
    ensures Cross(le, xs + ys, zs) == Cross(le, xs, zs) + Cross(le, ys, zs)
  {
    if zs != [] {
      AboveConcat(le, xs, ys, zs[0]);
      CrossConcatLeft(le, xs, ys, zs[1..]);
    }
  }

  lemma {:induction false} InversionsConcat<T>(le: (T, T) -> bool, xs: seq<T>, ys: seq<T>)
    ensures Inversions(le, xs + ys) == Inversions(le, xs) + Inversions(le, ys) + Cross(le, xs, ys)
  {
    if ys == [] {
      assert xs + ys == xs;
    } else {
      var n := |ys| - 1;
      var init, last := ys[..n], ys[n];
      assert ys == init + [last];
      InversionsConcat(le, xs, init);
      assert (xs + ys)[..|xs + ys| - 1] == xs + init;
      AboveConcat(le, xs, init, last);
      CrossSnoc(le, xs, init, last);
    }
  }

  lemma {:induction false} AboveNone<T>(le: (T, T) -> bool, xs: seq<T>, y: T)
    requires forall i | 0 <= i < |xs| :: le(xs[i], y)
    ensures Above(le, xs, y) == 0
  {
    if xs != [] {
      AboveNone(le, xs[1..], y);
    }
  }

  lemma {:induction false} AboveAll<T>(le: (T, T) -> bool, xs: seq<T>, y: T)
    requires forall i | 0 <= i < |xs| :: !le(xs[i], y)
    ensures Above(le, xs, y) == |xs|
  {
    if xs != [] {
      AboveAll(le, xs[1..], y);
    }
  }

  lemma {:induction false} SortedHasNone<T>(le: (T, T) -> bool, s: seq<T>)
    requires Sorted(le, s)
    ensures Inversions(le, s) == 0
  {
    if s != [] {
      var n := |s| - 1;
      SortedHasNone(le, s[..n]);
      AboveNone(le, s[..n], s[n]);
    }
  }
}
