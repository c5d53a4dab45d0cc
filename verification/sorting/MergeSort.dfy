/**
 In-place bottom-up merge sort and its three merges: by rotation, by a chain of
 swaps, and into a new sequence.  All three are proved against one merge function.
 */
module MergeSort {
  import opened Collections
  import opened Ordering

  /** Stable two-way merge: ties go to the left piece. */
  ghost function Merge<T>(le: (T, T) -> bool, xs: seq<T>, ys: seq<T>): (r: seq<T>)
    ensures |r| == |xs| + |ys|
    decreases |xs| + |ys|
  {
    if xs == [] then ys
    else if ys == [] then xs
    else if le(xs[0], ys[0]) then [xs[0]] + Merge(le, xs[1..], ys)
    else [ys[0]] + Merge(le, xs, ys[1..])
  }

  lemma MergeNothing<T>(le: (T, T) -> bool, xs: seq<T>, ys: seq<T>)
    requires xs == [] || ys == []
    ensures Merge(le, xs, ys) == xs + ys
  {
  }

  lemma MergeLeft<T>(le: (T, T) -> bool, xs: seq<T>, ys: seq<T>)
    requires xs != [] && ys != [] && le(xs[0], ys[0])
    ensures Merge(le, xs, ys) == [xs[0]] + Merge(le, xs[1..], ys)
  {
  }

  lemma MergeRight<T>(le: (T, T) -> bool, xs: seq<T>, ys: seq<T>)
    requires xs != [] && ys != [] && !le(xs[0], ys[0])
    ensures Merge(le, xs, ys) == [ys[0]] + Merge(le, xs, ys[1..])
  {
  }

  // ---- what merging two sorted pieces achieves --------------------------------

  lemma FirstInFront<T>(x: T, s: seq<T>)
    ensures multiset([x] + s) == multiset{x} + multiset(s)
  {
  }

  lemma {:induction false} MergeElements<T>(le: (T, T) -> bool, xs: seq<T>, ys: seq<T>)
    ensures multiset(Merge(le, xs, ys)) == multiset(xs) + multiset(ys)
    decreases |xs| + |ys|
  {
    if xs != [] && ys != [] {
      if le(xs[0], ys[0]) {
        MergeElements(le, xs[1..], ys);
        FirstAndRest(xs);
        FirstInFront(xs[0], Merge(le, xs[1..], ys));
      } else {
        MergeElements(le, xs, ys[1..]);
        FirstAndRest(ys);
        FirstInFront(ys[0], Merge(le, xs, ys[1..]));
      }
    }
  }

  /** Putting a lower bound in front keeps a sequence sorted. */
  lemma ConsSorted<T>(le: (T, T) -> bool, x: T, s: seq<T>, xs: seq<T>, ys: seq<T>)
    requires Sorted(le, s) && multiset(s) == multiset(xs) + multiset(ys)
    requires forall y | y in xs || y in ys :: le(x, y)
    ensures Sorted(le, [x] + s)
  {
    forall i | 0 <= i < |s| ensures le(x, s[i]) {
      assert s[i] in multiset(s);
      assert s[i] in xs || s[i] in ys;
    }
  }

  lemma {:induction false} MergeSorted<T(!new)>(le: (T, T) -> bool, xs: seq<T>, ys: seq<T>)
    requires TotalPreorder(le) && Sorted(le, xs) && Sorted(le, ys)
    ensures Sorted(le, Merge(le, xs, ys))
    decreases |xs| + |ys|
  {
    if xs != [] && ys != [] {
      if le(xs[0], ys[0]) {
        MergeSorted(le, xs[1..], ys);
        MergeElements(le, xs[1..], ys);
        ConsSorted(le, xs[0], Merge(le, xs[1..], ys), xs[1..], ys);
      } else {
        MergeSorted(le, xs, ys[1..]);
        MergeElements(le, xs, ys[1..]);
        ConsSorted(le, ys[0], Merge(le, xs, ys[1..]), xs, ys[1..]);
      }
    }
  }

  lemma SortedTail<T>(le: (T, T) -> bool, s: seq<T>)
    requires Sorted(le, s) && s != []
    ensures Sorted(le, s[1..])
  {
  }

  /** Merging sorted pieces keeps every class in order: left piece first, then the right one. */
  lemma {:induction false} MergeStable<T(!new)>(le: (T, T) -> bool, xs: seq<T>, ys: seq<T>, x: T)
    requires TotalPreorder(le) && Sorted(le, xs) && Sorted(le, ys)
    ensures Class(le, Merge(le, xs, ys), x) == Class(le, xs, x) + Class(le, ys, x)
    decreases |xs| + |ys|
  {
    hide *;
    if xs == [] || ys == [] {
      MergeNothing(le, xs, ys);
      ClassConcat(le, xs, ys, x);
    } else if le(xs[0], ys[0]) {
      MergeLeft(le, xs, ys);
      SortedTail(le, xs);
      MergeStable(le, xs[1..], ys, x);
      LeftInFront(le, xs, Merge(le, xs[1..], ys), Class(le, ys, x), x);
    } else {
      MergeRight(le, xs, ys);
      SortedTail(le, ys);
      MergeStable(le, xs, ys[1..], x);
      if Same(le, ys[0], x) {
        RightIsBelow(le, xs, ys[0], x);
      }
      RightInFront(le, xs, ys, Merge(le, xs, ys[1..]), x);
    }
  }

  lemma FirstSplits<T>(s: seq<T>)
    requires s != []
    ensures s == [s[0]] + s[1..]
  {
  }

  lemma LeftInFront<T>(le: (T, T) -> bool, xs: seq<T>, rest: seq<T>, right: seq<T>, x: T)
    requires xs != [] && Class(le, rest, x) == Class(le, xs[1..], x) + right
    ensures Class(le, [xs[0]] + rest, x) == Class(le, xs, x) + right
  {
    hide *;
    var first := Class(le, [xs[0]], x);
    FirstSplits(xs);
    ClassConcat(le, [xs[0]], rest, x);
    ClassConcat(le, [xs[0]], xs[1..], x);
    assert first + (Class(le, xs[1..], x) + right) == (first + Class(le, xs[1..], x)) + right;
  }

  lemma OneClass<T>(le: (T, T) -> bool, y: T, x: T)
    requires !Same(le, y, x)
    ensures Class(le, [y], x) == []
  {
    ClassEmpty(le, [y], x);
  }

  lemma RightInFront<T>(le: (T, T) -> bool, xs: seq<T>, ys: seq<T>, rest: seq<T>, x: T)
    requires ys != [] && Class(le, rest, x) == Class(le, xs, x) + Class(le, ys[1..], x)
    requires Same(le, ys[0], x) ==> Class(le, xs, x) == []
    ensures Class(le, [ys[0]] + rest, x) == Class(le, xs, x) + Class(le, ys, x)
  {
    hide *;
    var first, left, right := Class(le, [ys[0]], x), Class(le, xs, x), Class(le, ys[1..], x);
    FirstSplits(ys);
    ClassConcat(le, [ys[0]], rest, x);
    ClassConcat(le, [ys[0]], ys[1..], x);
    if Same(le, ys[0], x) {
      assert first + ([] + right) == [] + (first + right);
    } else {
      OneClass(le, ys[0], x);
      assert [] + (left + right) == left + ([] + right);
    }
  }

  /** Where the right piece goes first, its element's class is absent from the left piece. */
  lemma RightIsBelow<T(!new)>(le: (T, T) -> bool, xs: seq<T>, y: T, x: T)
    requires TotalPreorder(le) && Sorted(le, xs) && xs != [] && !le(xs[0], y) && Same(le, y, x)
    ensures Class(le, xs, x) == []
  {
    forall i | 0 <= i < |xs| ensures !Same(le, xs[i], x) {
      var z := xs[i];
      assert le(xs[0], z);
      assert le(z, x) && le(x, y) ==> le(z, y);
    }
    ClassEmpty(le, xs, x);
  }

  lemma SplitAround<T>(t: seq<T>, i: nat)
    requires i < |t|
    ensures t == t[..i] + ([t[i]] + t[i + 1..])
  {
  }

  lemma WithoutOne<T>(t: seq<T>, i: nat)
    requires i < |t|
    ensures multiset(t) == multiset{t[i]} + multiset(t[..i] + t[i + 1..])
  {
    var a, b := t[..i], t[i + 1..];
    SplitAround(t, i);
    assert multiset(a + ([t[i]] + b)) == multiset(a) + (multiset{t[i]} + multiset(b));
  }

  lemma Cancel<T>(x: T, a: multiset<T>, b: multiset<T>)
    requires multiset{x} + a == multiset{x} + b
    ensures a == b
  {
    assert a == (multiset{x} + a) - multiset{x};
    assert b == (multiset{x} + b) - multiset{x};
  }

  lemma RemoveOne<T>(s: seq<T>, t: seq<T>) returns (i: nat)
    requires multiset(s) == multiset(t) && s != []
    ensures i < |t| && t[i] == s[0]
    ensures t == t[..i] + ([t[i]] + t[i + 1..])
    ensures multiset(s[1..]) == multiset(t[..i] + t[i + 1..])
  {
    assert s[0] in multiset(t);
    i :| 0 <= i < |t| && t[i] == s[0];
    SplitAround(t, i);
    WithoutOne(t, i);
    FirstAndRest(s);
    Cancel(s[0], multiset(s[1..]), multiset(t[..i] + t[i + 1..]));
  }

  lemma {:induction false} AbovePermutes<T>(le: (T, T) -> bool, s: seq<T>, t: seq<T>, y: T)
    requires multiset(s) == multiset(t)
    ensures Above(le, s, y) == Above(le, t, y)
  {
    if s == [] {
      assert |t| == |multiset(t)| == 0;
    } else {
      var i := RemoveOne(s, t);
      var rest := t[..i] + t[i + 1..];
      AbovePermutes(le, s[1..], rest, y);
      AboveConcat(le, t[..i], t[i + 1..], y);
      AboveConcat(le, t[..i], [t[i]] + t[i + 1..], y);
      AboveConcat(le, [t[i]], t[i + 1..], y);
    }
  }

  lemma {:induction false} CrossPermutesLeft<T>(le: (T, T) -> bool, s: seq<T>, t: seq<T>, ys: seq<T>)
    requires multiset(s) == multiset(t)
    ensures Cross(le, s, ys) == Cross(le, t, ys)
  {
    if ys != [] {
      AbovePermutes(le, s, t, ys[0]);
      CrossPermutesLeft(le, s, t, ys[1..]);
    }
  }

  lemma {:induction false} CrossPermutesRight<T>(le: (T, T) -> bool, xs: seq<T>, s: seq<T>, t: seq<T>)
    requires multiset(s) == multiset(t)
    ensures Cross(le, xs, s) == Cross(le, xs, t)
  {
    if s == [] {
      assert |t| == |multiset(t)| == 0;
    } else {
      var i := RemoveOne(s, t);
      var rest := t[..i] + t[i + 1..];
      CrossPermutesRight(le, xs, s[1..], rest);
      CrossConcat(le, xs, t[..i], t[i + 1..]);
      CrossConcat(le, xs, t[..i], [t[i]] + t[i + 1..]);
      CrossConcat(le, xs, [t[i]], t[i + 1..]);
    }
  }

  /** Merging two sorted neighbours removes exactly the inversions between them. */
  lemma MergeRemovesCross<T(!new)>(le: (T, T) -> bool, before: seq<T>, xs: seq<T>, ys: seq<T>, after: seq<T>)
    requires TotalPreorder(le) && Sorted(le, xs) && Sorted(le, ys)
    ensures Inversions(le, before + Merge(le, xs, ys) + after) + Cross(le, xs, ys)
         == Inversions(le, before + (xs + ys) + after)
  {
    var m := Merge(le, xs, ys);
    MergeSorted(le, xs, ys);
    MergeElements(le, xs, ys);
    SortedHasNone(le, m);
    SortedHasNone(le, xs);
    SortedHasNone(le, ys);
    InversionsConcat(le, xs, ys);
    assert multiset(xs + ys) == multiset(m);
    Surround(le, before, m, after);
    Surround(le, before, xs + ys, after);
    CrossPermutesRight(le, before, m, xs + ys);
    CrossPermutesLeft(le, m, xs + ys, after);
  }

  lemma Surround<T>(le: (T, T) -> bool, before: seq<T>, s: seq<T>, after: seq<T>)
    ensures Inversions(le, before + s + after)
         == Inversions(le, before) + Inversions(le, s) + Inversions(le, after)
            + Cross(le, before, s) + Cross(le, before, after) + Cross(le, s, after)
  {
    InversionsConcat(le, before, s);
    InversionsConcat(le, before + s, after);
    CrossConcatLeft(le, before, s, after);
  }

  // ---- the merges ---------------------------------------------------------------

  /** `s` with element `j` moved down to position `i`. */
  ghost function Rotated<T>(s: seq<T>, i: nat, j: nat): (r: seq<T>)
    requires i <= j < |s|
    ensures |r| == |s|
    ensures forall p | 0 <= p < |s| ::
      r[p] == if p < i || p > j then s[p] else if p == i then s[j] else s[p - 1]
  {
    s[..i] + [s[j]] + s[i..j] + s[j + 1..]
  }

  /** `s` with elements `k..j` moved up by one, `k` and all others where they were. */
  ghost function Shifted<T>(s: seq<T>, k: nat, j: nat): (r: seq<T>)
    requires k <= j < |s|
    ensures |r| == |s|
    ensures forall p | 0 <= p < |s| :: r[p] == if k < p <= j then s[p - 1] else s[p]
  {
    s[..k + 1] + s[k..j] + s[j + 1..]
  }

  lemma ShiftStarts<T>(s: seq<T>, j: nat)
    requires j < |s|
    ensures Shifted(s, j, j) == s
  {
  }

  lemma ShiftOne<T>(s: seq<T>, k: nat, j: nat)
    requires 0 < k <= j < |s|
    ensures Shifted(s, k, j)[k := Shifted(s, k, j)[k - 1]] == Shifted(s, k - 1, j)
  {
  }

  lemma ShiftEnds<T>(s: seq<T>, i: nat, j: nat)
    requires i <= j < |s|
    ensures Shifted(s, i, j)[i := s[j]] == Rotated(s, i, j)
  {
  }

  /** `arr[i..j].rotate_right(1)`: the last element of the range moves to its front. */
  method RotateRight<T>(a: array<T>, i: nat, j: nat)
    requires i < j <= a.Length
    modifies a
    ensures a[..] == Rotated(old(a[..]), i, j - 1)
  {
    hide Shifted, Rotated;
    ghost var was := a[..];
    var last := a[j - 1];
    var k := j - 1;
    ShiftStarts(was, k);
    while k > i
      invariant i <= k < j
      invariant a[..] == Shifted(was, k, j - 1)
    {
      ShiftOne(was, k, j - 1);
      assert a[k - 1] == a[..][k - 1];
      a[k] := a[k - 1];
      k := k - 1;
    }
    ShiftEnds(was, i, j - 1);
    a[i] := last;
  }

  /** The state of an in-place merge: a merged part, then the rests of both pieces. */
  ghost predicate Merging<T>(le: (T, T) -> bool, xs: seq<T>, ys: seq<T>, now: seq<T>, i: nat, j: nat) {
    && i <= j <= |now|
    && now[..i] + Merge(le, now[i..j], now[j..]) == Merge(le, xs, ys)
  }

  lemma MergeStays<T>(le: (T, T) -> bool, xs: seq<T>, ys: seq<T>, now: seq<T>, i: nat, j: nat)
    requires Merging(le, xs, ys, now, i, j) && i < j < |now| && le(now[i], now[j])
    ensures Merging(le, xs, ys, now, i + 1, j)
  {
    assert now[i..j][1..] == now[i + 1..j];
    assert now[..i + 1] == now[..i] + [now[i]];
    assert now[..i + 1] + Merge(le, now[i + 1..j], now[j..])
        == now[..i] + ([now[i]] + Merge(le, now[i + 1..j], now[j..]));
  }

  lemma MergeRotates<T>(le: (T, T) -> bool, xs: seq<T>, ys: seq<T>, now: seq<T>, i: nat, j: nat)
    requires Merging(le, xs, ys, now, i, j) && i < j < |now| && !le(now[i], now[j])
    ensures Merging(le, xs, ys, now[..i] + [now[j]] + now[i..j] + now[j + 1..], i + 1, j + 1)
  {
    hide Merge;
    MergeRight(le, now[i..j], now[j..]);
    assert now[j..][1..] == now[j + 1..];
    RotatedPieces(now, i, j);
    Prepend(now[..i], now[j], Merge(le, now[i..j], now[j + 1..]));
  }

  lemma RotatedPieces<T>(now: seq<T>, i: nat, j: nat)
    requires i < j < |now|
    ensures var next := now[..i] + [now[j]] + now[i..j] + now[j + 1..];
      next[..i + 1] == now[..i] + [now[j]] && next[i + 1..j + 1] == now[i..j] && next[j + 1..] == now[j + 1..]
  {
  }

  lemma MergeDone<T>(le: (T, T) -> bool, xs: seq<T>, ys: seq<T>, now: seq<T>, i: nat, j: nat)
    requires Merging(le, xs, ys, now, i, j) && (i == j || j == |now|)
    ensures now == Merge(le, xs, ys)
  {
    if i == j {
      assert now[i..j] == [] && now == now[..i] + now[j..];
    } else {
      assert now[j..] == [] && now == now[..i] + now[i..j];
    }
  }

  /** Inversions left between the two rests; with both pieces sorted they are what is still to be moved. */
  ghost predicate MovedSoFar<T(!new)>(le: (T, T) -> bool, xs: seq<T>, ys: seq<T>, now: seq<T>, i: nat, j: nat, moved: nat)
    requires i <= j <= |now|
  {
    TotalPreorder(le) && Sorted(le, xs) && Sorted(le, ys) ==>
      && Sorted(le, now[i..j]) && Sorted(le, now[j..])
      && moved + Cross(le, now[i..j], now[j..]) == Cross(le, xs, ys)
  }

  lemma MovedStays<T(!new)>(le: (T, T) -> bool, xs: seq<T>, ys: seq<T>, now: seq<T>, i: nat, j: nat, moved: nat)
    requires i < j < |now| && le(now[i], now[j]) && MovedSoFar(le, xs, ys, now, i, j, moved)
    ensures MovedSoFar(le, xs, ys, now, i + 1, j, moved)
  {
    if TotalPreorder(le) && Sorted(le, xs) && Sorted(le, ys) {
      var rest := now[j..];
      assert now[i..j] == [now[i]] + now[i + 1..j] && now[i..j][1..] == now[i + 1..j];
      CrossConcatLeft(le, [now[i]], now[i + 1..j], rest);
      assert rest[0] == now[j];
      CrossNone(le, [now[i]], rest);
      SortedSlice(le, now[i..j], 1);
    }
  }

  lemma SortedSlice<T>(le: (T, T) -> bool, s: seq<T>, n: nat)
    requires Sorted(le, s) && n <= |s|
    ensures Sorted(le, s[n..]) && Sorted(le, s[..n])
  {
  }

  lemma {:induction false} CrossNone<T>(le: (T, T) -> bool, xs: seq<T>, ys: seq<T>)
    requires forall p, q | 0 <= p < |xs| && 0 <= q < |ys| :: le(xs[p], ys[q])
    ensures Cross(le, xs, ys) == 0
  {
    if ys != [] {
      AboveNone(le, xs, ys[0]);
      CrossNone(le, xs, ys[1..]);
    }
  }

  lemma MovedRotates<T(!new)>(le: (T, T) -> bool, xs: seq<T>, ys: seq<T>, now: seq<T>, i: nat, j: nat, moved: nat)
    requires i < j < |now| && !le(now[i], now[j]) && MovedSoFar(le, xs, ys, now, i, j, moved)
    ensures MovedSoFar(le, xs, ys, now[..i] + [now[j]] + now[i..j] + now[j + 1..], i + 1, j + 1, moved + (j - i))
  {
    var next := now[..i] + [now[j]] + now[i..j] + now[j + 1..];
    assert next[i + 1..j + 1] == now[i..j];
    assert next[j + 1..] == now[j + 1..] == now[j..][1..];
    if TotalPreorder(le) && Sorted(le, xs) && Sorted(le, ys) {
      AboveAll(le, now[i..j], now[j]);
      assert now[j..][0] == now[j];
    }
  }

  /** `s` with the pieces `left..mid` and `mid..right` merged. */
  ghost function MergedRange<T>(le: (T, T) -> bool, s: seq<T>, left: nat, mid: nat, right: nat): (r: seq<T>)
    requires left <= mid <= right <= |s|
    ensures |r| == |s|
  {
    s[..left] + Merge(le, s[left..mid], s[mid..right]) + s[right..]
  }

  /** The loop state of an in-place merge of `was[left..mid]` with `was[mid..right]`. */
  ghost predicate MergeState<T(!new)>(le: (T, T) -> bool, was: seq<T>, left: nat, mid: nat, right: nat,
                                      s: seq<T>, i: nat, j: nat, moved: nat) {
    && left <= mid <= right <= |was| == |s|
    && left <= i <= j <= right
    && s[..left] == was[..left] && s[right..] == was[right..]
    && Merging(le, was[left..mid], was[mid..right], s[left..right], i - left, j - left)
    && MovedSoFar(le, was[left..mid], was[mid..right], s[left..right], i - left, j - left, moved)
  }

  lemma StateStart<T(!new)>(le: (T, T) -> bool, was: seq<T>, left: nat, mid: nat, right: nat)
    requires left <= mid <= right <= |was|
    ensures MergeState(le, was, left, mid, right, was, left, mid, 0)
  {
    var now := was[left..right];
    assert now[0..mid - left] == was[left..mid] && now[mid - left..] == was[mid..right];
  }

  lemma StateStays<T(!new)>(le: (T, T) -> bool, was: seq<T>, left: nat, mid: nat, right: nat,
                            s: seq<T>, i: nat, j: nat, moved: nat)
    requires MergeState(le, was, left, mid, right, s, i, j, moved) && i < j < right && le(s[i], s[j])
    ensures MergeState(le, was, left, mid, right, s, i + 1, j, moved)
  {
    hide Merging, MovedSoFar, Merge;
    MergeStays(le, was[left..mid], was[mid..right], s[left..right], i - left, j - left);
    MovedStays(le, was[left..mid], was[mid..right], s[left..right], i - left, j - left, moved);
  }

  lemma StateRotates<T(!new)>(le: (T, T) -> bool, was: seq<T>, left: nat, mid: nat, right: nat,
                              s: seq<T>, i: nat, j: nat, moved: nat)
    requires MergeState(le, was, left, mid, right, s, i, j, moved) && i < j < right && !le(s[i], s[j])
    ensures MergeState(le, was, left, mid, right, Rotated(s, i, j), i + 1, j + 1, moved + (j - i))
  {
    hide Merging, MovedSoFar, Merge;
    var now := s[left..right];
    MergeRotates(le, was[left..mid], was[mid..right], now, i - left, j - left);
    MovedRotates(le, was[left..mid], was[mid..right], now, i - left, j - left, moved);
    RotatedSlice(s, left, right, i, j);
  }

  lemma RotatedSlice<T>(s: seq<T>, left: nat, right: nat, i: nat, j: nat)
    requires left <= i <= j < right <= |s|
    ensures Rotated(s, i, j)[..left] == s[..left] && Rotated(s, i, j)[right..] == s[right..]
    ensures Rotated(s, i, j)[left..right] == Rotated(s[left..right], i - left, j - left)
  {
    var slice := Rotated(s[left..right], i - left, j - left);
    forall p | 0 <= p < |slice| ensures Rotated(s, i, j)[left..right][p] == slice[p] {
      var now := s[left..right];
      assert now[p] == s[left + p] && now[j - left] == s[j];
      assert p > 0 ==> now[p - 1] == s[left + p - 1];
    }
  }

  lemma StateDone<T(!new)>(le: (T, T) -> bool, was: seq<T>, left: nat, mid: nat, right: nat,
                           s: seq<T>, i: nat, j: nat, moved: nat)
    requires MergeState(le, was, left, mid, right, s, i, j, moved) && (i == j || j == right)
    ensures s == MergedRange(le, was, left, mid, right)
    ensures TotalPreorder(le) && Sorted(le, was[left..mid]) && Sorted(le, was[mid..right]) ==>
      moved == Cross(le, was[left..mid], was[mid..right])
  {
    var now := s[left..right];
    MergeDone(le, was[left..mid], was[mid..right], now, i - left, j - left);
    assert s == s[..left] + now + s[right..];
    CrossNone(le, [], now[j - left..]);
  }

  /** The merge loop as a recursion: the final contents and the distance moved. */
  ghost function MergeLoop<T>(le: (T, T) -> bool, s: seq<T>, i: nat, j: nat, right: nat): (r: (seq<T>, nat))
    requires right <= |s|
    ensures |r.0| == |s|
    decreases j - i + 2 * (right - j)
  {
    if i < j < right then
      if le(s[i], s[j]) then MergeLoop(le, s, i + 1, j, right)
      else
        var r := MergeLoop(le, Rotated(s, i, j), i + 1, j + 1, right);
        (r.0, r.1 + (j - i))
    else (s, 0)
  }

  lemma {:induction false} LoopMerges<T(!new)>(le: (T, T) -> bool, was: seq<T>, left: nat, mid: nat, right: nat,
                                               s: seq<T>, i: nat, j: nat, moved: nat)
    requires MergeState(le, was, left, mid, right, s, i, j, moved)
    ensures var r := MergeLoop(le, s, i, j, right);
      && r.0 == MergedRange(le, was, left, mid, right)
      && (TotalPreorder(le) && Sorted(le, was[left..mid]) && Sorted(le, was[mid..right]) ==>
            moved + r.1 == Cross(le, was[left..mid], was[mid..right]))
    decreases j - i + 2 * (right - j)
  {
    hide Merging, MovedSoFar, MergedRange, Cross, Sorted, TotalPreorder;
    if i < j < right {
      if le(s[i], s[j]) {
        StateStays(le, was, left, mid, right, s, i, j, moved);
        LoopMerges(le, was, left, mid, right, s, i + 1, j, moved);
      } else {
        StateRotates(le, was, left, mid, right, s, i, j, moved);
        LoopMerges(le, was, left, mid, right, Rotated(s, i, j), i + 1, j + 1, moved + (j - i));
      }
    } else {
      StateDone(le, was, left, mid, right, s, i, j, moved);
    }
  }

  /** What either in-place merge leaves behind, for every position of `mid`. */
  ghost predicate Merges<T(!new)>(le: (T, T) -> bool, was: seq<T>, left: nat, mid: nat, right: nat, now: seq<T>, moved: nat)
    requires right <= |was|
  {
    if left <= mid <= right then
      && now == MergedRange(le, was, left, mid, right)
      && (TotalPreorder(le) && Sorted(le, was[left..mid]) && Sorted(le, was[mid..right]) ==>
            moved == Cross(le, was[left..mid], was[mid..right]))
    else now == was && moved == 0
  }

  /**
   The merge loop meets that description on every input, sorted or not: nothing
   outside the range changes, a `mid` beyond the range leaves everything alone, and on
   sorted pieces the distance moved is the number of inversions between them.
   */
  lemma LoopResult<T(!new)>(le: (T, T) -> bool, was: seq<T>, left: nat, mid: nat, right: nat)
    requires right <= |was|
    ensures var r := MergeLoop(le, was, left, mid, right); Merges(le, was, left, mid, right, r.0, r.1)
  {
    if left <= mid <= right {
      StateStart(le, was, left, mid, right);
      LoopMerges(le, was, left, mid, right, was, left, mid, 0);
    }
  }

  /** A snapshot of the merge loop. */
  datatype Snapshot<T> = Snapshot(s: seq<T>, i: nat, j: nat, moved: nat)

  /** Running on from here ends as the whole merge does. */
  ghost predicate OnTrack<T>(le: (T, T) -> bool, at: Snapshot<T>, right: nat, goal: (seq<T>, nat)) {
    && right <= |at.s|
    && MergeLoop(le, at.s, at.i, at.j, right).0 == goal.0
    && at.moved + MergeLoop(le, at.s, at.i, at.j, right).1 == goal.1
  }

  lemma TrackStarts<T>(le: (T, T) -> bool, was: seq<T>, left: nat, mid: nat, right: nat)
    requires right <= |was|
    ensures OnTrack(le, Snapshot(was, left, mid, 0), right, MergeLoop(le, was, left, mid, right))
  {
  }

  lemma TrackStays<T>(le: (T, T) -> bool, at: Snapshot<T>, right: nat, goal: (seq<T>, nat)) returns (next: Snapshot<T>)
    requires OnTrack(le, at, right, goal) && at.i < at.j < right && le(at.s[at.i], at.s[at.j])
    ensures OnTrack(le, next, right, goal)
    ensures next == Snapshot(at.s, at.i + 1, at.j, at.moved)
  {
    next := Snapshot(at.s, at.i + 1, at.j, at.moved);
  }

  lemma LoopRotates<T>(le: (T, T) -> bool, s: seq<T>, i: nat, j: nat, right: nat)
    requires i < j < right <= |s| && !le(s[i], s[j])
    ensures var r := MergeLoop(le, Rotated(s, i, j), i + 1, j + 1, right);
      MergeLoop(le, s, i, j, right) == (r.0, r.1 + (j - i))
  {
    hide Rotated;
  }

  lemma TrackRotates<T>(le: (T, T) -> bool, at: Snapshot<T>, right: nat, goal: (seq<T>, nat)) returns (next: Snapshot<T>)
    requires OnTrack(le, at, right, goal) && at.i < at.j < right && !le(at.s[at.i], at.s[at.j])
    ensures OnTrack(le, next, right, goal)
    ensures next == Snapshot(Rotated(at.s, at.i, at.j), at.i + 1, at.j + 1, at.moved + (at.j - at.i))
  {
    hide MergeLoop, Rotated;
    LoopRotates(le, at.s, at.i, at.j, right);
    next := Snapshot(Rotated(at.s, at.i, at.j), at.i + 1, at.j + 1, at.moved + (at.j - at.i));
  }

  lemma TrackEnds<T(!new)>(le: (T, T) -> bool, was: seq<T>, left: nat, mid: nat, right: nat, at: Snapshot<T>)
    requires right <= |was| && OnTrack(le, at, right, MergeLoop(le, was, left, mid, right)) && !(at.i < at.j < right)
    ensures Merges(le, was, left, mid, right, at.s, at.moved)
    ensures (at.s, at.moved) == MergeLoop(le, was, left, mid, right)
  {
    LoopResult(le, was, left, mid, right);
  }

  /** The rotation merge. */
  method InPlaceMerge<T(!new)>(le: (T, T) -> bool, a: array<T>, left: nat, mid: nat, right: nat) returns (ghost moved: nat)
    requires right <= a.Length
    modifies a
    ensures Merges(le, old(a[..]), left, mid, right, a[..], moved)
    ensures (a[..], moved) == MergeLoop(le, old(a[..]), left, mid, right)
  {
    hide MergeLoop, Merges, OnTrack, Rotated;
    var i: nat, j: nat := left, mid;
    moved := 0;
    ghost var was := a[..];
    ghost var at := Snapshot(was, i, j, 0);
    ghost var goal := MergeLoop(le, was, left, mid, right);
    TrackStarts(le, was, left, mid, right);
    while i < j && j < right
      invariant at.s == a[..] && at.i == i && at.j == j && at.moved == moved
      invariant OnTrack(le, at, right, goal)
      decreases j - i + 2 * (right - j)
    {
      assert a[i] == at.s[i] && a[j] == at.s[j];
      if !le(a[i], a[j]) {
        at := TrackRotates(le, at, right, goal);
        j := j + 1;
        RotateRight(a, i, j);
        moved := moved + (j - 1 - i);
      } else {
        at := TrackStays(le, at, right, goal);
      }
      i := i + 1;
    }
    TrackEnds(le, was, left, mid, right, at);
  }

  lemma RotateNothing<T>(s: seq<T>, j: nat)
    requires j < |s|
    ensures Rotated(s, j, j) == s
  {
  }

  lemma SwapRotates<T>(s: seq<T>, k: nat, j: nat)
    requires 0 < k <= j < |s|
    ensures var r := Rotated(s, k, j); r[k := r[k - 1]][k - 1 := r[k]] == Rotated(s, k - 1, j)
  {
  }

  /** The inner loop of the older merge: element `j` moves down to `i` by swaps with its neighbour. */
  method SwapDown<T>(a: array<T>, i: nat, j: nat) returns (ghost swaps: nat)
    requires i <= j < a.Length
    modifies a
    ensures a[..] == Rotated(old(a[..]), i, j) && swaps == j - i
  {
    hide Rotated;
    ghost var was := a[..];
    swaps := 0;
    var k := j;
    RotateNothing(was, j);
    while k > i
      invariant i <= k <= j && swaps == j - k
      invariant a[..] == Rotated(was, k, j)
    {
      SwapRotates(was, k, j);
      ghost var now := a[..];
      a[k], a[k - 1] := a[k - 1], a[k];
      assert a[..] == now[k := now[k - 1]][k - 1 := now[k]];
      swaps := swaps + 1;
      k := k - 1;
    }
  }

  /** The swap-chain merge: the same result, one neighbour at a time; `moved` counts its swaps. */
  method InPlaceMergeOld<T(!new)>(le: (T, T) -> bool, a: array<T>, left: nat, mid: nat, right: nat) returns (ghost moved: nat)
    requires right <= a.Length
    modifies a
    ensures Merges(le, old(a[..]), left, mid, right, a[..], moved)
    ensures (a[..], moved) == MergeLoop(le, old(a[..]), left, mid, right)
  {
    hide MergeLoop, Merges, OnTrack, Rotated;
    var i: nat, j: nat := left, mid;
    moved := 0;
    ghost var was := a[..];
    ghost var at := Snapshot(was, i, j, 0);
    ghost var goal := MergeLoop(le, was, left, mid, right);
    TrackStarts(le, was, left, mid, right);
    while i < j && j < right
      invariant at.s == a[..] && at.i == i && at.j == j && at.moved == moved
      invariant OnTrack(le, at, right, goal)
      decreases j - i + 2 * (right - j)
    {
      assert a[i] == at.s[i] && a[j] == at.s[j];
      if le(a[i], a[j]) {
        at := TrackStays(le, at, right, goal);
        i := i + 1;
      } else {
        at := TrackRotates(le, at, right, goal);
        ghost var swaps := SwapDown(a, i, j);
        moved := moved + swaps;
        i := i + 1;
        j := j + 1;
      }
    }
    TrackEnds(le, was, left, mid, right, at);
  }

  /** The merge into a new vector. */
  method MergeSlices<T(!new)>(le: (T, T) -> bool, xs: seq<T>, ys: seq<T>) returns (result: seq<T>)
    ensures result == Merge(le, xs, ys)
  {
    hide Merge;
    result := [];
    var i, j := 0, 0;
    assert xs[0..] == xs && ys[0..] == ys;
    while i < |xs| && j < |ys|
      invariant i <= |xs| && j <= |ys|
      invariant result + Merge(le, xs[i..], ys[j..]) == Merge(le, xs, ys)
      decreases |xs| - i + |ys| - j
    {
      if le(xs[i], ys[j]) {
        MergeLeft(le, xs[i..], ys[j..]);
        assert xs[i..][1..] == xs[i + 1..];
        Prepend(result, xs[i], Merge(le, xs[i + 1..], ys[j..]));
        result := result + [xs[i]];
        i := i + 1;
      } else {
        MergeRight(le, xs[i..], ys[j..]);
        assert ys[j..][1..] == ys[j + 1..];
        Prepend(result, ys[j], Merge(le, xs[i..], ys[j + 1..]));
        result := result + [ys[j]];
        j := j + 1;
      }
    }
    MergeNothing(le, xs[i..], ys[j..]);
    Associates(result, xs[i..], ys[j..]);
    result := result + xs[i..];
    result := result + ys[j..];
  }

  lemma Prepend<T>(a: seq<T>, x: T, b: seq<T>)
    ensures a + ([x] + b) == (a + [x]) + b
  {
  }

  // ---- the sort -------------------------------------------------------------------

  /** One pass of the outer loop: neighbouring pieces of `width` elements merged. */
  ghost function Pass<T>(le: (T, T) -> bool, s: seq<T>, width: nat): (r: seq<T>)
    requires width > 0
    ensures |r| == |s|
    decreases |s|
  {
    if |s| <= width then s
    else if |s| <= 2 * width then Merge(le, s[..width], s[width..])
    else Merge(le, s[..width], s[width..2 * width]) + Pass(le, s[2 * width..], width)
  }

  /** Every piece of `width` elements is sorted. */
  ghost predicate PiecesSorted<T>(le: (T, T) -> bool, s: seq<T>, width: nat)
    requires width > 0
    decreases |s|
  {
    if |s| <= width then Sorted(le, s)
    else Sorted(le, s[..width]) && PiecesSorted(le, s[width..], width)
  }

  lemma {:induction false} SinglesSorted<T>(le: (T, T) -> bool, s: seq<T>)
    ensures PiecesSorted(le, s, 1)
  {
    if |s| > 1 {
      SinglesSorted(le, s[1..]);
    }
  }

  lemma PiecesSplit<T>(le: (T, T) -> bool, s: seq<T>, width: nat)
    requires width > 0 && PiecesSorted(le, s, width) && |s| > width
    ensures Sorted(le, s[..width])
    ensures |s| <= 2 * width ==> Sorted(le, s[width..])
    ensures |s| > 2 * width ==> Sorted(le, s[width..2 * width]) && PiecesSorted(le, s[2 * width..], width)
  {
    if |s| > 2 * width {
      assert s[width..][..width] == s[width..2 * width] && s[width..][width..] == s[2 * width..];
    }
  }

  /** A pass over sorted pieces gives sorted pieces of twice the width, stably. */
  lemma {:induction false} PassMerges<T(!new)>(le: (T, T) -> bool, s: seq<T>, width: nat)
    requires TotalPreorder(le) && width > 0 && PiecesSorted(le, s, width)
    ensures PiecesSorted(le, Pass(le, s, width), 2 * width)
    decreases |s|
  {
    if |s| > width {
      PiecesSplit(le, s, width);
      if |s| <= 2 * width {
        MergeSorted(le, s[..width], s[width..]);
      } else {
        var first, rest := Merge(le, s[..width], s[width..2 * width]), Pass(le, s[2 * width..], width);
        MergeSorted(le, s[..width], s[width..2 * width]);
        PassMerges(le, s[2 * width..], width);
        assert (first + rest)[..2 * width] == first && (first + rest)[2 * width..] == rest;
      }
    }
  }

  lemma {:induction false} PassStable<T(!new)>(le: (T, T) -> bool, s: seq<T>, width: nat, x: T)
    requires TotalPreorder(le) && width > 0 && PiecesSorted(le, s, width)
    ensures Class(le, Pass(le, s, width), x) == Class(le, s, x)
    decreases |s|
  {
    hide Class, Merge, Sorted, TotalPreorder;
    if |s| > width {
      PiecesSplit(le, s, width);
      if |s| <= 2 * width {
        MergeStable(le, s[..width], s[width..], x);
        ClassConcat(le, s[..width], s[width..], x);
        assert s == s[..width] + s[width..];
      } else {
        var a, b, c := s[..width], s[width..2 * width], s[2 * width..];
        MergeStable(le, a, b, x);
        PassStable(le, c, width, x);
        ClassConcat(le, Merge(le, a, b), Pass(le, c, width), x);
        ClassConcat(le, a, b, x);
        ClassConcat(le, a + b, c, x);
        assert s == (a + b) + c;
      }
    }
  }

  // ---- index arithmetic -------------------------------------------------------------

  function Pow2(e: nat): (p: nat)
    ensures p > 0
  {
    if e == 0 then 1 else 2 * Pow2(e - 1)
  }

  lemma {:induction false} Pow2Grows(d: nat, e: nat)
    requires d <= e
    ensures Pow2(d) <= Pow2(e)
  {
    if d < e {
      Pow2Grows(d, e - 1);
    }
  }

  lemma Double(p: nat, q: nat)
    ensures p * (2 * q) == 2 * (p * q)
  {
  }

  lemma {:induction false} Pow2Splits(d: nat, e: nat)
    ensures Pow2(d + e) == Pow2(d) * Pow2(e)
  {
    if e > 0 {
      Pow2Splits(d, e - 1);
      Double(Pow2(d), Pow2(e - 1));
    }
  }

  /** A multiple of one power of two below a larger one leaves room for a further step. */
  lemma StepFits(d: nat, e: nat, c: nat)
    requires d <= e && Pow2(d) * c < Pow2(e)
    ensures Pow2(d) * c + Pow2(d) <= Pow2(e)
  {
    Pow2Splits(d, e - d);
    MulFits(Pow2(d), c, Pow2(e - d));
  }

  lemma {:induction false} MulMonotone(p: nat, a: nat, b: nat)
    requires a <= b
    ensures p * a <= p * b
  {
    if a < b {
      MulMonotone(p, a, b - 1);
      assert p * b == p * (b - 1) + p;
    }
  }

  lemma MulFits(p: nat, c: nat, q: nat)
    requires p * c < p * q
    ensures p * c + p <= p * q
  {
    if c >= q {
      MulMonotone(p, q, c);
    } else {
      MulMonotone(p, c + 1, q);
      assert p * (c + 1) == p * c + p;
    }
  }

  // the largest array whose indices the loops can handle in 64 bits
  const HALF_WORD := 0x8000_0000_0000_0000
  const WORD := 0x1_0000_0000_0000_0000

  lemma HalfWordIsPow2()
    ensures Pow2(63) == HALF_WORD && Pow2(64) == WORD
  {
    assert Pow2(16) == 0x1_0000;
    Pow2Splits(16, 16);
    Pow2Splits(32, 16);
    Pow2Splits(48, 15);
    assert Pow2(15) == 0x8000;
  }

  function Max(x: nat, y: nat): nat {
    if x < y then y else x
  }

  /** With at most 2^63 elements no index the loops compute exceeds 2^63. */
  lemma IndexFits(n: nat, e: nat, c: nat)
    requires n <= HALF_WORD && Pow2(e) < n && Pow2(e + 1) * c < n
    ensures Pow2(e + 1) * c + Pow2(e + 1) <= HALF_WORD
  {
    HalfWordIsPow2();
    if e >= 63 {
      Pow2Grows(63, e);
    } else {
      StepFits(e + 1, 63, c);
    }
  }

  /** A power of two above 2^63 is at least 2^64. */
  lemma WidthOverflows(e: nat)
    requires Pow2(e) > HALF_WORD
    ensures Pow2(e) >= WORD
  {
    HalfWordIsPow2();
    if e <= 63 {
      Pow2Grows(e, 63);
    } else {
      Pow2Grows(64, e);
    }
  }

  /** The largest `i + 2 * width` the inner loop computes from index `i` on; it bounds every index of the pass. */
  function PassPeak(n: nat, i: nat, width: nat): nat
    requires width > 0
    decreases n - i
  {
    if i < n then Max(i + 2 * width, PassPeak(n, i + 2 * width, width)) else 0
  }

  /** The largest index or width the sort of `n` elements computes from `width` on. */
  function SortPeak(n: nat, width: nat): nat
    requires width > 0
    decreases n - width
  {
    if width < n then Max(PassPeak(n, 0, width), Max(width * 2, SortPeak(n, width * 2))) else width
  }

  lemma {:induction false} PassPeakFits(n: nat, e: nat, c: nat)
    requires n <= HALF_WORD && Pow2(e) < n
    ensures PassPeak(n, Pow2(e + 1) * c, Pow2(e)) <= HALF_WORD
    decreases n - Pow2(e + 1) * c
  {
    var i := Pow2(e + 1) * c;
    if i < n {
      IndexFits(n, e, c);
      assert Pow2(e + 1) * (c + 1) == i + 2 * Pow2(e);
      PassPeakFits(n, e, c + 1);
    }
  }

  lemma {:induction false} SortPeakFits(n: nat, e: nat)
    requires n <= HALF_WORD && Pow2(e) <= HALF_WORD
    ensures SortPeak(n, Pow2(e)) <= HALF_WORD
    decreases n - Pow2(e)
  {
    if Pow2(e) < n {
      IndexFits(n, e, 0);
      PassPeakFits(n, e, 0);
      SortPeakFits(n, e + 1);
    }
  }

  lemma {:induction false} SortPeakOverflows(n: nat, e: nat)
    requires n > HALF_WORD
    ensures SortPeak(n, Pow2(e)) >= WORD
    decreases n - Pow2(e)
  {
    if Pow2(e) < n {
      SortPeakOverflows(n, e + 1);
    } else {
      WidthOverflows(e);
    }
  }

  /** Every index and width the sort computes fits 64 bits if and only if there are at most 2^63 elements. */
  lemma PeakFitsIff(n: nat)
    ensures SortPeak(n, 1) < WORD <==> n <= HALF_WORD
    ensures n <= HALF_WORD ==> SortPeak(n, 1) <= HALF_WORD
  {
    assert Pow2(0) == 1;
    if n <= HALF_WORD {
      SortPeakFits(n, 0);
    } else {
      SortPeakOverflows(n, 0);
    }
  }

  // ---- the loops of the sort as recursions --------------------------------------------

  ghost function Clamp(i: nat, n: nat): nat {
    if i < n then i else n
  }

  /** The inner loop from index `i` on: the contents it leaves and the distance it moves. */
  ghost function PassLoop<T>(le: (T, T) -> bool, s: seq<T>, i: nat, width: nat): (r: (seq<T>, nat))
    requires width > 0
    ensures |r.0| == |s|
    decreases |s| - i
  {
    if i < |s| then
      var m := MergeLoop(le, s, i, i + width, Clamp(i + 2 * width, |s|));
      var r := PassLoop(le, m.0, i + 2 * width, width);
      (r.0, m.1 + r.1)
    else (s, 0)
  }

  ghost function SortLoop<T>(le: (T, T) -> bool, s: seq<T>, width: nat): (r: (seq<T>, nat))
    requires width > 0
    ensures |r.0| == |s|
    decreases |s| - width
  {
    if width < |s| then
      var p := PassLoop(le, s, 0, width);
      var r := SortLoop(le, p.0, width * 2);
      (r.0, p.1 + r.1)
    else (s, 0)
  }

  // ---- what they achieve ----------------------------------------------------------------

  lemma PassUnrolls<T>(le: (T, T) -> bool, rest: seq<T>, width: nat) returns (xs: seq<T>, ys: seq<T>, after: seq<T>)
    requires width > 0 && PiecesSorted(le, rest, width) && |rest| > width
    ensures rest == xs + ys + after && |xs| == width && |xs + ys| == Clamp(2 * width, |rest|)
    ensures Sorted(le, xs) && Sorted(le, ys) && PiecesSorted(le, after, width)
    ensures Pass(le, rest, width) == Merge(le, xs, ys) + Pass(le, after, width)
  {
    var k := Clamp(2 * width, |rest|);
    xs, ys, after := rest[..width], rest[width..k], rest[k..];
    PiecesSplit(le, rest, width);
    if |rest| <= 2 * width {
      assert rest[width..|rest|] == rest[width..] && rest[|rest|..] == [];
    }
  }

  lemma LoopOnSorted<T(!new)>(le: (T, T) -> bool, s: seq<T>, left: nat, mid: nat, right: nat)
    requires TotalPreorder(le) && left <= mid <= right <= |s|
    requires Sorted(le, s[left..mid]) && Sorted(le, s[mid..right])
    ensures MergeLoop(le, s, left, mid, right) == (MergedRange(le, s, left, mid, right), Cross(le, s[left..mid], s[mid..right]))
  {
    LoopResult(le, s, left, mid, right);
  }

  lemma FourPieces<T>(done: seq<T>, xs: seq<T>, ys: seq<T>, after: seq<T>)
    ensures var s, i, j, k := done + xs + ys + after, |done|, |done + xs|, |done + xs + ys|;
      && s[..i] == done && s[i..j] == xs && s[j..k] == ys && s[k..] == after
      && s == done + (xs + ys) + after
  {
  }

  /** One merge of a pass, by the pieces it works on: done, left, right and untouched. */
  lemma MergeStep<T(!new)>(le: (T, T) -> bool, done: seq<T>, xs: seq<T>, ys: seq<T>, after: seq<T>)
    requires TotalPreorder(le) && Sorted(le, xs) && Sorted(le, ys)
    ensures var m := MergeLoop(le, done + xs + ys + after, |done|, |done + xs|, |done + xs + ys|);
      && m.0 == done + Merge(le, xs, ys) + after
      && m.1 + Inversions(le, m.0) == Inversions(le, done + xs + ys + after)
  {
    FourPieces(done, xs, ys, after);
    LoopOnSorted(le, done + xs + ys + after, |done|, |done + xs|, |done + xs + ys|);
    MergeRemovesCross(le, done, xs, ys, after);
  }

  /** A last piece without a partner is left as it is. */
  lemma LoneStep<T(!new)>(le: (T, T) -> bool, done: seq<T>, rest: seq<T>, width: nat)
    requires 0 < |rest| <= width
    ensures var s := done + rest;
      PassLoop(le, s, |done|, width) == (s, 0)
  {
    var s := done + rest;
    assert MergeLoop(le, s, |done|, |done| + width, |s|) == (s, 0);
  }

  lemma Associates<T>(a: seq<T>, b: seq<T>, c: seq<T>)
    ensures (a + b) + c == a + (b + c)
  {
  }

  /** What one merge does to the array. */
  ghost predicate StepDone<T>(le: (T, T) -> bool, s: seq<T>, done: seq<T>, m: seq<T>, after: seq<T>, width: nat) {
    && |done| < |s| && |m| == Clamp(2 * width, |s| - |done|)
    && var step := MergeLoop(le, s, |done|, |done| + width, Clamp(|done| + 2 * width, |s|));
    && step.0 == done + m + after
    && step.1 + Inversions(le, step.0) == Inversions(le, s)
  }

  /** What the inner loop does from `done` on. */
  ghost predicate LoopDone<T>(le: (T, T) -> bool, s: seq<T>, done: seq<T>, passed: seq<T>, width: nat) {
    && width > 0
    && PassLoop(le, s, |done|, width).0 == done + passed
    && PassLoop(le, s, |done|, width).1 + Inversions(le, done + passed) == Inversions(le, s)
  }

  lemma PassCombines<T>(le: (T, T) -> bool, s: seq<T>, done: seq<T>, m: seq<T>, after: seq<T>, width: nat, passed: seq<T>)
    requires width > 0 && StepDone(le, s, done, m, after, width)
    requires LoopDone(le, done + m + after, done + m, passed, width)
    ensures LoopDone(le, s, done, m + passed, width)
  {
    PassLoopUnrolls(le, done, m, after, s, width);
    Associates(done, m, passed);
  }

  /** The inner loop computes the pass and moves elements by exactly the inversions it removes. */
  lemma {:induction false} PassLoopMerges<T(!new)>(le: (T, T) -> bool, s: seq<T>, done: seq<T>, rest: seq<T>, width: nat)
    requires TotalPreorder(le) && width > 0 && PiecesSorted(le, rest, width) && s == done + rest
    ensures LoopDone(le, s, done, Pass(le, rest, width), width)
    decreases |rest|
  {
    if |rest| > width {
      var m, after := PassStarts(le, s, done, rest, width);
      PassLoopMerges(le, done + m + after, done + m, after, width);
      PassCombines(le, s, done, m, after, width, Pass(le, after, width));
    } else if rest != [] {
      LoneStep(le, done, rest, width);
    } else {
      assert done + rest == done;
    }
  }

  lemma JoinPieces<T>(done: seq<T>, xs: seq<T>, ys: seq<T>, after: seq<T>)
    ensures done + (xs + ys + after) == done + xs + ys + after
  {
  }

  lemma PassStarts<T(!new)>(le: (T, T) -> bool, s: seq<T>, done: seq<T>, rest: seq<T>, width: nat)
    returns (m: seq<T>, after: seq<T>)
    requires TotalPreorder(le) && width > 0 && PiecesSorted(le, rest, width) && s == done + rest && |rest| > width
    ensures StepDone(le, s, done, m, after, width)
    ensures PiecesSorted(le, after, width) && |after| < |rest|
    ensures Pass(le, rest, width) == m + Pass(le, after, width)
  {
    hide TotalPreorder, Sorted, PiecesSorted, MergeLoop, Inversions, StepDone, Pass;
    var xs, ys: seq<T>;
    xs, ys, after := PassUnrolls(le, rest, width);
    m := Merge(le, xs, ys);
    JoinPieces(done, xs, ys, after);
    MergeStep(le, done, xs, ys, after);
    StepShape(le, s, done, m, after, width, |done|, |done + xs|, |done + xs + ys|);
  }

  lemma StepShape<T>(le: (T, T) -> bool, s: seq<T>, done: seq<T>, m: seq<T>, after: seq<T>, width: nat,
                     i: nat, j: nat, k: nat)
    requires i == |done| < |s| && j == i + width && k == Clamp(i + 2 * width, |s|) && |m| == Clamp(2 * width, |s| - i)
    requires var step := MergeLoop(le, s, i, j, k);
      step.0 == done + m + after && step.1 + Inversions(le, step.0) == Inversions(le, s)
    ensures StepDone(le, s, done, m, after, width)
  {
    hide MergeLoop, Inversions;
  }

  lemma PassLoopUnrolls<T>(le: (T, T) -> bool, done: seq<T>, m: seq<T>, after: seq<T>, s: seq<T>, width: nat)
    requires width > 0 && |done| < |s|
    requires |m| == Clamp(2 * width, |s| - |done|)
    requires MergeLoop(le, s, |done|, |done| + width, Clamp(|done| + 2 * width, |s|)).0 == done + m + after
    ensures var d := MergeLoop(le, s, |done|, |done| + width, Clamp(|done| + 2 * width, |s|)).1;
      var r := PassLoop(le, done + m + after, |done + m|, width);
      PassLoop(le, s, |done|, width) == (r.0, d + r.1)
  {
    if |m| < 2 * width {
      assert after == [];
    }
  }

  lemma PassFacts<T(!new)>(le: (T, T) -> bool, s: seq<T>, width: nat) returns (p: (seq<T>, nat))
    requires TotalPreorder(le) && width > 0 && PiecesSorted(le, s, width)
    ensures p == PassLoop(le, s, 0, width)
    ensures PiecesSorted(le, p.0, 2 * width) && SameClasses(le, p.0, s)
    ensures p.1 + Inversions(le, p.0) == Inversions(le, s)
  {
    p := PassLoop(le, s, 0, width);
    assert [] + s == s && [] + Pass(le, s, width) == Pass(le, s, width);
    PassLoopMerges(le, s, [], s, width);
    PassMerges(le, s, width);
    forall x ensures Class(le, p.0, x) == Class(le, s, x) {
      PassStable(le, s, width, x);
    }
  }

  /** Every pass keeps the classes in order and doubles the width of the sorted pieces. */
  lemma {:induction false} SortLoopSorts<T(!new)>(le: (T, T) -> bool, s: seq<T>, width: nat)
    requires TotalPreorder(le) && width > 0 && PiecesSorted(le, s, width)
    ensures var r := SortLoop(le, s, width);
      && Sorted(le, r.0)
      && SameClasses(le, r.0, s)
      && r.1 == Inversions(le, s)
    decreases |s| - width
  {
    if width < |s| {
      var p := PassFacts(le, s, width);
      SortLoopSorts(le, p.0, width * 2);
      assert SortLoop(le, s, width).0 == SortLoop(le, p.0, width * 2).0;
    } else {
      SortedHasNone(le, s);
    }
  }

  // ---- the sort itself --------------------------------------------------------------------

  /** The array and the distance moved so far. */
  datatype Progress<T> = Progress(s: seq<T>, moved: nat)

  /** Running the inner loop on from index `i` ends in `goal`. */
  ghost predicate OnPass<T>(le: (T, T) -> bool, at: Progress<T>, i: nat, width: nat, goal: Progress<T>) {
    && width > 0
    && PassLoop(le, at.s, i, width).0 == goal.s
    && at.moved + PassLoop(le, at.s, i, width).1 == goal.moved
  }

  /** Running the outer loop on with `width` ends in `goal`. */
  ghost predicate OnSort<T>(le: (T, T) -> bool, at: Progress<T>, width: nat, goal: Progress<T>) {
    && width > 0
    && SortLoop(le, at.s, width).0 == goal.s
    && at.moved + SortLoop(le, at.s, width).1 == goal.moved
  }

  lemma BeginSort<T>(le: (T, T) -> bool, input: seq<T>) returns (goal: Progress<T>)
    ensures OnSort(le, Progress(input, 0), 1, goal)
    ensures goal == Progress(SortLoop(le, input, 1).0, SortLoop(le, input, 1).1)
  {
    goal := Progress(SortLoop(le, input, 1).0, SortLoop(le, input, 1).1);
  }

  lemma BeginPass<T>(le: (T, T) -> bool, at: Progress<T>, width: nat, goal: Progress<T>) returns (target: Progress<T>)
    requires OnSort(le, at, width, goal) && width < |at.s|
    ensures OnPass(le, at, 0, width, target)
    ensures OnSort(le, target, width * 2, goal) && |target.s| == |at.s|
  {
    target := Progress(PassLoop(le, at.s, 0, width).0, at.moved + PassLoop(le, at.s, 0, width).1);
  }

  lemma AdvancePass<T>(le: (T, T) -> bool, at: Progress<T>, i: nat, width: nat, goal: Progress<T>, d: nat, s: seq<T>)
    returns (next: Progress<T>)
    requires OnPass(le, at, i, width, goal) && i < |at.s|
    requires (s, d) == MergeLoop(le, at.s, i, i + width, Clamp(i + 2 * width, |at.s|))
    ensures OnPass(le, next, i + 2 * width, width, goal)
    ensures next == Progress(s, at.moved + d)
  {
    next := Progress(s, at.moved + d);
  }

  lemma EndPass<T>(le: (T, T) -> bool, at: Progress<T>, i: nat, width: nat, goal: Progress<T>)
    requires OnPass(le, at, i, width, goal) && i >= |at.s|
    ensures at == goal
  {
  }

  lemma EndSort<T(!new)>(le: (T, T) -> bool, input: seq<T>, at: Progress<T>, width: nat)
    requires TotalPreorder(le)
    requires OnSort(le, at, width, Progress(SortLoop(le, input, 1).0, SortLoop(le, input, 1).1)) && |at.s| <= width
    ensures StablySorted(le, input, at.s) && at.moved == Inversions(le, input)
  {
    SinglesSorted(le, input);
    SortLoopSorts(le, input, 1);
    SameClassesPermute(le, at.s, input);
  }

  /** `s` is the sorted rearrangement of `input` that keeps equal elements in order. */
  ghost predicate StablySorted<T(!new)>(le: (T, T) -> bool, input: seq<T>, s: seq<T>) {
    && Sorted(le, s)
    && multiset(s) == multiset(input)
    && SameClasses(le, s, input)
  }

  /**
   The sort.  For every length it leaves the sorted, stable rearrangement of its
   input; the distances moved by all rotations add up to the number of inversions of
   the input; and `peak`, the largest index or width computed on the way, is a function
   of the length alone.
   */
  method Sort<T(!new)>(le: (T, T) -> bool, a: array<T>) returns (ghost moved: nat, ghost peak: nat)
    requires TotalPreorder(le)
    modifies a
    ensures StablySorted(le, old(a[..]), a[..])
    ensures moved == Inversions(le, old(a[..]))
    ensures peak == SortPeak(a.Length, 1)
  {
    hide StablySorted, OnPass, OnSort, TotalPreorder, Merges, MergeLoop, PassLoop, SortLoop;
    var n := a.Length;
    var width: nat := 1;
    peak := 1;
    ghost var input := a[..];
    ghost var at := Progress(input, 0);
    ghost var goal := BeginSort(le, input);
    while width < n
      invariant at.s == a[..]
      invariant OnSort(le, at, width, goal)
      invariant width > 0 && Max(peak, SortPeak(n, width)) == SortPeak(n, 1)
      decreases n - width
    {
      var i: nat := 0;
      ghost var before := peak;
      ghost var target := BeginPass(le, at, width, goal);
      while i < n
        invariant at.s == a[..]
        invariant OnPass(le, at, i, width, target)
        invariant Max(peak, PassPeak(n, i, width)) == Max(before, PassPeak(n, 0, width))
        decreases n - i
      {
        var left := i;
        var mid := i + width;
        var right := if i + 2 * width > n then n else i + 2 * width;
        ghost var d := InPlaceMerge(le, a, left, mid, right);
        at := AdvancePass(le, at, i, width, target, d, a[..]);
        peak := Max(peak, i + 2 * width);
        i := i + 2 * width;
      }
      EndPass(le, at, i, width, target);
      peak := Max(peak, width * 2);
      width := width * 2;
    }
    peak := Max(peak, width);
    moved := at.moved;
    EndSort(le, input, at, width);
  }
}
