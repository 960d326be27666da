/** `Array.prototype.filter` over sequences, and what it promises. */
module JsArray {

  /** `idx` lists positions of `xs` in increasing order, and `r` holds the elements at those positions. */
  ghost predicate PicksAt<T>(r: seq<T>, xs: seq<T>, idx: seq<int>) {
    |idx| == |r|
    && (forall k :: 0 <= k < |idx| ==> 0 <= idx[k] < |xs| && r[k] == xs[idx[k]])
    && (forall k, l :: 0 <= k < l < |idx| ==> idx[k] < idx[l])
  }

  /** `xs.filter(keep)`: the elements `keep` accepts, in their original order. */
  function Filter<T(!new)>(xs: seq<T>, keep: T -> bool): (r: seq<T>)
    ensures |r| <= |xs|
  {
    if xs == [] then []
    else
      assert xs == [xs[0]] + xs[1..];
      (if keep(xs[0]) then [xs[0]] else []) + Filter(xs[1..], keep)
  }

  /** An element is in the result of `filter` exactly when it is in `xs` and accepted. */
  lemma {:induction false} FilterMembers<T(!new)>(xs: seq<T>, keep: T -> bool)
    ensures forall x :: x in Filter(xs, keep) <==> x in xs && keep(x)
  {
    if xs != [] {
      FilterMembers(xs[1..], keep);
      assert xs == [xs[0]] + xs[1..];
    }
  }

  /** `filter` keeps every copy of an accepted element and none of a rejected one. */
  lemma {:induction false} FilterCounts<T(!new)>(xs: seq<T>, keep: T -> bool, x: T)
    ensures multiset(Filter(xs, keep))[x] == if keep(x) then multiset(xs)[x] else 0
  {
    if xs != [] {
      FilterCounts(xs[1..], keep, x);
      assert xs == [xs[0]] + xs[1..];
    }
  }

  /** Every position of `idx` moved one place to the right. */
  function Shift(idx: seq<int>): (r: seq<int>)
    ensures |r| == |idx|
    ensures forall k :: 0 <= k < |idx| ==> r[k] == idx[k] + 1
  {
    if idx == [] then [] else [idx[0] + 1] + Shift(idx[1..])
  }

  /** A position is in `Shift(idx)` exactly when the position before it is in `idx`. */
  lemma ShiftMember(idx: seq<int>, i: int)
    ensures i in Shift(idx) <==> i - 1 in idx
  {
    var sh := Shift(idx);
    if i - 1 in idx {
      var k :| 0 <= k < |idx| && idx[k] == i - 1;
      assert sh[k] == i;
    }
    if i in sh {
      var k :| 0 <= k < |sh| && sh[k] == i;
      assert idx[k] == i - 1;
    }
  }

  /** Positions picked from the tail of `xs` are positions of `xs`, one further on. */
  lemma PicksShift<T>(r: seq<T>, xs: seq<T>, idx: seq<int>)
    requires xs != [] && PicksAt(r, xs[1..], idx)
    ensures PicksAt(r, xs, Shift(idx))
  {
    var sh := Shift(idx);
    forall k | 0 <= k < |idx| ensures 0 <= sh[k] < |xs| && r[k] == xs[sh[k]] {
      assert xs[1..][idx[k]] == xs[idx[k] + 1];
    }
  }

  /** The head of `xs` can be picked in front of picks that all lie after it. */
  lemma PicksCons<T>(r: seq<T>, xs: seq<T>, idx: seq<int>)
    requires xs != [] && PicksAt(r, xs, idx)
    requires forall k :: 0 <= k < |idx| ==> idx[k] > 0
    ensures PicksAt([xs[0]] + r, xs, [0] + idx)
  {
    var r', idx' := [xs[0]] + r, [0] + idx;
    forall k | 0 < k < |idx'| ensures 0 <= idx'[k] < |xs| && r'[k] == xs[idx'[k]] {
      assert r'[k] == r[k - 1] && idx'[k] == idx[k - 1];
    }
    forall k, l | 0 <= k < l < |idx'| ensures idx'[k] < idx'[l] {
      assert idx'[l] == idx[l - 1];
      if k > 0 {
        assert idx'[k] == idx[k - 1];
      }
    }
  }

  /** The accepted positions of `xs` are the head, when it is accepted, followed by those of its tail moved one place right. */
  lemma KeptPositionsCons<T>(xs: seq<T>, keep: T -> bool, idx: seq<int>)
    requires xs != []
    requires forall k :: 0 <= k < |idx| ==> 0 <= idx[k]
    requires forall i :: 0 <= i < |xs[1..]| ==> (i in idx <==> keep(xs[1..][i]))
    ensures forall i :: 0 <= i < |xs| ==>
      (i in (if keep(xs[0]) then [0] + Shift(idx) else Shift(idx)) <==> keep(xs[i]))
  {
    var sh := Shift(idx);
    var pos := if keep(xs[0]) then [0] + sh else sh;
    forall i | 0 <= i < |xs| ensures i in pos <==> keep(xs[i]) {
      ShiftMember(idx, i);
      if i == 0 {
        assert -1 !in idx;
      } else {
        assert i - 1 in idx <==> keep(xs[1..][i - 1]);
        assert xs[1..][i - 1] == xs[i];
      }
    }
  }

  /** `r` is picked from `xs` at the positions `idx`, and those are exactly the positions whose element `keep` accepts. */
  ghost predicate SelectsExactly<T>(r: seq<T>, xs: seq<T>, keep: T -> bool, idx: seq<int>) {
    PicksAt(r, xs, idx) && forall i :: 0 <= i < |xs| ==> (i in idx <==> keep(xs[i]))
  }

  /** The result of `filter` is the subsequence of `xs` at exactly the accepted positions. */
  lemma {:induction false} FilterIsOrderedSelection<T(!new)>(xs: seq<T>, keep: T -> bool)
    ensures exists idx :: SelectsExactly(Filter(xs, keep), xs, keep, idx)
  {
    if xs == [] {
      assert Filter(xs, keep) == [];
      assert SelectsExactly([], xs, keep, []);
    } else {
      FilterIsOrderedSelection(xs[1..], keep);
      var rest := Filter(xs[1..], keep);
      var idx' :| SelectsExactly(rest, xs[1..], keep, idx');
      PicksShift(rest, xs, idx');
      var sh := Shift(idx');
      var idx := if keep(xs[0]) then [0] + sh else sh;
      if keep(xs[0]) {
        PicksCons(rest, xs, sh);
        assert Filter(xs, keep) == [xs[0]] + rest;
      } else {
        assert Filter(xs, keep) == rest;
      }
      KeptPositionsCons(xs, keep, idx');
      assert SelectsExactly(Filter(xs, keep), xs, keep, idx);
    }
  }

  /** Filtering a concatenation filters each part. */
  lemma {:induction false} FilterAppend<T(!new)>(xs: seq<T>, ys: seq<T>, keep: T -> bool)
    ensures Filter(xs + ys, keep) == Filter(xs, keep) + Filter(ys, keep)
  {
    if xs == [] {
      assert xs + ys == ys;
    } else {
      var zs := xs + ys;
      assert zs[0] == xs[0] && zs[1..] == xs[1..] + ys;
      var head := if keep(xs[0]) then [xs[0]] else [];
      assert Filter(zs, keep) == head + Filter(xs[1..] + ys, keep);
      FilterAppend(xs[1..], ys, keep);
      assert Filter(xs, keep) == head + Filter(xs[1..], keep);
    }
  }

  /** A sequence whose elements are all accepted passes `filter` unchanged. */
  lemma {:induction false} FilterAllKept<T(!new)>(xs: seq<T>, keep: T -> bool)
    requires forall x :: x in xs ==> keep(x)
    ensures Filter(xs, keep) == xs
  {
    if xs != [] {
      assert xs[0] in xs;
      FilterAllKept(xs[1..], keep);
      assert xs == [xs[0]] + xs[1..];
    }
  }

  /** Filtering twice with the same test is filtering once. */
  lemma FilterIdempotent<T(!new)>(xs: seq<T>, keep: T -> bool)
    ensures Filter(Filter(xs, keep), keep) == Filter(xs, keep)
  {
    FilterMembers(xs, keep);
    FilterAllKept(Filter(xs, keep), keep);
  }
}
