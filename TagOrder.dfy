/**
 * The order `Array.prototype.sort()` puts strings in when no comparator is given
 * (code unit by code unit; a proper prefix sorts first), a sort by that order,
 * and the first-occurrence de-duplication that `Array.from(new Set(xs))` performs.
 */
module TagOrder {

  // ---------------------------------------------------------------------------
  // The default sort order
  // ---------------------------------------------------------------------------

  /** `a` sorts strictly before `b`: at the first position where they differ `a` has the smaller character, or `a` is a proper prefix of `b`. */
  predicate Below(a: string, b: string): (r: bool)
    ensures |a| < |b| && a == b[..|a|] ==> r
    ensures r ==> !(|b| <= |a| && b == a[..|b|])
  {
    if a == [] then b != []
    else if b == [] then false
    else if a[0] != b[0] then a[0] < b[0]
    else Below(a[1..], b[1..])
  }

  /** `a` sorts before `b` or equals it. */
  predicate AtMost(a: string, b: string) {
    a == b || Below(a, b)
  }

  lemma {:induction false} BelowIrreflexive(a: string)
    ensures !Below(a, a)
  {
    if a != [] {
      BelowIrreflexive(a[1..]);
    }
  }

  lemma {:induction false} BelowTransitive(a: string, b: string, c: string)
    requires Below(a, b) && Below(b, c)
    ensures Below(a, c)
  {
    if a != [] && a[0] == b[0] && b[0] == c[0] {
      BelowTransitive(a[1..], b[1..], c[1..]);
    }
  }

  /** Any two different strings are ordered one way or the other. */
  lemma {:induction false} BelowTotal(a: string, b: string)
    requires a != b
    ensures Below(a, b) || Below(b, a)
  {
    if a != [] && b != [] && a[0] == b[0] {
      assert a == [a[0]] + a[1..] && b == [b[0]] + b[1..];
      BelowTotal(a[1..], b[1..]);
    }
  }

  lemma {:induction false} BelowAsymmetric(a: string, b: string)
    requires Below(a, b)
    ensures !Below(b, a)
  {
    if Below(b, a) {
      BelowTransitive(a, b, a);
      BelowIrreflexive(a);
    }
  }

  // ---------------------------------------------------------------------------
  // Sortedness and distinctness
  // ---------------------------------------------------------------------------

  /** No later element sorts before an earlier one. */
  predicate Sorted(s: seq<string>) {
    forall i, j :: 0 <= i < j < |s| ==> AtMost(s[i], s[j])
  }

  /** Every earlier element sorts strictly before every later one. */
  predicate StrictlySorted(s: seq<string>) {
    forall i, j :: 0 <= i < j < |s| ==> Below(s[i], s[j])
  }

  /** No element occurs twice. */
  predicate Distinct(s: seq<string>) {
    forall i, j :: 0 <= i < j < |s| ==> s[i] != s[j]
  }

  /** Each element sorts strictly before its right neighbour. */
  predicate AdjacentBelow(s: seq<string>) {
    forall i :: 0 <= i < |s| - 1 ==> Below(s[i], s[i + 1])
  }

  /** Strict order between neighbours extends to all pairs. */
  lemma {:induction false} AdjacentBelowIsStrictlySorted(s: seq<string>)
    requires AdjacentBelow(s)
    ensures StrictlySorted(s)
  {
    if |s| > 1 {
      AdjacentBelowIsStrictlySorted(s[1..]);
      forall i, j | 0 <= i < j < |s| ensures Below(s[i], s[j]) {
        if i > 0 {
          assert s[1..][i - 1] == s[i] && s[1..][j - 1] == s[j];
        } else if j > 1 {
          assert s[1..][0] == s[1] && s[1..][j - 1] == s[j];
          BelowTransitive(s[0], s[1], s[j]);
        }
      }
    }
  }

  /** An element strictly below the head of a strictly sorted sequence can go in front of it. */
  lemma StrictlySortedCons(x: string, s: seq<string>)
    requires StrictlySorted(s) && (s == [] || Below(x, s[0]))
    ensures StrictlySorted([x] + s)
  {
    forall j | 0 < j < |s| ensures Below(x, s[j]) {
      BelowTransitive(x, s[0], s[j]);
    }
  }

  /** Two strictly sorted sequences, the first ending below the start of the second, join into a strictly sorted one. */
  lemma StrictlySortedAppend(a: seq<string>, b: seq<string>)
    requires StrictlySorted(a) && StrictlySorted(b)
    requires a != [] && b != [] ==> Below(a[|a| - 1], b[0])
    ensures StrictlySorted(a + b)
  {
    var s := a + b;
    forall i, j | 0 <= i < |a| <= j < |s| ensures Below(s[i], s[j]) {
      if i < |a| - 1 {
        BelowTransitive(a[i], a[|a| - 1], b[0]);
      }
      if j > |a| {
        BelowTransitive(s[i], b[0], b[j - |a|]);
      }
    }
  }

  /** A strictly sorted sequence has no duplicates. */
  lemma StrictlySortedIsDistinct(s: seq<string>)
    requires StrictlySorted(s)
    ensures Distinct(s)
  {
    forall i, j | 0 <= i < j < |s| ensures s[i] != s[j] {
      BelowIrreflexive(s[i]);
    }
  }

  /** A sorted sequence without duplicates is strictly sorted. */
  lemma SortedDistinctIsStrictlySorted(s: seq<string>)
    requires Sorted(s) && Distinct(s)
    ensures StrictlySorted(s)
  {
  }

  /** A distinct sequence holds each value at most once. */
  lemma {:induction false} DistinctCounts(s: seq<string>, x: string)
    requires Distinct(s)
    ensures multiset(s)[x] <= 1
  {
    if s != [] {
      var init := s[..|s| - 1];
      assert s == init + [s[|s| - 1]];
      assert Distinct(init);
      DistinctCounts(init, x);
      if x == s[|s| - 1] {
        assert x !in init;
      }
    }
  }

  /** A value at two positions is counted at least twice. */
  lemma RepeatCounts(s: seq<string>, i: nat, j: nat)
    requires i < j < |s| && s[i] == s[j]
    ensures multiset(s)[s[j]] >= 2
  {
    assert s == s[..j] + s[j..];
    assert s[..j][i] == s[j] && s[j..][0] == s[j];
  }

  /** A sequence that holds each value at most once is distinct. */
  lemma CountsDistinct(s: seq<string>)
    requires forall x :: multiset(s)[x] <= 1
    ensures Distinct(s)
  {
    forall i, j | 0 <= i < j < |s| ensures s[i] != s[j] {
      if s[i] == s[j] {
        RepeatCounts(s, i, j);
        assert false;
      }
    }
  }

  /** Rearranging a distinct sequence keeps it distinct. */
  lemma PermutationKeepsDistinct(s: seq<string>, t: seq<string>)
    requires Distinct(s) && multiset(s) == multiset(t)
    ensures Distinct(t)
  {
    forall x ensures multiset(t)[x] <= 1 {
      DistinctCounts(s, x);
    }
    CountsDistinct(t);
  }

  /** A strictly sorted sequence is fixed by its elements. */
  lemma {:induction false} StrictlySortedUnique(s: seq<string>, t: seq<string>)
    requires StrictlySorted(s) && StrictlySorted(t)
    requires forall x :: x in s <==> x in t
    ensures s == t
  {
    assert s != [] ==> s[0] in t;
    assert t != [] ==> t[0] in s;
    if s != [] {
      // The first elements are the least of each; being members of both, they coincide.
      if s[0] != t[0] {
        assert t[0] in s && s[0] in t;
        var i :| 0 <= i < |s| && s[i] == t[0];
        var j :| 0 <= j < |t| && t[j] == s[0];
        assert i > 0 && j > 0;
        BelowAsymmetric(s[0], s[i]);
      }
      assert s == [s[0]] + s[1..] && t == [t[0]] + t[1..];
      BelowIrreflexive(s[0]);
      forall x ensures x in s[1..] <==> x in t[1..] {
        if x in s[1..] {
          var i :| 0 <= i < |s[1..]| && s[1..][i] == x;
          assert Below(s[0], s[i + 1]);
          assert x != t[0] && x in t;
          assert x in t[1..];
        }
        if x in t[1..] {
          var j :| 0 <= j < |t[1..]| && t[1..][j] == x;
          assert Below(t[0], t[j + 1]);
          assert x != s[0] && x in s;
          assert x in s[1..];
        }
      }
      StrictlySortedUnique(s[1..], t[1..]);
    }
  }

  // ---------------------------------------------------------------------------
  // Sorting
  // ---------------------------------------------------------------------------

  /** An element below the head of a sorted sequence can go in front of it. */
  lemma SortedCons(x: string, s: seq<string>)
    requires Sorted(s) && s != [] && Below(x, s[0])
    ensures Sorted([x] + s)
  {
    forall j | 0 <= j < |s| ensures Below(x, s[j]) {
      if s[0] != s[j] {
        BelowTransitive(x, s[0], s[j]);
      }
    }
  }

  /** The head of a sorted sequence can stay in front of any rearrangement of its tail with `x` added, when `x` is not below it. */
  lemma SortedConsBehind(x: string, s: seq<string>, rest: seq<string>)
    requires Sorted(s) && s != [] && !Below(x, s[0])
    requires Sorted(rest) && multiset(rest) == multiset(s[1..]) + multiset{x}
    ensures Sorted([s[0]] + rest)
  {
    if s[0] != x {
      BelowTotal(s[0], x);
    }
    forall j | 0 <= j < |rest| ensures AtMost(s[0], rest[j]) {
      assert rest[j] in multiset(rest);
      if rest[j] != x {
        assert rest[j] in multiset(s[1..]);
        var k :| 0 <= k < |s[1..]| && s[1..][k] == rest[j];
        assert s[k + 1] == rest[j];
      }
    }
  }

  /** `x` placed into sorted `s` before the first element it sorts strictly below. */
  function Insert(x: string, s: seq<string>): (r: seq<string>)
    requires Sorted(s)
    ensures Sorted(r)
    ensures multiset(r) == multiset(s) + multiset{x}
  {
    if s == [] then [x]
    else if Below(x, s[0]) then
      SortedCons(x, s);
      [x] + s
    else
      var rest := Insert(x, s[1..]);
      SortedConsBehind(x, s, rest);
      assert s == [s[0]] + s[1..];
      [s[0]] + rest
  }

  /** The elements of `s` in sorted order. */
  function Sort(s: seq<string>): (r: seq<string>)
    ensures Sorted(r)
    ensures multiset(r) == multiset(s)
  {
    if s == [] then []
    else
      assert s == [s[0]] + s[1..];
      Insert(s[0], Sort(s[1..]))
  }

  // ---------------------------------------------------------------------------
  // De-duplication
  // ---------------------------------------------------------------------------

  /** The elements of `s` without repeats, each where it first occurs. */
  function Dedup(s: seq<string>): (r: seq<string>)
    ensures Distinct(r)
    ensures forall x :: x in r <==> x in s
    ensures |r| <= |s|
  {
    if s == [] then []
    else
      var init := s[..|s| - 1];
      var last := s[|s| - 1];
      var d := Dedup(init);
      assert s == init + [last];
      if last in d then d else d + [last]
  }

  /** The position where `x` first occurs in `s`. */
  function FirstIndex(s: seq<string>, x: string): (i: nat)
    requires x in s
    ensures i < |s| && s[i] == x
    ensures forall k :: 0 <= k < i ==> s[k] != x
  {
    if s[0] == x then 0 else 1 + FirstIndex(s[1..], x)
  }

  /** Appending an element moves no first occurrence, and the first occurrence of a new element is at the end. */
  lemma FirstIndexAppend(a: seq<string>, y: string, x: string)
    requires x in a + [y]
    ensures x in a ==> FirstIndex(a + [y], x) == FirstIndex(a, x)
    ensures x !in a ==> FirstIndex(a + [y], x) == |a|
  {
    var ay := a + [y];
    var i := FirstIndex(ay, x);
    if x in a {
      var j := FirstIndex(a, x);
      assert ay[j] == x;
    } else {
      assert forall k :: 0 <= k < |a| ==> ay[k] != x;
    }
  }

  /** `Dedup` lists the elements in the order of their first occurrences in `s`. */
  lemma {:induction false} DedupInFirstOccurrenceOrder(s: seq<string>)
    ensures forall i, j :: 0 <= i < j < |Dedup(s)| ==> FirstIndex(s, Dedup(s)[i]) < FirstIndex(s, Dedup(s)[j])
  {
    if s != [] {
      var init := s[..|s| - 1];
      var last := s[|s| - 1];
      assert s == init + [last];
      var d := Dedup(init);
      var r := Dedup(s);
      DedupInFirstOccurrenceOrder(init);
      forall i, j | 0 <= i < j < |r| ensures FirstIndex(s, r[i]) < FirstIndex(s, r[j]) {
        FirstIndexAppend(init, last, r[i]);
        FirstIndexAppend(init, last, r[j]);
        if j < |d| {
          assert r[i] == d[i] && r[j] == d[j];
        } else {
          assert r[i] == d[i] && r[j] == last;
        }
      }
    }
  }
}
