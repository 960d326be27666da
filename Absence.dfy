/**
 * When a search term cannot occur in a lowercased text.
 *
 * A text that is "clean" for a term neither contains the term nor ends in a
 * proper prefix of it. Cleanness survives concatenation and `join`, so it can
 * be established piece by piece: a piece that lacks the term's first letter in
 * either case is clean, and so is a piece in which no three neighbouring
 * characters spell a three-letter term.
 */
module Absence {
  import opened JsString

  /** A lower-case ASCII letter. */
  predicate IsAsciiLower(c: char) {
    'a' <= c <= 'z'
  }

  /** The characters `toLowerCase` turns into the ASCII letter `c`: the letter and its capital. */
  function Cased(c: char): (r: set<char>)
    requires IsAsciiLower(c)
    ensures forall x :: x in r <==> LowerChar(x) == c
  {
    var up := (c as int - 32) as char;
    assert forall x :: LowerChar(x) == c <==> x == c || x == up by {
      forall x ensures LowerChar(x) == c <==> x == c || x == up {
        LowerCharPreimage(x, c);
      }
    }
    {c, up}
  }

  /** No character of `s` is in `bad`. */
  predicate Avoids(s: string, bad: set<char>) {
    forall i :: 0 <= i < |s| ==> s[i] !in bad
  }

  /**
   * No three neighbouring characters of `s` are in `a`, `b` and `c` in that
   * order, its last character is not in `a`, and its last two are not in `a`
   * and `b`.
   */
  predicate LacksWindow(s: string, a: set<char>, b: set<char>, c: set<char>) {
    (forall i :: 0 <= i < |s| - 2 ==> !(s[i] in a && s[i + 1] in b && s[i + 2] in c))
    && (|s| >= 1 ==> s[|s| - 1] !in a)
    && (|s| >= 2 ==> !(s[|s| - 2] in a && s[|s| - 1] in b))
  }

  /** No proper suffix of `x` shorter than `t` is a prefix of `t`. */
  ghost predicate NoBorder(x: string, t: string) {
    forall i :: 0 <= i < |x| && |x| - i < |t| ==> x[i..] != t[..|x| - i]
  }

  /** `t` does not occur in `x`, nor does `x` end in a proper prefix of `t`. */
  ghost predicate CleanLower(x: string, t: string) {
    !IsInfix(t, x) && NoBorder(x, t)
  }

  /** The lowercased `s` is clean for `t`. */
  ghost predicate Clean(s: string, t: string) {
    CleanLower(Lower(s), t)
  }

  /** An occurrence in `x + y` lies inside `x`, inside `y`, or starts in a suffix of `x` that is a prefix of `t`. */
  lemma OccurrenceInAppend(x: string, y: string, t: string, j: int)
    requires OccursAt(t, x + y, j)
    ensures OccursAt(t, x, j) || OccursAt(t, y, j - |x|) || (j < |x| < j + |t| && x[j..] == t[..|x| - j])
  {
    var xy := x + y;
    if j + |t| <= |x| {
      assert xy[j..j + |t|] == x[j..j + |t|];
    } else if j >= |x| {
      assert xy[j..j + |t|] == y[j - |x|..j - |x| + |t|];
    } else {
      forall k | 0 <= k < |x| - j ensures x[j..][k] == t[..|x| - j][k] {
        assert x[j + k] == xy[j..j + |t|][k];
      }
    }
  }

  /** A suffix of `x + y` shorter than `t` that is a prefix of `t` lies in `y` or starts with such a suffix of `x`. */
  lemma BorderInAppend(x: string, y: string, t: string, i: int)
    requires 0 <= i < |x + y| && |x + y| - i < |t| && (x + y)[i..] == t[..|x + y| - i]
    ensures (i >= |x| && y[i - |x|..] == t[..|y| - (i - |x|)]) || (i < |x| && x[i..] == t[..|x| - i])
  {
    var xy := x + y;
    if i >= |x| {
      assert xy[i..] == y[i - |x|..];
    } else {
      forall k | 0 <= k < |x| - i ensures x[i..][k] == t[..|x| - i][k] {
        assert x[i + k] == xy[i..][k];
      }
    }
  }

  /** Cleanness survives concatenation. */
  lemma CleanLowerAppend(x: string, y: string, t: string)
    requires CleanLower(x, t) && CleanLower(y, t)
    ensures CleanLower(x + y, t)
  {
    if IsInfix(t, x + y) {
      var j :| OccursAt(t, x + y, j);
      OccurrenceInAppend(x, y, t, j);
      assert false;
    }
    forall i | 0 <= i < |x + y| && |x + y| - i < |t| ensures (x + y)[i..] != t[..|x + y| - i] {
      if (x + y)[i..] == t[..|x + y| - i] {
        BorderInAppend(x, y, t, i);
        assert false;
      }
    }
  }

  /** Cleanness survives concatenation before lowercasing. */
  lemma CleanAppend(a: string, b: string, t: string)
    requires Clean(a, t) && Clean(b, t)
    ensures Clean(a + b, t)
  {
    LowerAppend(a, b);
    CleanLowerAppend(Lower(a), Lower(b), t);
  }

  /** Joining clean parts with a clean separator gives a clean text. */
  lemma {:induction false} CleanJoin(parts: seq<string>, sep: string, t: string)
    requires forall k :: 0 <= k < |parts| ==> Clean(parts[k], t)
    requires Clean(sep, t)
    ensures Clean(Join(parts, sep), t)
  {
    if parts == [] {
      EmptyIsInfix(Lower(sep));
      assert t != [];
    } else if |parts| > 1 {
      CleanJoin(parts[1..], sep, t);
      CleanAppend(parts[0], sep, t);
      CleanAppend(parts[0] + sep, Join(parts[1..], sep), t);
    }
  }

  /** A text without the first letter of `t`, in either case, is clean for `t`. */
  lemma AvoidsClean(s: string, t: string)
    requires t != [] && IsAsciiLower(t[0]) && Avoids(s, Cased(t[0]))
    ensures Clean(s, t)
  {
    var x := Lower(s);
    forall i | 0 <= i < |x| && |x| - i < |t| ensures x[i..] != t[..|x| - i] {
      assert x[i..][0] == x[i];
    }
  }

  /** A text in which no three neighbouring characters spell the three-letter `t` (in any case) is clean for `t`. */
  lemma WindowClean(s: string, t: string)
    requires |t| == 3 && IsAsciiLower(t[0]) && IsAsciiLower(t[1]) && IsAsciiLower(t[2])
    requires LacksWindow(s, Cased(t[0]), Cased(t[1]), Cased(t[2]))
    ensures Clean(s, t)
  {
    var x := Lower(s);
    forall i | 0 <= i < |x| && |x| - i < |t| ensures x[i..] != t[..|x| - i] {
      assert x[i..][0] == x[i];
      if |x| - i == 2 {
        assert x[i..][1] == x[i + 1];
      }
    }
  }

  /** A text clean for `t` contains no term that contains `t`. */
  lemma CleanExcludes(s: string, t: string, term: string)
    requires Clean(s, t) && IsInfix(t, term)
    ensures !IsInfix(term, Lower(s))
  {
    if IsInfix(term, Lower(s)) {
      InfixTransitive(t, term, Lower(s));
    }
  }
}
