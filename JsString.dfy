/**
 * The JavaScript string operations the filter pipeline is built from:
 * `toLowerCase`, `trim`, `includes` and `Array.prototype.join`, over strings as
 * sequences of characters.
 */
module JsString {

  // ---------------------------------------------------------------------------
  // toLowerCase
  // ---------------------------------------------------------------------------

  /** Upper-case letters this model lowercases: ASCII A-Z and Latin-1 U+00C0..U+00DE except U+00D7. */
  predicate IsUpper(c: char) {
    ('A' <= c <= 'Z') || ('\U{00C0}' <= c <= '\U{00DE}' && c != '\U{00D7}')
  }

  /** One character of `toLowerCase`: an upper-case letter moves 32 code points down to its lower-case form. */
  function LowerChar(c: char): (r: char)
    ensures !IsUpper(r)
    ensures IsUpper(c) ==> r as int == c as int + 32
    ensures !IsUpper(c) ==> r == c
  {
    if IsUpper(c) then (c as int + 32) as char else c
  }

  /** `s.toLowerCase()`, character by character. */
  function Lower(s: string): (r: string)
    ensures |r| == |s|
    ensures forall i :: 0 <= i < |s| ==> r[i] == LowerChar(s[i])
  {
    seq(|s|, i requires 0 <= i < |s| => LowerChar(s[i]))
  }

  /** A string that `toLowerCase` leaves alone. */
  predicate IsLowerCase(s: string) {
    forall i :: 0 <= i < |s| ==> !IsUpper(s[i])
  }

  lemma LowerIsLowerCase(s: string)
    ensures IsLowerCase(Lower(s))
  {
  }

  lemma LowerOfLowerCase(s: string)
    requires IsLowerCase(s)
    ensures Lower(s) == s
  {
  }

  /** Lowercasing twice is lowercasing once. */
  lemma LowerIdempotent(s: string)
    ensures Lower(Lower(s)) == Lower(s)
  {
    LowerIsLowerCase(s);
    LowerOfLowerCase(Lower(s));
  }

  /** `toLowerCase` works on each piece of a concatenation separately. */
  lemma LowerAppend(a: string, b: string)
    ensures Lower(a + b) == Lower(a) + Lower(b)
  {
  }

  /** The only characters `toLowerCase` turns into the ASCII letter `c` are `c` and its capital. */
  lemma LowerCharPreimage(x: char, c: char)
    requires 'a' <= c <= 'z'
    ensures LowerChar(x) == c <==> x == c || x as int == c as int - 32
  {
  }

  // ---------------------------------------------------------------------------
  // trim
  // ---------------------------------------------------------------------------

  /**
   * The characters `String.prototype.trim` removes: the WhiteSpace and
   * LineTerminator code points of ECMAScript (sections 12.2 and 12.3 of
   * ECMA-262): tab, line feed, vertical tab, form feed, carriage return, space,
   * no-break space, the Unicode space separators, the line and paragraph
   * separators and the byte order mark.
   */
  predicate IsWhiteSpace(c: char) {
    var n := c as int;
    (9 <= n <= 13) || n == 0x20 || n == 0xA0 || n == 0x1680 || (0x2000 <= n <= 0x200A)
    || n == 0x2028 || n == 0x2029 || n == 0x202F || n == 0x205F || n == 0x3000 || n == 0xFEFF
  }

  /** Every character is white space (this includes the empty string). */
  predicate IsBlank(s: string) {
    forall i :: 0 <= i < |s| ==> IsWhiteSpace(s[i])
  }

  /** The position of the first character at or after `i` that is not white space (`|s|` if there is none). */
  function SkipForward(s: string, i: nat): (lo: nat)
    requires i <= |s|
    ensures i <= lo <= |s|
    ensures forall k :: i <= k < lo ==> IsWhiteSpace(s[k])
    ensures lo == |s| || !IsWhiteSpace(s[lo])
    decreases |s| - i
  {
    if i < |s| && IsWhiteSpace(s[i]) then SkipForward(s, i + 1) else i
  }

  /** The position just after the last character before `j` and at or after `lo` that is not white space (`lo` if there is none). */
  function SkipBackward(s: string, lo: nat, j: nat): (hi: nat)
    requires lo <= j <= |s|
    ensures lo <= hi <= j
    ensures forall k :: hi <= k < j ==> IsWhiteSpace(s[k])
    ensures hi == lo || !IsWhiteSpace(s[hi - 1])
  {
    if lo < j && IsWhiteSpace(s[j - 1]) then SkipBackward(s, lo, j - 1) else j
  }

  /** `r` is the slice of `s` starting at `lo`, and only white space lies outside it. */
  predicate TrimmedAt(s: string, r: string, lo: int) {
    0 <= lo && lo + |r| <= |s| && r == s[lo..lo + |r|]
    && (forall i :: 0 <= i < lo ==> IsWhiteSpace(s[i]))
    && (forall i :: lo + |r| <= i < |s| ==> IsWhiteSpace(s[i]))
  }

  /**
   * `s.trim()`: the longest slice of `s` that neither starts nor ends with white
   * space; only white space lies outside it.
   */
  function Trim(s: string): (r: string)
    ensures exists lo :: TrimmedAt(s, r, lo)
    ensures r == [] || (!IsWhiteSpace(r[0]) && !IsWhiteSpace(r[|r| - 1]))
    ensures r == [] <==> IsBlank(s)
  {
    var lo := SkipForward(s, 0);
    var hi := SkipBackward(s, lo, |s|);
    assert TrimmedAt(s, s[lo..hi], lo);
    s[lo..hi]
  }

  /** Trimming a string that neither starts nor ends with white space changes nothing. */
  lemma TrimOfTrimmed(s: string)
    requires s == [] || (!IsWhiteSpace(s[0]) && !IsWhiteSpace(s[|s| - 1]))
    ensures Trim(s) == s
  {
  }

  /** Trimming twice is trimming once. */
  lemma TrimIdempotent(s: string)
    ensures Trim(Trim(s)) == Trim(s)
  {
    TrimOfTrimmed(Trim(s));
  }

  // ---------------------------------------------------------------------------
  // includes
  // ---------------------------------------------------------------------------

  /** The window of `text` that starts at position `i` and is as long as `term` equals `term`. */
  predicate OccursAt(term: string, text: string, i: int) {
    0 <= i && i + |term| <= |text| && text[i..i + |term|] == term
  }

  /** `term` occurs in `text` as a contiguous block. */
  ghost predicate IsInfix(term: string, text: string) {
    exists i :: OccursAt(term, text, i)
  }

  /** `text[i + k..i + |term|]` agrees with `term[k..]`, compared character by character. */
  predicate AgreesFrom(text: string, term: string, i: nat, k: nat)
    requires i + |term| <= |text| && k <= |term|
    decreases |term| - k
  {
    k == |term| || (text[i + k] == term[k] && AgreesFrom(text, term, i, k + 1))
  }

  lemma AgreesFromIsSliceEquality(text: string, term: string, i: nat, k: nat)
    requires i + |term| <= |text| && k <= |term|
    ensures AgreesFrom(text, term, i, k) <==> text[i + k..i + |term|] == term[k..]
    decreases |term| - k
  {
    if k < |term| {
      AgreesFromIsSliceEquality(text, term, i, k + 1);
      assert text[i + k..i + |term|] == [text[i + k]] + text[i + k + 1..i + |term|];
      assert term[k..] == [term[k]] + term[k + 1..];
    }
  }

  /** Whether `term` starts at some position `j >= i` of `text`, scanning left to right. */
  function IncludesFrom(text: string, term: string, i: nat): (r: bool)
    requires i <= |text|
    ensures r <==> exists j :: i <= j && OccursAt(term, text, j)
    decreases |text| - i
  {
    if i + |term| > |text| then
      false
    else
      AgreesFromIsSliceEquality(text, term, i, 0);
      assert term[0..] == term;
      if AgreesFrom(text, term, i, 0) then
        assert OccursAt(term, text, i);
        true
      else
        i < |text| && IncludesFrom(text, term, i + 1)
  }

  /** `text.includes(term)`. */
  function Includes(text: string, term: string): (r: bool)
    ensures r <==> IsInfix(term, text)
  {
    IncludesFrom(text, term, 0)
  }

  /** The empty string occurs in every string. */
  lemma EmptyIsInfix(text: string)
    ensures IsInfix([], text)
  {
    assert OccursAt([], text, 0);
  }

  /** An infix of an infix is an infix. */
  lemma InfixTransitive(a: string, b: string, c: string)
    requires IsInfix(a, b) && IsInfix(b, c)
    ensures IsInfix(a, c)
  {
    var i :| OccursAt(a, b, i);
    var j :| OccursAt(b, c, j);
    forall k | 0 <= k < |a| ensures c[j + i..j + i + |a|][k] == a[k] {
      assert a[k] == b[i..i + |a|][k] == b[i + k];
      assert b[i + k] == c[j..j + |b|][i + k] == c[j + i + k];
    }
    assert c[j + i..j + i + |a|] == a;
    assert OccursAt(a, c, j + i);
  }

  /** A string occurs in any concatenation that contains it. */
  lemma InfixOfAppend(pre: string, s: string, post: string)
    ensures IsInfix(s, pre + s + post)
  {
    assert (pre + s + post)[|pre|..|pre| + |s|] == s;
    assert OccursAt(s, pre + s + post, |pre|);
  }

  /** Lowercasing keeps an infix an infix. */
  lemma LowerKeepsInfix(s: string, text: string)
    requires IsInfix(s, text)
    ensures IsInfix(Lower(s), Lower(text))
  {
    var i :| OccursAt(s, text, i);
    assert text == text[..i] + s + text[i + |s|..];
    LowerAppend(text[..i] + s, text[i + |s|..]);
    LowerAppend(text[..i], s);
    InfixOfAppend(Lower(text[..i]), Lower(s), Lower(text[i + |s|..]));
  }

  // ---------------------------------------------------------------------------
  // Array.prototype.join
  // ---------------------------------------------------------------------------

  /** The total length of the strings in `parts`. */
  function PartsLength(parts: seq<string>): nat {
    if parts == [] then 0 else |parts[0]| + PartsLength(parts[1..])
  }

  /** `parts.join(sep)`: the parts in order, with `sep` between neighbours, so one copy of `sep` fewer than there are parts. */
  function Join(parts: seq<string>, sep: string): (r: string)
    ensures parts == [] ==> r == []
    ensures parts != [] ==> |r| == PartsLength(parts) + (|parts| - 1) * |sep|
  {
    if parts == [] then []
    else if |parts| == 1 then parts[0]
    else parts[0] + sep + Join(parts[1..], sep)
  }

  /** Each part occurs in the joined string. */
  lemma {:induction false} PartIsInfixOfJoin(parts: seq<string>, sep: string, k: nat)
    requires k < |parts|
    ensures IsInfix(parts[k], Join(parts, sep))
  {
    if |parts| == 1 {
      InfixOfAppend([], parts[0], []);
      assert [] + parts[0] + [] == parts[0];
    } else if k == 0 {
      InfixOfAppend([], parts[0], sep + Join(parts[1..], sep));
      assert [] + parts[0] + (sep + Join(parts[1..], sep)) == Join(parts, sep);
    } else {
      PartIsInfixOfJoin(parts[1..], sep, k - 1);
      var rest := Join(parts[1..], sep);
      InfixOfAppend(parts[0] + sep, rest, []);
      assert parts[0] + sep + rest + [] == Join(parts, sep);
      InfixTransitive(parts[k], rest, Join(parts, sep));
    }
  }
}
