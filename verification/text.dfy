/**
 * The string operations the tracker applies to category text: `str.strip()`,
 * `str.title()` and `str.lower()`, and the code-point order Python uses to
 * compare strings. Letter case is modelled for the ASCII letters.
 */
module Text {

  /** The characters `str.isspace()` accepts, which `str.strip()` removes. */
  predicate IsWhitespace(c: char) {
    var n := c as int;
    || 9 <= n <= 13
    || 28 <= n <= 32
    || n == 0x85 || n == 0xA0 || n == 0x1680
    || 0x2000 <= n <= 0x200A
    || n == 0x2028 || n == 0x2029 || n == 0x202F || n == 0x205F || n == 0x3000
  }

  predicate IsUpper(c: char) { 'A' <= c <= 'Z' }
  predicate IsLower(c: char) { 'a' <= c <= 'z' }

  /** A cased character: one that has an upper- and a lower-case form. */
  predicate IsCased(c: char) { IsUpper(c) || IsLower(c) }

  function ToLower(c: char): char {
    if IsUpper(c) then (c as int + 32) as char else c
  }

  function ToUpper(c: char): char {
    if IsLower(c) then (c as int - 32) as char else c
  }

  /** `str.lower()`. */
  function Lower(s: string): string {
    seq(|s|, i requires 0 <= i < |s| => ToLower(s[i]))
  }

  /** Number of whitespace characters at the start of s. */
  function LeadingSpace(s: string): (n: nat)
    ensures n <= |s|
    ensures forall i :: 0 <= i < n ==> IsWhitespace(s[i])
    ensures n < |s| ==> !IsWhitespace(s[n])
  {
    if s == [] || !IsWhitespace(s[0]) then 0 else 1 + LeadingSpace(s[1..])
  }

  /** Number of whitespace characters at the end of s. */
  function TrailingSpace(s: string): (n: nat)
    ensures n <= |s|
    ensures forall i :: |s| - n <= i < |s| ==> IsWhitespace(s[i])
    ensures n < |s| ==> !IsWhitespace(s[|s| - 1 - n])
  {
    if s == [] || !IsWhitespace(s[|s| - 1]) then 0 else 1 + TrailingSpace(s[..|s| - 1])
  }

  /**
   * `str.strip()`: the part of s after its leading whitespace that neither
   * starts nor ends with whitespace; everything removed is whitespace.
   */
  function Strip(s: string): (r: string)
    ensures r == [] || (!IsWhitespace(r[0]) && !IsWhitespace(r[|r| - 1]))
    ensures LeadingSpace(s) + |r| <= |s| && r == s[LeadingSpace(s)..LeadingSpace(s) + |r|]
    ensures forall k :: LeadingSpace(s) + |r| <= k < |s| ==> IsWhitespace(s[k])
  {
    var lead := LeadingSpace(s);
    var t := s[lead..];
    var r := t[..|t| - TrailingSpace(t)];
    assert s[lead..lead + |r|] == r;
    r
  }

  /**
   * `str.title()` from a given state: a cased character is upper-cased when
   * the character before it is not cased, and lower-cased otherwise; other
   * characters are left alone.
   */
  function TitleFrom(s: string, afterCased: bool): string {
    if s == [] then []
    else [if afterCased then ToLower(s[0]) else ToUpper(s[0])] + TitleFrom(s[1..], IsCased(s[0]))
  }

  /** `str.title()`. */
  function Title(s: string): string {
    TitleFrom(s, false)
  }

  /** What the menu does to a category it reads: `.strip().title()`. */
  function Normalize(s: string): string {
    Title(Strip(s))
  }

  /** A category that normalising leaves unchanged, as every stored one is. */
  predicate IsNormalized(s: string) {
    Normalize(s) == s
  }

  /** title() changes letter case only: the text has the same length and the same lower-case form. */
  lemma {:induction false} TitleKeepsLower(s: string, afterCased: bool)
    ensures |TitleFrom(s, afterCased)| == |s|
    ensures Lower(TitleFrom(s, afterCased)) == Lower(s)
    ensures forall i :: 0 <= i < |s| ==> (IsWhitespace(TitleFrom(s, afterCased)[i]) <==> IsWhitespace(s[i]))
  {
    if s != [] {
      TitleKeepsLower(s[1..], IsCased(s[0]));
      var r := TitleFrom(s, afterCased);
      assert r == [r[0]] + TitleFrom(s[1..], IsCased(s[0]));
      forall i | 0 <= i < |s|
        ensures ToLower(r[i]) == ToLower(s[i])
        ensures IsWhitespace(r[i]) <==> IsWhitespace(s[i])
      {
        if i > 0 {
          assert r[i] == TitleFrom(s[1..], IsCased(s[0]))[i - 1];
          assert ToLower(r[i]) == Lower(TitleFrom(s[1..], IsCased(s[0])))[i - 1];
        }
      }
    }
  }

  /** The character at i starts a word for title(): no cased character comes before it. */
  predicate StartsWord(s: string, i: nat, afterCased: bool)
    requires i < |s|
  {
    if i == 0 then !afterCased else !IsCased(s[i - 1])
  }

  /**
   * What title() does to each character: a cased character that starts a
   * word is upper-cased, any other cased character is lower-cased, and every
   * other character is left as it is.
   */
  lemma {:induction false} TitleShape(s: string, afterCased: bool)
    ensures |TitleFrom(s, afterCased)| == |s|
    ensures forall i :: 0 <= i < |s| && IsCased(s[i]) ==>
      (IsUpper(TitleFrom(s, afterCased)[i]) <==> StartsWord(s, i, afterCased))
    ensures forall i :: 0 <= i < |s| && IsCased(s[i]) ==>
      ToLower(TitleFrom(s, afterCased)[i]) == ToLower(s[i])
    ensures forall i :: 0 <= i < |s| && !IsCased(s[i]) ==> TitleFrom(s, afterCased)[i] == s[i]
  {
    if s != [] {
      var r := TitleFrom(s, afterCased);
      var tail := TitleFrom(s[1..], IsCased(s[0]));
      TitleShape(s[1..], IsCased(s[0]));
      assert r == [r[0]] + tail;
      forall i | 0 < i < |s|
        ensures r[i] == tail[i - 1] && s[i] == s[1..][i - 1]
        ensures StartsWord(s, i, afterCased) == StartsWord(s[1..], i - 1, IsCased(s[0]))
      {
      }
    }
  }

  /** title() of a text depends only on its lower-case form. */
  lemma {:induction false} TitleDependsOnLower(a: string, b: string, afterCased: bool)
    requires Lower(a) == Lower(b)
    ensures TitleFrom(a, afterCased) == TitleFrom(b, afterCased)
  {
    if a != [] {
      assert ToLower(a[0]) == Lower(a)[0] == Lower(b)[0] == ToLower(b[0]);
      assert Lower(a[1..]) == Lower(a)[1..] == Lower(b)[1..] == Lower(b[1..]);
      TitleDependsOnLower(a[1..], b[1..], IsCased(a[0]));
    }
  }

  /** title() is idempotent. */
  lemma {:induction false} TitleIdempotent(s: string, afterCased: bool)
    ensures TitleFrom(TitleFrom(s, afterCased), afterCased) == TitleFrom(s, afterCased)
  {
    if s != [] {
      var r := TitleFrom(s, afterCased);
      assert r[1..] == TitleFrom(s[1..], IsCased(s[0]));
      assert IsCased(r[0]) == IsCased(s[0]);
      TitleIdempotent(s[1..], IsCased(s[0]));
    }
  }

  /** A text with no whitespace at either end is its own strip(). */
  lemma StripUnpadded(s: string)
    requires s == [] || (!IsWhitespace(s[0]) && !IsWhitespace(s[|s| - 1]))
    ensures Strip(s) == s
  {
    assert LeadingSpace(s) == 0;
    assert s[0..] == s;
    assert TrailingSpace(s) == 0;
  }

  lemma {:induction false} LeadingSpaceIs(s: string, n: nat)
    requires n < |s| && !IsWhitespace(s[n])
    requires forall i :: 0 <= i < n ==> IsWhitespace(s[i])
    ensures LeadingSpace(s) == n
  {
    if n > 0 {
      LeadingSpaceIs(s[1..], n - 1);
    }
  }

  lemma {:induction false} TrailingSpaceIs(s: string, n: nat)
    requires n < |s| && !IsWhitespace(s[|s| - 1 - n])
    requires forall i :: |s| - n <= i < |s| ==> IsWhitespace(s[i])
    ensures TrailingSpace(s) == n
  {
    if n > 0 {
      TrailingSpaceIs(s[..|s| - 1], n - 1);
    }
  }

  /** strip() removes exactly the whitespace around a text that has none at its ends. */
  lemma StripPadded(left: string, s: string, right: string)
    requires forall i :: 0 <= i < |left| ==> IsWhitespace(left[i])
    requires forall i :: 0 <= i < |right| ==> IsWhitespace(right[i])
    requires s != [] && !IsWhitespace(s[0]) && !IsWhitespace(s[|s| - 1])
    ensures Strip(left + s + right) == s
  {
    var line := left + s + right;
    assert line[|left|] == s[0];
    LeadingSpaceIs(line, |left|);
    var t := line[|left|..];
    assert t == s + right;
    assert t[|s| - 1] == s[|s| - 1];
    TrailingSpaceIs(t, |right|);
    assert t[..|t| - |right|] == s;
  }

  /** Normalising a category twice is the same as normalising it once. */
  lemma NormalizeIdempotent(s: string)
    ensures IsNormalized(Normalize(s))
  {
    var t := Strip(s);
    var n := Title(t);
    TitleKeepsLower(t, false);
    if n != [] {
      assert IsWhitespace(n[0]) <==> IsWhitespace(t[0]);
      assert IsWhitespace(n[|n| - 1]) <==> IsWhitespace(t[|t| - 1]);
    }
    StripUnpadded(n);
    TitleIdempotent(t, false);
  }

  /**
   * Two normalised categories that are equal ignoring case are equal: for
   * categories entered through the menu, the case-insensitive match and the
   * exact match agree.
   */
  lemma NormalizedCaseInsensitive(a: string, b: string)
    requires IsNormalized(a) && IsNormalized(b)
    ensures Lower(a) == Lower(b) <==> a == b
  {
    if Lower(a) == Lower(b) {
      TitleKeepsLower(Strip(a), false);
      TitleKeepsLower(Strip(b), false);
      TitleIdempotent(Strip(a), false);
      TitleIdempotent(Strip(b), false);
      TitleDependsOnLower(a, b, false);
    }
  }

  /** Python's string comparison: lexicographic by code point, a proper prefix first. */
  predicate TextBefore(a: string, b: string) {
    if a == [] then b != []
    else if b == [] then false
    else a[0] < b[0] || (a[0] == b[0] && TextBefore(a[1..], b[1..]))
  }

  lemma {:induction false} TextBeforeIrreflexive(a: string)
    ensures !TextBefore(a, a)
  {
    if a != [] {
      TextBeforeIrreflexive(a[1..]);
    }
  }

  lemma {:induction false} TextBeforeTransitive(a: string, b: string, c: string)
    requires TextBefore(a, b) && TextBefore(b, c)
    ensures TextBefore(a, c)
  {
    if a != [] && b != [] && c != [] && a[0] == b[0] == c[0] {
      TextBeforeTransitive(a[1..], b[1..], c[1..]);
    }
  }

  lemma {:induction false} TextBeforeTotal(a: string, b: string)
    requires a != b
    ensures TextBefore(a, b) || TextBefore(b, a)
  {
    if a != [] && b != [] && a[0] == b[0] {
      assert a == [a[0]] + a[1..] && b == [b[0]] + b[1..];
      TextBeforeTotal(a[1..], b[1..]);
    }
  }
}
