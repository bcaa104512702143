/**
 * The few `System.String` operations the plugins use, as functions on
 * `seq<char>`: ordinal substring search, `Replace`, and the decimal
 * rendering of integers done by `ToString()` and string interpolation.
 */
module Text {

  /** `p` occurs in `s` starting at index `i`. */
  predicate OccursAt(s: string, p: string, i: int) {
    0 <= i <= |s| - |p| && s[i..i + |p|] == p
  }

  /** `s.Contains(p)`, ordinal; every string contains the empty string. */
  predicate Contains(s: string, p: string) {
    exists i | 0 <= i <= |s| - |p| :: OccursAt(s, p, i)
  }

  /**
   * `s.Replace(p, r)`: scans left to right and replaces every
   * non-overlapping occurrence of `p` with `r`; a string that does not
   * contain the pattern comes back as it is. The pattern is never empty
   * in the plugins (an empty one makes the library throw).
   */
  function ReplaceAll(s: string, p: string, r: string): (t: string)
    requires |p| > 0
    ensures !Contains(s, p) ==> t == s
    decreases |s|
  {
    if |s| < |p| then s
    else if s[..|p|] == p then
      assert OccursAt(s, p, 0);
      r + ReplaceAll(s[|p|..], p, r)
    else
      AbsentInTail(s, p);
      [s[0]] + ReplaceAll(s[1..], p, r)
  }

  /** A pattern missing from a string is missing from its tail too. */
  lemma AbsentInTail(s: string, p: string)
    requires |s| > 0
    ensures !Contains(s, p) ==> !Contains(s[1..], p)
  {
    var t := s[1..];
    forall i | 0 <= i <= |t| - |p| && OccursAt(t, p, i) ensures OccursAt(s, p, i + 1) {
      assert t[i..i + |p|] == s[i + 1..i + 1 + |p|];
    }
  }

  /**
   * A string that starts with the pattern and has no other occurrence of
   * its first character becomes the replacement followed by the rest.
   */
  lemma ReplacePrefix(p: string, rest: string, r: string)
    requires |p| > 0 && p[0] !in rest
    ensures ReplaceAll(p + rest, p, r) == r + rest
  {
    var s := p + rest;
    assert s[..|p|] == p;
    assert s[|p|..] == rest;
    MissingFirstChar(rest, p);
  }

  /**
   * An occurrence of the pattern anywhere, with no other occurrence of its
   * first character before or after it, is replaced and the text around
   * it kept.
   */
  lemma ReplaceMiddle(a: string, p: string, b: string, r: string)
    requires |p| > 0 && p[0] !in a && p[0] !in b
    ensures ReplaceAll(a + p + b, p, r) == a + r + b
  {
    ReplaceAfter(a, p + b, p, r);
    ReplacePrefix(p, b, r);
    assert a + p + b == a + (p + b);
    assert a + (r + b) == a + r + b;
  }

  /** A prefix without the pattern's first character is kept as it is. */
  lemma {:induction false} ReplaceAfter(a: string, t: string, p: string, r: string)
    requires |p| > 0 && p[0] !in a
    ensures ReplaceAll(a + t, p, r) == a + ReplaceAll(t, p, r)
    decreases |a|
  {
    if a == [] {
      assert a + t == t;
    } else {
      HeadAndTail(a, p[0], t, ReplaceAll(t, p, r));
      ReplaceAfter(a[1..], t, p, r);
      ReplaceSkip(a[0], a[1..] + t, p, r);
    }
  }

  /** Splitting off the first character of a non-empty prefix. */
  lemma HeadAndTail(a: string, c: char, t: string, u: string)
    requires a != [] && c !in a
    ensures c !in a[1..]
    ensures a + t == [a[0]] + (a[1..] + t) && a + u == [a[0]] + (a[1..] + u)
  {
    assert forall i :: 0 <= i < |a| - 1 ==> a[1..][i] == a[i + 1];
  }

  /** A first character that does not start the pattern is kept as it is. */
  lemma ReplaceSkip(c: char, t: string, p: string, r: string)
    requires |p| > 0 && c != p[0]
    ensures ReplaceAll([c] + t, p, r) == [c] + ReplaceAll(t, p, r)
  {
    var s := [c] + t;
    assert s[1..] == t;
    if |s| >= |p| {
      assert s[..|p|][0] == c;
    }
  }

  /** A string without the pattern's first character cannot contain the pattern. */
  lemma MissingFirstChar(s: string, p: string)
    requires |p| > 0 && p[0] !in s
    ensures !Contains(s, p)
  {
    forall i ensures !OccursAt(s, p, i) {
      if 0 <= i <= |s| - |p| {
        assert s[i..i + |p|][0] == s[i];
      }
    }
  }

  /** A text between two others occurs in the whole. */
  lemma ContainsMiddle(a: string, x: string, b: string)
    ensures Contains(a + x + b, x)
  {
    var s := a + x + b;
    assert s[|a|..|a| + |x|] == x;
    assert OccursAt(s, x, |a|);
  }

  /** A text that occurs in a string occurs in every string that starts with it. */
  lemma ContainsExtended(s: string, rest: string, p: string)
    requires Contains(s, p)
    ensures Contains(s + rest, p)
  {
    var k :| 0 <= k <= |s| - |p| && OccursAt(s, p, k);
    assert (s + rest)[k..k + |p|] == s[k..k + |p|];
    assert OccursAt(s + rest, p, k);
  }

  /** The character for a decimal digit. */
  function DigitChar(d: nat): char
    requires d < 10
  {
    ('0' as int + d) as char
  }

  /** `n.ToString()` for a non-negative integer: its decimal digits, no leading zero. */
  function NatToString(n: nat): (s: string)
    ensures |s| > 0
    ensures forall i :: 0 <= i < |s| ==> '0' <= s[i] <= '9'
    decreases n
  {
    if n < 10 then [DigitChar(n)] else NatToString(n / 10) + [DigitChar(n % 10)]
  }

  /** `n.ToString()` for any integer: a minus sign before the digits of a negative number. */
  function IntToString(n: int): string {
    if n < 0 then "-" + NatToString(-n) else NatToString(n)
  }

  /** The number a string of decimal digits denotes. */
  function DecimalValue(s: string): nat
    requires forall i :: 0 <= i < |s| ==> '0' <= s[i] <= '9'
  {
    if s == [] then 0 else 10 * DecimalValue(s[..|s| - 1]) + (s[|s| - 1] as int - '0' as int)
  }

  /** Reading back the rendered digits gives the number again. */
  lemma {:induction false} NatToStringRoundTrip(n: nat)
    ensures DecimalValue(NatToString(n)) == n
  {
    if n >= 10 {
      NatToStringRoundTrip(n / 10);
      var s := NatToString(n);
      assert s[..|s| - 1] == NatToString(n / 10);
    }
  }

  // ------------------------------------------------------------ length

  /**
   * A .NET string's `Length`: it counts UTF-16 code units, so a character
   * outside the Basic Multilingual Plane counts twice.
   */
  function Utf16Length(s: string): (r: nat)
    ensures |s| <= r <= 2 * |s|
    ensures r == |s| <==> forall i :: 0 <= i < |s| ==> s[i] as int < 0x10000
    decreases |s|
  {
    if s == [] then 0
    else
      assert forall i :: 1 <= i < |s| ==> s[i] == s[1..][i - 1];
      (if s[0] as int < 0x10000 then 1 else 2) + Utf16Length(s[1..])
  }

  /** The code units of two strings one after the other. */
  lemma {:induction false} Utf16Append(a: string, b: string)
    ensures Utf16Length(a + b) == Utf16Length(a) + Utf16Length(b)
    decreases |a|
  {
    if a == [] {
      assert a + b == b;
    } else {
      assert (a + b)[1..] == a[1..] + b;
      Utf16Append(a[1..], b);
    }
  }

  /** An emoji after four letters is five characters but six code units. */
  lemma SurrogatePairLength()
    ensures |"ABCD\U{1F600}"| == 5 && Utf16Length("ABCD\U{1F600}") == 6
  {
    var s := "ABCD\U{1F600}";
    assert s[1..][1..][1..][1..] == "\U{1F600}";
  }
}
