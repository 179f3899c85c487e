/** The Python string operations the service relies on, restricted to ASCII:
    `str.isspace`, `str.lower`, `str.split()` with no separator, `"".join`,
    and `str(n)` for integers. */
module Text {
  import opened Base

  /** The ASCII characters Python treats as whitespace: tab, line feed,
      vertical tab, form feed, carriage return, the four separators
      0x1C..0x1F and the space. */
  predicate IsWhitespace(c: char) {
    9 <= c as int <= 13 || 28 <= c as int <= 32
  }

  /** `s.isspace()`: at least one character, and all of them whitespace. */
  predicate IsSpace(s: string) {
    |s| > 0 && forall i :: 0 <= i < |s| ==> IsWhitespace(s[i])
  }

  /** `not s or s.isspace()` for a string that may be `None`. */
  predicate IsBlank(s: Option<string>) {
    s.None? || s.value == "" || IsSpace(s.value)
  }

  /** True when no character of `s` is whitespace. */
  predicate WhitespaceFree(s: string) {
    forall i :: 0 <= i < |s| ==> !IsWhitespace(s[i])
  }

  /** True when no character of `s` is an upper-case ASCII letter. */
  predicate LowerCase(s: string) {
    forall i :: 0 <= i < |s| ==> !('A' <= s[i] <= 'Z')
  }

  function LowerChar(c: char): char {
    if 'A' <= c <= 'Z' then (c as int + 32) as char else c
  }

  /** `s.lower()` on ASCII text. */
  function ToLower(s: string): (r: string)
    ensures |r| == |s|
    ensures LowerCase(r)
    ensures forall i :: 0 <= i < |s| ==> IsWhitespace(r[i]) == IsWhitespace(s[i])
  {
    seq(|s|, i requires 0 <= i < |s| => LowerChar(s[i]))
  }

  /** `s` with every whitespace character taken out, the rest in order. */
  function RemoveWhitespace(s: string): (r: string)
    ensures WhitespaceFree(r)
    ensures |r| <= |s|
  {
    if s == [] then []
    else if IsWhitespace(s[0]) then RemoveWhitespace(s[1..])
    else [s[0]] + RemoveWhitespace(s[1..])
  }

  /** Length of the run of non-whitespace characters that starts `s`. */
  function WordLength(s: string): (n: nat)
    ensures n <= |s|
    ensures forall i :: 0 <= i < n ==> !IsWhitespace(s[i])
    ensures n < |s| ==> IsWhitespace(s[n])
  {
    if s == [] || IsWhitespace(s[0]) then 0 else 1 + WordLength(s[1..])
  }

  /** `s.split()`: the maximal runs of non-whitespace characters, in order. */
  function Split(s: string): (r: seq<string>)
    ensures forall k :: 0 <= k < |r| ==> r[k] != "" && WhitespaceFree(r[k])
    decreases |s|
  {
    if s == [] then []
    else if IsWhitespace(s[0]) then Split(s[1..])
    else
      var n := WordLength(s);
      [s[..n]] + Split(s[n..])
  }

  /** `"".join(words)`. */
  function Join(words: seq<string>): string {
    if words == [] then "" else words[0] + Join(words[1..])
  }

  /** `str(n)` for a natural number: its decimal digits, most significant first. */
  function NatToString(n: nat): (r: string)
    ensures |r| > 0
    ensures forall i :: 0 <= i < |r| ==> '0' <= r[i] <= '9'
    decreases n
  {
    if n < 10 then [DigitChar(n)] else NatToString(n / 10) + [DigitChar(n % 10)]
  }

  function DigitChar(d: nat): (c: char)
    requires d < 10
    ensures '0' <= c <= '9'
  {
    ('0' as int + d) as char
  }

  /** `str(n)` for an integer: a minus sign before the digits when negative. */
  function IntToString(n: int): string {
    if n < 0 then "-" + NatToString(-n) else NatToString(n)
  }

  /** The value of a string of decimal digits. */
  function DigitsValue(s: string): int
    decreases |s|
  {
    if s == [] then 0 else DigitsValue(s[..|s| - 1]) * 10 + (s[|s| - 1] as int - '0' as int)
  }

  // ---------------------------------------------------------------------------
  // Lemmas

  /** `str(n)` is read back as `n`: the decimal rendering loses nothing. */
  lemma {:induction false} NatToStringRoundTrip(n: nat)
    ensures DigitsValue(NatToString(n)) == n
  {
    if n >= 10 {
      var s := NatToString(n);
      assert s[..|s| - 1] == NatToString(n / 10);
      NatToStringRoundTrip(n / 10);
    }
  }

  /** The rendering starts with a minus sign exactly for negative numbers. */
  lemma IntToStringSign(n: int)
    ensures |IntToString(n)| > 0
    ensures IntToString(n)[0] == '-' <==> n < 0
  {
  }

  /** Distinct integers render differently. */
  lemma IntToStringInjective(a: int, b: int)
    requires IntToString(a) == IntToString(b)
    ensures a == b
  {
    IntToStringSign(a);
    IntToStringSign(b);
    if a < 0 && b < 0 {
      assert NatToString(-a) == IntToString(a)[1..];
      assert NatToString(-b) == IntToString(b)[1..];
      NatToStringRoundTrip(-a);
      NatToStringRoundTrip(-b);
    } else if a >= 0 && b >= 0 {
      NatToStringRoundTrip(a);
      NatToStringRoundTrip(b);
    }
  }

  /** The first word of `s`, taken out of `s`, is exactly the leading run of
      non-whitespace characters. */
  lemma {:induction false} RemoveWhitespaceWord(s: string)
    ensures RemoveWhitespace(s) == s[..WordLength(s)] + RemoveWhitespace(s[WordLength(s)..])
    decreases |s|
  {
    if s == [] || IsWhitespace(s[0]) {
      assert s[..0] == [] && s[0..] == s;
    } else {
      var m := WordLength(s[1..]);
      RemoveWhitespaceWord(s[1..]);
      assert s[1..][..m] == s[1..m + 1];
      assert s[1..][m..] == s[m + 1..];
      assert [s[0]] + s[1..m + 1] == s[..m + 1];
    }
  }

  /** `"".join(s.split())` removes every whitespace character and keeps the
      rest in order. */
  lemma {:induction false} JoinSplit(s: string)
    ensures Join(Split(s)) == RemoveWhitespace(s)
    decreases |s|
  {
    if s == [] {
    } else if IsWhitespace(s[0]) {
      JoinSplit(s[1..]);
    } else {
      var n := WordLength(s);
      var rest := Split(s[n..]);
      assert Split(s) == [s[..n]] + rest;
      assert ([s[..n]] + rest)[1..] == rest;
      JoinSplit(s[n..]);
      RemoveWhitespaceWord(s);
    }
  }

  /** Taking whitespace out distributes over concatenation. */
  lemma {:induction false} RemoveWhitespaceAppend(a: string, b: string)
    ensures RemoveWhitespace(a + b) == RemoveWhitespace(a) + RemoveWhitespace(b)
    decreases |a|
  {
    if a != [] {
      assert (a + b)[0] == a[0];
      assert (a + b)[1..] == a[1..] + b;
      RemoveWhitespaceAppend(a[1..], b);
    } else {
      assert a + b == b;
    }
  }

  /** Only whitespace is taken out: a whitespace-free string is kept whole. */
  lemma {:induction false} RemoveWhitespaceOfFree(s: string)
    requires WhitespaceFree(s)
    ensures RemoveWhitespace(s) == s
    decreases |s|
  {
    if s != [] {
      RemoveWhitespaceOfFree(s[1..]);
    }
  }

  /** A string made only of whitespace vanishes. */
  lemma {:induction false} RemoveWhitespaceOfSpaces(s: string)
    requires forall i :: 0 <= i < |s| ==> IsWhitespace(s[i])
    ensures RemoveWhitespace(s) == ""
    decreases |s|
  {
    if s != [] {
      RemoveWhitespaceOfSpaces(s[1..]);
    }
  }

  /** Something is left as soon as one character is not whitespace. */
  lemma {:induction false} RemoveWhitespaceNonEmpty(s: string, k: nat)
    requires k < |s| && !IsWhitespace(s[k])
    ensures RemoveWhitespace(s) != ""
    decreases |s|
  {
    if IsWhitespace(s[0]) {
      RemoveWhitespaceNonEmpty(s[1..], k - 1);
    }
  }

  /** A non-blank string keeps at least one character once whitespace is
      taken out. */
  lemma NotBlankKeepsSomething(s: string)
    requires !IsBlank(Some(s))
    ensures RemoveWhitespace(s) != ""
  {
    var k :| 0 <= k < |s| && !IsWhitespace(s[k]);
    RemoveWhitespaceNonEmpty(s, k);
  }

  /** Lower-casing and taking whitespace out can be done in either order. */
  lemma {:induction false} RemoveWhitespaceToLower(s: string)
    ensures RemoveWhitespace(ToLower(s)) == ToLower(RemoveWhitespace(s))
    decreases |s|
  {
    if s != [] {
      assert ToLower(s)[1..] == ToLower(s[1..]);
      RemoveWhitespaceToLower(s[1..]);
      if !IsWhitespace(s[0]) {
        assert ToLower([s[0]] + RemoveWhitespace(s[1..])) == [LowerChar(s[0])] + ToLower(RemoveWhitespace(s[1..]));
      }
    }
  }

  /** Lower-casing twice is lower-casing once. */
  lemma ToLowerOfLower(s: string)
    requires LowerCase(s)
    ensures ToLower(s) == s
  {
  }

  /** Two strings equal up to letter case are blank together. */
  lemma BlankUpToCase(a: string, b: string)
    requires ToLower(a) == ToLower(b)
    ensures IsBlank(Some(a)) == IsBlank(Some(b))
  {
    assert |a| == |b|;
    assert forall i :: 0 <= i < |a| ==> IsWhitespace(a[i]) == IsWhitespace(ToLower(a)[i]);
    assert forall i :: 0 <= i < |b| ==> IsWhitespace(b[i]) == IsWhitespace(ToLower(b)[i]);
  }
}
