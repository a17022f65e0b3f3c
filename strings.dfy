/** The Kotlin standard-library string operations the codec relies on. */
module Strings {
  import opened Results

  /** Kotlin's Char.isWhitespace(): the Unicode space separators plus the ASCII
      control characters 0x09-0x0D and 0x1C-0x1F. This is what String.trim() removes. */
  predicate IsWhitespace(c: char) {
    var n := c as int;
    (0x09 <= n <= 0x0D) || (0x1C <= n <= 0x20) || n == 0xA0 || n == 0x1680
    || (0x2000 <= n <= 0x200A) || n == 0x2028 || n == 0x2029 || n == 0x202F
    || n == 0x205F || n == 0x3000
  }

  /** Drops leading whitespace. */
  function TrimStart(s: string): (r: string)
    ensures |r| <= |s| && r == s[|s| - |r|..]
    ensures r == [] || !IsWhitespace(r[0])
  {
    if s != [] && IsWhitespace(s[0]) then TrimStart(s[1..]) else s
  }

  /** Drops trailing whitespace. */
  function TrimEnd(s: string): (r: string)
    ensures |r| <= |s| && r == s[..|r|]
    ensures r == [] || !IsWhitespace(r[|r| - 1])
  {
    if s != [] && IsWhitespace(s[|s| - 1]) then TrimEnd(s[..|s| - 1]) else s
  }

  /** Kotlin's String.trim(). */
  function Trim(s: string): (r: string)
    ensures |r| <= |s|
    ensures r == [] || (!IsWhitespace(r[0]) && !IsWhitespace(r[|r| - 1]))
  {
    var t := TrimStart(s);
    var r := TrimEnd(t);
    assert r != [] ==> r[0] == t[0];
    r
  }

  /** Only whitespace is dropped from either end. */
  lemma {:induction false} TrimStartDropsWhitespace(s: string)
    ensures forall k :: 0 <= k < |s| - |TrimStart(s)| ==> IsWhitespace(s[k])
  {
    if s != [] && IsWhitespace(s[0]) {
      TrimStartDropsWhitespace(s[1..]);
      assert forall k :: 1 <= k < |s| ==> s[k] == s[1..][k - 1];
    }
  }

  lemma {:induction false} TrimEndDropsWhitespace(s: string)
    ensures forall k :: |TrimEnd(s)| <= k < |s| ==> IsWhitespace(s[k])
  {
    if s != [] && IsWhitespace(s[|s| - 1]) {
      TrimEndDropsWhitespace(s[..|s| - 1]);
    }
  }

  /** Trimming gives the empty text exactly when the text is all whitespace. */
  lemma TrimEmptyIffBlank(s: string)
    ensures Trim(s) == [] <==> forall k :: 0 <= k < |s| ==> IsWhitespace(s[k])
  {
    var t := TrimStart(s);
    TrimStartDropsWhitespace(s);
    TrimEndDropsWhitespace(t);
    if Trim(s) == [] {
      forall k | 0 <= k < |s|
        ensures IsWhitespace(s[k])
      {
        if k >= |s| - |t| { assert s[k] == t[k - (|s| - |t|)]; }
      }
    } else {
      var r := Trim(s);
      assert r[0] == t[0] == s[|s| - |t|];
    }
  }

  /** Trimming a text that neither starts nor ends with whitespace changes nothing. */
  lemma {:induction false} TrimKeepsTrimmed(s: string)
    requires s == [] || (!IsWhitespace(s[0]) && !IsWhitespace(s[|s| - 1]))
    ensures Trim(s) == s
  {
    if s != [] {
      assert TrimStart(s) == s;
      assert TrimEnd(s) == s;
    }
  }

  predicate AllWhitespace(s: string) { forall k :: 0 <= k < |s| ==> IsWhitespace(s[k]) }

  /** Leading whitespace in front of a text that does not start with whitespace is dropped. */
  lemma {:induction false} TrimStartOfPadded(a: string, s: string)
    requires AllWhitespace(a) && (s == [] || !IsWhitespace(s[0]))
    ensures TrimStart(a + s) == s
    decreases |a|
  {
    if a == [] {
      assert a + s == s;
    } else {
      assert (a + s)[0] == a[0] && (a + s)[1..] == a[1..] + s;
      TrimStartOfPadded(a[1..], s);
    }
  }

  /** Trailing whitespace after a text that does not end with whitespace is dropped. */
  lemma {:induction false} TrimEndOfPadded(s: string, b: string)
    requires AllWhitespace(b) && (s == [] || !IsWhitespace(s[|s| - 1]))
    ensures TrimEnd(s + b) == s
    decreases |b|
  {
    if b == [] {
      assert s + b == s;
    } else {
      var x := s + b;
      assert x[|x| - 1] == b[|b| - 1] && x[..|x| - 1] == s + b[..|b| - 1];
      TrimEndOfPadded(s, b[..|b| - 1]);
    }
  }

  /** trim() undoes any whitespace padding of a trimmed text. */
  lemma TrimPadded(a: string, s: string, b: string)
    requires AllWhitespace(a) && AllWhitespace(b)
    requires s == [] || (!IsWhitespace(s[0]) && !IsWhitespace(s[|s| - 1]))
    ensures Trim(a + s + b) == s
  {
    if s == [] {
      assert a + s + b == a + b;
      assert AllWhitespace(a + b);
      TrimEmptyIffBlank(a + b);
    } else {
      assert a + s + b == a + (s + b);
      TrimStartOfPadded(a, s + b);
      TrimEndOfPadded(s, b);
    }
  }

  /** Kotlin's String.substringAfterLast(c): the text after the last c, or the
      whole text when c does not occur. split(c).last() gives the same. */
  function SubstringAfterLast(s: string, c: char): (r: string)
    ensures |r| <= |s| && r == s[|s| - |r|..]
    ensures c !in r
    ensures c !in s ==> r == s
    ensures c in s ==> |r| < |s| && s[|s| - |r| - 1] == c
  {
    if s == [] then []
    else if s[|s| - 1] == c then []
    else
      var r := SubstringAfterLast(s[..|s| - 1], c) + [s[|s| - 1]];
      assert c in s ==> c in s[..|s| - 1] by {
        if c in s {
          var k :| 0 <= k < |s| && s[k] == c;
          assert s[..|s| - 1][k] == c;
        }
      }
      assert s[..|s| - 1] + [s[|s| - 1]] == s;
      r
  }

  /** The text after the last c of y + n is n when n has no c and y is empty or ends in c. */
  lemma {:induction false} SubstringAfterLastOfSuffix(y: string, n: string, c: char)
    requires c !in n && (y == [] || y[|y| - 1] == c)
    ensures SubstringAfterLast(y + n, c) == n
    decreases |n|
  {
    var x := y + n;
    if n == [] {
      assert x == y;
    } else {
      var m := n[..|n| - 1];
      assert n == m + [n[|n| - 1]];
      assert x[..|x| - 1] == y + m;
      assert x[|x| - 1] == n[|n| - 1] != c;
      assert c !in m;
      SubstringAfterLastOfSuffix(y, m, c);
    }
  }

  /** indexOf returns an occurrence when no earlier one exists. */
  lemma {:induction false} IndexOfFinds(s: string, pat: string, from: nat, k: nat)
    requires from <= k && OccursAt(s, pat, k)
    requires forall i :: from <= i < k ==> !OccursAt(s, pat, i)
    ensures IndexOf(s, pat, from) == k
    decreases k - from
  {
    if from < k { IndexOfFinds(s, pat, from + 1, k); }
  }

  /** a is a prefix of b. */
  predicate IsPrefix<T(==)>(a: seq<T>, b: seq<T>) {
    |a| <= |b| && b[..|a|] == a
  }

  lemma PrefixTransitive<T>(a: seq<T>, b: seq<T>, c: seq<T>)
    requires IsPrefix(a, b) && IsPrefix(b, c)
    ensures IsPrefix(a, c)
  {
    assert c[..|a|] == c[..|b|][..|a|];
  }

  /** True when pat occurs in s at index k. */
  predicate OccursAt(s: string, pat: string, k: int) {
    0 <= k && k + |pat| <= |s| && s[k..k + |pat|] == pat
  }

  /** Kotlin's String.indexOf(pat, from): the first occurrence at or after from, or -1. */
  function IndexOf(s: string, pat: string, from: nat): (r: int)
    ensures r == -1 || (from <= r && OccursAt(s, pat, r))
    decreases |s| - from
  {
    if from + |pat| > |s| then -1
    else if s[from..from + |pat|] == pat then from
    else IndexOf(s, pat, from + 1)
  }

  /** indexOf finds the first occurrence, and -1 means there is none. */
  lemma {:induction false} IndexOfFirst(s: string, pat: string, from: nat)
    ensures forall k ::
      from <= k && (IndexOf(s, pat, from) == -1 || k < IndexOf(s, pat, from)) ==> !OccursAt(s, pat, k)
    decreases |s| - from
  {
    if from + |pat| <= |s| && s[from..from + |pat|] != pat { IndexOfFirst(s, pat, from + 1); }
  }

  /** " ".repeat(n). */
  function Spaces(n: nat): (r: string)
    ensures |r| == n
  {
    seq(n, _ => ' ')
  }

  lemma SpacesAreSpaces(n: nat)
    ensures forall k :: 0 <= k < n ==> Spaces(n)[k] == ' '
  {
  }

  /** Kotlin's String.toBoolean(): true exactly for "true", ignoring case. */
  predicate IsTrueIgnoringCase(s: string) {
    |s| == 4 && (s[0] == 't' || s[0] == 'T') && (s[1] == 'r' || s[1] == 'R')
    && (s[2] == 'u' || s[2] == 'U') && (s[3] == 'e' || s[3] == 'E')
  }

  /** The digit zero of every run of ten Unicode decimal digits (general category Nd)
      in the Basic Multilingual Plane beyond ASCII, in ascending order: Arabic-Indic,
      Extended Arabic-Indic, NKo, the Indic scripts, Thai, Lao, Tibetan, Myanmar, Khmer,
      Mongolian, Limbu, New Tai Lue, Tai Tham, Balinese, Sundanese, Lepcha, Ol Chiki,
      Vai, Saurashtra, Kayah Li, Javanese, Cham, Meetei Mayek and Fullwidth. With
      '0'..'9' these are the characters Character.digit(c, 10) gives a value to. */
  const DigitZeros: seq<int> := [
    0x0660, 0x06F0, 0x07C0, 0x0966, 0x09E6, 0x0A66, 0x0AE6, 0x0B66, 0x0BE6,
    0x0C66, 0x0CE6, 0x0D66, 0x0DE6, 0x0E50, 0x0ED0, 0x0F20, 0x1040, 0x1090,
    0x17E0, 0x1810, 0x1946, 0x19D0, 0x1A80, 0x1A90, 0x1B50, 0x1BB0, 0x1C40,
    0x1C50, 0xA620, 0xA8D0, 0xA900, 0xA9D0, 0xA9F0, 0xAA50, 0xABF0, 0xFF10]

  /** The zero of the run, from the k-th on, that holds the code point n, or -1. */
  function DigitZero(n: int, k: nat): (z: int)
    requires k <= |DigitZeros|
    ensures z == -1 || z <= n <= z + 9
    decreases |DigitZeros| - k
  {
    if k == |DigitZeros| then -1
    else if DigitZeros[k] <= n <= DigitZeros[k] + 9 then DigitZeros[k]
    else DigitZero(n, k + 1)
  }

  /** Kotlin's digitOf(c, 10) >= 0: c is a decimal digit of some script. */
  predicate IsDigit(c: char) { '0' <= c <= '9' || DigitZero(c as int, 0) != -1 }

  predicate AllDigits(s: string) { forall k :: 0 <= k < |s| ==> IsDigit(s[k]) }

  /** Kotlin's digitOf(c, 10): the digit's value within its run. */
  function DigitValue(c: char): (d: nat)
    requires IsDigit(c)
    ensures d < 10
  {
    if '0' <= c <= '9' then (c as int) - ('0' as int) else (c as int) - DigitZero(c as int, 0)
  }

  /** The ASCII digit of value d. */
  function DigitChar(d: nat): (c: char)
    requires d < 10
    ensures '0' <= c <= '9' && IsDigit(c) && DigitValue(c) == d
  {
    (('0' as int) + d) as char
  }

  /** The value of a run of decimal digits. */
  function DigitsValue(s: string): nat
    requires AllDigits(s)
  {
    if s == [] then 0 else DigitsValue(s[..|s| - 1]) * 10 + DigitValue(s[|s| - 1])
  }

  /** The decimal digits of n, without leading zeros. */
  function Digits(n: nat): (r: string)
    ensures r != [] && AllDigits(r)
    ensures forall k :: 0 <= k < |r| ==> '0' <= r[k] <= '9'
  {
    if n < 10 then [DigitChar(n)] else Digits(n / 10) + [DigitChar(n % 10)]
  }

  /** Kotlin's toString() of an integer. */
  function DecimalString(n: int): string {
    if n < 0 then "-" + Digits(-n) else Digits(n)
  }

  /** toString() of an integer neither starts nor ends with whitespace. */
  lemma DecimalStringTrimmed(n: int)
    ensures var s := DecimalString(n); s != [] && !IsWhitespace(s[0]) && !IsWhitespace(s[|s| - 1])
  {
    var d := if n < 0 then Digits(-n) else Digits(n);
    assert '0' <= d[0] <= '9' && '0' <= d[|d| - 1] <= '9';
  }

  /** The integer a text denotes under Kotlin's toLongOrNull() rules, before any
      range check: an optional '+' or '-' followed by at least one decimal digit
      of any script, each read with digitOf. */
  function ParseInteger(s: string): (r: Option<int>)
    ensures r.Some? ==> s != [] && (IsDigit(s[0]) || s[0] == '+' || s[0] == '-')
  {
    if s == [] then None
    else if s[0] < '0' then
      if |s| == 1 then None
      else if s[0] == '-' && AllDigits(s[1..]) then Some(0 - DigitsValue(s[1..]) as int)
      else if s[0] == '+' && AllDigits(s[1..]) then Some(DigitsValue(s[1..]))
      else None
    else if AllDigits(s) then Some(DigitsValue(s))
    else None
  }

  lemma {:induction false} DigitsValueOfDigits(n: nat)
    ensures DigitsValue(Digits(n)) == n
  {
    if n >= 10 {
      DigitsValueOfDigits(n / 10);
      var d := Digits(n / 10) + [DigitChar(n % 10)];
      assert d[..|d| - 1] == Digits(n / 10);
    }
  }

  /** Parsing what toString() prints gives the number back. */
  lemma {:induction false} ParseDecimalRoundTrip(n: int)
    ensures ParseInteger(DecimalString(n)) == Some(n)
  {
    var m: nat := if n < 0 then -n else n;
    var d := Digits(m);
    DigitsValueOfDigits(m);
    ParseOfDigits(d);
    assert DecimalString(n) == if n < 0 then "-" + d else d;
  }

  /** A run of ASCII digits parses as its value, and with a leading '-' as its negation. */
  lemma ParseOfDigits(d: string)
    requires d != [] && AllDigits(d) && '0' <= d[0]
    ensures ParseInteger(d) == Some(DigitsValue(d))
    ensures ParseInteger("-" + d) == Some(0 - DigitsValue(d))
  {
    var m := "-" + d;
    assert m[0] == '-' && m[1..] == d;
  }

  /** Digits of other scripts count too: Arabic-Indic three-two reads as 32, and a
      minus before Extended Arabic-Indic seven as -7. */
  lemma OtherScriptDigitsParse()
    ensures ParseInteger(['\U{0663}', '\U{0662}']) == Some(32)
    ensures ParseInteger(['-', '\U{06F7}']) == Some(-7)
  {
    assert DigitZero(0x0663, 0) == 0x0660 && DigitZero(0x0662, 0) == 0x0660;
    var s := ['\U{0663}', '\U{0662}'];
    assert DigitValue(s[0]) == 3 && DigitValue(s[1]) == 2;
    assert s[..1] == [s[0]] && s[..1][..0] == [];
    assert DigitsValue(s[..1]) == 3;
    assert DigitZero(0x06F7, 0) == 0x06F0;
    var t := ['-', '\U{06F7}'];
    assert t[1..] == ['\U{06F7}'] && t[1..][..0] == [];
    assert DigitValue(t[1]) == 7;
  }

  /** A signed integer of the given bit width: Byte 8, Short 16, Int 32, Long 64. */
  predicate InWidth(n: int, bits: nat)
    requires 1 <= bits <= 64
  {
    0 - Pow2(bits - 1) as int <= n < Pow2(bits - 1)
  }

  function Pow2(k: nat): (r: nat) ensures r >= 1 { if k == 0 then 1 else 2 * Pow2(k - 1) }

  /** toByteOrNull / toShortOrNull / toIntOrNull / toLongOrNull. */
  function ParseSigned(s: string, bits: nat): (r: Option<int>)
    requires 1 <= bits <= 64
    ensures r.Some? ==> InWidth(r.value, bits) && ParseInteger(s) == r
    ensures r.None? ==> ParseInteger(s).None? || !InWidth(ParseInteger(s).value, bits)
  {
    match ParseInteger(s)
    case Some(n) => if InWidth(n, bits) then Some(n) else None
    case None => None
  }

  /** True when b occurs somewhere in a (Kotlin's String.contains). */
  predicate Contains(a: string, b: string) {
    exists k :: 0 <= k <= |a| - |b| && OccursAt(a, b, k)
  }
}
