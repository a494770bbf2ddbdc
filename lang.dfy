/**
 * The parts of Java's semantics that the canned-reports core relies on:
 * nullable references (as Option), 32- and 64-bit integers with their
 * wrap-around, and the String operations the core calls (startsWith,
 * endsWith, trim, the ASCII part of toUpperCase, "" + int).
 */
module Lang {

  /** A Java reference that may be null. */
  datatype Option<+T> = None | Some(value: T)

  const INT_MIN: int := -0x8000_0000
  const INT_MAX: int := 0x7FFF_FFFF
  const LONG_MIN: int := -0x8000_0000_0000_0000
  const LONG_MAX: int := 0x7FFF_FFFF_FFFF_FFFF
  const TWO_TO_32: int := 0x1_0000_0000

  /** Java `int` and `long`. */
  type Int32 = x: int | INT_MIN <= x <= INT_MAX
  type Int64 = x: int | LONG_MIN <= x <= LONG_MAX

  /** The narrowing cast `(int) x` of a long: the unique int congruent to x modulo 2^32. */
  function NarrowToInt(x: Int64): (r: Int32)
    ensures (r - x) % TWO_TO_32 == 0
    ensures INT_MIN <= x <= INT_MAX ==> r == x
  {
    var low := x % TWO_TO_32;
    if low <= INT_MAX then low else low - TWO_TO_32
  }

  /** Java's `a + b` on two ints, which wraps around on overflow. */
  function AddInt(a: Int32, b: Int32): (r: Int32)
    ensures (r - (a + b)) % TWO_TO_32 == 0
    ensures INT_MIN <= a + b <= INT_MAX ==> r == a + b
    ensures a + b > INT_MAX ==> r == a + b - TWO_TO_32
    ensures a + b < INT_MIN ==> r == a + b + TWO_TO_32
  {
    NarrowToInt(a + b)
  }

  // ----- strings -----

  predicate StartsWith(s: string, prefix: string) {
    |prefix| <= |s| && s[..|prefix|] == prefix
  }

  predicate EndsWith(s: string, suffix: string) {
    |suffix| <= |s| && s[|s| - |suffix|..] == suffix
  }

  /** t occurs in s starting at index i. */
  predicate OccursAt(s: string, t: string, i: int) {
    0 <= i <= |s| - |t| && s[i..i + |t|] == t
  }

  /** `s.contains(t)`. */
  ghost predicate Contains(s: string, t: string) {
    exists i :: OccursAt(s, t, i)
  }

  lemma ContainsInfix(a: string, b: string, c: string)
    ensures Contains(a + b + c, b)
  {
    var s := a + b + c;
    assert s[|a|..|a| + |b|] == b;
    assert OccursAt(s, b, |a|);
  }

  /** Containment is transitive: what occurs in t occurs in every string t occurs in. */
  lemma ContainsTransitive(s: string, t: string, u: string)
    requires Contains(s, t) && Contains(t, u)
    ensures Contains(s, u)
  {
    var i :| OccursAt(s, t, i);
    var j :| OccursAt(t, u, j);
    forall k | 0 <= k < |u|
      ensures s[i + j + k] == u[k]
    {
      assert s[i + j + k] == s[i..i + |t|][j + k];
      assert u[k] == t[j..j + |u|][k];
    }
    assert s[i + j..i + j + |u|] == u;
    assert OccursAt(s, u, i + j);
  }

  predicate IsLowerAscii(c: char) {
    'a' <= c <= 'z'
  }

  /** Character.toUpperCase restricted to ASCII: the letters a-z map to A-Z. */
  function UpperChar(c: char): (u: char)
    ensures IsLowerAscii(c) ==> u as int == c as int - 32
    ensures !IsLowerAscii(c) ==> u == c
  {
    if IsLowerAscii(c) then (c as int - 32) as char else c
  }

  /** Character.toLowerCase restricted to ASCII: the letters A-Z map to a-z. */
  function LowerChar(c: char): (l: char)
    ensures 'A' <= c <= 'Z' ==> l as int == c as int + 32
    ensures !('A' <= c <= 'Z') ==> l == c
  {
    if 'A' <= c <= 'Z' then (c as int + 32) as char else c
  }

  /** `s.toUpperCase()` for the ASCII letters; every other character is kept. */
  function ToUpper(s: string): (u: string)
    ensures |u| == |s|
    ensures forall i :: 0 <= i < |s| ==> u[i] == UpperChar(s[i])
  {
    seq(|s|, i requires 0 <= i < |s| => UpperChar(s[i]))
  }

  /**
   * What matching a verb on its upper-cased form relies on: no ASCII
   * lowercase letter is left, upper-casing twice is upper-casing once, and
   * a string without lowercase letters is its own upper-cased form.
   */
  lemma ToUpperNormalizes(s: string)
    ensures forall i :: 0 <= i < |ToUpper(s)| ==> !IsLowerAscii(ToUpper(s)[i])
    ensures ToUpper(ToUpper(s)) == ToUpper(s)
    ensures (forall i :: 0 <= i < |s| ==> !IsLowerAscii(s[i])) ==> ToUpper(s) == s
  {
  }

  /** The character test of String.equalsIgnoreCase: equal, equal upper-cased, or equal lower-cased. */
  predicate CharsEqualIgnoreCase(c: char, d: char) {
    c == d || UpperChar(c) == UpperChar(d) || LowerChar(c) == LowerChar(d)
  }

  /** `a.equalsIgnoreCase(b)` for the ASCII letters: equal length and equal characters up to case. */
  predicate EqualsIgnoreCase(a: string, b: string) {
    |a| == |b| && forall i :: 0 <= i < |a| ==> CharsEqualIgnoreCase(a[i], b[i])
  }

  /** For ASCII, the three tests of equalsIgnoreCase collapse into comparing the upper-cased characters. */
  lemma CharsEqualIgnoreCaseIff(c: char, d: char)
    ensures CharsEqualIgnoreCase(c, d) <==> UpperChar(c) == UpperChar(d)
  {
  }

  /** Two strings upper-case to the same string exactly when they are equal ignoring case. */
  lemma ToUpperMatchesIgnoreCase(a: string, b: string)
    ensures ToUpper(a) == ToUpper(b) <==> EqualsIgnoreCase(a, b)
  {
  }

  /** The characters String.trim removes: every code point up to and including the space. */
  predicate IsTrimmable(c: char) {
    c <= ' '
  }

  /** Drops the leading characters trim removes. */
  function TrimStart(s: string): (r: string)
    ensures |r| <= |s| && r == s[|s| - |r|..]
    ensures forall i :: 0 <= i < |s| - |r| ==> IsTrimmable(s[i])
    ensures r == [] || !IsTrimmable(r[0])
    ensures s != [] && !IsTrimmable(s[0]) ==> r == s
  {
    if s != [] && IsTrimmable(s[0]) then
      var r := TrimStart(s[1..]);
      assert forall i :: 1 <= i < |s| - |r| ==> s[i] == s[1..][i - 1];
      r
    else s
  }

  /** Drops the trailing characters trim removes. */
  function TrimEnd(s: string): (r: string)
    ensures |r| <= |s| && r == s[..|r|]
    ensures forall i :: |r| <= i < |s| ==> IsTrimmable(s[i])
    ensures r == [] || !IsTrimmable(r[|r| - 1])
    ensures s != [] && !IsTrimmable(s[|s| - 1]) ==> r == s
  {
    if s != [] && IsTrimmable(s[|s| - 1]) then
      var r := TrimEnd(s[..|s| - 1]);
      assert forall i :: |r| <= i < |s| - 1 ==> s[i] == s[..|s| - 1][i];
      r
    else s
  }

  /** `s.trim()`. */
  function Trim(s: string): (r: string)
  {
    TrimEnd(TrimStart(s))
  }

  /** A string with no trimmable character at either end is left alone by trim. */
  lemma TrimOfTrimmed(s: string)
    requires s != [] && !IsTrimmable(s[0]) && !IsTrimmable(s[|s| - 1])
    ensures Trim(s) == s
  {
  }

  // ----- decimal numbers -----

  predicate IsDigit(c: char) {
    '0' <= c <= '9'
  }

  predicate AllDigits(s: string) {
    forall i :: 0 <= i < |s| ==> IsDigit(s[i])
  }

  function DigitChar(d: nat): (c: char)
    requires d < 10
    ensures IsDigit(c) && c as int - '0' as int == d
  {
    ('0' as int + d) as char
  }

  /** The number a string of decimal digits denotes (most significant digit first). */
  function DigitsValue(s: string): nat
    requires AllDigits(s)
  {
    if s == [] then 0 else DigitsValue(s[..|s| - 1]) * 10 + (s[|s| - 1] as int - '0' as int)
  }

  /** The shortest decimal representation of n (Integer.toString for n >= 0). */
  function NatToDigits(n: nat): (s: string)
    ensures |s| >= 1 && AllDigits(s)
    ensures n > 0 ==> s[0] != '0'
  {
    if n < 10 then [DigitChar(n)] else NatToDigits(n / 10) + [DigitChar(n % 10)]
  }

  lemma {:induction false} DigitsRoundTrip(n: nat)
    ensures DigitsValue(NatToDigits(n)) == n
  {
    if n >= 10 {
      var s := NatToDigits(n);
      DigitsRoundTrip(n / 10);
      assert s[..|s| - 1] == NatToDigits(n / 10);
    }
  }

  function Pow10(k: nat): (p: nat)
    ensures p >= 1
  {
    if k == 0 then 1 else 10 * Pow10(k - 1)
  }

  /** A digit string without a leading zero denotes at least 10^(length - 1). */
  lemma {:induction false} DigitsValueLowerBound(s: string)
    requires |s| >= 1 && AllDigits(s) && s[0] != '0'
    ensures DigitsValue(s) >= Pow10(|s| - 1)
  {
    if |s| > 1 {
      var init := s[..|s| - 1];
      assert init[0] == s[0];
      DigitsValueLowerBound(init);
    }
  }

  /** Matches the regular expression `[-+]?[0-9]+` as a whole. */
  predicate IsSignedDecimal(s: string) {
    if |s| > 0 && (s[0] == '-' || s[0] == '+') then |s| > 1 && AllDigits(s[1..]) else |s| > 0 && AllDigits(s)
  }

  predicate HasSign(s: string) {
    |s| > 0 && (s[0] == '-' || s[0] == '+')
  }

  /** The integer a string matching `[-+]?[0-9]+` denotes, without any range limit. */
  function SignedDecimalValue(s: string): int
    requires IsSignedDecimal(s)
  {
    if s[0] == '-' then 0 - DigitsValue(s[1..])
    else if s[0] == '+' then DigitsValue(s[1..])
    else DigitsValue(s)
  }

  /** Java's `"" + v` for an int value v (Integer.toString). */
  function IntToString(v: int): (s: string)
    ensures IsSignedDecimal(s)
    ensures HasSign(s) <==> v < 0
  {
    if v < 0 then "-" + NatToDigits(-v) else NatToDigits(v)
  }

  lemma IntToStringRoundTrip(v: int)
    ensures SignedDecimalValue(IntToString(v)) == v
  {
    if v < 0 {
      DigitsRoundTrip(-v);
      assert IntToString(v)[1..] == NatToDigits(-v);
    } else {
      DigitsRoundTrip(v);
    }
  }

  lemma IntToStringInjective(a: int, b: int)
    requires IntToString(a) == IntToString(b)
    ensures a == b
  {
    IntToStringRoundTrip(a);
    IntToStringRoundTrip(b);
  }

  // ----- streams -----

  /**
   * A character stream, given as the chunks successive reads deliver
   * until end of stream.
   */
  datatype Stream = Stream(chunks: seq<string>)

  /** The text of a sequence of chunks read one after the other. */
  function Concat(chunks: seq<string>): string
  {
    if chunks == [] then "" else Concat(chunks[..|chunks| - 1]) + chunks[|chunks| - 1]
  }

  lemma ConcatSingle(chunk: string)
    ensures Concat([chunk]) == chunk
  {
    assert [chunk][..0] == [];
  }

  /** How the text is cut into chunks does not change what is read. */
  lemma {:induction false} ConcatAppend(a: seq<string>, b: seq<string>)
    ensures Concat(a + b) == Concat(a) + Concat(b)
  {
    if b != [] {
      assert (a + b)[..|a + b| - 1] == a + b[..|b| - 1];
      ConcatAppend(a, b[..|b| - 1]);
    } else {
      assert a + b == a;
    }
  }
}
