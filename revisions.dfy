/**
 * The revision selector: a textual choice of one historical revision of a
 * report ("ALL", an absolute ordinal such as "3", or an offset from the newest
 * revision such as "-1"), its parsed value and its printed form.
 */
module Revisions {
  import opened Lang

  /** The pattern the selector text must match as a whole. */
  const REGULAR_EXPRESSION_PATTERN: string := "(?<relative>[-+])?(?<value>[0-9]+)"

  datatype RevisionSpecification = RevisionSpecification(all: bool, relative: bool, value: Int32)

  /** The selector's toString: "all", or the value followed by "(relative)" when relative. */
  function ToString(rs: RevisionSpecification): string
  {
    if rs.all then "all" else IntToString(rs.value) + (if rs.relative then "(relative)" else "")
  }

  /** Why selector text is refused. */
  datatype ParseError =
    | PatternMismatch(input: string)  // InvalidParameterException: the text does not match the pattern
    | NumberFormat(input: string)     // NumberFormatException: Integer.valueOf refuses a value outside int range

  function PatternMismatchMessage(input: string): string
  {
    "\"" + input + "\" does not follow pattern '" + REGULAR_EXPRESSION_PATTERN + "'"
  }

  datatype ParseOutcome = Parsed(spec: RevisionSpecification) | Rejected(error: ParseError)

  /** `"ALL".equalsIgnoreCase(s)`. */
  predicate IsAllKeyword(s: string)
  {
    ToUpper(s) == "ALL"
  }

  /** The keyword test is `equalsIgnoreCase` against ALL. */
  lemma AllKeywordIgnoresCase(s: string)
    ensures IsAllKeyword(s) <==> EqualsIgnoreCase("ALL", s)
  {
  }

  predicate InIntRange(v: int)
  {
    INT_MIN <= v <= INT_MAX
  }

  /**
   * The mutable builder. Its fields start as (false, false, 0), and each
   * call of WithStringRepresentation assigns some of them, branch by
   * branch; nothing ever resets `relative` to false.
   */
  class Builder {
    var all: bool
    var relative: bool
    var value: Int32

    constructor ()
      ensures !all && !relative && value == 0
    {
      all, relative, value := false, false, 0;
    }

    method WithStringRepresentation(text: Option<string>) returns (error: Option<ParseError>)
      modifies this
      // absent or empty text: "0(relative)", the current revision; `all` is left as it was
      ensures (text.None? || text.value == "") ==>
        error.None? && all == old(all) && relative && value == 0
      // the keyword ALL in any case sets only `all`
      ensures text.Some? && text.value != "" && IsAllKeyword(text.value) ==>
        error.None? && all && relative == old(relative) && value == old(value)
      // any other text clears `all`, and then must match the pattern
      ensures text.Some? && text.value != "" && !IsAllKeyword(text.value) ==>
        !all &&
        (!IsSignedDecimal(text.value) ==>
          error == Some(PatternMismatch(text.value)) && relative == old(relative) && value == old(value)) &&
        (IsSignedDecimal(text.value) ==>
          relative == (old(relative) || HasSign(text.value)) &&
          (InIntRange(SignedDecimalValue(text.value)) ==>
            error.None? && value == SignedDecimalValue(text.value)) &&
          (!InIntRange(SignedDecimalValue(text.value)) ==>
            error == Some(NumberFormat(text.value)) && value == old(value)))
    {
      error := None;
      if text.Some? && |text.value| > 0 {
        var s := text.value;
        if IsAllKeyword(s) {
          all := true;
        } else {
          all := false;
          if IsSignedDecimal(s) {
            if HasSign(s) {
              relative := true;
            }
            var v := SignedDecimalValue(s);
            if InIntRange(v) {
              value := v;
            } else {
              error := Some(NumberFormat(s));
            }
          } else {
            error := Some(PatternMismatch(s));
          }
        }
      } else {
        relative := true;
        value := 0;
      }
    }

    method Build() returns (rs: RevisionSpecification)
      ensures rs == RevisionSpecification(all, relative, value)
    {
      rs := RevisionSpecification(all, relative, value);
    }
  }

  /** The selectors that some text parses to. */
  predicate Parsable(rs: RevisionSpecification)
  {
    && (rs.all ==> !rs.relative && rs.value == 0)
    && (!rs.all && !rs.relative ==> rs.value >= 0)
  }

  /** What a fresh builder given `text` builds, or why it refuses the text. */
  function Parse(text: Option<string>): (r: ParseOutcome)
    ensures r.Parsed? ==> Parsable(r.spec)
    ensures r.Rejected? ==> text.Some? && r.error.input == text.value
  {
    if text.None? || text.value == "" then Parsed(RevisionSpecification(false, true, 0))
    else if IsAllKeyword(text.value) then Parsed(RevisionSpecification(true, false, 0))
    else if !IsSignedDecimal(text.value) then Rejected(PatternMismatch(text.value))
    else if !InIntRange(SignedDecimalValue(text.value)) then Rejected(NumberFormat(text.value))
    else Parsed(RevisionSpecification(false, HasSign(text.value), SignedDecimalValue(text.value)))
  }

  /** `RevisionSpecification.builder().withStringRepresentation(text).build()`. */
  method FromStringRepresentation(text: Option<string>) returns (r: ParseOutcome)
    ensures r == Parse(text)
  {
    var builder := new Builder();
    var error := builder.WithStringRepresentation(text);
    if error.Some? {
      return Rejected(error.value);
    }
    var rs := builder.Build();
    r := Parsed(rs);
  }

  /** `RevisionSpecification.builder().build()`: a builder given no text. */
  method Unspecified() returns (rs: RevisionSpecification)
    ensures !rs.all && !rs.relative && rs.value == 0
  {
    var builder := new Builder();
    rs := builder.Build();
  }

  /** A canonical text for a parsable selector: "ALL", "+n" or "-n" when relative, "n" when absolute. */
  function Format(rs: RevisionSpecification): (text: string)
    requires Parsable(rs)
  {
    if rs.all then "ALL"
    else if rs.relative && rs.value >= 0 then "+" + IntToString(rs.value)
    else IntToString(rs.value)
  }

  /** Every parsable selector is parsed back from its canonical text. */
  lemma FormatRoundTrip(rs: RevisionSpecification)
    requires Parsable(rs)
    ensures Parse(Some(Format(rs))) == Parsed(rs)
  {
    var text := Format(rs);
    if !rs.all {
      var digits := IntToString(rs.value);
      IntToStringRoundTrip(rs.value);
      assert text[0] == '+' || text[0] == '-' || IsDigit(text[0]);
      assert ToUpper(text)[0] == text[0];
      assert !IsAllKeyword(text);
      if rs.relative && rs.value >= 0 {
        assert text[1..] == digits;
        assert SignedDecimalValue(text) == SignedDecimalValue(digits);
      }
    }
  }

  /** Parsing yields exactly the parsable selectors (the converse is Parse's own postcondition). */
  lemma ParsableIsParsed(rs: RevisionSpecification)
    requires Parsable(rs)
    ensures exists text :: Parse(Some(text)) == Parsed(rs)
  {
    FormatRoundTrip(rs);
  }

  /** Absent or empty text selects the current revision: value 0, relative. */
  lemma ParseAbsent()
    ensures Parse(None) == Parsed(RevisionSpecification(false, true, 0))
    ensures Parse(Some("")) == Parsed(RevisionSpecification(false, true, 0))
  {
  }

  /** ALL in any case sets only `all`; relative and value keep their defaults. */
  lemma ParseAll(text: string)
    requires IsAllKeyword(text)
    ensures Parse(Some(text)) == Parsed(RevisionSpecification(true, false, 0))
  {
  }

  /** A number within int range: its value, relative exactly when a sign is written. */
  lemma ParseNumber(text: string)
    requires IsSignedDecimal(text) && InIntRange(SignedDecimalValue(text))
    ensures Parse(Some(text)) == Parsed(RevisionSpecification(false, HasSign(text), SignedDecimalValue(text)))
  {
    assert text[0] == '+' || text[0] == '-' || IsDigit(text[0]);
    assert ToUpper(text)[0] == text[0];
  }

  /** Text that is neither empty, nor ALL, nor a number within int range is refused. */
  lemma ParseRejects(text: string)
    requires text != "" && !IsAllKeyword(text)
    ensures !IsSignedDecimal(text) ==> Parse(Some(text)) == Rejected(PatternMismatch(text))
    ensures IsSignedDecimal(text) && !InIntRange(SignedDecimalValue(text)) ==>
      Parse(Some(text)) == Rejected(NumberFormat(text))
  {
  }

  /** The small unsigned selector examples of the unit tests. */
  lemma ParseSmallExamples()
    ensures Parse(Some("all")) == Parsed(RevisionSpecification(true, false, 0))
    ensures Parse(Some("0")) == Parsed(RevisionSpecification(false, false, 0))
    ensures Parse(Some("1")) == Parsed(RevisionSpecification(false, false, 1))
  {
    SignedForms("0");
    SignedForms("1");
    ParseNumber("0");
    ParseNumber("1");
  }

  /** The small signed selector examples of the unit tests, including the signed zeros. */
  lemma ParseSignedExamples()
    ensures Parse(Some("-0")) == Parsed(RevisionSpecification(false, true, 0))
    ensures Parse(Some("+0")) == Parsed(RevisionSpecification(false, true, 0))
    ensures Parse(Some("+1")) == Parsed(RevisionSpecification(false, true, 1))
    ensures Parse(Some("-1")) == Parsed(RevisionSpecification(false, true, -1))
  {
    SignedForms("0");
    SignedForms("1");
    ParseNumber("-0");
    ParseNumber("+0");
    ParseNumber("+1");
    ParseNumber("-1");
  }

  /** The decimal text of INT_MAX, built one digit at a time. */
  lemma IntMaxDigits()
    ensures NatToDigits(INT_MAX) == "2147483647"
  {
    assert NatToDigits(2) == "2";
    assert NatToDigits(21) == "21";
    assert NatToDigits(214) == "214";
    assert NatToDigits(2147) == "2147";
    assert NatToDigits(21474) == "21474";
    assert NatToDigits(214748) == "214748";
    assert NatToDigits(2147483) == "2147483";
    assert NatToDigits(21474836) == "21474836";
    assert NatToDigits(214748364) == "214748364";
  }

  /** The int boundary examples of the unit tests. */
  lemma ParseBoundaryExamples()
    ensures Parse(Some("2147483647")) == Parsed(RevisionSpecification(false, false, INT_MAX))
    ensures Parse(Some("+2147483647")) == Parsed(RevisionSpecification(false, true, INT_MAX))
    ensures Parse(Some("-2147483647")) == Parsed(RevisionSpecification(false, true, -2147483647))
  {
    var digits := "2147483647";
    IntMaxValue();
    SignedForms(digits);
    ParseNumber(digits);
    ParseNumber("+" + digits);
    ParseNumber("-" + digits);
  }

  lemma IntMaxValue()
    ensures AllDigits("2147483647") && DigitsValue("2147483647") == INT_MAX
  {
    IntMaxDigits();
    DigitsRoundTrip(INT_MAX);
  }

  /** A digit string with a sign written in front denotes its value, negated for '-'. */
  lemma SignedForms(digits: string)
    requires |digits| > 0 && AllDigits(digits)
    ensures IsSignedDecimal(digits) && SignedDecimalValue(digits) == DigitsValue(digits)
    ensures IsSignedDecimal("+" + digits) && SignedDecimalValue("+" + digits) == DigitsValue(digits)
    ensures IsSignedDecimal("-" + digits) && SignedDecimalValue("-" + digits) + DigitsValue(digits) == 0
  {
    assert ("+" + digits)[1..] == digits;
    assert ("-" + digits)[1..] == digits;
  }

  /** The refused examples of the unit tests that do not match the pattern. */
  lemma ParseRejectedExamples()
    ensures Parse(Some("HelloWorld")) == Rejected(PatternMismatch("HelloWorld"))
    ensures Parse(Some("a1")) == Rejected(PatternMismatch("a1"))
  {
    NotANumber("HelloWorld");
    NotANumber("a1");
  }

  /** The text of Long.MAX_VALUE, as the unit test writes it or with a plus sign, matches the pattern but not int range. */
  lemma LongMaxRejected()
    ensures Parse(Some("9223372036854775807")) == Rejected(NumberFormat("9223372036854775807"))
    ensures Parse(Some("+9223372036854775807")) == Rejected(NumberFormat("+9223372036854775807"))
  {
    var longMax := "9223372036854775807";
    assert AllDigits(longMax) && Magnitude(longMax) == longMax;
    LongBoundaryRejected(longMax);
    var plusLongMax := "+9223372036854775807";
    assert plusLongMax[1..] == longMax && Magnitude(plusLongMax) == longMax;
    LongBoundaryRejected(plusLongMax);
  }

  /** The text of Long.MIN_VALUE matches the pattern but not int range. */
  lemma LongMinRejected()
    ensures Parse(Some("-9223372036854775808")) == Rejected(NumberFormat("-9223372036854775808"))
  {
    var longMin := "-9223372036854775808";
    assert AllDigits(longMin[1..]) && Magnitude(longMin) == longMin[1..];
    LongBoundaryRejected(longMin);
  }

  /** Text starting with neither a digit nor a sign, and not ALL in any case, is a pattern error. */
  lemma NotANumber(text: string)
    requires |text| > 0 && !IsDigit(text[0]) && text[0] != '-' && text[0] != '+'
    requires !IsAllKeyword(text)
    ensures Parse(Some(text)) == Rejected(PatternMismatch(text))
  {
  }

  /** The digits of a text matching `[-+]?[0-9]+`, without its sign. */
  function Magnitude(text: string): (digits: string)
    requires IsSignedDecimal(text)
    ensures AllDigits(digits) && |digits| > 0
    ensures SignedDecimalValue(text) == if text[0] == '-' then 0 - DigitsValue(digits) else DigitsValue(digits)
  {
    if HasSign(text) then text[1..] else text
  }

  /** A number of eleven or more digits without a leading zero, signed or not, lies outside int range. */
  lemma LongBoundaryRejected(text: string)
    requires IsSignedDecimal(text) && |Magnitude(text)| >= 11 && Magnitude(text)[0] != '0'
    ensures Parse(Some(text)) == Rejected(NumberFormat(text))
  {
    assert ToUpper(text)[0] == text[0];
    DigitsBeyondInt(Magnitude(text));
  }

  /** Eleven or more digits without a leading zero denote more than 2^31. */
  lemma DigitsBeyondInt(s: string)
    requires |s| >= 11 && AllDigits(s) && s[0] != '0'
    ensures DigitsValue(s) > INT_MAX + 1
  {
    var k := |s| - 1;
    DigitsValueLowerBound(s);
    Pow10Monotone(10, k);
    Pow10Beyond();
    var p := Pow10(k);
    assert DigitsValue(s) >= p;
    assert p >= Pow10(10);
  }

  lemma {:induction false} Pow10Monotone(j: nat, k: nat)
    requires j <= k
    ensures Pow10(j) <= Pow10(k)
  {
    if j < k {
      Pow10Monotone(j, k - 1);
    }
  }

  lemma Pow10Beyond()
    ensures Pow10(10) > INT_MAX + 1
  {
    assert Pow10(10) == 10_000_000_000;
  }

  /** toString prints "all" exactly for the ALL selector. */
  lemma ToStringAll(rs: RevisionSpecification)
    ensures ToString(rs) == "all" <==> rs.all
  {
    if !rs.all {
      var digits := IntToString(rs.value);
      assert ToString(rs)[0] == digits[0];
      assert digits[0] == '-' || IsDigit(digits[0]);
    }
  }

  /** toString ends in ')' exactly for a relative selector other than ALL. */
  lemma ToStringLastChar(rs: RevisionSpecification)
    requires !rs.all
    ensures |ToString(rs)| > 0
    ensures ToString(rs)[|ToString(rs)| - 1] == ')' <==> rs.relative
  {
    var digits := IntToString(rs.value);
    if !rs.relative {
      assert ToString(rs) == digits;
      assert IsDigit(digits[|digits| - 1]);
    }
  }

  /** Apart from ALL, toString tells every selector apart. */
  lemma ToStringInjective(a: RevisionSpecification, b: RevisionSpecification)
    requires !a.all && !b.all && ToString(a) == ToString(b)
    ensures a == b
  {
    ToStringLastChar(a);
    ToStringLastChar(b);
    var sa, sb := IntToString(a.value), IntToString(b.value);
    var ta, tb := ToString(a), ToString(b);
    var suffix := "(relative)";
    if a.relative {
      assert ta == sa + suffix && tb == sb + suffix;
      assert sa == ta[..|ta| - |suffix|];
      assert sb == tb[..|tb| - |suffix|];
    } else {
      assert ta == sa && tb == sb;
    }
    IntToStringInjective(a.value, b.value);
  }
}
