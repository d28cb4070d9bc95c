/**
 * PHP's `(int)` and `(string)` coercions, as far as the response accessors
 * apply them to a value read from the header store.
 *
 * A stored value is a PHP int or a PHP string; a header that is not there
 * reads as PHP `null`, which is `None` here.
 */
module PhpCast {
  import opened Wrappers

  /** A scalar the header store can hold. */
  datatype Scalar = Int(i: int) | Str(s: string)

  predicate IsDigit(c: char) {
    '0' <= c <= '9'
  }

  predicate AllDigits(s: string) {
    forall k :: 0 <= k < |s| ==> IsDigit(s[k])
  }

  /** The whitespace PHP skips before the digits of a numeric string. */
  predicate IsWhitespace(c: char) {
    c == ' ' || c == '\t' || c == '\n' || c == '\r' || c == 11 as char || c == 12 as char
  }

  function DigitValue(c: char): (d: nat)
    requires IsDigit(c)
    ensures d < 10
  {
    c as int - '0' as int
  }

  function DigitChar(d: nat): (c: char)
    requires d < 10
    ensures IsDigit(c) && DigitValue(c) == d
  {
    ('0' as int + d) as char
  }

  /** The canonical decimal spelling of a natural number: digits only, no leading zero. */
  function NatToDecimal(n: nat): (s: string)
    ensures |s| > 0 && AllDigits(s)
    ensures n > 0 ==> s[0] != '0'
    ensures n < 10 <==> |s| == 1
    decreases n
  {
    if n < 10 then [DigitChar(n)] else NatToDecimal(n / 10) + [DigitChar(n % 10)]
  }

  /** The number a string of decimal digits denotes, most significant digit first. */
  function DigitsValue(s: string): nat
    requires AllDigits(s)
  {
    if s == [] then 0 else DigitsValue(s[..|s| - 1]) * 10 + DigitValue(s[|s| - 1])
  }

  /** The longest prefix of `s` made of decimal digits. */
  function LeadingDigits(s: string): (p: string)
    ensures |p| <= |s| && p == s[..|p|]
    ensures AllDigits(p)
    ensures |p| < |s| ==> !IsDigit(s[|p|])
  {
    if s != [] && IsDigit(s[0]) then [s[0]] + LeadingDigits(s[1..]) else []
  }

  /** `s` with its leading whitespace removed. */
  function SkipWhitespace(s: string): (t: string)
    ensures |t| <= |s| && t == s[|s| - |t|..]
    ensures forall k :: 0 <= k < |s| - |t| ==> IsWhitespace(s[k])
    ensures t == [] || !IsWhitespace(t[0])
  {
    if s != [] && IsWhitespace(s[0]) then SkipWhitespace(s[1..]) else s
  }

  /**
   * `(int)` of a PHP string: leading whitespace, an optional sign, then the
   * longest run of decimal digits; a string with no such digits gives 0.
   */
  function StringToInt(s: string): int {
    var t := SkipWhitespace(s);
    if t != [] && (t[0] == '-' || t[0] == '+') then
      var m: int := DigitsValue(LeadingDigits(t[1..]));
      if t[0] == '-' then -m else m
    else
      DigitsValue(LeadingDigits(t))
  }

  /** `(string)` of a PHP int: its decimal spelling, with a minus sign when negative. */
  function IntToString(i: int): (s: string)
    ensures |s| > 0
  {
    if i < 0 then "-" + NatToDecimal(-i) else NatToDecimal(i)
  }

  /** The strings `(string)` produces from an int: "0", or an optional minus and digits with no leading zero. */
  predicate IsCanonicalInt(s: string) {
    if s != [] && s[0] == '-' then
      |s| > 1 && AllDigits(s[1..]) && s[1] != '0'
    else
      s != [] && AllDigits(s) && (s[0] != '0' || |s| == 1)
  }

  /**
   * `s` holds no number for `(int)` to read: after the leading whitespace and
   * an optional sign, nothing is left or the next character is not a digit.
   */
  predicate NoNumber(s: string) {
    var t := SkipWhitespace(s);
    var u := if t != [] && (t[0] == '-' || t[0] == '+') then t[1..] else t;
    u == [] || !IsDigit(u[0])
  }

  /** `(int) $v` for a header value, where an absent header is PHP `null`. */
  function ToInt(v: Option<Scalar>): (r: int)
    ensures v == None ==> r == 0
    ensures v.Some? && v.value.Str? && NoNumber(v.value.s) ==> r == 0
  {
    match v
    case None => 0
    case Some(Int(i)) => i
    case Some(Str(s)) => StringToInt(s)
  }

  /** `(string) $v` for a header value, where an absent header is PHP `null`. */
  function ToStr(v: Option<Scalar>): (r: string)
    ensures v == None ==> r == ""
    ensures v.Some? && v.value.Int? ==> r != ""
  {
    match v
    case None => ""
    case Some(Int(i)) => IntToString(i)
    case Some(Str(s)) => s
  }

  // ---------------------------------------------------------------------
  // Round trips between ints and their decimal spelling
  // ---------------------------------------------------------------------

  /** Reading back the digits of `n` gives `n`. */
  lemma {:induction false} DecimalValue(n: nat)
    ensures DigitsValue(NatToDecimal(n)) == n
    decreases n
  {
    var s := NatToDecimal(n);
    if n >= 10 {
      DecimalValue(n / 10);
      assert s[..|s| - 1] == NatToDecimal(n / 10);
    }
  }

  /** A digit string with no leading zero is worth at least 1, and at least 10 when it has two digits or more. */
  lemma {:induction false} DigitsValuePositive(s: string)
    requires AllDigits(s) && s != [] && s[0] != '0'
    ensures DigitsValue(s) >= 1
    ensures |s| > 1 ==> DigitsValue(s) >= 10
    decreases |s|
  {
    if |s| > 1 {
      DigitsValuePositive(s[..|s| - 1]);
    }
  }

  /** Spelling the value of a canonical digit string gives the string back. */
  lemma {:induction false} DecimalSpelling(s: string)
    requires AllDigits(s) && s != [] && (s[0] != '0' || |s| == 1)
    ensures NatToDecimal(DigitsValue(s)) == s
    decreases |s|
  {
    var n := DigitsValue(s);
    if |s| == 1 {
      assert s[..0] == [];
    } else {
      var p := s[..|s| - 1];
      DigitsValuePositive(s);
      DigitsValuePositive(p);
      DecimalSpelling(p);
      assert n / 10 == DigitsValue(p) && n % 10 == DigitValue(s[|s| - 1]);
      assert DigitChar(n % 10) == s[|s| - 1];
      assert s == p + [s[|s| - 1]];
    }
  }

  /** A string made only of digits is its own longest digit prefix. */
  lemma {:induction false} LeadingDigitsOfDigits(s: string)
    requires AllDigits(s)
    ensures LeadingDigits(s) == s
    decreases |s|
  {
    if s != [] {
      LeadingDigitsOfDigits(s[1..]);
    }
  }

  /** `(int)` of a canonical digit string, with no sign and no whitespace, is its value. */
  lemma StringToIntOfDigits(d: string)
    requires AllDigits(d) && d != []
    ensures StringToInt(d) == DigitsValue(d)
  {
    assert !IsWhitespace(d[0]) && d[0] != '-' && d[0] != '+';
    assert SkipWhitespace(d) == d;
    LeadingDigitsOfDigits(d);
  }

  /** `(int)` of a minus sign followed by digits is the negated value of the digits. */
  lemma StringToIntOfNegative(d: string)
    requires AllDigits(d) && d != []
    ensures StringToInt("-" + d) == 0 - DigitsValue(d)
  {
    var s := "-" + d;
    assert SkipWhitespace(s) == s;
    assert s[1..] == d;
    LeadingDigitsOfDigits(d);
  }

  /** `(int)(string) $i === $i` for every int. */
  lemma IntStringRoundTrip(i: int)
    ensures StringToInt(IntToString(i)) == i
  {
    var n: nat := if i < 0 then -i else i;
    var d := NatToDecimal(n);
    DecimalValue(n);
    if i < 0 {
      calc {
        StringToInt(IntToString(i));
        StringToInt("-" + d);
        { StringToIntOfNegative(d); }
        0 - DigitsValue(d);
      }
    } else {
      calc {
        StringToInt(IntToString(i));
        StringToInt(d);
        { StringToIntOfDigits(d); }
        DigitsValue(d);
      }
    }
  }

  /** `(string)(int) $s === $s` for every string `(string)` can produce from an int. */
  lemma StringIntRoundTrip(s: string)
    requires IsCanonicalInt(s)
    ensures IntToString(StringToInt(s)) == s
  {
    if s[0] == '-' {
      var d := s[1..];
      assert s == "-" + d;
      DigitsValuePositive(d);
      calc {
        IntToString(StringToInt(s));
        { StringToIntOfNegative(d); }
        IntToString(0 - DigitsValue(d));
        "-" + NatToDecimal(DigitsValue(d));
        { DecimalSpelling(d); }
        "-" + d;
      }
    } else {
      calc {
        IntToString(StringToInt(s));
        { StringToIntOfDigits(s); }
        IntToString(DigitsValue(s));
        NatToDecimal(DigitsValue(s));
        { DecimalSpelling(s); }
        s;
      }
    }
  }

  /** `IntToString` produces exactly the canonical spellings. */
  lemma IntToStringCanonical(i: int)
    ensures IsCanonicalInt(IntToString(i))
  {
    var s := IntToString(i);
    if i < 0 {
      assert s[1..] == NatToDecimal(-i);
    }
  }

  /** Casting to string first never changes what `(int)` gives: `(int)(string) $v === (int) $v`. */
  lemma ToIntThroughString(v: Option<Scalar>)
    ensures ToInt(Some(Str(ToStr(v)))) == ToInt(v)
  {
    match v
    case None =>
    case Some(Int(i)) => IntStringRoundTrip(i);
    case Some(Str(s)) =>
  }
}
