/**
 * Character and number text used by the XML codec and by the ID generators:
 * C-locale lower-casing, decimal integers (std::to_string and tinyxml2's
 * integer attributes), tinyxml2's boolean attributes, and an abstract pair of
 * functions for the text of floating-point numbers.
 */
module Text {
  import opened Wrappers

  function LowerChar(c: char): char
  {
    if 'A' <= c <= 'Z' then (c as int + 32) as char else c
  }

  /** ToLower: std::tolower applied to every character. */
  function ToLower(s: string): (r: string)
    ensures |r| == |s|
    ensures forall i :: 0 <= i < |s| ==> r[i] == LowerChar(s[i])
  {
    seq(|s|, i requires 0 <= i < |s| => LowerChar(s[i]))
  }

  lemma {:induction false} ToLowerIdempotent(s: string)
    ensures ToLower(ToLower(s)) == ToLower(s)
  {
    var once := ToLower(s);
    var twice := ToLower(once);
    assert forall i :: 0 <= i < |s| ==> twice[i] == LowerChar(LowerChar(s[i])) == once[i];
  }

  lemma ToLowerAppend(a: string, b: string)
    ensures ToLower(a + b) == ToLower(a) + ToLower(b)
  {
    var l, r := ToLower(a + b), ToLower(a) + ToLower(b);
    assert forall i :: 0 <= i < |a + b| ==> l[i] == r[i];
  }

  predicate IsDigit(c: char) { '0' <= c <= '9' }

  function DigitChar(d: nat): (c: char)
    requires d < 10
    ensures IsDigit(c) && DigitValue(c) == d
  {
    ('0' as int + d) as char
  }

  function DigitValue(c: char): nat
    requires IsDigit(c)
  {
    c as int - '0' as int
  }

  /** The decimal text of a natural number, as std::to_string writes it. */
  function NatToString(n: nat): (s: string)
    ensures |s| > 0
    ensures forall i :: 0 <= i < |s| ==> IsDigit(s[i])
    ensures n >= 10 ==> |s| >= 2
    decreases n
  {
    if n < 10 then [DigitChar(n)] else NatToString(n / 10) + [DigitChar(n % 10)]
  }

  /** The decimal text of an integer, with a leading '-' when negative. */
  function IntToString(i: int): (s: string)
    ensures |s| > 0
  {
    if i < 0 then "-" + NatToString(-i) else NatToString(i)
  }

  predicate AllDigits(s: string)
  {
    forall i :: 0 <= i < |s| ==> IsDigit(s[i])
  }

  /** Strict decimal reading of a non-empty digit string. */
  function ParseNat(s: string): (r: Option<nat>)
    ensures r.Some? <==> |s| > 0 && AllDigits(s)
    decreases |s|
  {
    if |s| == 0 || !IsDigit(s[|s| - 1]) then None
    else if |s| == 1 then Some(DigitValue(s[0]))
    else
      var init := ParseNat(s[..|s| - 1]);
      if init.None? then None else Some(init.value * 10 + DigitValue(s[|s| - 1]))
  }

  /** Strict reading of an optionally negative decimal integer. */
  function ParseInt(s: string): Option<int>
  {
    if |s| > 0 && s[0] == '-' then
      (var n := ParseNat(s[1..]); if n.Some? then Some(-(n.value as int)) else None)
    else
      (var n := ParseNat(s); if n.Some? then Some(n.value as int) else None)
  }

  lemma {:induction false} ParseNatToString(n: nat)
    ensures ParseNat(NatToString(n)) == Some(n)
    decreases n
  {
    if n >= 10 {
      var s := NatToString(n);
      assert s[..|s| - 1] == NatToString(n / 10);
      ParseNatToString(n / 10);
    }
  }

  /** Every integer reads back from its decimal text. */
  lemma {:induction false} ParseIntToString(i: int)
    ensures ParseInt(IntToString(i)) == Some(i)
  {
    if i < 0 {
      ParseIntToStringNegative(i);
    } else {
      var s := NatToString(i);
      assert IntToString(i) == s;
      assert IsDigit(s[0]);
      ParseNatToString(i);
    }
  }

  lemma {:induction false} ParseIntToStringNegative(i: int)
    requires i < 0
    ensures ParseInt(IntToString(i)) == Some(i)
  {
    var digits := NatToString(-i);
    ParseNatToString(-i);
    assert IntToString(i) == ['-'] + digits;
    assert (['-'] + digits)[1..] == digits;
  }

  /** Distinct naturals have distinct decimal texts. */
  lemma {:induction false} NatToStringInjective(a: nat, b: nat)
    requires NatToString(a) == NatToString(b)
    ensures a == b
  {
    ParseNatToString(a);
    ParseNatToString(b);
  }

  // tinyxml2's integer reading (XMLUtil::ToInt): sscanf with "%x" after a
  // "0x" or "0X" prefix, with "%d" otherwise. Both skip leading white space
  // and read the longest prefix that forms a number; what follows it is
  // ignored.

  /** isspace in the C locale. */
  predicate IsSpace(c: char)
  {
    c == ' ' || c == '\t' || c == '\n' || c == '\r' || c == '\U{000B}' || c == '\U{000C}'
  }

  /** The text after its leading white space. */
  function SkipSpace(s: string): (t: string)
    ensures |t| <= |s| && t == s[|s| - |t|..]
    ensures forall i :: 0 <= i < |s| - |t| ==> IsSpace(s[i])
    ensures |t| > 0 ==> !IsSpace(t[0])
    decreases |s|
  {
    if |s| > 0 && IsSpace(s[0]) then SkipSpace(s[1..]) else s
  }

  /** The length of the longest prefix of decimal digits. */
  function DigitRun(s: string): (n: nat)
    ensures n <= |s| && AllDigits(s[..n])
    ensures n < |s| ==> !IsDigit(s[n])
    decreases |s|
  {
    if |s| > 0 && IsDigit(s[0]) then
      var rest := DigitRun(s[1..]);
      assert s[..1 + rest] == [s[0]] + s[1..][..rest];
      1 + rest
    else 0
  }

  predicate IsHexDigit(c: char)
  {
    IsDigit(c) || 'a' <= c <= 'f' || 'A' <= c <= 'F'
  }

  function HexDigitValue(c: char): (v: nat)
    requires IsHexDigit(c)
    ensures v < 16
  {
    if IsDigit(c) then DigitValue(c)
    else if 'a' <= c <= 'f' then c as int - 'a' as int + 10
    else c as int - 'A' as int + 10
  }

  /** The length of the longest prefix of hexadecimal digits. */
  function HexRun(s: string): (n: nat)
    ensures n <= |s|
    ensures forall i :: 0 <= i < n ==> IsHexDigit(s[i])
    ensures n < |s| ==> !IsHexDigit(s[n])
    decreases |s|
  {
    if |s| > 0 && IsHexDigit(s[0]) then 1 + HexRun(s[1..]) else 0
  }

  /** The value of a string of hexadecimal digits. */
  function HexValue(s: string): nat
    requires forall i :: 0 <= i < |s| ==> IsHexDigit(s[i])
    decreases |s|
  {
    if |s| == 0 then 0 else HexValue(s[..|s| - 1]) * 16 + HexDigitValue(s[|s| - 1])
  }

  /** static_cast<int> of a 32-bit unsigned value: two's complement wrap-around. */
  function FromUnsigned32(v: nat): (i: int)
    ensures -0x8000_0000 <= i < 0x8000_0000
    ensures i % 0x1_0000_0000 == v % 0x1_0000_0000
  {
    var w := v % 0x1_0000_0000;
    if w >= 0x8000_0000 then w - 0x1_0000_0000 else w
  }

  /** sscanf "%d" on text without leading white space: a sign, then the longest run of digits. */
  function ScanDecimal(t: string): (r: Option<int>)
    ensures var body := if |t| > 0 && (t[0] == '-' || t[0] == '+') then t[1..] else t;
      r.Some? <==> DigitRun(body) > 0
  {
    var body := if |t| > 0 && (t[0] == '-' || t[0] == '+') then t[1..] else t;
    var n := DigitRun(body);
    if n == 0 then None
    else
      var v := ParseNat(body[..n]).value;
      Some(if t[0] == '-' then -(v as int) else v as int)
  }

  /** The text, after its white space, starts with "0x" or "0X". */
  predicate HexPrefixed(t: string)
  {
    |t| >= 2 && t[0] == '0' && (t[1] == 'x' || t[1] == 'X')
  }

  /**
   * XMLUtil::ToInt: after the white space, a "0x" prefix selects "%x" (its
   * 32-bit value cast to int, and no value when no hexadecimal digit
   * follows), anything else "%d".
   */
  function ScanInt(s: string): (r: Option<int>)
    ensures HexPrefixed(SkipSpace(s)) ==> (r.Some? <==> HexRun(SkipSpace(s)[2..]) > 0)
    ensures !HexPrefixed(SkipSpace(s)) ==> r == ScanDecimal(SkipSpace(s))
  {
    var t := SkipSpace(s);
    if HexPrefixed(t) then
      var n := HexRun(t[2..]);
      if n == 0 then None else Some(FromUnsigned32(HexValue(t[2..][..n])))
    else ScanDecimal(t)
  }

  lemma {:induction false} DigitRunAll(s: string)
    requires AllDigits(s)
    ensures DigitRun(s) == |s|
  {
  }

  /** The lenient reader reads every text the strict one reads, as the same number. */
  lemma {:induction false} ScanIntOfStrict(s: string)
    requires ParseInt(s).Some?
    ensures ScanInt(s) == ParseInt(s)
  {
    if |s| > 0 && s[0] == '-' {
      ScanIntOfNegative(s);
    } else {
      ScanIntOfDigits(s);
    }
  }

  lemma {:induction false} ScanIntOfNegative(s: string)
    requires |s| > 0 && s[0] == '-' && ParseNat(s[1..]).Some?
    ensures ScanInt(s) == Some(-(ParseNat(s[1..]).value as int))
  {
    assert SkipSpace(s) == s;
    assert !HexPrefixed(s);
    DigitRunAll(s[1..]);
    assert s[1..][..|s| - 1] == s[1..];
  }

  lemma {:induction false} ScanIntOfDigits(s: string)
    requires ParseNat(s).Some?
    ensures ScanInt(s) == Some(ParseNat(s).value as int)
  {
    assert IsDigit(s[0]);
    assert SkipSpace(s) == s;
    assert !HexPrefixed(s) by {
      if |s| >= 2 { assert IsDigit(s[1]); }
    }
    DigitRunAll(s);
    assert s[..|s|] == s;
  }

  /** A written integer reads back as itself. */
  lemma {:induction false} ScanIntToString(i: int)
    ensures ScanInt(IntToString(i)) == Some(i)
  {
    ParseIntToString(i);
    ScanIntOfStrict(IntToString(i));
  }

  lemma ScanIntSpaceAndSign()
    ensures ScanInt(" 12") == Some(12) && ScanInt("+12") == Some(12)
  {
    assert SkipSpace(" 12") == "12";
    assert DigitRun("12") == 2;
    assert "12"[..2] == "12";
    assert ParseNat("12") == Some(12);
    assert "+12"[1..] == "12";
  }

  /** Text starting with neither white space nor '0' is read by "%d". */
  lemma {:induction false} ScanIntUnprefixed(s: string)
    requires |s| > 0 && !IsSpace(s[0]) && s[0] != '0'
    ensures ScanInt(s) == ScanDecimal(s)
  {
    assert SkipSpace(s) == s;
  }

  lemma ScanIntTrailingSign()
    ensures ScanInt("-3x") == Some(-3)
  {
    ScanIntUnprefixed("-3x");
    ScanDecimalTrailingSign();
  }

  lemma ScanDecimalTrailingSign()
    ensures ScanDecimal("-3x") == Some(-3)
  {
    assert "-3x"[1..] == "3x";
    DigitRunThreeX();
    assert "3x"[..1] == "3";
    assert ParseNat("3") == Some(3);
  }

  lemma DigitRunThreeX()
    ensures DigitRun("3x") == 1
  {
    assert "3x"[1..] == "x";
    assert DigitRun("x") == 0;
  }

  lemma ScanIntTrailingText()
    ensures ScanInt("12abc") == Some(12)
  {
    ScanIntUnprefixed("12abc");
    ScanDecimalTrailingText();
  }

  lemma ScanDecimalTrailingText()
    ensures ScanDecimal("12abc") == Some(12)
  {
    DigitRunTwelveAbc();
    assert "12abc"[..2] == "12";
    assert ParseNat("12") == Some(12);
  }

  lemma DigitRunTwelveAbc()
    ensures DigitRun("12abc") == 2
  {
    assert "12abc"[1..] == "2abc" && "2abc"[1..] == "abc";
    assert DigitRun("abc") == 0;
    assert DigitRun("2abc") == 1;
  }

  lemma ScanIntHex()
    ensures ScanInt("0x1F") == Some(31)
  {
    ScanIntHexPrefixed("0x1F");
    assert "0x1F"[2..] == "1F";
    HexOneF();
  }

  /** Text starting with "0x" or "0X" is read by "%x". */
  lemma {:induction false} ScanIntHexPrefixed(s: string)
    requires HexPrefixed(s)
    ensures var n := HexRun(s[2..]);
      ScanInt(s) == if n == 0 then None else Some(FromUnsigned32(HexValue(s[2..][..n])))
  {
    assert SkipSpace(s) == s;
  }

  lemma HexOneF()
    ensures HexRun("1F") == 2 && HexValue("1F"[..2]) == 31 && FromUnsigned32(31) == 31
  {
    assert "1F"[..2] == "1F";
    assert "1F"[1..] == "F" && "F"[1..] == "";
    assert "1F"[..1] == "1" && "1"[..0] == "";
    assert HexDigitValue('F') == 15 && HexDigitValue('1') == 1;
  }

  lemma ScanIntRefusesLetters()
    ensures ScanInt("abc") == None && ScanInt("") == None
  {
    assert SkipSpace("abc") == "abc";
    assert DigitRun("abc") == 0;
  }

  lemma ScanIntRefusesSpaceAfterSign()
    ensures ScanInt("- 1") == None
  {
    ScanIntUnprefixed("- 1");
    ScanDecimalSpaceAfterSign();
  }

  lemma ScanDecimalSpaceAfterSign()
    ensures ScanDecimal("- 1") == None
  {
    assert "- 1"[1..] == " 1";
    assert DigitRun(" 1") == 0;
  }

  lemma ScanIntRefusesBarePrefix()
    ensures ScanInt("0x") == None
  {
    ScanIntHexPrefixed("0x");
    assert "0x"[2..] == "";
  }

  /** Leading white space, a '+' sign, trailing text and hexadecimal are all read. */
  lemma {:induction false} ScanIntLenient()
    ensures ScanInt(" 12") == Some(12) && ScanInt("+12") == Some(12)
    ensures ScanInt("-3x") == Some(-3) && ScanInt("12abc") == Some(12)
    ensures ScanInt("0x1F") == Some(31)
    ensures ScanInt("abc") == None && ScanInt("") == None && ScanInt("- 1") == None && ScanInt("0x") == None
  {
    ScanIntSpaceAndSign();
    ScanIntTrailingSign();
    ScanIntTrailingText();
    ScanIntHex();
    ScanIntRefusesLetters();
    ScanIntRefusesSpaceAfterSign();
    ScanIntRefusesBarePrefix();
  }

  /** tinyxml2 writes a boolean attribute as "true" or "false". */
  function BoolToString(b: bool): string
  {
    if b then "true" else "false"
  }

  /**
   * tinyxml2's boolean reading (XMLUtil::ToBool): text ToInt reads is true
   * when non-zero, otherwise the three spellings of true and false are
   * accepted.
   */
  function ParseBool(s: string): Option<bool>
  {
    var i := ScanInt(s);
    if i.Some? then Some(i.value != 0)
    else if s == "true" || s == "True" || s == "TRUE" then Some(true)
    else if s == "false" || s == "False" || s == "FALSE" then Some(false)
    else None
  }

  lemma ParseBoolToString(b: bool)
    ensures ParseBool(BoolToString(b)) == Some(b)
  {
    if b {
      ParseBoolTrue();
    } else {
      ParseBoolFalse();
    }
  }

  lemma ParseBoolTrue()
    ensures ParseBool("true") == Some(true)
  {
    ScanIntOfWord("true");
  }

  lemma ParseBoolFalse()
    ensures ParseBool("false") == Some(false)
  {
    ScanIntOfWord("false");
    assert "false" != "true" && "false" != "True" && "false" != "TRUE";
  }

  /** A word that starts with a letter other than a sign holds no integer. */
  lemma ScanIntOfWord(s: string)
    requires |s| > 0 && 'a' <= s[0] <= 'z'
    ensures ScanInt(s) == None
  {
    assert SkipSpace(s) == s && !HexPrefixed(s);
    assert DigitRun(s) == 0;
  }

  /**
   * The text of floating-point numbers is not modelled character by
   * character: a format is a writer and a reader of number text.
   */
  datatype RealFormat = RealFormat(show: real -> string, read: string -> Option<real>)

  predicate NoDelimiter(s: string)
  {
    forall i :: 0 <= i < |s| ==> s[i] != ',' && s[i] != '(' && s[i] != ')'
  }

  /**
   * A format that reads back every number it writes and never writes the
   * characters a point triple uses as delimiters.
   */
  ghost predicate Faithful(f: RealFormat)
  {
    forall r: real :: f.read(f.show(r)) == Some(r) && NoDelimiter(f.show(r))
  }
}
