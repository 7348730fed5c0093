/**
 * The PHP scalar values that the configuration array holds, and the few
 * language rules the core relies on: `isset`, truthiness in an `if`,
 * conversion to string in a concatenation, and `intval`.
 */
module PhpValues {

  /** A scalar of a PHP array. Floats, nested arrays and objects are not modelled. */
  datatype Value = Null | Bool(b: bool) | Int(i: int) | Str(s: string)

  /** The range of a PHP integer on a 64-bit platform. */
  const PhpIntMax: int := 0x7FFF_FFFF_FFFF_FFFF
  const PhpIntMin: int := -0x8000_0000_0000_0000

  /** `isset($array[$key])`: the key is present and its value is not null. */
  predicate IsSet(arr: map<string, Value>, key: string)
  {
    key in arr && arr[key] != Null
  }

  /** `$array[$key]` read without a guard: a missing key reads as null. */
  function Lookup(arr: map<string, Value>, key: string): Value
  {
    if key in arr then arr[key] else Null
  }

  /** The truth value PHP gives `$v` in `if ($v)`. */
  predicate Truthy(v: Value)
  {
    match v
    case Null => false
    case Bool(b) => b
    case Int(i) => i != 0
    case Str(s) => s != "" && s != "0"
  }

  predicate IsDigit(c: char)
  {
    '0' <= c <= '9'
  }

  predicate AllDigits(s: string)
  {
    forall k :: 0 <= k < |s| ==> IsDigit(s[k])
  }

  function DigitChar(d: nat): (c: char)
    requires d < 10
    ensures IsDigit(c)
  {
    ('0' as int + d) as char
  }

  function DigitValue(c: char): (d: nat)
    requires IsDigit(c)
    ensures d < 10
  {
    c as int - '0' as int
  }

  /** The decimal digits of `n`, most significant first, without leading zeros. */
  function Decimal(n: nat): (r: string)
    ensures |r| > 0 && AllDigits(r)
    ensures |r| > 1 ==> r[0] != '0'
    decreases n
  {
    if n < 10 then [DigitChar(n)] else Decimal(n / 10) + [DigitChar(n % 10)]
  }

  /** `(string)$i` for an integer. */
  function IntToString(i: int): string
  {
    if i < 0 then "-" + Decimal(-i) else Decimal(i)
  }

  /** The string PHP makes of a scalar in a `.` concatenation. */
  function ToPhpString(v: Value): string
  {
    match v
    case Null => ""
    case Bool(b) => if b then "1" else ""
    case Int(i) => IntToString(i)
    case Str(s) => s
  }

  /** The number written by a run of decimal digits. */
  function DigitsValue(ds: string): nat
    requires AllDigits(ds)
  {
    if ds == [] then 0 else DigitsValue(ds[..|ds| - 1]) * 10 + DigitValue(ds[|ds| - 1])
  }

  predicate IsWhitespace(c: char)
  {
    c == ' ' || c == '\t' || c == '\n' || c == '\r' || c == '\U{0B}' || c == '\U{0C}'
  }

  predicate AllWhitespace(s: string)
  {
    forall k :: 0 <= k < |s| ==> IsWhitespace(s[k])
  }

  /** `s` without its leading whitespace. */
  function SkipWhitespace(s: string): (r: string)
    ensures |r| <= |s| && r == s[|s| - |r|..]
    ensures r != [] ==> !IsWhitespace(r[0])
  {
    if s != [] && IsWhitespace(s[0]) then SkipWhitespace(s[1..]) else s
  }

  /** What `SkipWhitespace` drops is whitespace only. */
  lemma {:induction false} SkipWhitespaceDropsWhitespace(s: string)
    ensures AllWhitespace(s[..|s| - |SkipWhitespace(s)|])
  {
    if s != [] && IsWhitespace(s[0]) {
      SkipWhitespaceDropsWhitespace(s[1..]);
      var n := |s| - |SkipWhitespace(s)|;
      assert s[..n] == [s[0]] + s[1..][..n - 1];
    }
  }

  /** The longest prefix of `s` made of decimal digits. */
  function LeadingDigits(s: string): (r: string)
    ensures r <= s && AllDigits(r)
    ensures |r| < |s| ==> !IsDigit(s[|r|])
  {
    if s != [] && IsDigit(s[0]) then [s[0]] + LeadingDigits(s[1..]) else []
  }

  /** Saturation at the ends of the 64-bit range, as PHP does for an integer string too large. */
  function Clamp(n: int): (r: int)
    ensures PhpIntMin <= r <= PhpIntMax
    ensures PhpIntMin <= n <= PhpIntMax ==> r == n
  {
    if n < PhpIntMin then PhpIntMin else if n > PhpIntMax then PhpIntMax else n
  }

  /**
   * `(int)$s`: leading whitespace, an optional sign, then the leading digits;
   * 0 when there are none. A fractional part is dropped; PHP reads such a
   * string through a double, so the result can differ: "1.9999999999999999999"
   * gives 2 there and 1 here, "18014398509481985.5" gives 18014398509481984
   * there and 18014398509481985 here.
   */
  function StringToInt(s: string): int
  {
    SignedDigitsToInt(SkipWhitespace(s))
  }

  /** The part of `(int)$s` after the leading whitespace: an optional sign, then the leading digits. */
  function SignedDigitsToInt(t: string): int
  {
    if t != [] && (t[0] == '-' || t[0] == '+') then
      var m: int := DigitsValue(LeadingDigits(t[1..]));
      Clamp(if t[0] == '-' then -m else m)
    else
      Clamp(DigitsValue(LeadingDigits(t)))
  }

  /** `intval($v)`: an integer is kept, anything else becomes a 64-bit integer, null and false 0, true 1. */
  function IntVal(v: Value): (r: int)
    ensures v.Int? ==> r == v.i
    ensures !v.Int? ==> PhpIntMin <= r <= PhpIntMax
    ensures v == Null || v == Bool(false) || v == Str("") ==> r == 0
  {
    match v
    case Null => 0
    case Bool(b) => if b then 1 else 0
    case Int(i) => i
    case Str(s) => StringToInt(s)
  }

  lemma {:induction false} DigitsValueOfDecimal(n: nat)
    ensures DigitsValue(Decimal(n)) == n
    decreases n
  {
    if n >= 10 {
      var d := Decimal(n);
      assert d[..|d| - 1] == Decimal(n / 10);
      DigitsValueOfDecimal(n / 10);
    }
  }

  lemma {:induction false} LeadingDigitsOfDigits(s: string)
    requires AllDigits(s)
    ensures LeadingDigits(s) == s
  {
    if s != [] {
      LeadingDigitsOfDigits(s[1..]);
    }
  }

  lemma SkipWhitespaceNone(s: string)
    requires s != [] && !IsWhitespace(s[0])
    ensures SkipWhitespace(s) == s
  {
  }

  lemma StringToIntOfUnsigned(d: string)
    requires d != [] && AllDigits(d)
    ensures StringToInt(d) == Clamp(DigitsValue(d))
  {
    assert IsDigit(d[0]);
    SkipWhitespaceNone(d);
    LeadingDigitsOfDigits(d);
  }

  /** After a sign, a run of digits is read as the number it writes, negated for '-'. */
  lemma SignedDigitsToIntOfDigits(t: string, d: string)
    requires t != [] && (t[0] == '-' || t[0] == '+')
    requires t[1..] == d && AllDigits(d)
    ensures var n: int := DigitsValue(d);
      SignedDigitsToInt(t) == Clamp(if t[0] == '-' then -n else n)
  {
    LeadingDigitsOfDigits(d);
  }

  lemma StringToIntOfSigned(sign: char, d: string)
    requires sign == '-' || sign == '+'
    requires d != [] && AllDigits(d)
    ensures var n: int := DigitsValue(d);
      StringToInt([sign] + d) == Clamp(if sign == '-' then -n else n)
  {
    var s := [sign] + d;
    assert s[0] == sign && s[1..] == d;
    SkipWhitespaceNone(s);
    SignedDigitsToIntOfDigits(s, d);
  }

  /** A run of digits is read as the number it writes, after an optional sign. */
  lemma StringToIntOfDigits(sign: string, d: string)
    requires sign == "" || sign == "-" || sign == "+"
    requires d != [] && AllDigits(d)
    ensures var n: int := DigitsValue(d);
      StringToInt(sign + d) == Clamp(if sign == "-" then -n else n)
  {
    if sign == "" {
      assert sign + d == d;
      StringToIntOfUnsigned(d);
    } else {
      assert sign == [sign[0]];
      StringToIntOfSigned(sign[0], d);
    }
  }

  /** A run of digits that writes `n` reads as `n`, and as `-n` after a '-'. */
  lemma StringToIntOfNumeral(d: string, n: nat)
    requires d != [] && AllDigits(d) && DigitsValue(d) == n
    ensures StringToInt(d) == Clamp(n)
    ensures StringToInt("-" + d) == Clamp(-(n as int))
  {
    StringToIntOfUnsigned(d);
    StringToIntOfDigits("-", d);
  }

  /** `intval` reads back every 64-bit integer from the string PHP writes for it. */
  lemma IntValOfIntString(i: int)
    requires PhpIntMin <= i <= PhpIntMax
    ensures IntVal(Str(IntToString(i))) == i
  {
    if i < 0 {
      DigitsValueOfDecimal(-i);
      StringToIntOfNumeral(Decimal(-i), -i);
    } else {
      DigitsValueOfDecimal(i);
      StringToIntOfNumeral(Decimal(i), i);
    }
  }
}
