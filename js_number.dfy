/** The two JavaScript number conversions the contest code relies on: `parseInt(s)` (no radix)
    and `Number.prototype.toString()` on integer values. Numbers are kept as mathematical
    integers, so values beyond 2^53 do not lose precision here. */
module JsNumber {
  import opened Wrappers

  /** A JavaScript number as this code can produce it: an integer value or NaN. */
  datatype Number = Finite(value: int) | NaN

  /** The white space and line terminators that `parseInt` skips before the number. */
  predicate IsJsWhiteSpace(c: char) {
    var k := c as int;
    k == 0x09 || k == 0x0A || k == 0x0B || k == 0x0C || k == 0x0D || k == 0x20 ||
    k == 0xA0 || k == 0x1680 || (0x2000 <= k <= 0x200A) || k == 0x2028 || k == 0x2029 ||
    k == 0x202F || k == 0x205F || k == 0x3000 || k == 0xFEFF
  }

  /** The value of a digit character in radix 36 ('0'..'9', 'a'..'z', 'A'..'Z'); 36 for any other character. */
  function DigitValue(c: char): (d: nat)
    ensures d <= 36
  {
    if '0' <= c <= '9' then (c as int - '0' as int)
    else if 'a' <= c <= 'z' then (c as int - 'a' as int) + 10
    else if 'A' <= c <= 'Z' then (c as int - 'A' as int) + 10
    else 36
  }

  function TrimStart(s: string): (r: string)
    ensures |r| <= |s| && r == s[|s| - |r|..]
    ensures r != [] ==> !IsJsWhiteSpace(r[0])
  {
    if s != [] && IsJsWhiteSpace(s[0]) then TrimStart(s[1..]) else s
  }

  /** The longest prefix of `s` made of digits of the given radix. */
  function DigitPrefix(s: string, radix: nat): (r: string)
    ensures |r| <= |s| && r == s[..|r|]
    ensures forall i :: 0 <= i < |r| ==> DigitValue(r[i]) < radix
    ensures |r| < |s| ==> DigitValue(s[|r|]) >= radix
  {
    if s != [] && DigitValue(s[0]) < radix then [s[0]] + DigitPrefix(s[1..], radix) else []
  }

  /** The value of a digit string read most significant digit first. */
  function DigitsValue(ds: string, radix: nat): nat {
    if ds == [] then 0 else DigitsValue(ds[..|ds| - 1], radix) * radix + DigitValue(ds[|ds| - 1])
  }

  /** The unsigned part of `parseInt`: a "0x"/"0X" prefix selects radix 16 (radix 10 otherwise),
      then the longest run of digits is converted; `None` (NaN) when that run is empty. */
  function ParseMagnitude(u: string): Option<nat> {
    var hex := |u| >= 2 && u[0] == '0' && (u[1] == 'x' || u[1] == 'X');
    var radix := if hex then 16 else 10;
    var ds := DigitPrefix(if hex then u[2..] else u, radix);
    if ds == [] then None else Some(DigitsValue(ds, radix))
  }

  /** `parseInt(s)` with no radix argument: skip leading white space, take an optional sign,
      then read the magnitude. */
  function ParseInt(s: string): Number {
    ParseSigned(TrimStart(s))
  }

  /** `parseInt` on a string that no longer starts with white space. */
  function ParseSigned(t: string): Number {
    var sign := if t != [] && t[0] == '-' then -1 else 1;
    var u := if t != [] && (t[0] == '-' || t[0] == '+') then t[1..] else t;
    match ParseMagnitude(u)
    case None => NaN
    case Some(m) => Finite(sign * m)
  }

  function DecimalDigit(d: nat): char
    requires d < 10
  {
    ('0' as int + d) as char
  }

  /** The decimal notation of a natural number, without leading zeros. */
  function NatToString(n: nat): (s: string)
    ensures s != []
    ensures forall i :: 0 <= i < |s| ==> '0' <= s[i] <= '9'
    ensures s[0] == '0' ==> n == 0 && s == "0"
  {
    if n < 10 then [DecimalDigit(n)] else NatToString(n / 10) + [DecimalDigit(n % 10)]
  }

  /** `String(n)` for an integer `n` (the exponent notation used from 1e21 on is not modelled). */
  function IntToString(n: int): string {
    if n < 0 then "-" + NatToString(-n) else NatToString(n)
  }

  /** `String(x)` for a number of this model. */
  function NumberToString(x: Number): string {
    match x
    case Finite(v) => IntToString(v)
    case NaN => "NaN"
  }

  lemma {:induction false} NatToStringValue(n: nat)
    ensures DigitPrefix(NatToString(n), 10) == NatToString(n)
    ensures DigitsValue(NatToString(n), 10) == n
  {
    AllDigitsPrefix(NatToString(n));
    DecimalValue(n);
  }

  lemma {:induction false} DecimalValue(n: nat)
    ensures DigitsValue(NatToString(n), 10) == n
  {
    if n >= 10 {
      var s := NatToString(n);
      DecimalValue(n / 10);
      assert s[..|s| - 1] == NatToString(n / 10);
    }
  }

  lemma {:induction false} AllDigitsPrefix(s: string)
    requires forall i :: 0 <= i < |s| ==> '0' <= s[i] <= '9'
    ensures DigitPrefix(s, 10) == s
  {
    if s != [] {
      AllDigitsPrefix(s[1..]);
    }
  }

  lemma MagnitudeOfNatToString(m: nat)
    ensures ParseMagnitude(NatToString(m)) == Some(m)
  {
    var digits := NatToString(m);
    NatToStringValue(m);
    assert !(|digits| >= 2 && digits[0] == '0');
  }

  lemma ParseIntUnsigned(digits: string, m: nat)
    requires digits != [] && '0' <= digits[0] <= '9'
    requires ParseMagnitude(digits) == Some(m)
    ensures ParseInt(digits) == Finite(m)
  {
    assert !IsJsWhiteSpace(digits[0]);
    assert TrimStart(digits) == digits;
  }

  lemma ParseIntNegative(digits: string, m: nat)
    requires ParseMagnitude(digits) == Some(m)
    ensures ParseInt("-" + digits) == Finite(-(m as int))
  {
    TrimStartMinus(digits);
    ParseSignedMinus(digits, m);
  }

  lemma TrimStartMinus(digits: string)
    ensures TrimStart("-" + digits) == "-" + digits
  {
    assert !IsJsWhiteSpace(("-" + digits)[0]);
  }

  lemma ParseSignedMinus(digits: string, m: nat)
    requires ParseMagnitude(digits) == Some(m)
    ensures ParseSigned("-" + digits) == Finite(-(m as int))
  {
    var t := "-" + digits;
    assert t[1..] == digits;
  }

  /** Printing an integer and parsing it back gives the integer again. */
  lemma ParseIntOfIntToString(n: int)
    ensures ParseInt(IntToString(n)) == Finite(n)
  {
    if n < 0 {
      MagnitudeOfNatToString(-n);
      ParseIntNegative(NatToString(-n), -n);
    } else {
      MagnitudeOfNatToString(n);
      ParseIntUnsigned(NatToString(n), n);
    }
  }

  /** `String(parseInt(s)) == s` exactly for the canonical decimal notation of an integer. */
  lemma CanonicalRoundTrip(s: string, n: int)
    requires s == IntToString(n)
    ensures NumberToString(ParseInt(s)) == s
  {
    ParseIntOfIntToString(n);
  }
}
