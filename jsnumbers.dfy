// Number <-> string conversions of JavaScript used by the ride forms:
// parseInt without a radix (decimal, or base 16 after a `0x` prefix) and parseFloat
// (digits, fraction and exponent), each reading the longest numeric prefix with NaN as
// None, and Number#toString for whole numbers.
module JsNumbers {
  import opened Wrappers
  import JsStrings

  predicate IsDigit(c: char)
  {
    '0' <= c <= '9'
  }

  /** The value of a decimal digit (0 for any other character). */
  function DigitValue(c: char): nat
  {
    if IsDigit(c) then c as int - '0' as int else 0
  }

  function DigitChar(d: nat): char
    requires d < 10
  {
    ('0' as int + d) as char
  }

  /** Length of the longest prefix of `s` made of decimal digits. */
  function LeadingDigits(s: string): (n: nat)
    ensures n <= |s|
    decreases |s|
  {
    if s != [] && IsDigit(s[0]) then 1 + LeadingDigits(s[1..]) else 0
  }

  /** The value of a string of decimal digits, most significant first. */
  function DigitsValue(ds: string): nat
    decreases |ds|
  {
    if ds == [] then 0 else 10 * DigitsValue(ds[..|ds| - 1]) + DigitValue(ds[|ds| - 1])
  }

  function Pow10(k: nat): (r: nat)
    ensures r >= 1
  {
    if k == 0 then 1 else 10 * Pow10(k - 1)
  }

  /** Leading whitespace removed, then an optional sign split off. */
  function SplitSign(s: string): (bool, string)
  {
    var t := JsStrings.TrimStart(s);
    if t != [] && (t[0] == '-' || t[0] == '+') then (t[0] == '-', t[1..]) else (false, t)
  }

  /** The value of a hexadecimal digit, none for any other character. */
  function HexValue(c: char): (r: Option<nat>)
    ensures r.Some? ==> r.value < 16
  {
    if '0' <= c <= '9' then Some(c as nat - '0' as nat)
    else if 'a' <= c <= 'f' then Some(c as nat - 'a' as nat + 10)
    else if 'A' <= c <= 'F' then Some(c as nat - 'A' as nat + 10)
    else None
  }

  /** Length of the longest prefix of `s` made of hexadecimal digits. */
  function LeadingHexDigits(s: string): (n: nat)
    ensures n <= |s|
    decreases |s|
  {
    if s != [] && HexValue(s[0]).Some? then 1 + LeadingHexDigits(s[1..]) else 0
  }

  /** The value of a string of hexadecimal digits, most significant first. */
  function HexDigitsValue(ds: string): nat
    decreases |ds|
  {
    if ds == [] then 0 else 16 * HexDigitsValue(ds[..|ds| - 1]) + HexValue(ds[|ds| - 1]).GetOr(0)
  }

  /** A `0x` or `0X` prefix, which `parseInt` without a radix reads as base 16. */
  predicate HexPrefixed(body: string)
  {
    |body| >= 2 && body[0] == '0' && (body[1] == 'x' || body[1] == 'X')
  }

  /** The whole number `parseInt` reads from a body without sign: base 16 after a `0x` prefix,
    * base 10 otherwise; `None` when no digit follows. */
  function UnsignedInt(body: string): (r: Option<nat>)
    ensures r.None? <==> if HexPrefixed(body) then LeadingHexDigits(body[2..]) == 0 else LeadingDigits(body) == 0
  {
    if HexPrefixed(body) then
      var n := LeadingHexDigits(body[2..]);
      if n == 0 then None else Some(HexDigitsValue(body[2..][..n]))
    else
      var n := LeadingDigits(body);
      if n == 0 then None else Some(DigitsValue(body[..n]))
  }

  /** `parseInt(s)` without a radix; `None` stands for `NaN`. */
  function ParseInt(s: string): (r: Option<int>)
    ensures var body := SplitSign(s).1;
      r.None? <==> if HexPrefixed(body) then LeadingHexDigits(body[2..]) == 0 else LeadingDigits(body) == 0
  {
    var (neg, body) := SplitSign(s);
    var m := UnsignedInt(body);
    if m.None? then None else Some(if neg then -(m.value as int) else m.value)
  }

  /** The value of the exponent part (`e` or `E`, an optional sign, digits) at the start of `s`;
    * 0 when `s` does not start with a complete one, which `parseFloat` then ignores. */
  function Exponent(s: string): int
  {
    if s == [] || (s[0] != 'e' && s[0] != 'E') then 0
    else
      var signed := |s| >= 2 && (s[1] == '-' || s[1] == '+');
      var ds := if signed then s[2..] else s[1..];
      var v: int := DigitsValue(ds[..LeadingDigits(ds)]);
      if signed && s[1] == '-' then -v else v
  }

  /** `x` times ten to the power `e`. */
  function Scale(x: real, e: int): real
  {
    if e >= 0 then x * (Pow10(e) as real) else x / (Pow10(-e) as real)
  }

  /** The number `parseFloat` reads from a body without sign: `digits[.digits][e[sign]digits]`,
    * where either digit run before the exponent may be empty but not both. */
  function UnsignedFloat(body: string): (r: Option<real>)
    ensures r.None? <==> LeadingDigits(body) == 0 && !(|body| >= 2 && body[0] == '.' && IsDigit(body[1]))
  {
    var n := LeadingDigits(body);
    var rest := body[n..];
    var dot := rest != [] && rest[0] == '.';
    var f := if dot then LeadingDigits(rest[1..]) else 0;
    if n == 0 && f == 0 then None
    else
      var whole := DigitsValue(body[..n]) as real;
      var frac := if f == 0 then 0.0 else (DigitsValue(rest[1..][..f]) as real) / (Pow10(f) as real);
      var tail := if dot then rest[1..][f..] else rest;
      Some(Scale(whole + frac, Exponent(tail)))
  }

  /** `parseFloat(s)` for decimal numerals; `None` stands for `NaN`. */
  function ParseFloat(s: string): (r: Option<real>)
    ensures var body := SplitSign(s).1;
      r.None? <==> LeadingDigits(body) == 0 && !(|body| >= 2 && body[0] == '.' && IsDigit(body[1]))
  {
    var (neg, body) := SplitSign(s);
    var m := UnsignedFloat(body);
    if m.None? then None else Some(if neg then -m.value else m.value)
  }

  /** `String(n)` for a whole number `n >= 0`. */
  function NatToString(n: nat): (r: string)
    ensures |r| >= 1
    ensures forall i :: 0 <= i < |r| ==> IsDigit(r[i])
    decreases n
  {
    if n < 10 then [DigitChar(n)] else NatToString(n / 10) + [DigitChar(n % 10)]
  }

  /** `String(i)` for a whole number. */
  function IntToString(i: int): string
  {
    if i < 0 then "-" + NatToString(-i) else NatToString(i)
  }

  // ---- properties -------------------------------------------------------

  lemma {:induction false} NatToStringValue(n: nat)
    ensures DigitsValue(NatToString(n)) == n
    decreases n
  {
    if n >= 10 {
      var s := NatToString(n);
      NatToStringValue(n / 10);
      assert s[..|s| - 1] == NatToString(n / 10);
    }
  }

  lemma {:induction false} AllDigitsLeading(s: string)
    requires forall i :: 0 <= i < |s| ==> IsDigit(s[i])
    ensures LeadingDigits(s) == |s|
    decreases |s|
  {
    if s != [] {
      AllDigitsLeading(s[1..]);
    }
  }

  lemma NatToStringUnsigned(n: nat)
    ensures SplitSign(NatToString(n)) == (false, NatToString(n))
  {
    var s := NatToString(n);
    assert IsDigit(s[0]);
    JsStrings.TrimStartPlain(s);
  }

  /** `parseInt(String(n)) === n`. */
  lemma ParseIntOfNatToString(n: nat)
    ensures ParseInt(NatToString(n)) == Some(n)
  {
    var s := NatToString(n);
    NatToStringUnsigned(n);
    assert !HexPrefixed(s) by {
      if |s| >= 2 {
        assert IsDigit(s[1]);
      }
    }
    AllDigitsLeading(s);
    assert s[..|s|] == s;
    NatToStringValue(n);
  }

  /** `parseFloat(String(n)) === n`. */
  lemma ParseFloatOfNatToString(n: nat)
    ensures ParseFloat(NatToString(n)) == Some(n as real)
  {
    var s := NatToString(n);
    NatToStringUnsigned(n);
    AllDigitsLeading(s);
    assert s[..|s|] == s;
    assert s[|s|..] == [];
    assert Exponent([]) == 0;
    NatToStringValue(n);
  }

  /** The digit prefix of digits followed by a non-digit is those digits. */
  lemma {:induction false} LeadingDigitsStop(ds: string, rest: string)
    requires forall i :: 0 <= i < |ds| ==> IsDigit(ds[i])
    requires rest == [] || !IsDigit(rest[0])
    ensures LeadingDigits(ds + rest) == |ds|
    decreases |ds|
  {
    if ds != [] {
      assert (ds + rest)[1..] == ds[1..] + rest;
      LeadingDigitsStop(ds[1..], rest);
    } else {
      assert ds + rest == rest;
    }
  }

  lemma SplitSignPlain(s: string)
    requires s != [] && !JsStrings.IsWhitespace(s[0]) && s[0] != '-' && s[0] != '+'
    ensures SplitSign(s) == (false, s)
  {
    JsStrings.TrimStartPlain(s);
  }

  lemma SplitSignMinus(s: string)
    requires s != [] && s[0] == '-'
    ensures SplitSign(s) == (true, s[1..])
  {
    JsStrings.TrimStartPlain(s);
  }

  lemma UnsignedHex(x: char, ds: string)
    requires x == 'x' || x == 'X'
    requires ds != [] && LeadingHexDigits(ds) == |ds|
    ensures UnsignedInt(['0', x] + ds) == Some(HexDigitsValue(ds))
  {
    assert (['0', x] + ds)[2..] == ds && ds[..|ds|] == ds;
  }

  /** `parseInt` applies the sign to the number read from the body. */
  lemma ParseIntOfSplit(s: string, neg: bool, body: string)
    requires SplitSign(s) == (neg, body) && UnsignedInt(body).Some?
    ensures ParseInt(s) == Some(if neg then -(UnsignedInt(body).value as int) else UnsignedInt(body).value)
  {
  }

  /** A leading minus sign negates the number read from the rest. */
  lemma ParseIntOfMinus(s: string, body: string, v: nat)
    requires s != [] && s[0] == '-' && s[1..] == body && UnsignedInt(body) == Some(v)
    ensures ParseInt(s) == Some(-(v as int))
  {
    SplitSignMinus(s);
    ParseIntOfSplit(s, true, body);
  }

  /** Without a radix, `0x` or `0X` followed by hexadecimal digits reads them in base 16. */
  lemma ParseIntOfHex(x: char, ds: string)
    requires x == 'x' || x == 'X'
    requires ds != [] && LeadingHexDigits(ds) == |ds|
    ensures ParseInt(['0', x] + ds) == Some(HexDigitsValue(ds))
  {
    var plain := ['0', x] + ds;
    SplitSignPlain(plain);
    UnsignedHex(x, ds);
    ParseIntOfSplit(plain, false, plain);
  }

  /** The `0x` prefix with no hexadecimal digit after it is `NaN`. */
  lemma ParseIntOfHexPrefix(x: char)
    requires x == 'x' || x == 'X'
    ensures ParseInt(['0', x]) == None
  {
    SplitSignPlain(['0', x]);
    assert ['0', x][2..] == [];
  }

  lemma UnsignedExponent(ds: string, tail: string)
    requires ds != [] && forall i :: 0 <= i < |ds| ==> IsDigit(ds[i])
    requires tail != [] && tail[0] == 'e'
    ensures UnsignedFloat(ds + tail) == Some(Scale(DigitsValue(ds) as real, Exponent(tail)))
  {
    var s := ds + tail;
    LeadingDigitsStop(ds, tail);
    assert s[..|ds|] == ds && s[|ds|..] == tail;
  }

  lemma ExponentOf(es: string)
    requires es != [] && forall i :: 0 <= i < |es| ==> IsDigit(es[i])
    ensures Exponent("e" + es) == DigitsValue(es) && Exponent("e-" + es) == -(DigitsValue(es) as int)
  {
    AllDigitsLeading(es);
    assert es[..|es|] == es;
    assert ("e" + es)[1..] == es && ("e-" + es)[2..] == es;
  }

  /** Digits, `e` or `e-`, and digits read as the first digits scaled by the power of ten the
    * second give. */
  lemma ParseFloatOfExponent(ds: string, es: string)
    requires ds != [] && forall i :: 0 <= i < |ds| ==> IsDigit(ds[i])
    requires es != [] && forall i :: 0 <= i < |es| ==> IsDigit(es[i])
    ensures ParseFloat(ds + "e" + es) == Some(Scale(DigitsValue(ds) as real, DigitsValue(es)))
    ensures ParseFloat(ds + "e-" + es) == Some(Scale(DigitsValue(ds) as real, -(DigitsValue(es) as int)))
  {
    ExponentOf(es);
    var up, down := ds + "e" + es, ds + "e-" + es;
    assert up == ds + ("e" + es) && down == ds + ("e-" + es);
    assert up[0] == ds[0] && down[0] == ds[0];
    SplitSignPlain(up);
    SplitSignPlain(down);
    UnsignedExponent(ds, "e" + es);
    UnsignedExponent(ds, "e-" + es);
  }

  /** Without a radix a `0x` prefix reads base 16, after an optional sign; the prefix alone is `NaN`. */
  lemma ParseIntHex()
    ensures ParseInt("0x1A") == Some(26) && ParseInt("-0X10") == Some(-16) && ParseInt("0x") == None
  {
    HexLiterals();
    HexSamples();
    ParseIntOfHex('x', "1A");
    UnsignedHex('X', "10");
    ParseIntOfMinus("-0X10", "0X10", 16);
    ParseIntOfHexPrefix('x');
  }

  lemma HexLiterals()
    ensures "0x1A" == ['0', 'x'] + "1A" && "0x" == ['0', 'x']
    ensures "0X10" == ['0', 'X'] + "10" && "-0X10"[1..] == "0X10"
  {
  }

  lemma HexSamples()
    ensures HexDigitsValue("1A") == 26 && HexDigitsValue("10") == 16
  {
    assert "1A"[..1] == "1" && "10"[..1] == "1" && "1"[..0] == [];
  }

  /** Exponent notation scales the numeral: "1e3" is 1000. */
  lemma ParseFloatPositiveExponent()
    ensures ParseFloat("1e3") == Some(1000.0)
  {
    DecimalLiterals();
    DecimalSamples();
    ScaleSamples();
    DigitSamples();
    ParseFloatOfExponent("1", "3");
  }

  /** A negative exponent divides: "25e-2" is 0.25. */
  lemma ParseFloatNegativeExponent()
    ensures ParseFloat("25e-2") == Some(0.25)
  {
    DecimalLiterals();
    DecimalSamples();
    ScaleSamples();
    DigitSamples();
    ParseFloatOfExponent("25", "2");
  }

  lemma DecimalLiterals()
    ensures "1e3" == "1" + "e" + "3" && "25e-2" == "25" + "e-" + "2"
  {
  }

  lemma DecimalSamples()
    ensures DigitsValue("1") == 1 && DigitsValue("3") == 3 && DigitsValue("2") == 2 && DigitsValue("25") == 25
    ensures Pow10(2) == 100 && Pow10(3) == 1000
  {
    assert "25"[..1] == "2" && "1"[..0] == [] && "3"[..0] == [] && "2"[..0] == [];
  }

  lemma ScaleSamples()
    ensures Scale(25.0, -2) == 0.25 && Scale(1.0, 3) == 1000.0
  {
    DecimalSamples();
  }

  lemma DigitSamples()
    ensures forall i :: 0 <= i < |"25"| ==> IsDigit("25"[i])
    ensures forall i :: 0 <= i < |"1"| ==> IsDigit("1"[i])
    ensures forall i :: 0 <= i < |"2"| ==> IsDigit("2"[i])
    ensures forall i :: 0 <= i < |"3"| ==> IsDigit("3"[i])
  {
  }

  /** The empty string parses to `NaN` under both parsers. */
  lemma ParseEmpty()
    ensures ParseInt("") == None && ParseFloat("") == None
  {
  }
}
