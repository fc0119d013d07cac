// Java's `Long.parseLong` for decimal strings and `long` division, which truncates toward zero.
module JavaNumbers {
  import opened Wrappers
  import JsNumbers

  const MinLong: int := -0x8000_0000_0000_0000
  const MaxLong: int := 0x7FFF_FFFF_FFFF_FFFF

  /** The message of the NumberFormatException `parseLong` throws for `s`. */
  function NumberFormat(s: string): string
  {
    "For input string: \"" + s + "\""
  }

  predicate AllDigits(s: string)
  {
    forall i :: 0 <= i < |s| ==> JsNumbers.IsDigit(s[i])
  }

  /** `Long.parseLong(s)`: an optional sign, then one or more decimal digits, within the 64-bit range. */
  function ParseLong(s: string): (r: Result<int>)
    ensures r.Ok? ==> MinLong <= r.value <= MaxLong
    ensures r.Ok? ==> s != [] && (JsNumbers.IsDigit(s[0]) || ((s[0] == '-' || s[0] == '+') && |s| >= 2))
    ensures r.Ok? ==> forall i :: 1 <= i < |s| ==> JsNumbers.IsDigit(s[i])
    ensures r.Err? ==> r.msg == NumberFormat(s)
  {
    var signed := s != [] && (s[0] == '-' || s[0] == '+');
    var digits := if signed then s[1..] else s;
    if digits == [] || !AllDigits(digits) then Err(NumberFormat(s))
    else
      var magnitude: int := JsNumbers.DigitsValue(digits);
      var v := if s[0] == '-' then -magnitude else magnitude;
      if MinLong <= v <= MaxLong then Ok(v) else Err(NumberFormat(s))
  }

  /** `a / b` on Java integers: the quotient truncated toward zero. */
  function JavaDiv(a: int, b: int): (q: int)
    requires b != 0
    ensures (a >= 0) == (b > 0) || q <= 0
    ensures (a >= 0) == (b > 0) ==> q >= 0
  {
    var x := if a < 0 then -a else a;
    var y := if b < 0 then -b else b;
    QuotientNonNegative(x, y);
    var m := x / y;
    if (a < 0) != (b < 0) then -m else m
  }

  /** The quotient of magnitudes is a magnitude. */
  lemma QuotientNonNegative(x: int, y: int)
    requires x >= 0 && y > 0
    ensures x / y >= 0
  {
  }

  // ---- properties ---------------------------------------------------------

  /** `parseLong` reads back the decimal text of every 64-bit value. */
  lemma ParseLongOfToString(n: int)
    requires MinLong <= n <= MaxLong
    ensures ParseLong(JsNumbers.IntToString(n)) == Ok(n)
  {
    if n < 0 {
      ParseLongOfNegative(n);
    } else {
      ParseLongOfNatural(n);
    }
  }

  lemma ParseLongOfNegative(n: int)
    requires MinLong <= n < 0
    ensures ParseLong(JsNumbers.IntToString(n)) == Ok(n)
  {
    var m := JsNumbers.NatToString(-n);
    JsNumbers.NatToStringValue(-n);
    ParseLongOfMinusDigits(m);
  }

  lemma ParseLongOfNatural(n: int)
    requires 0 <= n <= MaxLong
    ensures ParseLong(JsNumbers.IntToString(n)) == Ok(n)
  {
    var m := JsNumbers.NatToString(n);
    JsNumbers.NatToStringValue(n);
    ParseLongOfDigits(m);
  }

  /** A minus sign and digits whose value fits parse to the negated value. */
  lemma ParseLongOfMinusDigits(m: string)
    requires m != [] && AllDigits(m) && JsNumbers.DigitsValue(m) <= -MinLong
    ensures ParseLong("-" + m) == Ok(-(JsNumbers.DigitsValue(m) as int))
  {
    var s := "-" + m;
    assert s[0] == '-' && s[1..] == m;
  }

  /** Digits whose value fits parse to that value. */
  lemma ParseLongOfDigits(m: string)
    requires m != [] && AllDigits(m) && JsNumbers.DigitsValue(m) <= MaxLong
    ensures ParseLong(m) == Ok(JsNumbers.DigitsValue(m))
  {
    assert JsNumbers.IsDigit(m[0]);
  }

  /** A name that is not a number, such as an e-mail address, is refused. */
  lemma ParseLongRefusesName(s: string)
    requires s != [] && !JsNumbers.IsDigit(s[0]) && s[0] != '-' && s[0] != '+'
    ensures ParseLong(s) == Err(NumberFormat(s))
  {
    assert !AllDigits(s) by {
      assert !JsNumbers.IsDigit(s[0]);
    }
  }

  /** For a non-negative dividend and a positive divisor Java's quotient is the floor quotient,
    * and it brackets the dividend. */
  lemma JavaDivNonNegative(a: int, b: int)
    requires a >= 0 && b > 0
    ensures JavaDiv(a, b) == a / b
    ensures JavaDiv(a, b) * b <= a < JavaDiv(a, b) * b + b
  {
  }

  /** For a negative dividend Java rounds toward zero where the floor quotient rounds down. */
  lemma JavaDivTruncates()
    ensures JavaDiv(-1500, 1000) == -1 && -1500 / 1000 == -2
  {
  }
}
