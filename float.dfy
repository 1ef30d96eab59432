/** The text-to-number conversion `str::parse::<f64>` that the protocol applies
    to the `current`, `voltage` and `temperature` fields. The grammar is Rust's:
    an optional sign, then a decimal number with optional fraction and
    exponent, or one of the words `inf`, `infinity`, `nan` in any ASCII case.
    Numbers are exact reals: rounding to the nearest `f64`, overflow to infinity
    and the sign of zero are not modelled. */
module FloatParse {
  import opened Wrappers
  import Text

  /** An `f64` value. */
  datatype Float = Finite(value: real) | Infinity(negative: bool) | NaN

  /** The two reasons `ParseFloatError` gives. */
  datatype FloatErrorKind = Empty | Invalid

  datatype Parsed = Number(value: Float) | Failure(kind: FloatErrorKind)

  /** The `Display` text of `ParseFloatError`. */
  function ErrorText(k: FloatErrorKind): string
  {
    match k
    case Empty => "cannot parse float from empty string"
    case Invalid => "invalid float literal"
  }

  predicate IsDigit(c: char) { '0' <= c <= '9' }

  predicate AllDigits(s: string)
  {
    forall i :: 0 <= i < |s| ==> IsDigit(s[i])
  }

  /** The value of a string of decimal digits, most significant first. */
  function DigitsValue(s: string): nat
    requires AllDigits(s)
    decreases |s|
  {
    if s == [] then 0 else DigitsValue(s[..|s| - 1]) * 10 + (s[|s| - 1] as int - '0' as int)
  }

  /** The length of the run of digits that starts `s`. */
  function DigitRun(s: string): (n: nat)
    ensures n <= |s| && AllDigits(s[..n])
    ensures n < |s| ==> !IsDigit(s[n])
  {
    if s == [] || !IsDigit(s[0]) then 0
    else
      var m := DigitRun(s[1..]);
      assert s[..1 + m] == [s[0]] + s[1..][..m];
      1 + m
  }

  function Pow10(n: nat): (r: nat)
    ensures r >= 1
  {
    if n == 0 then 1 else 10 * Pow10(n - 1)
  }

  /** `x` times ten to the power `e`. */
  function Scale(x: real, e: int): real
  {
    if e >= 0 then x * Pow10(e) as real else x / Pow10(-e) as real
  }

  /** The exponent after `e` or `E`: an optional sign and at least one digit,
      and nothing after them. */
  function ParseExponent(s: string): Option<int>
  {
    var negative := |s| > 0 && s[0] == '-';
    var digits := if |s| > 0 && (s[0] == '-' || s[0] == '+') then s[1..] else s;
    if digits != [] && AllDigits(digits) then
      Some(if negative then -(DigitsValue(digits) as int) else DigitsValue(digits))
    else None
  }

  /** A decimal number cut into its integer digits, the digits after the dot
      (`hasDot` says whether there is a dot) and whatever follows them. */
  datatype NumberParts = NumberParts(whole: string, hasDot: bool, fraction: string, tail: string)

  function SplitNumber(s: string): (p: NumberParts)
    ensures AllDigits(p.whole) && AllDigits(p.fraction)
  {
    var n := DigitRun(s);
    var rest := s[n..];
    if |rest| > 0 && rest[0] == '.' then
      var m := DigitRun(rest[1..]);
      NumberParts(s[..n], true, rest[1..][..m], rest[1..][m..])
    else
      NumberParts(s[..n], false, [], rest)
  }

  /** The value of the digits `whole.fraction`. */
  function Mantissa(whole: string, fraction: string): real
    requires AllDigits(whole) && AllDigits(fraction)
  {
    DigitsValue(whole) as real + DigitsValue(fraction) as real / Pow10(|fraction|) as real
  }

  /** An unsigned decimal number: digits, optionally a dot and more digits (at
      least one digit in all), optionally an exponent, and nothing else. */
  function ParseDecimal(s: string): Option<real>
  {
    var p := SplitNumber(s);
    if |p.whole| + |p.fraction| == 0 then None
    else if p.tail == [] then Some(Mantissa(p.whole, p.fraction))
    else if p.tail[0] == 'e' || p.tail[0] == 'E' then
      match ParseExponent(p.tail[1..])
      case Some(e) => Some(Scale(Mantissa(p.whole, p.fraction), e))
      case None => None
    else None
  }

  /** `s.parse::<f64>()`: the empty string is the `Empty` error; after an
      optional sign, a decimal number or one of the special words; anything
      else is the `Invalid` error. */
  function ParseFloat(s: string): (r: Parsed)
    ensures r == Failure(Empty) <==> s == []
    ensures s != [] && (s[0] == '+' || s[0] == '-') && |s| == 1 ==> r == Failure(Invalid)
  {
    if s == [] then Failure(Empty)
    else
      var negative := s[0] == '-';
      var body := if s[0] == '-' || s[0] == '+' then s[1..] else s;
      if body == [] then Failure(Invalid)
      else
        match ParseDecimal(body)
        case Some(x) => Number(Finite(if negative then -x else x))
        case None =>
          var word := Text.AsciiLower(body);
          if word == "nan" then Number(NaN)
          else if word == "inf" || word == "infinity" then Number(Infinity(negative))
          else Failure(Invalid)
  }

  /** The run of digits at the front of `a + rest` is exactly `a` when `rest`
      does not start with a digit. */
  lemma {:induction false} DigitRunOfPrefix(a: string, rest: string)
    requires AllDigits(a)
    requires rest != [] ==> !IsDigit(rest[0])
    ensures DigitRun(a + rest) == |a|
  {
    if a == [] {
      assert a + rest == rest;
    } else {
      assert (a + rest)[0] == a[0];
      assert (a + rest)[1..] == a[1..] + rest;
      DigitRunOfPrefix(a[1..], rest);
    }
  }

  /** A non-empty string of digits is a decimal number worth its digits. */
  lemma DecimalOfDigits(s: string)
    requires s != [] && AllDigits(s)
    ensures ParseDecimal(s) == Some(DigitsValue(s) as real)
  {
    DigitRunOfPrefix(s, []);
    assert s + [] == s;
    assert s[..|s|] == s;
    assert SplitNumber(s) == NumberParts(s, false, [], []);
  }

  /** `a.b` with digit strings `a` and `b`, at least one of them non-empty, is
      the decimal number `a + b / 10^|b|`. */
  lemma DecimalOfFraction(a: string, b: string)
    requires AllDigits(a) && AllDigits(b) && |a| + |b| > 0
    ensures ParseDecimal(a + "." + b) == Some(Mantissa(a, b))
  {
    var s := a + "." + b;
    assert s == a + ("." + b);
    DigitRunOfPrefix(a, "." + b);
    assert s[|a|..] == "." + b;
    assert ("." + b)[1..] == b;
    assert b + [] == b;
    DigitRunOfPrefix(b, []);
    assert s[..|a|] == a;
    assert b[..|b|] == b;
    assert SplitNumber(s) == NumberParts(a, true, b, []);
  }

  /** Unsigned text that is a decimal number parses to that number. */
  lemma ParseUnsigned(s: string)
    requires s != [] && s[0] != '-' && s[0] != '+' && ParseDecimal(s).Some?
    ensures ParseFloat(s) == Number(Finite(ParseDecimal(s).value))
  {
  }

  /** A minus sign in front of a decimal number negates it. */
  lemma ParseNegated(s: string)
    requires ParseDecimal(s).Some?
    ensures ParseFloat("-" + s) == Number(Finite(-ParseDecimal(s).value))
  {
    assert ("-" + s)[1..] == s;
  }

  /** Every non-empty string of digits parses to its decimal value, and with a
      minus sign in front to the negated value. */
  lemma ParseDigits(s: string)
    requires s != [] && AllDigits(s)
    ensures ParseFloat(s) == Number(Finite(DigitsValue(s) as real))
    ensures ParseFloat("-" + s) == Number(Finite(-(DigitsValue(s) as real)))
  {
    DecimalOfDigits(s);
    assert IsDigit(s[0]);
    ParseUnsigned(s);
    ParseNegated(s);
  }

  /** `a.b` parses to `a + b / 10^|b|`. */
  lemma ParseFraction(a: string, b: string)
    requires AllDigits(a) && AllDigits(b) && |a| + |b| > 0
    ensures ParseFloat(a + "." + b) == Number(Finite(Mantissa(a, b)))
  {
    var s := a + "." + b;
    DecimalOfFraction(a, b);
    assert s[0] != '-' && s[0] != '+' by {
      if |a| > 0 { assert s[0] == a[0]; } else { assert s[0] == '.'; }
    }
    ParseUnsigned(s);
  }
}
