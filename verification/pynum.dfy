/** The Python numeric built-ins the backend applies to feed values:
    `round(x, 2)`, `int(x)` and `str(i)`. Arithmetic is on exact reals; the
    binary floating-point representation is not modelled. */
module PyNum {
  import opened Results
  import opened Json
  import opened Decimal

  /** A value with at most two decimal places. */
  predicate IsHundredths(x: real) {
    (x * 100.0).Floor as real == x * 100.0
  }

  /** `x * 100` rounded to the nearest integer, ties to the even one, as
      Python's `round` breaks ties. */
  function Hundredths(x: real): (k: int)
    ensures x * 100.0 - 0.5 <= k as real <= x * 100.0 + 0.5
  {
    var y := x * 100.0;
    var f := y.Floor;
    var frac := y - f as real;
    if frac < 0.5 then f
    else if frac > 0.5 then f + 1
    else if f % 2 == 0 then f
    else f + 1
  }

  /** `round(x, 2)`. */
  function Round2(x: real): (r: real)
    ensures IsHundredths(r)
    ensures x - 0.005 <= r <= x + 0.005
    ensures IsHundredths(x) ==> r == x
  {
    Hundredths(x) as real / 100.0
  }

  /** Rounding never reverses the order of two values. */
  lemma Round2Monotone(x: real, y: real)
    requires x <= y
    ensures Round2(x) <= Round2(y)
  {
    var hx, hy := Hundredths(x), Hundredths(y);
    if x < y {
      assert (hx - hy) as real < 1.0;
    }
    assert hx <= hy;
  }

  /** Rounding twice is rounding once. */
  lemma Round2Idempotent(x: real)
    ensures Round2(Round2(x)) == Round2(x)
  {
  }

  /** `int(x)` of a float: truncation toward zero. */
  function Trunc(x: real): (i: int)
    ensures x >= 0.0 ==> 0 <= i && i as real <= x < i as real + 1.0
    ensures x < 0.0 ==> i <= 0 && i as real - 1.0 < x <= i as real
  {
    if x >= 0.0 then x.Floor else -((-x).Floor)
  }

  /** A base-10 integer literal: an optional sign and at least one digit. */
  predicate IsIntLiteral(s: string) {
    if |s| > 0 && (s[0] == '+' || s[0] == '-') then |s| > 1 && AllDigits(s[1..])
    else |s| > 0 && AllDigits(s)
  }

  /** `int(s)` for a string: the literal's value, or `ValueError`. */
  function ParseInt(s: string): (r: Result<int>)
    ensures r.Ok? <==> IsIntLiteral(s)
  {
    if |s| > 0 && (s[0] == '+' || s[0] == '-') then
      if |s| > 1 && AllDigits(s[1..]) then
        Ok(if s[0] == '-' then -(DigitsValue(s[1..]) as int) else DigitsValue(s[1..]))
      else Err("invalid literal for int() with base 10")
    else if |s| > 0 && AllDigits(s) then Ok(DigitsValue(s))
    else Err("invalid literal for int() with base 10")
  }

  /** `str(i)` for an integer. */
  function IntText(i: int): (s: string)
    ensures IsIntLiteral(s)
  {
    if i < 0 then "-" + NatText(-i) else NatText(i)
  }

  /** `int()` reads back what `str()` writes. */
  lemma ParseIntText(i: int)
    ensures ParseInt(IntText(i)) == Ok(i)
  {
    if i < 0 {
      assert IntText(i)[1..] == NatText(-i);
      NatTextValue(-i);
    } else {
      NatTextValue(i);
    }
  }

  /** `int(j)` for a JSON value: numbers truncate, booleans are 0 and 1,
      strings are parsed, and `None`, lists and dicts raise `TypeError`. */
  function PyInt(j: Json): (r: Result<int>)
    ensures j.JStr? ==> r == ParseInt(j.s)
    ensures IsNumber(j) ==> r == Ok(Trunc(NumValue(j)))
    ensures r.Ok? <==> IsNumber(j) || (j.JStr? && IsIntLiteral(j.s))
  {
    match j
    case JNum(n) => Ok(Trunc(n))
    case JBool(b) => Ok(if b then 1 else 0)
    case JStr(s) => ParseInt(s)
    case _ => Err("int() argument must be a string or a real number")
  }
}
