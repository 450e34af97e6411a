/** The JavaScript number conversions the dashboard script relies on:
    `parseFloat` (used for stakes) and the `ToNumber` coercion applied by
    `>=` (used for uptime), following the string grammars of the
    ECMAScript language specification (StrDecimalLiteral for
    `parseFloat`, StringNumericLiteral for `ToNumber`). Finite values are
    exact reals. */
module JsNum {
  import opened Results
  import opened Decimal
  import opened Json

  /** A JavaScript number value. */
  datatype JsNumber = Finite(value: real) | Infinity(negative: bool) | NaN

  /** The code points of JavaScript's WhiteSpace and LineTerminator
      productions (the Zs category spelled out), which both conversions
      trim. */
  predicate IsJsSpace(c: char) {
    || c == '\t' || c == '\n' || c == '\U{B}' || c == '\U{C}' || c == '\r' || c == ' '
    || c == '\U{A0}' || c == '\U{1680}' || ('\U{2000}' <= c <= '\U{200A}')
    || c == '\U{2028}' || c == '\U{2029}' || c == '\U{202F}' || c == '\U{205F}'
    || c == '\U{3000}' || c == '\U{FEFF}'
  }

  function TrimStart(s: string): (t: string)
    ensures |t| <= |s| && t == s[|s| - |t|..]
    ensures |t| > 0 ==> !IsJsSpace(t[0])
    ensures forall i :: 0 <= i < |s| - |t| ==> IsJsSpace(s[i])
  {
    if s != [] && IsJsSpace(s[0]) then TrimStart(s[1..]) else s
  }

  function TrimEnd(s: string): (t: string)
    ensures |t| <= |s| && t == s[..|t|]
    ensures |t| > 0 ==> !IsJsSpace(t[|t| - 1])
    ensures forall i :: |t| <= i < |s| ==> IsJsSpace(s[i])
  {
    if s != [] && IsJsSpace(s[|s| - 1]) then TrimEnd(s[..|s| - 1]) else s
  }

  /** The length of the run of digits that starts `s`. */
  function DigitRun(s: string): (n: nat)
    ensures n <= |s| && AllDigits(s[..n])
    ensures n < |s| ==> !IsDigit(s[n])
  {
    if s != [] && IsDigit(s[0]) then
      var n := 1 + DigitRun(s[1..]);
      assert s[..n] == [s[0]] + s[1..][..n - 1];
      n
    else 0
  }

  function Pow10(n: nat): (p: nat)
    ensures p >= 1
  {
    if n == 0 then 1 else 10 * Pow10(n - 1)
  }

  /** `m` times ten to the power `e`. */
  function Scale(m: real, e: int): real {
    if e >= 0 then m * Pow10(e) as real else m / Pow10(-e) as real
  }

  const InfinityText: string := "Infinity"

  /** An exponent part (`e` or `E`, an optional sign, at least one digit)
      read from the front of `s`: its value and the number of characters
      it spans. */
  function ScanExponent(s: string): (r: Option<(int, nat)>)
    ensures r.Some? ==> 2 <= r.value.1 <= |s| && (s[0] == 'e' || s[0] == 'E')
  {
    if |s| < 2 || (s[0] != 'e' && s[0] != 'E') then None
    else
      var signLen := if s[1] == '+' || s[1] == '-' then 1 else 0;
      var digits := DigitRun(s[1 + signLen..]);
      if digits == 0 then None
      else
        var n: int := DigitsValue(s[1 + signLen..][..digits]);
        Some((if signLen == 1 && s[1] == '-' then -n else n, 1 + signLen + digits))
  }

  /** Digits with an optional fraction, at least one digit in all, read
      from the front of `s`: the value and the number of characters. */
  function ScanMantissa(s: string): (r: Option<(real, nat)>)
    ensures r.Some? ==> 0 < r.value.1 <= |s| && exists i :: 0 <= i < r.value.1 && IsDigit(s[i])
    ensures r.Some? ==> s[0] != 'I'
  {
    var intLen := DigitRun(s);
    var hasPoint := intLen < |s| && s[intLen] == '.';
    var fracLen := if hasPoint then DigitRun(s[intLen + 1..]) else 0;
    if intLen + fracLen == 0 then None
    else
      var fraction := if hasPoint then DigitsValue(s[intLen + 1..][..fracLen]) else 0;
      var magnitude := DigitsValue(s[..intLen]) as real + fraction as real / Pow10(fracLen) as real;
      assert if intLen > 0 then IsDigit(s[0]) else IsDigit(s[1]);
      Some((magnitude, intLen + (if hasPoint then 1 + fracLen else 0)))
  }

  /** A literal read from the front of a string: the number it denotes
      (never `NaN`) and the number of characters it spans. */
  datatype Scan = Scan(value: JsNumber, length: nat)

  /** The longest prefix of `s` that is a StrUnsignedDecimalLiteral:
      `Infinity`, or a mantissa with an optional exponent part. */
  function ScanUnsigned(s: string): (r: Option<Scan>)
    ensures r.Some? ==> 0 < r.value.length <= |s|
    ensures r.Some? ==> r.value.value.Finite? || r.value == Scan(Infinity(false), |InfinityText|)
    ensures r.Some? && r.value.value.Finite? ==> exists i :: 0 <= i < r.value.length && IsDigit(s[i])
    ensures r.Some? && r.value.value.Infinity? ==> r.value.length == |InfinityText| && s[..|InfinityText|] == InfinityText
    ensures |s| >= |InfinityText| && s[..|InfinityText|] == InfinityText ==> r == Some(Scan(Infinity(false), |InfinityText|))
  {
    if |s| >= |InfinityText| && s[..|InfinityText|] == InfinityText then
      Some(Scan(Infinity(false), |InfinityText|))
    else
      match ScanMantissa(s)
      case None => None
      case Some((magnitude, length)) =>
        match ScanExponent(s[length..])
        case None => Some(Scan(Finite(magnitude), length))
        case Some((e, expLength)) => Some(Scan(Finite(Scale(magnitude, e)), length + expLength))
  }

  /** `Infinity` with an optional sign. */
  predicate IsSignedInfinity(s: string) {
    s == InfinityText || s == "+" + InfinityText || s == "-" + InfinityText
  }

  /** The negation of a number. */
  function Negate(x: JsNumber): JsNumber {
    match x
    case Finite(v) => Finite(-v)
    case Infinity(n) => Infinity(!n)
    case NaN => NaN
  }

  /** The length of the sign at the front of `s`. */
  function SignLength(s: string): (n: nat)
    ensures n <= |s|
  {
    if |s| > 0 && (s[0] == '+' || s[0] == '-') then 1 else 0
  }

  /** The longest prefix of `s` that is a StrDecimalLiteral: an optional
      sign and a StrUnsignedDecimalLiteral. */
  function ScanDecimal(s: string): (r: Option<Scan>)
    ensures r.Some? ==> 0 < r.value.length <= |s| && !r.value.value.NaN?
    ensures r.Some? && r.value.value.Finite? ==> exists i :: 0 <= i < r.value.length && IsDigit(s[i])
    ensures r.Some? && r.value.value.Infinity? ==>
      && IsSignedInfinity(s[..r.value.length])
      && (r.value.value.negative <==> s[..r.value.length] == "-" + InfinityText)
    ensures IsSignedInfinity(s) ==> r == Some(Scan(Infinity(s == "-" + InfinityText), |s|))
  {
    SignedInfinityParts(s);
    match ScanUnsigned(s[SignLength(s)..])
    case None => None
    case Some(sc) =>
      SignedFacts(s, sc);
      Some(Signed(s, sc))
  }

  /** An unsigned scan with the sign at the front of `s` applied. */
  function Signed(s: string, sc: Scan): Scan {
    var signLen := SignLength(s);
    Scan(if signLen == 1 && s[0] == '-' then Negate(sc.value) else sc.value, signLen + sc.length)
  }

  /** What applying the sign keeps of an unsigned scan. */
  lemma SignedFacts(s: string, sc: Scan)
    requires ScanUnsigned(s[SignLength(s)..]) == Some(sc)
    ensures 0 < Signed(s, sc).length <= |s| && !Signed(s, sc).value.NaN?
    ensures Signed(s, sc).value.Finite? ==> exists i :: 0 <= i < Signed(s, sc).length && IsDigit(s[i])
    ensures Signed(s, sc).value.Infinity? ==>
      && IsSignedInfinity(s[..Signed(s, sc).length])
      && (Signed(s, sc).value.negative <==> s[..Signed(s, sc).length] == "-" + InfinityText)
  {
    var signLen := SignLength(s);
    var rest := s[signLen..];
    if sc.value.Finite? {
      var i :| 0 <= i < sc.length && IsDigit(rest[i]);
      assert IsDigit(s[signLen + i]);
    } else {
      InfinityPrefix(s, signLen, sc.length);
    }
  }

  /** The parts of a signed `Infinity`: its sign and the word. */
  lemma SignedInfinityParts(s: string)
    ensures IsSignedInfinity(s) ==>
      var rest := s[SignLength(s)..];
      && |rest| == |InfinityText| && rest[..|InfinityText|] == InfinityText
      && (s == "-" + InfinityText <==> SignLength(s) == 1 && s[0] == '-')
  {
    if IsSignedInfinity(s) {
      assert s[SignLength(s)..] == InfinityText;
    }
  }

  /** A sign followed by `Infinity` is a signed `Infinity`. */
  lemma InfinityPrefix(s: string, signLen: nat, length: nat)
    requires signLen == SignLength(s) && length == |InfinityText|
    requires signLen + length <= |s| && s[signLen..][..length] == InfinityText
    ensures IsSignedInfinity(s[..signLen + length])
    ensures s[..signLen + length] == "-" + InfinityText <==> signLen == 1 && s[0] == '-'
  {
    var p := s[..signLen + length];
    assert p == s[..signLen] + InfinityText;
    if signLen == 1 {
      assert s[..signLen] == [s[0]];
    } else {
      assert s[..signLen] == [];
      assert p[0] == 'I';
    }
  }

  /** `s[i..]` starts with `Infinity`. */
  predicate InfinityAt(s: string, i: int) {
    0 <= i <= |s| - |InfinityText| && s[i..i + |InfinityText|] == InfinityText
  }

  /** `parseFloat(s)`: leading white space is skipped and the longest
      StrDecimalLiteral prefix is read; none means `NaN`. */
  function ParseFloat(s: string): (r: JsNumber)
    ensures r.Finite? ==> exists i :: 0 <= i < |s| && IsDigit(s[i])
    ensures r.Infinity? ==> exists i :: InfinityAt(s, i)
  {
    var t := TrimStart(s);
    var skipped := |s| - |t|;
    match ScanDecimal(t)
    case Some(sc) =>
      if sc.value.Finite? then
        var i :| 0 <= i < sc.length && IsDigit(t[i]);
        assert IsDigit(s[skipped + i]);
        sc.value
      else
        var k := SignLength(t[..sc.length]);
        assert t[..sc.length][k..] == InfinityText by {
          SignedInfinityParts(t[..sc.length]);
        }
        assert s[skipped + k..skipped + k + |InfinityText|] == t[..sc.length][k..];
        assert InfinityAt(s, skipped + k);
        sc.value
    case None => NaN
  }

  /** The value of a hexadecimal digit, and 16 for any other character. */
  function HexValue(c: char): (n: nat)
    ensures n <= 16
  {
    if '0' <= c <= '9' then c as nat - '0' as nat
    else if 'a' <= c <= 'f' then c as nat - 'a' as nat + 10
    else if 'A' <= c <= 'F' then c as nat - 'A' as nat + 10
    else 16
  }

  predicate InRadix(s: string, radix: nat) {
    forall i :: 0 <= i < |s| ==> HexValue(s[i]) < radix
  }

  /** The value of a digit string in the given radix. */
  function RadixValue(s: string, radix: nat): nat
    requires InRadix(s, radix)
  {
    if s == [] then 0 else RadixValue(s[..|s| - 1], radix) * radix + HexValue(s[|s| - 1])
  }

  /** The radix a `0x`, `0o` or `0b` prefix selects, and 0 for any other
      second character. */
  function RadixOf(c: char): nat {
    if c == 'x' || c == 'X' then 16
    else if c == 'o' || c == 'O' then 8
    else if c == 'b' || c == 'B' then 2
    else 0
  }

  /** A NonDecimalIntegerLiteral spanning all of `s`: `0x`, `0o` or `0b`
      followed by at least one digit of that radix. */
  function NonDecimal(s: string): (r: Option<nat>)
    ensures r.Some? ==> |s| >= 3 && s[0] == '0'
  {
    if |s| >= 3 && s[0] == '0' && RadixOf(s[1]) != 0 && InRadix(s[2..], RadixOf(s[1])) then
      Some(RadixValue(s[2..], RadixOf(s[1])))
    else None
  }

  /** `Number(s)`: white space is trimmed at both ends; nothing left is 0;
      otherwise the rest must be a numeric literal in full. */
  function StringToNumber(s: string): (r: JsNumber)
    ensures (forall i :: 0 <= i < |s| ==> IsJsSpace(s[i])) ==> r == Finite(0.0)
    ensures r.Finite? && (exists i :: 0 <= i < |s| && !IsJsSpace(s[i])) ==>
      exists i :: 0 <= i < |s| && IsDigit(s[i])
    ensures r.Infinity? <==> IsSignedInfinity(TrimEnd(TrimStart(s)))
    ensures r == Infinity(true) <==> TrimEnd(TrimStart(s)) == "-" + InfinityText
  {
    var t := TrimEnd(TrimStart(s));
    TrimmedSlice(s);
    if t == [] then Finite(0.0) else LiteralValue(t)
  }

  /** The value of a whole StringNumericLiteral without surrounding white
      space: a NonDecimalIntegerLiteral or a StrDecimalLiteral; anything
      else is `NaN`. */
  function LiteralValue(t: string): (r: JsNumber)
    requires t != []
    ensures r.Finite? ==> exists i :: 0 <= i < |t| && IsDigit(t[i])
    ensures r.Infinity? <==> IsSignedInfinity(t)
    ensures r == Infinity(true) <==> t == "-" + InfinityText
  {
    match NonDecimal(t)
    case Some(n) =>
      NotSignedInfinity(t);
      Finite(n as real)
    case None =>
      var scan := ScanDecimal(t);
      if scan.Some? && scan.value.length == |t| then
        assert t[..|t|] == t;
        scan.value.value
      else
        NaN
  }

  /** A string that starts with neither a sign nor `I` is not a signed
      `Infinity`. */
  lemma NotSignedInfinity(t: string)
    requires t != [] && t[0] != '+' && t[0] != '-' && t[0] != 'I'
    ensures !IsSignedInfinity(t)
  {
  }

  /** What trimming keeps: a slice of `s` that is empty exactly when `s` is
      all white space, and that holds every digit of `s`. */
  lemma TrimmedSlice(s: string)
    ensures var t := TrimEnd(TrimStart(s));
      && (t == [] <==> forall i :: 0 <= i < |s| ==> IsJsSpace(s[i]))
      && forall i :: 0 <= i < |t| && IsDigit(t[i]) ==> exists j :: 0 <= j < |s| && IsDigit(s[j])
  {
    var u := TrimStart(s);
    var t := TrimEnd(u);
    var skipped := |s| - |u|;
    forall i | 0 <= i < |t| && IsDigit(t[i])
      ensures exists j :: 0 <= j < |s| && IsDigit(s[j])
    {
      assert s[skipped + i] == u[i] == t[i];
    }
    if t == [] {
      assert u == [];
    } else {
      assert s[skipped] == u[0] == t[0];
    }
  }

  lemma {:induction false} DigitRunPrefix(a: string, rest: string)
    requires AllDigits(a) && (rest == [] || !IsDigit(rest[0]))
    ensures DigitRun(a + rest) == |a|
  {
    if a == [] {
      assert a + rest == rest;
    } else {
      assert (a + rest)[1..] == a[1..] + rest;
      DigitRunPrefix(a[1..], rest);
    }
  }

  /** `rest` cannot continue a run of digits in a decimal literal. */
  predicate EndsDigits(rest: string) {
    rest == [] || (!IsDigit(rest[0]) && rest[0] != '.' && rest[0] != 'e' && rest[0] != 'E')
  }

  /** Digits without a fraction are read as their value. */
  lemma MantissaOfRun(s: string)
    requires DigitRun(s) > 0 && (DigitRun(s) == |s| || s[DigitRun(s)] != '.')
    ensures ScanMantissa(s) == Some((DigitsValue(s[..DigitRun(s)]) as real, DigitRun(s)))
  {
    var intLen := DigitRun(s);
    assert !(intLen < |s| && s[intLen] == '.');
    assert Pow10(0) == 1;
    assert (0 as real) / (Pow10(0) as real) == 0.0;
  }

  /** A mantissa with no exponent part after it is the unsigned literal. */
  lemma UnsignedOfMantissa(s: string, m: real, k: nat)
    requires ScanMantissa(s) == Some((m, k))
    requires k == |s| || (s[k] != 'e' && s[k] != 'E')
    ensures ScanUnsigned(s) == Some(Scan(Finite(m), k))
  {
    assert ScanExponent(s[k..]) == None;
  }

  /** Without a sign, the decimal literal is the unsigned one. */
  lemma DecimalOfUnsigned(s: string)
    requires SignLength(s) == 0
    ensures ScanDecimal(s) == ScanUnsigned(s)
  {
    assert s[0..] == s;
  }

  /** A run of digits followed by text that cannot continue it is read as
      the value of the digits. */
  lemma ScanDigitsThen(s: string, a: string, rest: string)
    requires s == a + rest && a != [] && AllDigits(a) && EndsDigits(rest)
    ensures ScanDecimal(s) == Some(Scan(Finite(DigitsValue(a) as real), |a|))
  {
    assert s[0] == a[0];
    DigitRunPrefix(a, rest);
    assert s[..|a|] == a;
    assert |a| < |s| ==> s[|a|] == rest[0];
    MantissaOfRun(s);
    UnsignedOfMantissa(s, DigitsValue(a) as real, |a|);
    DecimalOfUnsigned(s);
  }

  /** Neither trim touches a string that starts and ends with something
      other than white space. */
  lemma TrimNoop(s: string)
    requires s != [] && !IsJsSpace(s[0]) && !IsJsSpace(s[|s| - 1])
    ensures TrimStart(s) == s && TrimEnd(s) == s
  {
  }

  /** Both conversions read the decimal spelling of a natural number back
      as that number. */
  lemma ParseNatText(n: nat)
    ensures ParseFloat(NatText(n)) == Finite(n as real)
    ensures StringToNumber(NatText(n)) == Finite(n as real)
  {
    var s := NatText(n);
    assert IsDigit(s[0]) && IsDigit(s[|s| - 1]);
    TrimNoop(s);
    ScanDigitsThen(s, s, []);
    assert NonDecimal(s).None?;
    NatTextValue(n);
  }

  /** `parseFloat` of a string that starts with its literal. */
  lemma ParseFloatOfScan(s: string, sc: Scan)
    requires TrimStart(s) == s && ScanDecimal(s) == Some(sc)
    ensures ParseFloat(s) == sc.value
  {
  }

  /** `Number` of a string with no white space at either end. */
  lemma NumberOfTrimmed(s: string)
    requires s != [] && TrimStart(s) == s && TrimEnd(s) == s
    ensures StringToNumber(s) == LiteralValue(s)
  {
  }

  /** A decimal literal that is not a `0x`, `0o` or `0b` literal counts
      only when the scan spans all of it. */
  lemma LiteralOfScan(t: string, sc: Scan)
    requires t != [] && NonDecimal(t).None? && ScanDecimal(t) == Some(sc)
    ensures LiteralValue(t) == if sc.length == |t| then sc.value else NaN
  {
  }

  /** No `0x`, `0o` or `0b` literal starts with anything but a zero and a
      radix letter. */
  lemma NotNonDecimal(t: string)
    requires |t| < 3 || t[0] != '0' || RadixOf(t[1]) == 0
    ensures NonDecimal(t).None?
  {
  }

  /** A mantissa followed by an exponent part is scaled by it. */
  lemma UnsignedWithExponent(s: string, m: real, k: nat, e: int, l: nat)
    requires ScanMantissa(s) == Some((m, k))
    requires ScanExponent(s[k..]) == Some((e, l))
    ensures ScanUnsigned(s) == Some(Scan(Finite(Scale(m, e)), k + l))
  {
    assert !(|s| >= |InfinityText| && s[..|InfinityText|] == InfinityText) by {
      if |s| >= |InfinityText| { assert s[..|InfinityText|][0] == s[0] != 'I'; }
    }
  }

  /** The same for a literal without a sign, split where its exponent
      part starts. */
  lemma DecimalWithExponent(s: string, mantissa: string, exponent: string, m: real, e: int)
    requires s == mantissa + exponent && SignLength(s) == 0
    requires ScanMantissa(s) == Some((m, |mantissa|))
    requires ScanExponent(exponent) == Some((e, |exponent|))
    ensures ScanDecimal(s) == Some(Scan(Finite(Scale(m, e)), |s|))
  {
    assert s[|mantissa|..] == exponent;
    UnsignedWithExponent(s, m, |mantissa|, e, |exponent|);
    DecimalOfUnsigned(s);
  }

  /** `Number` of a `0x`, `0o` or `0b` literal. */
  lemma LiteralOfNonDecimal(t: string, n: nat)
    requires t != [] && NonDecimal(t) == Some(n)
    ensures LiteralValue(t) == Finite(n as real)
  {
  }

  /** Both conversions of a literal with no white space around it. */
  lemma ConvertLiteral(s: string, sc: Scan)
    requires s != [] && TrimStart(s) == s && TrimEnd(s) == s
    requires ScanDecimal(s) == Some(sc) && NonDecimal(s).None? && sc.length == |s|
    ensures ParseFloat(s) == sc.value && StringToNumber(s) == sc.value
  {
    ParseFloatOfScan(s, sc);
    LiteralOfScan(s, sc);
    NumberOfTrimmed(s);
  }

  /** An exponent part scales the digits before it by a power of ten,
      under both conversions. */
  lemma ExponentNotation(a: string, b: string)
    requires a != [] && AllDigits(a) && b != [] && AllDigits(b)
    ensures ParseFloat(a + "e" + b) == Finite(Scale(DigitsValue(a) as real, DigitsValue(b)))
    ensures StringToNumber(a + "e" + b) == Finite(Scale(DigitsValue(a) as real, DigitsValue(b)))
  {
    var s := a + "e" + b;
    var rest := "e" + b;
    assert s == a + rest;
    ExponentTrim(a, b);
    ExponentNotNonDecimal(a, b);
    assert SignLength(s) == 0 by {
      assert s[0] == a[0];
    }
    var m, e := DigitsValue(a) as real, DigitsValue(b);
    ExponentMantissa(s, a, rest, m);
    ExponentDigits(b, rest, e);
    DecimalWithExponent(s, a, rest, m, e);
    ConvertLiteral(s, Scan(Finite(Scale(m, e)), |s|));
  }

  lemma ExponentTrim(a: string, b: string)
    requires a != [] && AllDigits(a) && b != [] && AllDigits(b)
    ensures TrimStart(a + "e" + b) == a + "e" + b && TrimEnd(a + "e" + b) == a + "e" + b
  {
    var s := a + "e" + b;
    assert s[0] == a[0] && s[|s| - 1] == b[|b| - 1];
    TrimNoop(s);
  }

  lemma ExponentNotNonDecimal(a: string, b: string)
    requires a != [] && AllDigits(a) && b != [] && AllDigits(b)
    ensures NonDecimal(a + "e" + b).None?
  {
    var s := a + "e" + b;
    assert s[0] == a[0];
    assert |a| > 1 ==> s[1] == a[1];
    assert |a| == 1 ==> s[1] == 'e';
    NotNonDecimal(s);
  }

  /** Digits followed by `e` are a mantissa without a fraction. */
  lemma ExponentMantissa(s: string, a: string, rest: string, m: real)
    requires s == a + rest && a != [] && AllDigits(a) && rest != [] && rest[0] == 'e'
    requires m == DigitsValue(a) as real
    ensures ScanMantissa(s) == Some((m, |a|))
  {
    DigitRunPrefix(a, rest);
    assert s[..|a|] == a && s[|a|] == 'e';
    MantissaOfRun(s);
  }

  /** `e` followed by digits is an exponent part spanning all of it. */
  lemma ExponentDigits(b: string, rest: string, e: int)
    requires b != [] && AllDigits(b) && rest == "e" + b && e == DigitsValue(b)
    ensures ScanExponent(rest) == Some((e, |rest|))
  {
    assert rest[1] == b[0] && rest[1..] == b;
    DigitRunPrefix(b, []);
    assert b + [] == b && b[..|b|] == b;
  }

  /** A `0x` literal is read in base 16 by `Number`, while `parseFloat`
      stops after its leading zero. */
  lemma HexNotation(h: string)
    requires h != [] && InRadix(h, 16)
    ensures StringToNumber("0x" + h) == Finite(RadixValue(h, 16) as real)
    ensures ParseFloat("0x" + h) == Finite(0.0)
  {
    var s := "0x" + h;
    HexTrim(h);
    HexScan(h);
    ParseFloatOfScan(s, Scan(Finite(0.0), 1));
    HexNonDecimal(h);
    LiteralOfNonDecimal(s, RadixValue(h, 16));
    NumberOfTrimmed(s);
  }

  lemma HexTrim(h: string)
    requires h != [] && InRadix(h, 16)
    ensures TrimStart("0x" + h) == "0x" + h && TrimEnd("0x" + h) == "0x" + h
  {
    var s := "0x" + h;
    assert s[0] == '0' && s[|s| - 1] == h[|h| - 1];
    assert HexValue(s[|s| - 1]) < 16;
    TrimNoop(s);
  }

  lemma HexScan(h: string)
    requires h != [] && InRadix(h, 16)
    ensures ScanDecimal("0x" + h) == Some(Scan(Finite(0.0), 1))
  {
    ScanDigitsThen("0x" + h, "0", "x" + h);
    assert DigitsValue("0") == 0 by {
      assert "0"[..0] == [];
    }
  }

  lemma HexNonDecimal(h: string)
    requires h != [] && InRadix(h, 16)
    ensures NonDecimal("0x" + h) == Some(RadixValue(h, 16))
  {
    var s := "0x" + h;
    assert s[0] == '0' && s[1] == 'x' && s[2..] == h;
  }

  /** Text after a whole number that cannot continue any literal:
      `parseFloat` reads the number and ignores the rest, while `Number`
      refuses the whole string. */
  lemma TrailingText(a: string, rest: string)
    requires a != [] && AllDigits(a) && rest != [] && EndsDigits(rest)
    requires !IsJsSpace(rest[0]) && RadixOf(rest[0]) == 0
    ensures ParseFloat(a + rest) == Finite(DigitsValue(a) as real)
    ensures StringToNumber(a + rest) == NaN
  {
    var s := a + rest;
    TrailingTrim(s, a, rest);
    ScanDigitsThen(s, a, rest);
    ParseFloatOfScan(s, Scan(Finite(DigitsValue(a) as real), |a|));
    TrailingTextRefused(s, a, rest);
  }

  lemma TrailingTextRefused(s: string, a: string, rest: string)
    requires s == a + rest && a != [] && AllDigits(a) && rest != [] && EndsDigits(rest)
    requires !IsJsSpace(rest[0]) && RadixOf(rest[0]) == 0
    ensures StringToNumber(s) == NaN
  {
    TrailingTrim(s, a, rest);
    var t := TrimEnd(s);
    var kept := t[|a|..];
    assert t == a + kept && kept[0] == rest[0] by {
      assert t == s[..|t|];
    }
    RefusedLiteral(t, a, kept);
  }

  /** Trimming keeps the digits and the character after them. */
  lemma TrailingTrim(s: string, a: string, rest: string)
    requires s == a + rest && a != [] && AllDigits(a) && rest != [] && !IsJsSpace(rest[0])
    ensures TrimStart(s) == s && |TrimEnd(s)| > |a|
  {
    assert s[0] == a[0] && s[|a|] == rest[0];
  }

  /** Digits followed by a character that neither continues them nor
      makes a `0x`, `0o` or `0b` literal do not form a whole literal. */
  lemma RefusedLiteral(t: string, a: string, kept: string)
    requires t == a + kept && a != [] && AllDigits(a) && kept != [] && EndsDigits(kept) && RadixOf(kept[0]) == 0
    ensures LiteralValue(t) == NaN
  {
    ScanDigitsThen(t, a, kept);
    DigitsNotNonDecimal(t, a, kept);
    LiteralOfScan(t, Scan(Finite(DigitsValue(a) as real), |a|));
  }

  lemma DigitsNotNonDecimal(t: string, a: string, kept: string)
    requires t == a + kept && a != [] && AllDigits(a) && kept != [] && RadixOf(kept[0]) == 0
    ensures NonDecimal(t).None?
  {
    assert t[1] == kept[0] || IsDigit(t[1]);
    NotNonDecimal(t);
  }

  /** `Number` reads `Infinity` with its optional sign. */
  lemma NumberOfInfinity(s: string)
    requires IsSignedInfinity(s)
    ensures StringToNumber(s) == Infinity(s == "-" + InfinityText)
  {
    assert s[|s| - 1] == 'y';
    assert s[0] == 'I' || s[0] == '+' || s[0] == '-';
    TrimNoop(s);
  }

  /** `parseFloat(String(j))` for a decoded JSON value. A number spells
      itself; an array spells its elements joined by ",", and since no
      literal contains "," only the first element's spelling is read;
      `null`, booleans and objects spell words ("null", "true",
      "[object Object]") that start no literal. */
  function ParseFloatJson(j: Json): (r: JsNumber)
    ensures j.JNum? ==> r == Finite(j.n)
    ensures j.JStr? ==> r == ParseFloat(j.s)
    ensures j.JArr? && j.items == [] ==> r == NaN
    ensures j.JArr? && j.items != [] ==> r == ParseFloatJson(j.items[0])
    ensures j.JNull? || j.JBool? || j.JObj? ==> r == NaN
  {
    match j
    case JNum(n) => Finite(n)
    case JStr(s) => ParseFloat(s)
    case JArr(xs) => if xs == [] then NaN else ParseFloatJson(xs[0])
    case _ => NaN
  }

  /** `parseFloat(v)` for a property value; `None` is `undefined`, which
      spells "undefined" and is `NaN`. */
  function ParseFloatOf(v: Option<Json>): (r: JsNumber)
    ensures v.None? ==> r == NaN
    ensures v.Some? ==> r == ParseFloatJson(v.value)
  {
    match v
    case None => NaN
    case Some(j) => ParseFloatJson(j)
  }

  /** `Number(j)` for a decoded JSON value: `null` is 0, booleans are 0
      and 1, strings are converted whole, objects are `NaN`. An array goes
      through its string form: the empty array spells "" (0), a
      one-element array spells its element ("" for `null`, "true" or
      "false" for a boolean), and a longer one contains "," (`NaN`). */
  function NumberJson(j: Json): (r: JsNumber)
    ensures j.JNull? ==> r == Finite(0.0)
    ensures j.JBool? ==> r == Finite(if j.b then 1.0 else 0.0)
    ensures j.JNum? ==> r == Finite(j.n)
    ensures j.JStr? ==> r == StringToNumber(j.s)
    ensures j.JObj? ==> r == NaN
    ensures j.JArr? && j.items == [] ==> r == Finite(0.0)
    ensures j.JArr? && |j.items| == 1 && j.items[0].JNull? ==> r == Finite(0.0)
    ensures j.JArr? && |j.items| == 1 && j.items[0].JBool? ==> r == NaN
    ensures j.JArr? && |j.items| == 1 && !j.items[0].JNull? && !j.items[0].JBool? ==> r == NumberJson(j.items[0])
    ensures j.JArr? && |j.items| >= 2 ==> r == NaN
  {
    match j
    case JNull => Finite(0.0)
    case JBool(b) => Finite(if b then 1.0 else 0.0)
    case JNum(n) => Finite(n)
    case JStr(s) => StringToNumber(s)
    case JObj(_) => NaN
    case JArr(xs) =>
      if xs == [] then Finite(0.0)
      else if |xs| >= 2 then NaN
      else
        match xs[0]
        case JNull => Finite(0.0)
        case JBool(_) => NaN
        case _ => NumberJson(xs[0])
  }

  /** The number `>=` compares for a property value: `undefined` is `NaN`,
      anything else converts as `Number` does. */
  function ToNumberOf(v: Option<Json>): (r: JsNumber)
    ensures v.None? ==> r == NaN
    ensures v.Some? ==> r == NumberJson(v.value)
  {
    match v
    case None => NaN
    case Some(j) => NumberJson(j)
  }
}
