/** The slice of JavaScript value semantics that the storefront's cart and
    screens depend on: values and plain objects, truthiness, object spread,
    `parseFloat` and `Number(...)` coercions, and the effects a screen
    handler can have on the user interface. */
module JsValues {

  datatype Option<T> = None | Some(value: T)

  /** A JavaScript number. Finite doubles are modelled by reals; Infinity,
      negative zero and rounding are not modelled. */
  datatype Num = NaN | Fin(r: real)

  datatype Value = Undefined | Null | Bool(b: bool) | Number(n: Num) | Str(s: string)

  /** A plain object: own property names to values. */
  type Obj = map<string, Value>

  /** Property read; a missing property reads as `undefined`. */
  function Get(o: Obj, key: string): Value {
    if key in o then o[key] else Undefined
  }

  /** ToBoolean: the values `if (v)` accepts. */
  predicate Truthy(v: Value) {
    match v
    case Undefined => false
    case Null => false
    case Bool(b) => b
    case Number(n) => n.Fin? && n.r != 0.0
    case Str(s) => s != ""
  }

  /** `x <= 0` on a number; every comparison with NaN is false. */
  predicate NonPositive(n: Num) {
    n.Fin? && n.r <= 0.0
  }

  /** `a + b` on numbers. */
  function Add(a: Num, b: Num): Num {
    if a.NaN? || b.NaN? then NaN else Fin(a.r + b.r)
  }

  /** `Math.max(a, b)`: NaN if either argument is NaN. */
  function Max(a: Num, b: Num): (m: Num)
    ensures m.NaN? <==> a.NaN? || b.NaN?
    ensures m.Fin? ==> m.r >= a.r && m.r >= b.r && (m.r == a.r || m.r == b.r)
  {
    if a.NaN? || b.NaN? then NaN else if a.r >= b.r then a else b
  }

  // ---------------------------------------------------------------------
  // Decimal numerals

  predicate IsDigit(c: char) {
    '0' <= c <= '9'
  }

  predicate AllDigits(s: string) {
    forall i :: 0 <= i < |s| ==> IsDigit(s[i])
  }

  /** White space that `parseFloat` skips and `Number` trims (the other
      Unicode space characters are not modelled). */
  predicate IsSpace(c: char) {
    c == ' ' || c == '\t' || c == '\n' || c == '\r'
  }

  /** The value of a decimal digit (the scanner below applies it to digits
      only; any other character counts as 0). */
  function DigitValue(c: char): (d: nat)
    ensures d < 10
    ensures IsDigit(c) ==> d == (c as int) - ('0' as int)
  {
    if IsDigit(c) then (c as int) - ('0' as int) else 0
  }

  /** The value of a string of decimal digits, most significant first. */
  function DigitsValue(s: string): nat
  {
    if s == [] then 0 else DigitsValue(s[..|s| - 1]) * 10 + DigitValue(s[|s| - 1])
  }

  /** Length of the longest all-digit prefix of `s`. */
  function DigitRun(s: string): (n: nat)
    ensures n <= |s|
    ensures n < |s| ==> !IsDigit(s[n])
  {
    if s == [] || !IsDigit(s[0]) then 0 else 1 + DigitRun(s[1..])
  }

  function Pow10(k: nat): (p: nat)
    ensures p >= 1
  {
    if k == 0 then 1 else 10 * Pow10(k - 1)
  }

  /** The value of the numeral `ip.fp`. */
  function DecimalOf(ip: string, fp: string): real {
    DigitsValue(ip) as real + DigitsValue(fp) as real / Pow10(|fp|) as real
  }

  /** A numeral found at the start of a string: how many characters it
      takes, its sign, and its integer and fraction digits. */
  datatype Numeral = Numeral(len: nat, negative: bool, ip: string, fp: string)

  function NumeralValue(m: Numeral): real {
    if m.negative then -DecimalOf(m.ip, m.fp) else DecimalOf(m.ip, m.fp)
  }

  /** The longest prefix of `s` of the form `digits [. digits]` with at
      least one digit; None when `s` does not start with such a numeral.
      Exponents are not modelled. */
  function ScanDecimal(s: string): (r: Option<Numeral>)
    ensures r.Some? ==> 0 < r.value.len <= |s| && !r.value.negative
  {
    var i := DigitRun(s);
    if i < |s| && s[i] == '.' then
      var rest := s[i + 1..];
      var f := DigitRun(rest);
      if i + f == 0 then None else Some(Numeral(i + 1 + f, false, s[..i], rest[..f]))
    else if i == 0 then None
    else Some(Numeral(i, false, s[..i], ""))
  }

  /** A decimal numeral with an optional leading sign. */
  function ScanSigned(s: string): (r: Option<Numeral>)
    ensures r.Some? ==> 0 < r.value.len <= |s|
  {
    if |s| > 0 && (s[0] == '-' || s[0] == '+') then
      match ScanDecimal(s[1..])
      case None => None
      case Some(m) => Some(m.(len := m.len + 1, negative := s[0] == '-'))
    else ScanDecimal(s)
  }

  function TrimStart(s: string): (t: string)
    ensures |t| <= |s| && t == s[|s| - |t|..]
    ensures t != [] ==> !IsSpace(t[0])
    ensures AllSpace(s) ==> t == []
  {
    if s != [] && IsSpace(s[0]) then TrimStart(s[1..]) else s
  }

  predicate AllSpace(s: string) {
    forall i :: 0 <= i < |s| ==> IsSpace(s[i])
  }

  /** `parseFloat(v)`: the numeral at the start of `String(v)` after leading
      white space, NaN when there is none. `String(v)` of undefined, null
      and the booleans starts with a letter, so those parse to NaN. */
  function ParseFloat(v: Value): (n: Num)
    ensures v.Number? ==> n == v.n
    ensures !v.Number? && !v.Str? ==> n.NaN?
    ensures v.Str? && AllSpace(v.s) ==> n.NaN?
  {
    match v
    case Number(n) => n
    case Str(s) =>
      (match ScanSigned(TrimStart(s))
       case Some(m) => Fin(NumeralValue(m))
       case None => NaN)
    case _ => NaN
  }

  /** `Number(s)` on a string, ECMAScript's StringToNumber: white space, a
      numeral, white space. An empty or all-space string is 0; a numeral
      followed by anything but white space, or no numeral, is NaN. */
  function StringToNumber(s: string): (n: Num)
    ensures n.NaN? <==> NumberRejects(s)
    ensures AllSpace(s) ==> n == Fin(0.0)
  {
    var l := TrimStart(s);
    if l == [] then Fin(0.0)
    else
      match ScanSigned(l)
      case Some(m) => if AllSpace(l[m.len..]) then Fin(NumeralValue(m)) else NaN
      case None => NaN
  }

  /** `Number(v)`, the conversion `isNaN` applies before testing. */
  function ToNumber(v: Value): Num {
    match v
    case Undefined => NaN
    case Null => Fin(0.0)
    case Bool(b) => Fin(if b then 1.0 else 0.0)
    case Number(n) => n
    case Str(s) => StringToNumber(s)
  }

  /** `Number(s)` is NaN: after leading white space the string is not
      empty, and either no numeral starts it or more than white space
      follows the numeral. Whether a numeral is found decides this; its
      value does not. */
  predicate NumberRejects(s: string) {
    var l := TrimStart(s);
    l != [] && (ScanSigned(l).None? || !AllSpace(l[ScanSigned(l).value.len..]))
  }

  /** The global `isNaN(v)`: whether `Number(v)` is NaN, decided without
      computing the number (IsNaNIsNumberNaN). */
  predicate IsNaN(v: Value)
    ensures v.Number? ==> (IsNaN(v) <==> v.n.NaN?)
    ensures v.Str? && AllSpace(v.s) ==> !IsNaN(v)
  {
    match v
    case Undefined => true
    case Null => false
    case Bool(_) => false
    case Number(n) => n.NaN?
    case Str(s) => NumberRejects(s)
  }

  /** The decimal numeral of a natural number, without leading zeros. */
  function NatToString(n: nat): (s: string)
    ensures s != [] && AllDigits(s)
  {
    var d := ['0' + (n % 10) as char];
    if n < 10 then d else NatToString(n / 10) + d
  }

  // ---------------------------------------------------------------------
  // Lemmas

  /** `isNaN(v)` holds exactly when `Number(v)` is NaN. */
  lemma IsNaNIsNumberNaN(v: Value)
    ensures IsNaN(v) <==> ToNumber(v).NaN?
  {
  }

  /** Reading back the numeral of `n` gives `n`. */
  lemma {:induction false} NatToStringValue(n: nat)
    ensures DigitsValue(NatToString(n)) == n
  {
    var s := NatToString(n);
    if n >= 10 {
      NatToStringValue(n / 10);
      assert s[..|s| - 1] == NatToString(n / 10);
    }
  }

  lemma {:induction false} DigitRunOfDigits(s: string)
    requires AllDigits(s)
    ensures DigitRun(s) == |s|
  {
    if s != [] {
      DigitRunOfDigits(s[1..]);
    }
  }

  /** A string of digits is read whole, as its value. */
  lemma ScanDigits(s: string)
    requires s != [] && AllDigits(s)
    ensures ScanDecimal(s) == Some(Numeral(|s|, false, s, ""))
    ensures ScanSigned(s) == ScanDecimal(s)
  {
    DigitRunOfDigits(s);
    assert s[..|s|] == s;
  }

  /** `parseFloat` and `Number` read a string of digits as its value. */
  lemma ReadDigits(s: string)
    requires s != [] && AllDigits(s)
    ensures ParseFloat(Str(s)) == Fin(DigitsValue(s) as real)
    ensures StringToNumber(s) == Fin(DigitsValue(s) as real)
  {
    ScanDigits(s);
    assert !IsSpace(s[0]);
    assert TrimStart(s) == s;
    assert AllSpace(s[|s|..]);
    assert DigitsValue("") == 0 && Pow10(0) == 1;
    assert NumeralValue(Numeral(|s|, false, s, "")) == DigitsValue(s) as real;
  }

  /** `parseFloat` and `Number` read the numeral of a natural number back
      as that number. */
  lemma NatNumeralRoundTrip(n: nat)
    ensures ParseFloat(Str(NatToString(n))) == Fin(n as real)
    ensures StringToNumber(NatToString(n)) == Fin(n as real)
  {
    NatToStringValue(n);
    ReadDigits(NatToString(n));
  }

  /** Appending text that cannot continue a numeral leaves the digit run
      of an all-digit string unchanged. */
  lemma {:induction false} DigitRunAppend(t: string, u: string)
    requires AllDigits(t)
    requires u == [] || !IsDigit(u[0])
    ensures DigitRun(t + u) == |t|
  {
    if t != [] {
      assert (t + u)[1..] == t[1..] + u;
      DigitRunAppend(t[1..], u);
    }
  }

  /** Where `Number(s)` finds a numeral (rather than an empty string),
      `parseFloat(s)` finds the same number: both read the numeral after
      the leading white space, and `Number` also demands that nothing but
      white space follows it. */
  lemma ParseFloatAgreesWithNumber(s: string)
    requires StringToNumber(s).Fin?
    requires TrimStart(s) != []
    ensures ParseFloat(Str(s)) == StringToNumber(s)
  {
    var l := TrimStart(s);
    assert ScanSigned(l).Some?;
  }

  /** `parseFloat` stops at the end of the numeral where `Number` rejects
      the text: a numeral followed by more than white space is a number to
      the one and NaN to the other. */
  lemma ParseFloatReadsPrefix(s: string)
    requires ScanSigned(TrimStart(s)).Some?
    requires !AllSpace(TrimStart(s)[ScanSigned(TrimStart(s)).value.len..])
    ensures ParseFloat(Str(s)) == Fin(NumeralValue(ScanSigned(TrimStart(s)).value))
    ensures StringToNumber(s) == NaN
  {
    assert TrimStart(s) != [];
  }

  /** `Number("0")` is 0. The text is a parameter pinned to "0" rather
      than a literal in the contract, which keeps the solver from
      unfolding the conversion on the literal. */
  lemma ZeroNumeral(s: string)
    requires s == "0"
    ensures StringToNumber(s) == Fin(0.0)
  {
    assert s[..0] == "";
    assert DigitsValue(s) == 0;
    ReadDigits(s);
  }

  /** Text that starts with a character that can begin neither white space
      nor a numeral holds no number, for `parseFloat` or for `Number`. */
  lemma NoNumeral(s: string)
    requires s != [] && !IsSpace(s[0]) && !IsDigit(s[0])
    requires s[0] != '.' && s[0] != '+' && s[0] != '-'
    ensures ParseFloat(Str(s)) == NaN
    ensures StringToNumber(s) == NaN
  {
    assert TrimStart(s) == s;
    assert DigitRun(s) == 0;
    assert ScanSigned(s) == None;
  }

  /** A numeral with a decimal point, `ip.fp`, is read whole, as its value. */
  lemma ScanPointNumeral(ip: string, fp: string)
    requires ip != [] && AllDigits(ip) && AllDigits(fp)
    ensures ScanDecimal(ip + "." + fp) == Some(Numeral(|ip| + 1 + |fp|, false, ip, fp))
  {
    var s := ip + "." + fp;
    assert s == ip + ("." + fp);
    DigitRunAppend(ip, "." + fp);
    assert s[..|ip|] == ip;
    assert s[|ip| + 1..] == fp;
    DigitRunOfDigits(fp);
    assert fp[..|fp|] == fp;
  }

  /** The numeral "12.5" is read whole ... */
  lemma ScanTwelveAndAHalf()
    ensures ScanSigned("12.5") == Some(Numeral(4, false, "12", "5"))
  {
    assert "12.5" == "12" + "." + "5";
    ScanPointNumeral("12", "5");
  }

  /** ... and its value is 12.5. */
  lemma ValueTwelveAndAHalf()
    ensures NumeralValue(Numeral(4, false, "12", "5")) == 12.5
  {
    assert "12"[..1] == "1" && "1"[..0] == "" && "5"[..0] == "";
    assert DigitsValue("12") == 12 && DigitsValue("5") == 5;
    assert Pow10(1) == 10;
  }

  /** Text that does not start with white space has none to skip. */
  lemma TrimNothing(s: string)
    requires s != [] && !IsSpace(s[0])
    ensures TrimStart(s) == s
  {
  }

  /** `parseFloat` reads the decimal price "12.5" as 12.5, and finds no
      number in "abc". */
  lemma ParseFloatExamples()
    ensures ParseFloat(Str("12.5")) == Fin(12.5)
    ensures ParseFloat(Str("abc")) == NaN
  {
    assert ParseFloat(Str("12.5")) == Fin(12.5) by {
      ScanTwelveAndAHalf();
      ValueTwelveAndAHalf();
      TrimNothing("12.5");
    }
    assert ParseFloat(Str("abc")) == NaN by {
      NoNumeral("abc");
    }
  }

  /** `Number(...)` of the empty string and of text that is no numeral. */
  lemma StringToNumberExamples()
    ensures StringToNumber("") == Fin(0.0)
    ensures StringToNumber("abc") == NaN
  {
    NoNumeral("abc");
  }

  // ---------------------------------------------------------------------
  // User-interface effects of a screen handler

  datatype Effect =
    | NoEffect
    | ShowAlert(title: string, message: string)
    | NavigateTo(screen: string)
    | AlertThenNavigate(title: string, message: string, screen: string)
}
