/** JavaScript values as the renderer handles them: the string an attribute
    holds, `null` for an absent one, and the number the canvas binding
    receives once it has converted an argument.

    Numbers are exact reals. IEEE rounding, negative zero and overflow to
    Infinity are not modelled; NaN and the two infinities are, because the
    conversions below produce them and the renderer's control flow depends
    on `isNaN`. */
module JsValues {

  datatype Option<+T> = None | Some(value: T)

  /** A JavaScript number. */
  datatype Number = Finite(value: real) | NaN | Infinity(negative: bool)

  /** The JavaScript values a resolved attribute record holds: `undefined`
      for a property never set, `null` for an absent attribute, the
      attribute's string, or a number computed from it. */
  datatype JsValue = Undefined | Null | Str(s: string) | Num(n: Number)

  /** JavaScript truthiness of a `string | null`: present and non-empty. */
  predicate Truthy(v: Option<string>)
  {
    v.Some? && v.value != ""
  }

  /** The value `string | null` as a JavaScript value. */
  function OfOption(v: Option<string>): (r: JsValue)
    ensures r.Null? <==> v.None?
    ensures v.Some? ==> r == Str(v.value)
  {
    match v
    case None => Null
    case Some(s) => Str(s)
  }

  // ---------------------------------------------------------------------
  // Whitespace and trimming (ECMAScript WhiteSpace and LineTerminator)
  // ---------------------------------------------------------------------

  predicate IsWhite(c: char)
  {
    || c == '\t' || c == '\n' || c == '\U{B}' || c == '\U{C}' || c == '\r'
    || c == ' ' || c == '\U{A0}' || c == '\U{1680}'
    || ('\U{2000}' <= c <= '\U{200A}')
    || c == '\U{2028}' || c == '\U{2029}' || c == '\U{202F}' || c == '\U{205F}'
    || c == '\U{3000}' || c == '\U{FEFF}'
  }

  /** Drops the leading whitespace, as `parseFloat` does. */
  function TrimStart(s: string): string
  {
    if |s| > 0 && IsWhite(s[0]) then TrimStart(s[1..]) else s
  }

  /** Drops the trailing whitespace. */
  function TrimEnd(s: string): string
  {
    if |s| > 0 && IsWhite(s[|s| - 1]) then TrimEnd(s[..|s| - 1]) else s
  }

  /** `TrimStart` removes exactly the leading whitespace: what it drops is
      whitespace, and what it keeps is a suffix that does not start with
      whitespace. */
  lemma {:induction false} TrimStartShape(s: string)
    ensures var r := TrimStart(s);
            && |r| <= |s| && r == s[|s| - |r|..]
            && (|r| > 0 ==> !IsWhite(r[0]))
            && (forall i :: 0 <= i < |s| - |r| ==> IsWhite(s[i]))
    decreases |s|
  {
    if |s| > 0 && IsWhite(s[0]) {
      TrimStartShape(s[1..]);
    }
  }

  /** `TrimEnd` removes exactly the trailing whitespace. */
  lemma {:induction false} TrimEndShape(s: string)
    ensures var r := TrimEnd(s);
            && |r| <= |s| && r == s[..|r|]
            && (|r| > 0 ==> !IsWhite(r[|r| - 1]))
            && (forall i :: |r| <= i < |s| ==> IsWhite(s[i]))
    decreases |s|
  {
    if |s| > 0 && IsWhite(s[|s| - 1]) {
      TrimEndShape(s[..|s| - 1]);
    }
  }

  /** Drops whitespace at both ends, as the string-to-number conversion does. */
  function Trim(s: string): string
  {
    TrimEnd(TrimStart(s))
  }

  // ---------------------------------------------------------------------
  // Digits
  // ---------------------------------------------------------------------

  predicate IsDigit(c: char)
  {
    '0' <= c <= '9'
  }

  /** The value of `c` as a digit of `radix` (2, 8, 10 or 16), if it is one. */
  function DigitOf(c: char, radix: nat): (r: Option<nat>)
    ensures r.Some? ==> r.value < radix
    ensures radix == 10 ==> (r.Some? <==> IsDigit(c))
  {
    var d: nat :=
      if '0' <= c <= '9' then c as int - '0' as int
      else if 'a' <= c <= 'f' then c as int - 'a' as int + 10
      else if 'A' <= c <= 'F' then c as int - 'A' as int + 10
      else 16;
    if d < radix && d < 16 then Some(d) else None
  }

  predicate AllDigits(s: string, radix: nat)
  {
    forall i :: 0 <= i < |s| ==> DigitOf(s[i], radix).Some?
  }

  /** The value of a digit string, most significant digit first. */
  function ValueIn(s: string, radix: nat): nat
    requires AllDigits(s, radix)
  {
    if |s| == 0 then 0
    else ValueIn(s[..|s| - 1], radix) * radix + DigitOf(s[|s| - 1], radix).value
  }

  /** Length of the longest prefix of `s` made of decimal digits. */
  function DigitRun(s: string): (k: nat)
    ensures k <= |s|
    ensures forall i :: 0 <= i < k ==> IsDigit(s[i])
    ensures k < |s| ==> !IsDigit(s[k])
  {
    if |s| > 0 && IsDigit(s[0]) then 1 + DigitRun(s[1..]) else 0
  }

  function Pow10(e: int): (r: real)
    ensures r > 0.0
    decreases if e < 0 then -e else e
  {
    if e == 0 then 1.0
    else if e > 0 then 10.0 * Pow10(e - 1)
    else Pow10(e + 1) / 10.0
  }

  // ---------------------------------------------------------------------
  // Decimal literals (StrDecimalLiteral of ECMAScript section 7.1.4.1)
  // ---------------------------------------------------------------------

  /** The result of reading a literal at the start of a string: how many
      characters it takes and what it denotes. */
  datatype Scan = NoMatch | Match(len: nat, value: Number)

  /** An exponent part `e`/`E`, optional sign, at least one digit; returns
      its length (0 when there is none) and its value. */
  function ScanExponent(t: string): (r: (nat, int))
    ensures r.0 <= |t|
    ensures r.0 == 0 ==> r.1 == 0
    ensures r.0 > 0 ==> t[0] == 'e' || t[0] == 'E'
  {
    if |t| >= 2 && (t[0] == 'e' || t[0] == 'E') then
      var start := if t[1] == '+' || t[1] == '-' then 2 else 1;
      var k := DigitRun(t[start..]);
      if k == 0 then (0, 0)
      else
        var magnitude := ValueIn(t[start..start + k], 10);
        var exponent: int := if t[1] == '-' then -(magnitude as int) else magnitude;
        (start + k, exponent)
    else (0, 0)
  }

  /** The longest prefix of `s` that is an unsigned decimal literal:
      `Infinity`, or digits with an optional fraction and exponent, where at
      least one digit precedes or follows the point. */
  function ScanUnsignedDecimal(s: string): (r: Scan)
    ensures r.Match? ==> 0 < r.len <= |s|
    ensures r.Match? && r.value.Finite? ==> IsDigit(s[0]) || s[0] == '.'
  {
    if |s| >= 8 && s[..8] == "Infinity" then Match(8, Infinity(false))
    else
      var i := DigitRun(s);
      var dot := i < |s| && s[i] == '.';
      var f := if dot then DigitRun(s[i + 1..]) else 0;
      if i == 0 && f == 0 then NoMatch
      else
        var m := if dot then i + 1 + f else i;
        var (e, exponent) := ScanExponent(s[m..]);
        var whole := ValueIn(s[..i], 10) as real;
        var fraction := if dot then ValueIn(s[i + 1..m], 10) as real / Pow10(f) else 0.0;
        Match(m + e, Finite((whole + fraction) * Pow10(exponent)))
  }

  function Negate(n: Number): (r: Number)
    ensures r.NaN? <==> n.NaN?
    ensures n.Finite? ==> r == Finite(-n.value)
  {
    match n
    case Finite(v) => Finite(-v)
    case NaN => NaN
    case Infinity(neg) => Infinity(!neg)
  }

  /** A decimal literal with an optional leading sign. */
  function ScanDecimal(s: string): (r: Scan)
    ensures r.Match? ==> 0 < r.len <= |s|
  {
    if |s| > 0 && (s[0] == '+' || s[0] == '-') then
      match ScanUnsignedDecimal(s[1..])
      case NoMatch => NoMatch
      case Match(len, v) => Match(len + 1, if s[0] == '-' then Negate(v) else v)
    else ScanUnsignedDecimal(s)
  }

  /** `parseFloat(s)`: skip leading whitespace, then read the longest prefix
      that is a signed decimal literal; NaN when there is none. */
  function ParseFloat(s: string): Number
  {
    match ScanDecimal(TrimStart(s))
    case NoMatch => NaN
    case Match(_, v) => v
  }

  /** `parseFloat(v)` for a value that is a string or `null`; `null` reads
      as the string "null", which holds no number. */
  function ParseFloatOf(v: JsValue): Number
  {
    match v
    case Str(s) => ParseFloat(s)
    case Num(n) => n
    case _ => NaN
  }

  /** The radix a `0x`, `0o` or `0b` prefix selects. */
  function RadixOf(c: char): Option<nat>
  {
    if c == 'x' || c == 'X' then Some(16)
    else if c == 'o' || c == 'O' then Some(8)
    else if c == 'b' || c == 'B' then Some(2)
    else None
  }

  predicate HasRadixPrefix(t: string)
  {
    |t| >= 2 && t[0] == '0' && RadixOf(t[1]).Some?
  }

  /** `Number(s)` (ECMAScript StringToNumber): after trimming, the empty
      string is 0, a `0x`/`0o`/`0b` literal is read in its radix, and
      otherwise the whole string must be one signed decimal literal. */
  function ToNumber(s: string): (r: Number)
    ensures Trim(s) == "" ==> r == Finite(0.0)
  {
    var t := Trim(s);
    if t == "" then Finite(0.0)
    else if HasRadixPrefix(t) then
      var radix := RadixOf(t[1]).value;
      var digits := t[2..];
      if |digits| > 0 && AllDigits(digits, radix) then Finite(ValueIn(digits, radix) as real)
      else NaN
    else
      match ScanDecimal(t)
      case NoMatch => NaN
      case Match(len, v) => if len == |t| then v else NaN
  }

  /** ToNumber on any value: what a canvas method receives for an argument. */
  function ToNumberOf(v: JsValue): (r: Number)
    ensures v.Null? ==> r == Finite(0.0)
    ensures v.Undefined? ==> r.NaN?
  {
    match v
    case Undefined => NaN
    case Null => Finite(0.0)
    case Str(s) => ToNumber(s)
    case Num(n) => n
  }

  /** The `-` operator on two numbers. */
  function Sub(a: Number, b: Number): (r: Number)
    ensures a.Finite? && b.Finite? ==> r == Finite(a.value - b.value)
    ensures a.NaN? || b.NaN? ==> r.NaN?
  {
    match (a, b)
    case (Finite(x), Finite(y)) => Finite(x - y)
    case (NaN, _) => NaN
    case (_, NaN) => NaN
    case (Infinity(p), Infinity(q)) => if p == q then NaN else Infinity(p)
    case (Infinity(p), Finite(_)) => Infinity(p)
    case (Finite(_), Infinity(q)) => Infinity(!q)
  }

  // ---------------------------------------------------------------------
  // Facts about the conversions
  // ---------------------------------------------------------------------

  lemma {:induction false} DigitRunOfDigits(s: string)
    requires forall i :: 0 <= i < |s| ==> IsDigit(s[i])
    ensures DigitRun(s) == |s|
  {
    if |s| > 0 {
      DigitRunOfDigits(s[1..]);
    }
  }

  lemma {:induction false} DigitRunStopsAt(s: string, u: string)
    requires forall i :: 0 <= i < |s| ==> IsDigit(s[i])
    requires |u| > 0 && !IsDigit(u[0])
    ensures DigitRun(s + u) == |s|
  {
    if |s| > 0 {
      assert (s + u)[1..] == s[1..] + u;
      DigitRunStopsAt(s[1..], u);
    }
  }

  /** The decimal scanner reads a whole digit string as the integer it spells. */
  lemma ScanDigits(s: string)
    requires |s| > 0 && forall i :: 0 <= i < |s| ==> IsDigit(s[i])
    ensures AllDigits(s, 10)
    ensures ScanUnsignedDecimal(s) == Match(|s|, Finite(ValueIn(s, 10) as real))
  {
    DigitRunOfDigits(s);
    assert IsDigit(s[0]);
    assert s[..|s|] == s;
    ScanInteger(s, |s|);
  }

  /** The scanner reads a digit run that is followed by neither a point nor
      an exponent as the integer it spells. */
  lemma ScanInteger(s: string, i: nat)
    requires 0 < i <= |s| && DigitRun(s) == i
    requires i == |s| || s[i] != '.'
    requires ScanExponent(s[i..]) == (0, 0)
    requires s[0] != 'I'
    ensures AllDigits(s[..i], 10)
    ensures ScanUnsignedDecimal(s) == Match(i, Finite(ValueIn(s[..i], 10) as real))
  {
    NotInfinity(s);
    assert Pow10(0) == 1.0;
    var w := ValueIn(s[..i], 10) as real;
    assert (w + 0.0) * 1.0 == w;
  }

  lemma NotInfinity(s: string)
    requires |s| > 0 && s[0] != 'I'
    ensures !(|s| >= 8 && s[..8] == "Infinity")
  {
  }

  /** Trimming leaves a string alone whose ends are not whitespace. */
  lemma TrimUnchanged(s: string)
    requires |s| > 0 && !IsWhite(s[0]) && !IsWhite(s[|s| - 1])
    ensures TrimStart(s) == s && Trim(s) == s
  {
  }

  /** `Number` on a trimmed decimal string is the scanner's reading of it
      when that reading takes the whole string. */
  lemma ToNumberDecimal(s: string)
    requires |s| > 0 && !IsWhite(s[0]) && !IsWhite(s[|s| - 1])
    requires !HasRadixPrefix(s)
    requires ScanDecimal(s).Match? && ScanDecimal(s).len == |s|
    ensures ToNumber(s) == ScanDecimal(s).value
  {
    TrimUnchanged(s);
  }

  /** What a digit string is not: whitespace-ended, radix-prefixed or signed. */
  lemma DigitStringShape(s: string)
    requires |s| > 0 && forall i :: 0 <= i < |s| ==> IsDigit(s[i])
    ensures !IsWhite(s[0]) && !IsWhite(s[|s| - 1])
    ensures !HasRadixPrefix(s)
    ensures ScanDecimal(s) == ScanUnsignedDecimal(s)
  {
    assert IsDigit(s[0]) && IsDigit(s[|s| - 1]);
  }

  /** A plain digit string converts, by `Number` and by `parseFloat`
      alike, to the integer it spells. */
  lemma DigitStringValue(s: string)
    requires |s| > 0 && forall i :: 0 <= i < |s| ==> IsDigit(s[i])
    ensures AllDigits(s, 10)
    ensures ToNumber(s) == Finite(ValueIn(s, 10) as real)
    ensures ParseFloat(s) == Finite(ValueIn(s, 10) as real)
  {
    ScanDigits(s);
    DigitStringShape(s);
    ToNumberDecimal(s);
    TrimUnchanged(s);
  }

  /** Where a string without surrounding whitespace is a decimal literal as a
      whole, `parseFloat` reads the same number as `Number`. */
  lemma DecimalAgreement(s: string)
    requires |s| > 0 && !IsWhite(s[0]) && !IsWhite(s[|s| - 1])
    requires !HasRadixPrefix(s)
    requires !ToNumber(s).NaN?
    ensures ParseFloat(s) == ToNumber(s)
  {
    assert TrimStart(s) == s;
    assert TrimEnd(s) == s;
  }

  /** The first character of a unit suffix such as `px`, `pt`, `mm` or `%`:
      a letter that cannot continue a number (no exponent `e`, no radix letter). */
  predicate IsUnitStart(c: char)
  {
    ('a' <= c <= 'z' || 'A' <= c <= 'Z' || c == '%')
    && c != 'e' && c != 'E' && RadixOf(c).None?
  }

  /** The scanner stops reading a digit string where a unit begins. */
  lemma ScanStopsAtUnit(s: string, u: string)
    requires |s| > 0 && forall i :: 0 <= i < |s| ==> IsDigit(s[i])
    requires |u| > 0 && IsUnitStart(u[0])
    ensures AllDigits(s, 10)
    ensures ScanUnsignedDecimal(s + u) == Match(|s|, Finite(ValueIn(s, 10) as real))
  {
    var t := s + u;
    DigitRunStopsAt(s, u);
    assert t[..|s|] == s;
    assert t[|s|..] == u;
    assert t[0] == s[0];
    ScanInteger(t, |s|);
  }

  /** On a string that starts with a digit, `parseFloat` is the scanner's reading. */
  lemma ParseFloatFromDigit(t: string)
    requires |t| > 0 && IsDigit(t[0])
    requires ScanUnsignedDecimal(t).Match?
    ensures ParseFloat(t) == ScanUnsignedDecimal(t).value
  {
    assert TrimStart(t) == t;
    assert ScanDecimal(t) == ScanUnsignedDecimal(t);
  }

  /** `Number` is NaN when the trimmed string holds a decimal literal
      followed by something else. */
  lemma ToNumberRejectsTail(t: string, trimmed: string)
    requires Trim(t) == trimmed && trimmed != "" && !HasRadixPrefix(trimmed)
    requires ScanDecimal(trimmed).Match? && ScanDecimal(trimmed).len != |trimmed|
    ensures ToNumber(t).NaN?
  {
  }

  /** Leading digits survive trimming. */
  lemma TrimFromDigit(t: string)
    requires |t| > 0 && IsDigit(t[0])
    ensures Trim(t) == TrimEnd(t)
    ensures |TrimEnd(t)| > 0 && TrimEnd(t)[0] == t[0]
  {
    assert TrimStart(t) == t;
  }

  /** On a string that starts with a digit, `Number` is NaN when the
      scanner's reading stops before the trimmed end. */
  lemma ToNumberFromDigit(t: string)
    requires |t| > 0 && IsDigit(t[0])
    requires !HasRadixPrefix(TrimEnd(t))
    requires ScanUnsignedDecimal(TrimEnd(t)).Match?
    requires ScanUnsignedDecimal(TrimEnd(t)).len < |TrimEnd(t)|
    ensures ToNumber(t).NaN?
  {
    TrimFromDigit(t);
    var trimmed := TrimEnd(t);
    assert ScanDecimal(trimmed) == ScanUnsignedDecimal(trimmed);
    ToNumberRejectsTail(t, trimmed);
  }

  /** `parseFloat` reads the number in front of a unit. */
  lemma ParseFloatReadsPrefix(s: string, u: string)
    requires |s| > 0 && forall i :: 0 <= i < |s| ==> IsDigit(s[i])
    requires |u| > 0 && IsUnitStart(u[0])
    ensures AllDigits(s, 10)
    ensures ParseFloat(s + u) == Finite(ValueIn(s, 10) as real)
  {
    ScanStopsAtUnit(s, u);
    assert (s + u)[0] == s[0];
    ParseFloatFromDigit(s + u);
  }

  /** `Number` refuses a number with a unit after it. */
  lemma ToNumberRejectsUnit(s: string, u: string)
    requires |s| > 0 && forall i :: 0 <= i < |s| ==> IsDigit(s[i])
    requires |u| > 0 && IsUnitStart(u[0])
    ensures ToNumber(s + u).NaN?
  {
    var t := s + u;
    assert t[0] == s[0];
    TrimEndShape(t);
    var trimmed := TrimEnd(t);
    assert !IsWhite(t[|s|]);
    assert |trimmed| > |s|;
    var rest := trimmed[|s|..];
    assert trimmed == s + rest;
    assert rest[0] == u[0];
    ScanStopsAtUnit(s, rest);
    assert trimmed[0] == s[0];
    assert !HasRadixPrefix(trimmed) by {
      if |s| == 1 {
        assert trimmed[1] == u[0];
      } else {
        assert trimmed[1] == s[1];
      }
    }
    ToNumberFromDigit(t);
  }

  /** A number followed by a unit, such as "10px": `parseFloat` reads the
      leading number, while `Number` rejects the whole string. */
  lemma NumberWithUnit(s: string, u: string)
    requires |s| > 0 && forall i :: 0 <= i < |s| ==> IsDigit(s[i])
    requires |u| > 0 && IsUnitStart(u[0])
    ensures AllDigits(s, 10)
    ensures ParseFloat(s + u) == Finite(ValueIn(s, 10) as real)
    ensures ToNumber(s + u).NaN?
  {
    ParseFloatReadsPrefix(s, u);
    ToNumberRejectsUnit(s, u);
  }
}
