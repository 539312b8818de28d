/**
  JavaScript numbers as far as the source relies on them: the special values
  NaN and the two infinities, `Number.parseFloat`, `Number.parseInt` without a
  radix, `Math.min`/`Math.max` folds, `Math.floor`/`Math.ceil`, and truthiness.
  Finite values are exact reals (binary rounding is not modelled).
 */
module JsNumber {
  import opened Wrappers
  import opened Text

  datatype Num = Finite(value: real) | PosInf | NegInf | NaN

  /**
    A loosely typed field of a JSON record: absent, a string or a number. JSON has
    no NaN or infinity, so a number that arrives this way is finite.
   */
  datatype Field = Missing | Str(s: string) | Number(n: real)

  /** Truthiness of a field: a non-empty string or a non-zero number. */
  predicate FieldTruthy(f: Field) {
    match f
    case Missing => false
    case Str(s) => s != []
    case Number(n) => n != 0.0
  }

  /** `Number.isFinite(n)`. */
  predicate IsFinite(n: Num) { n.Finite? }

  /** Truthiness: every number except 0 and NaN. */
  predicate Truthy(n: Num) { n != Finite(0.0) && n != NaN }

  // ---------------------------------------------------------------- digits

  predicate AllDigits(s: string) { forall k :: 0 <= k < |s| ==> IsDigit(s[k]) }

  function DigitValue(c: char): (d: nat)
    requires IsDigit(c)
    ensures d < 10
  {
    c as int - '0' as int
  }

  /** The value of a string of decimal digits (0 for the empty string). */
  function DigitsValue(s: string): (v: nat)
    requires AllDigits(s)
    ensures s != [] ==> v < Pow10(|s|)
  {
    if s == [] then 0
    else DigitsValue(s[..|s| - 1]) * 10 + DigitValue(s[|s| - 1])
  }

  function Pow10(n: nat): (p: nat)
    ensures p >= 1
  {
    if n == 0 then 1 else 10 * Pow10(n - 1)
  }

  /** `10 ** e` for an integer exponent. */
  function Scale(e: int): (r: real)
    ensures r > 0.0
  {
    if e >= 0 then Pow10(e) as real else 1.0 / (Pow10(-e) as real)
  }

  function DigitChar(d: nat): (c: char)
    requires d < 10
    ensures IsDigit(c) && DigitValue(c) == d
  {
    ('0' as int + d) as char
  }

  /** `String(n)` for a natural number: decimal digits without leading zeros. */
  function ShowNat(n: nat): (s: string)
    ensures AllDigits(s) && s != []
    ensures |s| > 1 ==> s[0] != '0'
    ensures DigitsValue(s) == n
  {
    if n < 10 then [DigitChar(n)]
    else
      var s := ShowNat(n / 10) + [DigitChar(n % 10)];
      assert s[..|s| - 1] == ShowNat(n / 10);
      s
  }

  // ---------------------------------------------------------------- parseFloat

  /** The digits, then an optional `.digits`, at the front of `s`, with their lengths. */
  function DecimalPrefix(s: string): (r: (nat, nat, nat))
    ensures var (n1, dot, n2) := r; n1 + dot + n2 <= |s| && dot <= 1 && (dot == 0 ==> n2 == 0)
    ensures AllDigits(s[..r.0]) && AllDigits(s[r.0 + r.1..r.0 + r.1 + r.2])
  {
    var n1 := RunEnd(s, IsDigit);
    if n1 < |s| && s[n1] == '.' then
      var n2 := RunEnd(s[n1 + 1..], IsDigit);
      assert s[n1 + 1..n1 + 1 + n2] == s[n1 + 1..][..n2];
      (n1, 1, n2)
    else (n1, 0, 0)
  }

  /** An exponent part `e`/`E`, optional sign, digits, at the front of `s`: (length, value). */
  function ExponentPrefix(s: string): (r: (nat, int))
    ensures r.0 <= |s|
  {
    if s == [] || (s[0] != 'e' && s[0] != 'E') then (0, 0)
    else
      var signLen := if |s| > 1 && (s[1] == '+' || s[1] == '-') then 1 else 0;
      var t := s[1 + signLen..];
      var n := RunEnd(t, IsDigit);
      if n == 0 then (0, 0)
      else
        assert AllDigits(t[..n]);
        var v: int := DigitsValue(t[..n]);
        (1 + signLen + n, if signLen == 1 && s[1] == '-' then -v else v)
  }

  /** The unsigned part of `parseFloat`: `Infinity` or a decimal literal. */
  function ParseUnsigned(s: string): (r: Num)
    ensures r != NegInf
  {
    if |s| >= 8 && s[..8] == "Infinity" then PosInf
    else
      var (n1, dot, n2) := DecimalPrefix(s);
      if n1 == 0 && n2 == 0 then NaN
      else
        var intPart := DigitsValue(s[..n1]) as real;
        var frac := DigitsValue(s[n1 + dot..n1 + dot + n2]) as real / (Pow10(n2) as real);
        var (_, e) := ExponentPrefix(s[n1 + dot + n2..]);
        Finite((intPart + frac) * Scale(e))
  }

  function Negate(n: Num): Num {
    match n
    case Finite(v) => Finite(-v)
    case PosInf => NegInf
    case NegInf => PosInf
    case NaN => NaN
  }

  /**
    `Number.parseFloat(s)`: leading white space is skipped, then the longest
    prefix that is an optionally signed `Infinity` or decimal literal is read;
    `NaN` when there is none.
   */
  function ParseFloat(s: string): (r: Num)
  {
    var t := s[LeadingSpaces(s)..];
    if t != [] && t[0] == '-' then Negate(ParseUnsigned(t[1..]))
    else if t != [] && t[0] == '+' then ParseUnsigned(t[1..])
    else ParseUnsigned(t)
  }

  /** `parseFloat` reads back the decimal form of a natural number. */
  lemma ParseFloatShowNat(n: nat)
    ensures ParseFloat(ShowNat(n)) == Finite(n as real)
  {
    var s := ShowNat(n);
    assert LeadingSpaces(s) == 0 by { assert !IsJsSpace(s[0]); }
    assert s[0..] == s;
    ParseUnsignedDigits(s);
  }

  /** A non-empty string of digits is read as their value. */
  lemma ParseUnsignedDigits(s: string)
    requires s != [] && AllDigits(s)
    ensures ParseUnsigned(s) == Finite(DigitsValue(s) as real)
  {
    NotInfinity(s);
    RunEndAll(s, IsDigit);
    assert DecimalPrefix(s) == (|s|, 0, 0);
    NoFraction(s);
    assert s[..|s|] == s;
  }

  lemma NotInfinity(s: string)
    requires s != [] && IsDigit(s[0])
    ensures !(|s| >= 8 && s[..8] == "Infinity")
  {
    if |s| >= 8 { assert s[..8][0] == s[0]; }
  }

  /** After the whole string there is neither a fraction nor an exponent. */
  lemma NoFraction(s: string)
    ensures DigitsValue(s[|s|..|s|]) as real / (Pow10(0) as real) == 0.0
    ensures ExponentPrefix(s[|s|..]) == (0, 0)
    ensures Scale(0) == 1.0
  {
    assert s[|s|..|s|] == [];
  }

  lemma {:induction false} RunEndAll(s: string, cls: char -> bool)
    requires forall k :: 0 <= k < |s| ==> cls(s[k])
    ensures RunEnd(s, cls) == |s|
  {
    if s != [] { RunEndAll(s[1..], cls); }
  }

  /** On a string of digits and dots, `parseFloat` yields a finite number or `NaN`. */
  lemma ParseFloatDigitsDots(s: string)
    requires forall k :: 0 <= k < |s| ==> IsDigit(s[k]) || s[k] == '.'
    ensures ParseFloat(s).Finite? || ParseFloat(s) == NaN
    ensures ParseFloat(s) == NaN <==> !StartsNumeric(s)
  {
    assert LeadingSpaces(s) == 0 by {
      if s != [] { assert !IsJsSpace(s[0]); }
    }
    assert s[0..] == s;
    assert !(|s| >= 8 && s[..8] == "Infinity") by {
      if |s| >= 8 { assert s[..8][0] == s[0]; }
    }
    var (n1, dot, n2) := DecimalPrefix(s);
    if StartsNumeric(s) {
      if !IsDigit(s[0]) {
        assert s[0] == '.' && n1 == 0 && dot == 1;
        assert s[1..][0] == s[1];
        assert n2 > 0;
      }
    }
  }

  /** A decimal literal starts here: a digit, or a dot followed by a digit. */
  predicate StartsNumeric(s: string) {
    (s != [] && IsDigit(s[0])) || (|s| >= 2 && s[0] == '.' && IsDigit(s[1]))
  }

  // ---------------------------------------------------------------- parseInt

  predicate IsHexDigit(c: char) { IsDigit(c) || 'a' <= c <= 'f' || 'A' <= c <= 'F' }

  function HexValue(c: char): (d: nat)
    requires IsHexDigit(c)
    ensures d < 16
  {
    if IsDigit(c) then DigitValue(c)
    else if 'a' <= c <= 'f' then c as int - 'a' as int + 10
    else c as int - 'A' as int + 10
  }

  function HexDigitsValue(s: string): nat
    requires forall k :: 0 <= k < |s| ==> IsHexDigit(s[k])
  {
    if s == [] then 0
    else HexDigitsValue(s[..|s| - 1]) * 16 + HexValue(s[|s| - 1])
  }

  /** The unsigned part of `parseInt` without a radix: hexadecimal after `0x`, else decimal. */
  function ParseUnsignedInt(s: string): (r: Option<nat>)
  {
    if |s| >= 2 && s[0] == '0' && (s[1] == 'x' || s[1] == 'X') then
      var t := s[2..];
      var n := RunEnd(t, IsHexDigit);
      if n == 0 then None else Some(HexDigitsValue(t[..n]))
    else
      var n := RunEnd(s, IsDigit);
      if n == 0 then None else Some(DigitsValue(s[..n]))
  }

  /**
    `Number.parseInt(s)` with no radix: white space is skipped, an optional sign
    is read, then the longest run of digits; `None` stands for `NaN`.
   */
  function ParseInt(s: string): (r: Option<int>)
  {
    var t := s[LeadingSpaces(s)..];
    if t != [] && t[0] == '-' then
      match ParseUnsignedInt(t[1..]) case None => None case Some(v) => Some(-(v as int))
    else if t != [] && t[0] == '+' then
      match ParseUnsignedInt(t[1..]) case None => None case Some(v) => Some(v)
    else
      match ParseUnsignedInt(t) case None => None case Some(v) => Some(v)
  }

  /** `parseInt` reads back the decimal form of a natural number. */
  lemma ParseIntShowNat(n: nat)
    ensures ParseInt(ShowNat(n)) == Some(n)
  {
    var s := ShowNat(n);
    assert LeadingSpaces(s) == 0;
    assert s[0..] == s;
    RunEndAll(s, IsDigit);
    assert s[..|s|] == s;
    if |s| >= 2 && s[0] == '0' {
      assert false;
    }
  }

  /**
    `parseInt` yields `NaN` exactly when no digit follows the white space and sign,
    or `0x` follows them with no hexadecimal digit after it.
   */
  lemma ParseIntNaN(s: string)
    ensures var t := s[LeadingSpaces(s)..];
            var u := if t != [] && (t[0] == '-' || t[0] == '+') then t[1..] else t;
            var hex := |u| >= 2 && u[0] == '0' && (u[1] == 'x' || u[1] == 'X');
            ParseInt(s).None? <==>
              if hex then !(|u| > 2 && IsHexDigit(u[2])) else !(u != [] && IsDigit(u[0]))
  {
  }

  // ---------------------------------------------------------------- Math

  /** `Math.min(a, b)`: `NaN` if either argument is `NaN`. */
  function MathMin(a: Num, b: Num): (r: Num)
    ensures r == NaN <==> a == NaN || b == NaN
    ensures r != NaN ==> r == a || r == b
    ensures r != NaN ==> NumLe(r, a) && NumLe(r, b)
  {
    if a == NaN || b == NaN then NaN
    else if NumLe(a, b) then a else b
  }

  /** `Math.max(a, b)`: `NaN` if either argument is `NaN`. */
  function MathMax(a: Num, b: Num): (r: Num)
    ensures r == NaN <==> a == NaN || b == NaN
    ensures r != NaN ==> r == a || r == b
    ensures r != NaN ==> NumLe(a, r) && NumLe(b, r)
  {
    if a == NaN || b == NaN then NaN
    else if NumLe(a, b) then b else a
  }

  /** `a <= b` on numbers; false whenever `NaN` is involved. */
  predicate NumLe(a: Num, b: Num) {
    match (a, b)
    case (NaN, _) => false
    case (_, NaN) => false
    case (NegInf, _) => true
    case (_, PosInf) => true
    case (Finite(x), Finite(y)) => x <= y
    case _ => false
  }

  /** `a < b` on numbers; false whenever `NaN` is involved. */
  predicate NumLt(a: Num, b: Num) {
    NumLe(a, b) && a != b
  }

  /** `Math.min(...xs)`, which is `xs.reduce(Math.min, Infinity)`. */
  function MinOf(xs: seq<real>): (r: Num)
    ensures xs == [] <==> r == PosInf
    ensures xs != [] ==> r.Finite? && r.value in xs
    ensures forall i :: 0 <= i < |xs| ==> r.Finite? && r.value <= xs[i]
  {
    if xs == [] then PosInf
    else MathMin(MinOf(xs[..|xs| - 1]), Finite(xs[|xs| - 1]))
  }

  /** `Math.max(...xs)`, which is `xs.reduce(Math.max, -Infinity)`. */
  function MaxOf(xs: seq<real>): (r: Num)
    ensures xs == [] <==> r == NegInf
    ensures xs != [] ==> r.Finite? && r.value in xs
    ensures forall i :: 0 <= i < |xs| ==> r.Finite? && xs[i] <= r.value
  {
    if xs == [] then NegInf
    else MathMax(MaxOf(xs[..|xs| - 1]), Finite(xs[|xs| - 1]))
  }

  /** `Math.floor(x)`. */
  function Floor(x: real): (r: int)
    ensures r as real <= x < r as real + 1.0
  {
    x.Floor
  }

  /** `Math.ceil(x)`. */
  function Ceil(x: real): (r: int)
    ensures r as real - 1.0 < x <= r as real
  {
    -((-x).Floor)
  }

  /** `Math.trunc(x)`: the integer part, rounding toward zero. */
  function Trunc(x: real): (r: int)
    ensures x >= 0.0 ==> 0 <= r && r as real <= x < r as real + 1.0
    ensures x < 0.0 ==> r <= 0 && r as real - 1.0 < x <= r as real
  {
    if x >= 0.0 then Floor(x) else Ceil(x)
  }
}
