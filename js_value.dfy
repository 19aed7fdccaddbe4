/**
 * The JSON values that Express hands to the router (request bodies and query
 * strings), with the two JavaScript conversions the router depends on:
 * truthiness, and loose equality with `false`.
 */
module JsValue {

  /** A parsed JSON value. Numbers are integers in this model. */
  datatype Value =
    | Null
    | Bool(b: bool)
    | Num(n: int)
    | Str(s: string)
    | Arr(items: seq<Value>)
    | Obj(fields: map<string, Value>)

  /** ToBoolean: what `if (v)` tests. Arrays and objects are truthy even when empty. */
  predicate Truthy(v: Value)
    ensures !Truthy(v) <==> v in {Null, Bool(false), Num(0), Str("")}
  {
    match v
    case Null => false
    case Bool(b) => b
    case Num(n) => n != 0
    case Str(s) => s != ""
    case Arr(_) => true
    case Obj(_) => true
  }

  /** The array's elements, or nothing for a value that is not an array. */
  function Items(v: Value): seq<Value> {
    if v.Arr? then v.items else []
  }

  // ---------------------------------------------------------------------------
  // White space, as StringToNumber trims it, and decimal digits
  // ---------------------------------------------------------------------------

  /** WhiteSpace and LineTerminator code points, which StringToNumber trims. */
  predicate IsSpace(c: char) {
    c == '\t' || c == '\n' || c == '\U{B}' || c == '\U{C}' || c == '\r' || c == ' ' ||
    c == '\U{A0}' || c == '\U{1680}' || ('\U{2000}' <= c <= '\U{200A}') ||
    c == '\U{2028}' || c == '\U{2029}' || c == '\U{202F}' || c == '\U{205F}' ||
    c == '\U{3000}' || c == '\U{FEFF}'
  }

  /** The string without its leading white space. */
  function TrimStart(s: string): (t: string)
    ensures |t| <= |s| && t == s[|s| - |t|..]
    ensures |t| == 0 || !IsSpace(t[0])
    ensures forall i :: 0 <= i < |s| - |t| ==> IsSpace(s[i])
  {
    if |s| > 0 && IsSpace(s[0]) then TrimStart(s[1..]) else s
  }

  /** The string without its trailing white space. */
  function TrimEnd(s: string): (t: string)
    ensures |t| <= |s| && t == s[..|t|]
    ensures |t| == 0 || !IsSpace(t[|t| - 1])
    ensures forall i :: |t| <= i < |s| ==> IsSpace(s[i])
  {
    if |s| > 0 && IsSpace(s[|s| - 1]) then TrimEnd(s[..|s| - 1]) else s
  }

  function Trim(s: string): string {
    TrimEnd(TrimStart(s))
  }

  predicate IsDigit(c: char) {
    '0' <= c <= '9'
  }

  predicate AllDigits(s: string) {
    forall i :: 0 <= i < |s| ==> IsDigit(s[i])
  }

  predicate AllZeros(s: string) {
    forall i :: 0 <= i < |s| ==> s[i] == '0'
  }

  // ---------------------------------------------------------------------------
  // Decimal digit strings and their values
  // ---------------------------------------------------------------------------

  /** The value of a string of decimal digits; it is zero exactly when every digit is `0`. */
  function DecimalValue(s: string): (r: nat)
    requires AllDigits(s)
    ensures r == 0 <==> AllZeros(s)
    decreases |s|
  {
    if |s| == 0 then 0 else DecimalValue(s[..|s| - 1]) * 10 + (s[|s| - 1] - '0') as int
  }

  /** The decimal digit character for `d`; a helper for writing numerals. */
  function DigitChar(d: nat): (c: char)
    requires d < 10
    ensures IsDigit(c) && (c - '0') as int == d
  {
    '0' + d as char
  }

  /** The decimal numeral of `n`, as `String(n)` writes it. */
  function Numeral(n: nat): string
    decreases n
  {
    if n < 10 then [DigitChar(n)] else Numeral(n / 10) + [DigitChar(n % 10)]
  }

  /** A numeral is digits only, reads back as its number, and starts with `0` only for zero. */
  lemma {:induction false} NumeralDigits(n: nat)
    ensures |Numeral(n)| > 0 && AllDigits(Numeral(n)) && DecimalValue(Numeral(n)) == n
    ensures Numeral(n)[0] == '0' <==> n == 0
    decreases n
  {
    if n >= 10 {
      NumeralDigits(n / 10);
      var p := Numeral(n / 10);
      var s := p + [DigitChar(n % 10)];
      assert s[..|s| - 1] == p;
    }
  }

  function Pow(b: nat, e: nat): nat {
    if e == 0 then 1 else b * Pow(b, e - 1)
  }

  // ---------------------------------------------------------------------------
  // `false == v` (ECMAScript IsLooselyEqual): `false` becomes the number 0, and
  // `v` is converted to a number (objects through their string form).
  // ---------------------------------------------------------------------------

  /** Digits with at most one `.`, and at least one digit: the part of a decimal literal before its exponent. */
  predicate IsMantissa(m: string) {
    && m != "." && |m| > 0
    && (forall i :: 0 <= i < |m| ==> IsDigit(m[i]) || m[i] == '.')
    && (forall i, j :: 0 <= i < j < |m| && m[i] == '.' ==> m[j] != '.')
  }

  /** The digits of a literal, in order, without its `.`. */
  function DigitsOf(m: string): (d: string)
    ensures AllDigits(d) && |d| <= |m|
  {
    if |m| == 0 then "" else (if IsDigit(m[0]) then [m[0]] else "") + DigitsOf(m[1..])
  }

  /** The number of characters after the `.` of a mantissa (0 when it has none). */
  function FractionLength(m: string): nat {
    if |m| == 0 then 0 else if m[0] == '.' then |m| - 1 else FractionLength(m[1..])
  }

  /** `e` or `E`, an optional sign and at least one digit. */
  predicate IsExponent(t: string) {
    && |t| >= 2 && (t[0] == 'e' || t[0] == 'E')
    && ((AllDigits(t[1..])) || (|t| >= 3 && (t[1] == '+' || t[1] == '-') && AllDigits(t[2..])))
  }

  /** The power of ten an exponent part denotes. */
  function ExponentValue(t: string): int
    requires IsExponent(t)
  {
    if t[1] == '+' then DecimalValue(t[2..])
    else if t[1] == '-' then -(DecimalValue(t[2..]) as int)
    else DecimalValue(t[1..])
  }

  /**
   * Half the smallest positive double is 2^-1075: a decimal value at most that
   * rounds to zero (the tie rounds to the even neighbour, zero).
   */
  const HalfSubnormalExponent: nat := 1075

  /** `digits * 10^scale` is zero once rounded to a double. */
  predicate RoundsToZero(digits: nat, scale: int) {
    digits == 0 || (scale < 0 && digits * Pow(2, HalfSubnormalExponent) <= Pow(10, -scale))
  }

  /** `t` split at `p` is a mantissa and an exponent part whose value rounds to zero. */
  predicate ExponentSplitZero(t: string, p: int) {
    && 0 < p < |t| && IsMantissa(t[..p]) && IsExponent(t[p..])
    && RoundsToZero(DecimalValue(DigitsOf(t[..p])), ExponentValue(t[p..]) - FractionLength(t[..p]))
  }

  /** An unsigned decimal literal (a mantissa and an optional exponent) whose value rounds to zero. */
  predicate UnsignedDecimalZero(t: string) {
    || (IsMantissa(t) && RoundsToZero(DecimalValue(DigitsOf(t)), -(FractionLength(t) as int)))
    || exists p :: 0 < p < |t| && ExponentSplitZero(t, p)
  }

  /** A `0x`, `0b` or `0o` literal whose digits are all `0`. */
  predicate NonDecimalZero(t: string) {
    |t| > 2 && t[0] == '0' && t[1] in {'x', 'X', 'b', 'B', 'o', 'O'} && AllZeros(t[2..])
  }

  /** StringToNumber(s) is 0 (or -0): blank, or a literal rounding to zero between blanks. */
  predicate NumericZero(s: string) {
    var t := Trim(s);
    || t == ""
    || UnsignedDecimalZero(t)
    || (|t| > 0 && (t[0] == '+' || t[0] == '-') && UnsignedDecimalZero(t[1..]))
    || NonDecimalZero(t)
  }

  /**
   * `false == v`. A boolean or a number equals `false` exactly when it is
   * falsy; `null` and objects never do, and a truthy value that does is a
   * string or an array.
   */
  predicate LooselyFalse(v: Value)
    ensures LooselyFalse(v) ==> !v.Null? && !v.Obj?
    ensures v.Bool? || v.Num? ==> (LooselyFalse(v) <==> !Truthy(v))
    ensures LooselyFalse(v) && Truthy(v) ==> v.Str? || v.Arr?
    decreases v, 1
  {
    match v
    case Null => false
    case Bool(b) => !b
    case Num(n) => n == 0
    case Str(s) => NumericZero(s)
    case Arr(items) => JoinedZero(items)
    case Obj(_) => false
  }

  /**
   * The array's string form (`items.join(",")`) converts to 0: the empty
   * array, or a single element whose string form converts to 0. With two or
   * more elements the string holds a comma and converts to NaN.
   */
  predicate JoinedZero(items: seq<Value>)
    decreases items, 0
  {
    |items| == 0 || (|items| == 1 && ElementZero(items[0]))
  }

  /** The element's string form inside `join` converts to 0 (`null` joins as ""). */
  predicate ElementZero(v: Value)
    decreases v, 0
  {
    match v
    case Null => true
    case Bool(_) => false
    case Num(n) => n == 0
    case Str(s) => NumericZero(s)
    case Arr(items) => JoinedZero(items)
    case Obj(_) => false
  }

  // ---------------------------------------------------------------------------
  // Which strings can convert to zero
  // ---------------------------------------------------------------------------

  /** The characters a numeric literal for zero can be made of. */
  predicate NumericChar(c: char) {
    IsDigit(c) || c in {'+', '-', '.', 'e', 'E', 'x', 'X', 'b', 'B', 'o', 'O'}
  }

  predicate OnlyNumericChars(t: string) {
    forall i :: 0 <= i < |t| ==> NumericChar(t[i])
  }

  lemma {:induction false} TrimStartKeeps(s: string, i: nat)
    requires i < |s| && !IsSpace(s[i])
    ensures s[i] in TrimStart(s)
    decreases |s|
  {
    if |s| > 0 && IsSpace(s[0]) {
      TrimStartKeeps(s[1..], i - 1);
    }
  }

  lemma {:induction false} TrimEndKeeps(s: string, i: nat)
    requires i < |s| && !IsSpace(s[i])
    ensures s[i] in TrimEnd(s)
    decreases |s|
  {
    if |s| > 0 && IsSpace(s[|s| - 1]) {
      TrimEndKeeps(s[..|s| - 1], i);
    }
  }

  lemma ZeroLiteralChars(t: string)
    ensures
      || UnsignedDecimalZero(t)
      || (|t| > 0 && (t[0] == '+' || t[0] == '-') && UnsignedDecimalZero(t[1..]))
      || NonDecimalZero(t)
      ==> OnlyNumericChars(t)
  {
    forall u | UnsignedDecimalZero(u) ensures OnlyNumericChars(u) {
      if !IsMantissa(u) {
        var p :| 0 < p < |u| && ExponentSplitZero(u, p);
        forall i | 0 <= i < |u| ensures NumericChar(u[i]) {
          if i < p {
            assert u[i] == u[..p][i];
          } else {
            assert u[i] == u[p..][i - p];
            if i - p >= 2 {
              assert u[p..][i - p] == u[p..][1..][i - p - 1] == u[p..][2..][i - p - 2];
            } else if i - p == 1 {
              assert u[p..][1] == u[p..][1..][0];
            }
          }
        }
      }
    }
    if |t| > 0 && (t[0] == '+' || t[0] == '-') && UnsignedDecimalZero(t[1..]) {
      forall i | 0 < i < |t| ensures NumericChar(t[i]) {
        assert t[i] == t[1..][i - 1];
      }
    }
    if NonDecimalZero(t) {
      forall i | 2 <= i < |t| ensures NumericChar(t[i]) {
        assert t[i] == t[2..][i - 2];
      }
    }
  }

  /**
   * A string holding a character that is neither blank nor part of a numeric
   * literal never loosely equals `false`. Hexadecimal ids that contain one of
   * the letters a, c, d or f are such strings.
   */
  lemma ForeignCharNotLooselyFalse(s: string, i: nat)
    requires i < |s| && !IsSpace(s[i]) && !NumericChar(s[i])
    ensures !LooselyFalse(Str(s))
  {
    TrimStartKeeps(s, i);
    var j :| 0 <= j < |TrimStart(s)| && TrimStart(s)[j] == s[i];
    TrimEndKeeps(TrimStart(s), j);
    var t := Trim(s);
    var k :| 0 <= k < |t| && t[k] == s[i];
    ZeroLiteralChars(t);
  }

  // ---------------------------------------------------------------------------
  // Which strings do convert to zero
  // ---------------------------------------------------------------------------

  lemma {:induction false} PowMonotone(b: nat, i: nat, j: nat)
    requires b >= 1 && i <= j
    ensures Pow(b, i) <= Pow(b, j)
    decreases j
  {
    if i < j {
      PowMonotone(b, i, j - 1);
      var q := Pow(b, j - 1);
      assert Pow(b, j) == b * q;
      assert b * q >= q by {
        assert b * q == q + (b - 1) * q;
      }
    }
  }

  /** 2^(3k) = 8^k never exceeds 10^k. */
  lemma {:induction false} PowTwoBelowPowTen(k: nat)
    ensures Pow(2, 3 * k) <= Pow(10, k)
  {
    if k > 0 {
      PowTwoBelowPowTen(k - 1);
      var j := 3 * (k - 1);
      assert Pow(2, j + 3) == 2 * Pow(2, j + 2) == 4 * Pow(2, j + 1) == 8 * Pow(2, j);
      assert Pow(10, k) == 10 * Pow(10, k - 1);
    }
  }

  /** Twice half the smallest double is below 10^-323, so anything at most 10^-359 rounds to zero. */
  lemma HalfSubnormalBound(n: nat)
    requires n >= 359
    ensures Pow(2, HalfSubnormalExponent) <= Pow(10, n)
  {
    PowMonotone(2, HalfSubnormalExponent, 3 * 359);
    PowTwoBelowPowTen(359);
    PowMonotone(10, 359, n);
  }

  /** 10^-v is at most half the smallest double once v is at least 359. */
  lemma OneBelowHalfSubnormal(v: nat)
    requires v >= 359
    ensures RoundsToZero(1, -(v as int))
  {
    HalfSubnormalBound(v);
  }

  /** A mantissa followed by an exponent, together worth at most half the smallest double, converts to zero. */
  lemma ExponentLiteralZero(m: string, e: string, digits: nat, scale: int)
    requires IsMantissa(m) && IsExponent(e)
    requires digits == DecimalValue(DigitsOf(m)) && scale == ExponentValue(e) - FractionLength(m)
    requires RoundsToZero(digits, scale)
    ensures UnsignedDecimalZero(m + e)
  {
    var t := m + e;
    assert t[..|m|] == m && t[|m|..] == e;
    assert ExponentSplitZero(t, |m|);
  }

  /** `e-<d>` is an exponent part worth minus the value of `d`. */
  lemma NegativeExponent(d: string)
    requires |d| > 0 && AllDigits(d)
    ensures IsExponent("e-" + d) && ExponentValue("e-" + d) == -(DecimalValue(d) as int)
  {
    assert ("e-" + d)[2..] == d;
  }

  lemma OneIsMantissa()
    ensures IsMantissa("1") && DecimalValue(DigitsOf("1")) == 1 && FractionLength("1") == 0
  {
  }

  /**
   * `"1e-<d>"` with `d` worth at least 359 converts to 0 (its value is below
   * the smallest double), so it loosely equals `false`.
   */
  lemma UnderflowLooselyFalse(d: string)
    requires |d| > 0 && AllDigits(d) && DecimalValue(d) >= 359
    ensures LooselyFalse(Str("1e-" + d))
  {
    var t := "1e-" + d;
    UnderflowLiteral(d);
    assert t[0] == '1' && t[|t| - 1] == d[|d| - 1];
    TrimKeepsUnblanked(t);
  }

  lemma UnderflowLiteral(d: string)
    requires |d| > 0 && AllDigits(d) && DecimalValue(d) >= 359
    ensures UnsignedDecimalZero("1e-" + d)
  {
    NegativeExponent(d);
    OneThenExponent(d);
    OneTimesTinyPowerZero("e-" + d, DecimalValue(d), "1e-" + d);
  }

  lemma OneThenExponent(d: string)
    ensures "1e-" + d == "1" + ("e-" + d)
  {
    assert "1e-" == "1" + "e-";
  }

  /** `1` followed by an exponent part of -v, for v at least 359, converts to zero. */
  lemma OneTimesTinyPowerZero(e: string, v: nat, t: string)
    requires IsExponent(e) && ExponentValue(e) == -(v as int) && v >= 359
    requires t == "1" + e
    ensures UnsignedDecimalZero(t)
  {
    OneIsMantissa();
    OneBelowHalfSubnormal(v);
    ExponentLiteralZero("1", e, 1, -(v as int));
  }

  /** `false == "1e-400"` holds, although the literal's digit is not zero. */
  lemma TinyLiteralLooselyFalse(d: string)
    requires d == "400"
    ensures LooselyFalse(Str("1e-" + d))
  {
    assert DecimalValue("400") == 400;
    UnderflowLooselyFalse(d);
  }

  /** A decimal digit string loosely equals `false` exactly when its value is zero. */
  lemma DigitStringLooselyFalse(t: string)
    requires |t| > 0 && AllDigits(t)
    ensures LooselyFalse(Str(t)) <==> DecimalValue(t) == 0
  {
    TrimKeepsUnblanked(t);
    DigitStringDecimalZero(t);
    assert !IsSpace(t[0]) && t[0] != '+' && t[0] != '-';
    assert |t| > 2 ==> !NonDecimalZero(t);
  }

  lemma DigitStringDecimalZero(t: string)
    requires |t| > 0 && AllDigits(t)
    ensures UnsignedDecimalZero(t) <==> DecimalValue(t) == 0
  {
    AllDigitsKept(t);
    NoPointNoFraction(t);
    assert IsMantissa(t);
    forall p | 0 < p < |t| ensures !ExponentSplitZero(t, p) {
      assert t[p..][0] == t[p];
    }
  }

  /** On the strings a natural number is written as, `false == String(n)` holds exactly for 0. */
  lemma NumeralLooselyFalse(n: nat)
    ensures LooselyFalse(Str(Numeral(n))) <==> n == 0
  {
    NumeralDigits(n);
    DigitStringLooselyFalse(Numeral(n));
  }

  /** A string that neither starts nor ends with white space is its own trim. */
  lemma TrimKeepsUnblanked(t: string)
    requires |t| > 0 && !IsSpace(t[0]) && !IsSpace(t[|t| - 1])
    ensures Trim(t) == t
  {
    assert TrimStart(t) == t;
  }

  lemma {:induction false} AllDigitsKept(t: string)
    requires AllDigits(t)
    ensures DigitsOf(t) == t
  {
    if |t| > 0 {
      AllDigitsKept(t[1..]);
      assert [t[0]] + t[1..] == t;
    }
  }

  lemma {:induction false} NoPointNoFraction(t: string)
    requires AllDigits(t)
    ensures FractionLength(t) == 0
  {
    if |t| > 0 {
      NoPointNoFraction(t[1..]);
    }
  }
}
