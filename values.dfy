/**
  JavaScript values as the quotation components read them: the loosely typed
  property values of selection entries, the text of number inputs, and the
  coercions `Number(v)`, `v || 0` and `v ?? d` that the components apply.
  Also the decimal digit strings behind `Date.now().toString()`.
*/
module Values {

  datatype Option<+T> = None | Some(value: T)

  /** A JavaScript value. An absent property reads as `Undefined`. */
  datatype Value =
    | Undefined
    | Null
    | Num(n: real)
    | Str(s: string)
    | Arr(items: seq<Value>)
    | Obj(props: map<string, Value>)

  // ---------------------------------------------------------------------
  // Decimal digit strings
  // ---------------------------------------------------------------------

  predicate IsDigit(c: char) { '0' <= c <= '9' }

  predicate AllDigits(s: string) { forall i :: 0 <= i < |s| ==> IsDigit(s[i]) }

  function DigitValue(c: char): (d: nat)
    requires IsDigit(c)
    ensures d < 10
  {
    (c as int) - ('0' as int)
  }

  function DigitChar(d: nat): (c: char)
    requires d < 10
    ensures IsDigit(c) && DigitValue(c) == d
  {
    (('0' as int) + d) as char
  }

  function Pow10(k: nat): (p: nat)
    ensures p >= 1
  {
    if k == 0 then 1 else 10 * Pow10(k - 1)
  }

  /** The number a string of decimal digits denotes, most significant digit first. */
  function DigitsValue(s: string): nat
    requires AllDigits(s)
  {
    if s == [] then 0 else 10 * DigitsValue(s[..|s| - 1]) + DigitValue(s[|s| - 1])
  }

  /** The decimal representation of a natural number, as `n.toString()` gives it. */
  function Decimal(n: nat): (s: string)
    ensures AllDigits(s) && 1 <= |s|
    ensures DigitsValue(s) == n
    ensures n >= 10 ==> s[0] != '0'
  {
    if n < 10 then [DigitChar(n)]
    else
      var prefix := Decimal(n / 10);
      var s := prefix + [DigitChar(n % 10)];
      assert s[..|s| - 1] == prefix;
      s
  }

  /** `s.slice(-k)` for k >= 1: the last k characters, or all of s when it is shorter. */
  function LastChars(s: string, k: nat): (r: string)
    requires k >= 1
    ensures |r| == if |s| <= k then |s| else k
    ensures r == s[|s| - |r|..]
  {
    if |s| <= k then s else s[|s| - k..]
  }

  lemma {:induction false} Pow10Monotone(i: nat, j: nat)
    requires i <= j
    ensures Pow10(i) <= Pow10(j)
  {
    if i < j { Pow10Monotone(i, j - 1); }
  }

  /** A string of k digits denotes a number below 10^k. */
  lemma {:induction false} DigitsBound(s: string)
    requires AllDigits(s)
    ensures DigitsValue(s) < Pow10(|s|)
  {
    if s != [] { DigitsBound(s[..|s| - 1]); }
  }

  /** Euclidean division has one remainder: x = q * m + r with 0 <= r < m fixes r. */
  lemma ModUnique(x: int, m: int, q: int, r: int)
    requires m > 0 && 0 <= r < m && x == q * m + r
    ensures x % m == r
  {
    var q', r' := x / m, x % m;
    assert x == q' * m + r';
    assert (q - q') * m == r' - r;
    if q > q' {
      MulAtLeast(q - q', m);
    } else if q < q' {
      MulAtLeast(q' - q, m);
    }
  }

  lemma {:induction false} MulAtLeast(k: int, m: int)
    requires k >= 1 && m > 0
    ensures k * m >= m
  {
    if k > 1 {
      MulAtLeast(k - 1, m);
      assert k * m == (k - 1) * m + m;
    }
  }

  lemma ShiftMod(a: nat, d: nat, m: nat)
    requires d < 10 && m >= 1
    ensures (10 * a + d) % (10 * m) == 10 * (a % m) + d
  {
    var q, r := a / m, a % m;
    assert a == q * m + r;
    assert 10 * a + d == q * (10 * m) + (10 * r + d);
    ModUnique(10 * a + d, 10 * m, q, 10 * r + d);
  }

  /** The last k digits of a digit string denote its value modulo 10^k. */
  lemma {:induction false} LastCharsValue(s: string, k: nat)
    requires AllDigits(s) && k >= 1
    ensures AllDigits(LastChars(s, k))
    ensures DigitsValue(LastChars(s, k)) == DigitsValue(s) % Pow10(k)
  {
    if |s| <= k {
      DigitsBound(s);
      Pow10Monotone(|s|, k);
      ModUnique(DigitsValue(s), Pow10(k), 0, DigitsValue(s));
    } else if k == 1 {
      LastDigitValue(s);
    } else {
      LastCharsValue(s[..|s| - 1], k - 1);
      LastCharsStep(s, k);
    }
  }

  /** The last digit of a digit string denotes its value modulo 10. */
  lemma LastDigitValue(s: string)
    requires AllDigits(s) && 1 < |s|
    ensures AllDigits(LastChars(s, 1))
    ensures DigitsValue(LastChars(s, 1)) == DigitsValue(s) % 10
  {
    var prefix, last := s[..|s| - 1], s[|s| - 1];
    assert LastChars(s, 1) == [] + [last];
    DigitsValueSnoc([], last);
    DigitsValueSnoc(prefix, last);
    assert prefix + [last] == s;
    ModUnique(DigitsValue(s), 10, DigitsValue(prefix), DigitValue(last));
  }

  /** One more digit: if the claim holds for the prefix and k - 1, it holds for s and k. */
  lemma LastCharsStep(s: string, k: nat)
    requires AllDigits(s) && 2 <= k < |s|
    requires AllDigits(LastChars(s[..|s| - 1], k - 1))
    requires DigitsValue(LastChars(s[..|s| - 1], k - 1)) == DigitsValue(s[..|s| - 1]) % Pow10(k - 1)
    ensures AllDigits(LastChars(s, k))
    ensures DigitsValue(LastChars(s, k)) == DigitsValue(s) % Pow10(k)
  {
    var prefix := s[..|s| - 1];
    var tail := LastChars(prefix, k - 1);
    LastCharsSnoc(s, k);
    DigitsValueSnoc(tail, s[|s| - 1]);
    DigitsValueSnoc(prefix, s[|s| - 1]);
    assert prefix + [s[|s| - 1]] == s;
    ShiftMod(DigitsValue(prefix), DigitValue(s[|s| - 1]), Pow10(k - 1));
  }

  /** The last k characters are the last k - 1 of the prefix followed by the last character. */
  lemma LastCharsSnoc(s: string, k: nat)
    requires 2 <= k < |s|
    ensures LastChars(s, k) == LastChars(s[..|s| - 1], k - 1) + [s[|s| - 1]]
  {
  }

  /** Appending a digit multiplies the value by ten and adds the digit. */
  lemma DigitsValueSnoc(s: string, c: char)
    requires AllDigits(s) && IsDigit(c)
    ensures AllDigits(s + [c])
    ensures DigitsValue(s + [c]) == 10 * DigitsValue(s) + DigitValue(c)
  {
    var t := s + [c];
    assert t[..|t| - 1] == s;
  }

  // ---------------------------------------------------------------------
  // Number(text) for the text of a number input
  // ---------------------------------------------------------------------

  /** The value of the digits after a decimal point: "25" denotes 0.25. */
  function FractionValue(s: string): (x: real)
    requires AllDigits(s)
    ensures 0.0 <= x <= 1.0
  {
    if s == [] then 0.0 else (DigitValue(s[0]) as real + FractionValue(s[1..])) / 10.0
  }

  /** The position of the first '.' in s, or |s| when there is none. */
  function DotIndex(s: string): (i: nat)
    ensures i <= |s|
    ensures forall j :: 0 <= j < i ==> s[j] != '.'
    ensures i < |s| ==> s[i] == '.'
  {
    if s == [] then 0 else if s[0] == '.' then 0 else 1 + DotIndex(s[1..])
  }

  /** Digits with an optional fraction ("12", "12.5", ".5", "12."), at least one digit in all. */
  function ParseUnsigned(s: string): (r: Option<real>)
    ensures r.Some? ==> r.value >= 0.0
  {
    var dot := DotIndex(s);
    var whole := s[..dot];
    var fraction := if dot < |s| then s[dot + 1..] else [];
    if AllDigits(whole) && AllDigits(fraction) && |whole| + |fraction| > 0 then
      Some(DigitsValue(whole) as real + FractionValue(fraction))
    else None
  }

  /**
    `Number(s)` for the text a number input yields: the empty text is 0,
    an optional sign may precede the digits, anything else is NaN (None).
  */
  function ParseNumber(s: string): (r: Option<real>)
    ensures s == [] ==> r == Some(0.0)
    ensures r.Some? && (s == [] || s[0] != '-') ==> r.value >= 0.0
  {
    if s == [] then Some(0.0)
    else if s[0] == '-' then
      match ParseUnsigned(s[1..])
      case Some(x) => Some(-x)
      case None => None
    else if s[0] == '+' then ParseUnsigned(s[1..])
    else ParseUnsigned(s)
  }

  /** `Number(v)`; None stands for NaN. Arrays and objects are never coerced by the components. */
  function ToNumber(v: Value): Option<real>
  {
    match v
    case Undefined => None
    case Null => Some(0.0)
    case Num(n) => Some(n)
    case Str(s) => ParseNumber(s)
    case Arr(_) => None
    case Obj(_) => None
  }

  /** `Number(v) || 0`: the numeric reading of v, with NaN read as 0. */
  function NumberOrZero(v: Value): (x: real)
    ensures v.Num? ==> x == v.n
    ensures v.Undefined? || v.Null? || v == Str("") ==> x == 0.0
  {
    match ToNumber(v)
    case Some(n) => n
    case None => 0.0
  }

  /** `v ?? d`: d when v is null or undefined, v otherwise. */
  function Nullish(v: Value, d: Value): (r: Value)
    ensures r == v || r == d
    ensures !v.Undefined? && !v.Null? ==> r == v
  {
    if v.Undefined? || v.Null? then d else v
  }

  /** Reading property `key` of an object; absent properties read as undefined. */
  function Get(props: map<string, Value>, key: string): (v: Value)
    ensures key !in props ==> v == Undefined
  {
    if key in props then props[key] else Undefined
  }

  /** The decimal text of a whole number parses back to that number. */
  lemma ParseDecimal(n: nat)
    ensures ParseNumber(Decimal(n)) == Some(n as real)
  {
    var s := Decimal(n);
    assert s[0] != '-' && s[0] != '+' by { assert IsDigit(s[0]); }
    var dot := DotIndex(s);
    assert forall j :: 0 <= j < |s| ==> s[j] != '.';
    assert s[..dot] == s;
  }

  // ---------------------------------------------------------------------
  // String.prototype.toLowerCase on ASCII letters
  // ---------------------------------------------------------------------

  function LowerChar(c: char): (r: char)
    ensures !('A' <= r <= 'Z')
  {
    if 'A' <= c <= 'Z' then (c as int - 'A' as int + 'a' as int) as char else c
  }

  function ToLower(s: string): (r: string)
    ensures |r| == |s|
    ensures forall i :: 0 <= i < |s| ==> r[i] == LowerChar(s[i])
  {
    if s == [] then [] else [LowerChar(s[0])] + ToLower(s[1..])
  }

  /** Lower-casing twice is lower-casing once. */
  lemma ToLowerIdempotent(s: string)
    ensures ToLower(ToLower(s)) == ToLower(s)
  {
    var t := ToLower(s);
    assert forall i :: 0 <= i < |t| ==> LowerChar(t[i]) == t[i];
  }
}
