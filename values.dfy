/** JavaScript values as they reach the payroll screens, and the coercions the
    screens apply to them: `Number(x)`, `Number(x) || 0` and truthiness. */
module Values {

  datatype Option<+T> = None | Some(value: T) {
    function GetOr(default: T): T {
      match this
      case Some(v) => v
      case None => default
    }
  }

  /** A field of a record or a form as JavaScript holds it. Text is what an
      `<input type="number">` or a JSON string field carries. */
  datatype Value = Undefined | Null | NaN | Num(x: real) | Text(s: string)

  predicate IsDigit(c: char) { '0' <= c <= '9' }

  predicate AllDigits(s: string) { forall i :: 0 <= i < |s| ==> IsDigit(s[i]) }

  /** The natural number a string of decimal digits denotes. */
  function DigitsValue(s: string): (n: nat)
    requires AllDigits(s)
  {
    if s == [] then 0
    else 10 * DigitsValue(s[..|s| - 1]) + ((s[|s| - 1] as int) - ('0' as int))
  }

  function Pow10(k: nat): (p: nat)
    ensures p >= 1
  {
    if k == 0 then 1 else 10 * Pow10(k - 1)
  }

  /** Index of the first '.', or |s| when there is none. */
  function IndexOfDot(s: string): (i: nat)
    ensures i <= |s|
    ensures i < |s| ==> s[i] == '.'
    ensures forall j :: 0 <= j < i ==> s[j] != '.'
  {
    if s == [] then 0
    else if s[0] == '.' then 0
    else 1 + IndexOfDot(s[1..])
  }

  /** An unsigned decimal literal `ddd`, `ddd.ddd`, `.ddd` or `ddd.`; None is NaN. */
  function ParseUnsigned(s: string): Option<real>
  {
    var i := IndexOfDot(s);
    var whole := s[..i];
    var frac := if i < |s| then s[i + 1..] else [];
    if AllDigits(whole) && AllDigits(frac) && |whole| + |frac| > 0 then
      Some(DigitsValue(whole) as real + DigitsValue(frac) as real / Pow10(|frac|) as real)
    else
      None
  }

  /** `Number(s)` for a string: the empty string is 0, a signed decimal literal
      its value, anything else NaN (None). */
  function ParseNumber(s: string): Option<real>
  {
    if s == [] then Some(0.0)
    else if s[0] == '-' then
      match ParseUnsigned(s[1..])
      case Some(v) => Some(-v)
      case None => None
    else if s[0] == '+' then ParseUnsigned(s[1..])
    else ParseUnsigned(s)
  }

  /** `Number(v)`; None stands for NaN. */
  function ToNumber(v: Value): Option<real>
  {
    match v
    case Undefined => None
    case Null => Some(0.0)
    case NaN => None
    case Num(x) => Some(x)
    case Text(s) => ParseNumber(s)
  }

  /** `Number(v) || 0`: NaN (and every falsy number) becomes 0. */
  function Coerce(v: Value): (r: real)
    ensures ToNumber(v).None? ==> r == 0.0
    ensures ToNumber(v).Some? ==> r == ToNumber(v).value
  {
    match ToNumber(v)
    case None => 0.0
    case Some(x) => x
  }

  /** JavaScript truthiness of a value. */
  predicate Truthy(v: Value)
  {
    match v
    case Undefined => false
    case Null => false
    case NaN => false
    case Num(x) => x != 0.0
    case Text(s) => s != ""
  }

  /** Coercion treats absent and non-numeric input as 0 and keeps numbers. */
  lemma CoerceDefaults(x: real)
    ensures Coerce(Undefined) == 0.0 && Coerce(Null) == 0.0 && Coerce(NaN) == 0.0
    ensures Coerce(Text("")) == 0.0 && Coerce(Text("abc")) == 0.0
    ensures Coerce(Num(x)) == x
  {
    assert ParseUnsigned("abc") == None by {
      assert IndexOfDot("abc") == 3;
      assert !IsDigit("abc"[0]);
    }
  }

  /** Coercing a number already coerced changes nothing (`calcDaily` is fed
      coerced values and coerces them again). */
  lemma CoerceIdempotent(v: Value)
    ensures Coerce(Num(Coerce(v))) == Coerce(v)
  {
  }

  /** A digit string read by `Number` gives its decimal value. */
  lemma {:induction false} ParseDigits(s: string)
    requires s != [] && AllDigits(s)
    ensures ParseNumber(s) == Some(DigitsValue(s) as real)
  {
    assert s[0] != '-' && s[0] != '+' by { assert IsDigit(s[0]); }
    NoDotInDigits(s);
    assert s[..|s|] == s;
  }

  lemma {:induction false} NoDotInDigits(s: string)
    requires AllDigits(s)
    ensures IndexOfDot(s) == |s|
  {
    if s != [] {
      assert IsDigit(s[0]);
      assert AllDigits(s[1..]) by {
        forall i | 0 <= i < |s[1..]| ensures IsDigit(s[1..][i]) { assert s[1..][i] == s[i + 1]; }
      }
      NoDotInDigits(s[1..]);
    }
  }
}

/** Ceiling and the two-decimal rounding the screens display. */
module Arith {

  /** `Math.ceil`, written through the floor as -floor(-x). */
  function Ceil(x: real): (n: int)
    ensures x <= n as real < x + 1.0
  {
    -((-x).Floor)
  }

  /** Rounding a non-negative real to hundredths, halves upwards. */
  function HalfUp(y: real): (r: real)
    requires y >= 0.0
    ensures r >= 0.0 && Hundredths(r)
    ensures y - 0.005 < r <= y + 0.005
  {
    var n := (y * 100.0 + 0.5).Floor;
    assert (n as real / 100.0) * 100.0 == n as real;
    n as real / 100.0
  }

  /** A whole number of hundredths. */
  predicate Hundredths(r: real)
  {
    (r * 100.0).Floor as real == r * 100.0
  }

  lemma NegatedHundredths(h: real)
    requires Hundredths(h)
    ensures Hundredths(-h)
  {
    var n := (h * 100.0).Floor;
    assert (-h) * 100.0 == (-n) as real;
  }

  /** `Number(x.toFixed(2))` on an exact real: the magnitude is rounded to
      the nearest hundredth, a half going to the larger magnitude, and the
      sign put back. The result is the one whole number of hundredths in the
      window of width 0.01 around x that is closed on the side away from zero. */
  function Round2(x: real): (r: real)
    ensures Hundredths(r)
    ensures x >= 0.0 ==> x - 0.005 < r <= x + 0.005
    ensures x < 0.0 ==> x - 0.005 <= r < x + 0.005
  {
    if x < 0.0 then
      var h := HalfUp(-x);
      NegatedHundredths(h);
      -h
    else HalfUp(x)
  }

  function Max(a: real, b: real): (m: real)
    ensures m >= a && m >= b && (m == a || m == b)
  {
    if a >= b then a else b
  }

  /** The ceiling is the least integer not below x. */
  lemma CeilLeast(x: real, k: int)
    requires x <= k as real
    ensures Ceil(x) <= k
  {
  }

  /** A value that is already a whole number of hundredths is left as it is. */
  lemma Round2Exact(n: int)
    ensures Round2(n as real / 100.0) == n as real / 100.0
  {
    var m := if n < 0 then -n else n;
    var y := (m as real / 100.0) * 100.0 + 0.5;
    assert y == m as real + 0.5;
    assert y.Floor == m;
  }

  lemma HalfUpMonotone(x: real, y: real)
    requires 0.0 <= x <= y
    ensures HalfUp(x) <= HalfUp(y)
  {
    var a, b := x * 100.0 + 0.5, y * 100.0 + 0.5;
    assert a <= b;
    assert a.Floor <= b.Floor;
  }

  /** Rounding to hundredths is monotone. */
  lemma Round2Monotone(x: real, y: real)
    requires x <= y
    ensures Round2(x) <= Round2(y)
  {
    if 0.0 <= x {
      HalfUpMonotone(x, y);
    } else if y < 0.0 {
      HalfUpMonotone(-y, -x);
    }
  }

  /** Rounding commutes with negation: ties go away from zero on both sides. */
  lemma Round2Odd(x: real)
    ensures Round2(-x) == -Round2(x)
  {
  }

  /** The result is a nearest whole number of hundredths. */
  lemma Round2Nearest(x: real, k: int)
    ensures Abs(x - Round2(x)) <= Abs(x - k as real / 100.0)
  {
    var r := Round2(x);
    var n := (r * 100.0).Floor;
    assert r == n as real / 100.0;
    if k < n {
      assert k as real / 100.0 <= r - 0.01;
    } else if k > n {
      assert k as real / 100.0 >= r + 0.01;
    }
  }

  /** Halves: 2.125 becomes 2.13 and -2.125 becomes -2.13. */
  lemma Round2Ties()
    ensures Round2(2.125) == 2.13 && Round2(-2.125) == -2.13
  {
    assert (2.125 * 100.0 + 0.5).Floor == 213;
  }

  function Abs(x: real): real
  {
    if x < 0.0 then -x else x
  }
}

/** A stored daily metric as the daily-records endpoint returns it. */
module Records {
  import opened Values

  datatype DailyRecord = DailyRecord(
    conversations: Value,
    avgFirstResponse: Value,
    avgResponseTime: Value,
    unrepliedChats: Value,
    combinedAvgResponseTime: Value)
}
