/**
 * The few JavaScript values the dashboard inspects: request parameters and filter values.
 * Numbers are integers here; fractional numbers and infinities are not modelled.
 */
module JsValues {

  datatype JsValue = Undefined | Null | Bool(b: bool) | Num(n: int) | NaN | Str(s: string) | Obj

  /** JavaScript truthiness: what `if (v)` and `v && ...` test. */
  predicate Truthy(v: JsValue) {
    match v
    case Undefined => false
    case Null => false
    case Bool(b) => b
    case Num(n) => n != 0
    case NaN => false
    case Str(s) => s != ""
    case Obj => true
  }

  predicate IsDigit(c: char) {
    '0' <= c <= '9'
  }

  predicate AllDigits(s: string) {
    forall i :: 0 <= i < |s| ==> IsDigit(s[i])
  }

  function Pow10(k: nat): (p: nat)
    ensures p >= 1
  {
    if k == 0 then 1 else 10 * Pow10(k - 1)
  }

  /** The value of a string of decimal digits; `k` digits hold a value below `10^k`. */
  function DecimalValue(s: string): (n: nat)
    requires AllDigits(s)
    ensures n < Pow10(|s|)
  {
    if s == [] then 0
    else DecimalValue(s[..|s| - 1]) * 10 + (s[|s| - 1] as int - '0' as int)
  }

  /** Digits written after a prefix shift the prefix's value by one decimal place each. */
  lemma {:induction false} DecimalAppend(a: string, b: string)
    requires AllDigits(a) && AllDigits(b)
    ensures AllDigits(a + b)
    ensures DecimalValue(a + b) == DecimalValue(a) * Pow10(|b|) + DecimalValue(b)
    decreases |b|
  {
    var s := a + b;
    if b == [] {
      assert s == a;
    } else {
      var init := b[..|b| - 1];
      var d := b[|b| - 1] as int - '0' as int;
      assert s[..|s| - 1] == a + init;
      assert s[|s| - 1] == b[|b| - 1];
      DecimalAppend(a, init);
      var x, p, y := DecimalValue(a), Pow10(|init|), DecimalValue(init);
      assert DecimalValue(s) == (x * p + y) * 10 + d;
      assert DecimalValue(b) == y * 10 + d;
      assert Pow10(|b|) == 10 * p;
      ShiftDigit(x, p, y, d);
    }
  }

  lemma ShiftDigit(x: int, p: int, y: int, d: int)
    ensures (x * p + y) * 10 + d == x * (10 * p) + (y * 10 + d)
  {
  }

  /** A leading zero does not change the value, as in `Number("03") === 3`. */
  lemma LeadingZero(s: string)
    requires AllDigits(s)
    ensures AllDigits("0" + s)
    ensures DecimalValue("0" + s) == DecimalValue(s)
  {
    assert ("0")[..0] == [];
    DecimalAppend("0", s);
  }

  /** `Number("42") === 42` and `Number("") === 0`. */
  lemma DecimalExamples()
    ensures ToNumber(Str("42")) == Num(42)
    ensures ToNumber(Str("")) == Num(0)
    ensures ToNumber(Str("4a")) == NaN
  {
    assert "42"[..1] == "4";
    assert "4"[..0] == "";
    assert !IsDigit("4a"[1]);
  }

  /**
   * JavaScript's `Number(v)`. A string converts when it is empty (to 0) or made of decimal
   * digits; every other string is read as NaN here.
   */
  function ToNumber(v: JsValue): (r: JsValue)
    ensures r.Num? || r.NaN?
    ensures v.Num? || v.NaN? ==> r == v
    ensures v.Str? && AllDigits(v.s) ==> r == Num(DecimalValue(v.s))
  {
    match v
    case Undefined => NaN
    case Null => Num(0)
    case Bool(b) => Num(if b then 1 else 0)
    case Num(_) => v
    case NaN => NaN
    case Str(s) => if AllDigits(s) then Num(DecimalValue(s)) else NaN
    case Obj => NaN
  }
}
