/** round_step and round_tick (grid_bot.py, and the same pair inside backtest_engine.py).
    Both divide, drop the fraction and multiply back, in exact decimal arithmetic. */
module Rounding {
  import opened RealArith

  /** Decimal's ROUND_DOWN: towards zero. */
  function Trunc(x: real): int {
    if x >= 0.0 then x.Floor else -((-x).Floor)
  }

  function Multiple(k: int, step: real): real {
    k as real * step
  }

  function RoundDown(value: real, step: real): real {
    if step <= 0.0 then value else Multiple(Trunc(value / step), step)
  }

  lemma TruncNear(x: real)
    ensures x >= 0.0 ==> 0.0 <= Trunc(x) as real <= x < Trunc(x) as real + 1.0
    ensures x < 0.0 ==> Trunc(x) as real - 1.0 < x <= Trunc(x) as real <= 0.0
  {}

  lemma TruncMono(x: real, y: real)
    requires x <= y
    ensures Trunc(x) <= Trunc(y)
  {
    TruncNear(x);
    TruncNear(y);
  }

  lemma DivMono(a: real, b: real, c: real)
    requires a <= b && c > 0.0
    ensures a / c <= b / c
  {
    DivMul(a, c);
    DivMul(b, c);
    ScaledCompare(a / c, b / c, c);
  }

  lemma MultipleNonNegative(k: int, step: real)
    requires step > 0.0 && k >= 0
    ensures Multiple(k, step) >= 0.0
  {
    MulNonNeg(k as real, step);
  }

  lemma MultipleAtMost(k: int, step: real, value: real)
    requires step > 0.0 && k as real <= value / step
    ensures Multiple(k, step) <= value
  {
    DivMul(value, step);
    MulMono(k as real, value / step, step);
  }

  lemma MultipleAbove(k: int, step: real, value: real)
    requires step > 0.0 && value / step < k as real
    ensures value < Multiple(k, step)
  {
    DivMul(value, step);
    MulStrict(value / step, k as real, step);
  }

  lemma NextMultiple(k: int, step: real)
    ensures Multiple(k + 1, step) == Multiple(k, step) + step
  {
    Distribute(k as real, 1.0, step);
  }

  /** A non-negative value loses less than one step and stays non-negative. */
  lemma RoundDownLoses(value: real, step: real)
    requires step > 0.0 && value >= 0.0
    ensures 0.0 <= RoundDown(value, step) <= value < RoundDown(value, step) + step
  {
    hide Multiple;
    var k := Trunc(value / step);
    DivCompare(value, step, 0.0, 0.0);
    TruncNear(value / step);
    MultipleNonNegative(k, step);
    MultipleAtMost(k, step, value);
    MultipleAbove(k + 1, step, value);
    NextMultiple(k, step);
  }

  lemma RoundDownNegated(value: real, step: real)
    ensures RoundDown(-value, step) == -RoundDown(value, step)
  {
    if step > 0.0 {
      DivMul(value, step);
      DivIs(-(value / step), -value, step);
      var k := Trunc(value / step) as real;
      assert (-k) * step == -(k * step);
    }
  }

  /** A negative value is rounded up, again by less than one step: the code rounds towards zero,
      not to the nearest tick as its comment says. */
  lemma RoundDownOfNegative(value: real, step: real)
    requires step > 0.0 && value < 0.0
    ensures RoundDown(value, step) - step < value <= RoundDown(value, step) <= 0.0
  {
    RoundDownLoses(-value, step);
    RoundDownNegated(value, step);
  }

  lemma RoundDownMono(a: real, b: real, step: real)
    requires a <= b
    ensures RoundDown(a, step) <= RoundDown(b, step)
  {
    if step > 0.0 {
      DivMono(a, b, step);
      TruncMono(a / step, b / step);
      MulMono(Trunc(a / step) as real, Trunc(b / step) as real, step);
    }
  }

  /** Whole multiples of the step are fixed points, so rounding twice is rounding once. */
  lemma RoundDownOfMultiple(k: int, step: real)
    requires step > 0.0
    ensures RoundDown(Multiple(k, step), step) == Multiple(k, step)
  {
    DivIs(k as real, Multiple(k, step), step);
  }

  lemma RoundDownIdempotent(value: real, step: real)
    ensures RoundDown(RoundDown(value, step), step) == RoundDown(value, step)
  {
    if step > 0.0 {
      var k := Trunc(value / step);
      assert RoundDown(value, step) == Multiple(k, step);
      RoundDownOfMultiple(k, step);
    }
  }
}
