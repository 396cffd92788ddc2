/** Facts about products and quotients of reals, stated once so that the other modules can keep
    non-linear reasoning out of their own proofs.  Composite factors are parameters tied by an
    equation, so that every conclusion is linear in the products it mentions. */
module RealArith {

  function Min(a: real, b: real): real { if a <= b then a else b }
  function Max(a: real, b: real): real { if a >= b then a else b }

  /** clamp of grid.py: `max(min_val, min(val, max_val))`, so the lower bound wins. */
  function Clamp(val: real, lo: real, hi: real): real {
    Max(lo, Min(val, hi))
  }

  lemma MulPos(a: real, b: real)
    requires a > 0.0 && b > 0.0
    ensures a * b > 0.0
  {}

  lemma MulNonNeg(a: real, b: real)
    requires a >= 0.0 && b >= 0.0
    ensures a * b >= 0.0
  {}

  lemma MulMono(a: real, b: real, c: real)
    requires a <= b && c >= 0.0
    ensures a * c <= b * c
  {
    MulNonNeg(b - a, c);
  }

  lemma MulStrict(a: real, b: real, c: real)
    requires a < b && c > 0.0
    ensures a * c < b * c
  {
    assert (b - a) * c > 0.0;
  }

  lemma MulSign(a: real, c: real)
    requires c > 0.0
    ensures a * c > 0.0 <==> a > 0.0
    ensures a * c < 0.0 <==> a < 0.0
    ensures a * c == 0.0 <==> a == 0.0
  {
    if a > 0.0 { MulPos(a, c); }
    if a < 0.0 { MulPos(-a, c); assert (-a) * c == -(a * c); }
  }

  lemma Distribute(a: real, b: real, c: real)
    ensures (a + b) * c == a * c + b * c
    ensures (a - b) * c == a * c - b * c
  {}

  lemma DivMul(a: real, b: real)
    requires b != 0.0
    ensures a / b * b == a
  {}

  /** x == a / b exactly when x * b == a. */
  lemma DivIs(x: real, a: real, b: real)
    requires b != 0.0 && x * b == a
    ensures x == a / b
  {
    DivMul(a, b);
    assert (x - a / b) * b == 0.0;
  }

  lemma DivPos(a: real, b: real)
    requires a > 0.0 && b > 0.0
    ensures a / b > 0.0
  {
    DivMul(a, b);
    MulSign(a / b, b);
  }

  lemma ScaledCompare(x: real, c: real, b: real)
    requires b > 0.0
    ensures x >= c <==> x * b >= c * b
    ensures x > c <==> x * b > c * b
  {
    if x > c {
      MulStrict(c, x, b);
    } else if x < c {
      MulStrict(x, c, b);
    }
  }

  /** Comparing a quotient with c is comparing its numerator with c times the denominator. */
  lemma DivCompare(a: real, b: real, c: real, level: real)
    requires b > 0.0 && level == c * b
    ensures a / b >= c <==> a >= level
    ensures a / b > c <==> a > level
  {
    DivMul(a, b);
    ScaledCompare(a / b, c, b);
  }

  lemma MixMono(x: real, y: real, highX: real, highY: real, t: real, u: real)
    requires x <= highX && y <= highY && t >= 0.0 && u >= 0.0
    ensures x * t + y * u <= highX * t + highY * u
  {
    MulMono(x, highX, t);
    MulMono(y, highY, u);
  }

  /** A rate below 1 takes less than the whole of a positive amount. */
  lemma PartBelow(amount: real, rate: real, part: real)
    requires amount > 0.0 && rate < 1.0 && part == amount * rate
    ensures part < amount
  {
    SplitOff(amount, rate, 1.0 - rate);
  }

  lemma SplitOff(amount: real, rate: real, rest: real)
    requires amount > 0.0 && rest > 0.0 && rate + rest == 1.0
    ensures amount * rate < amount
  {
    MulPos(amount, rest);
    assert amount * (rest + rate) == amount * rest + amount * rate;
  }
}
