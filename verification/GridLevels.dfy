/** grid.py: base-order sizing, the safety-order ladder and the take-profit price. */
module GridLevels {
  import opened RealArith
  import opened Liquidation

  datatype SizingMode = FixedUsdSizing | PctCapitalSizing

  datatype GridParams = GridParams(
    wallet: real,
    boPrice: real,
    side: Side,
    atr: real,
    boPct: real,
    tpPct: real,
    maxSafetyOrders: int,
    volumeScale: real,
    stepScale: real,
    atrMultiplier: real,
    stepMin: real,
    stepMax: real,
    leverage: int,
    baseOrderUsd: real,
    sizing: SizingMode,
    compounding: bool,
    compoundingPct: real,
    initialCapital: real,
    tpFixed: bool,
    tpFixedAmount: real)

  datatype Level = Level(
    index: int, stepPct: real, cumDev: real, fillPrice: real, margin: real, notional: real, qty: real)

  datatype Grid = Grid(
    boPrice: real, boMargin: real, boNotional: real, boQty: real, levels: seq<Level>, tpTarget: real)

  function Pow(base: real, n: nat): real {
    if n == 0 then 1.0 else Pow(base, n - 1) * base
  }

  function Step1(p: GridParams): real {
    var atrPct := if p.boPrice > 0.0 then p.atr / p.boPrice else 0.0;
    Clamp(atrPct * p.atrMultiplier, p.stepMin, p.stepMax)
  }

  /** The compounding factor; 1 unless compounding is on and the wallet has grown. */
  function Compound(p: GridParams): real {
    if p.compounding && p.initialCapital > 0.0 && p.wallet > p.initialCapital
    then 1.0 + p.compoundingPct * (p.wallet / p.initialCapital - 1.0)
    else 1.0
  }

  function BoMargin(p: GridParams): real {
    var sized := if p.sizing.FixedUsdSizing? && p.baseOrderUsd > 0.0 then p.baseOrderUsd * Compound(p)
                 else p.wallet * p.boPct * Compound(p);
    Min(sized, p.wallet * 0.5)
  }

  function TpTarget(p: GridParams): real {
    if p.tpFixed && p.tpFixedAmount > 0.0 then p.tpFixedAmount else p.wallet * p.tpPct
  }

  function StepPct(p: GridParams, n: nat): real
    requires n >= 1
  {
    Step1(p) * Pow(p.stepScale, n - 1)
  }

  /** Cumulative deviation of the n-th safety order, as the running sum the loop keeps. */
  function CumDev(p: GridParams, n: nat): real {
    if n == 0 then 0.0 else CumDev(p, n - 1) + StepPct(p, n)
  }

  function FillPrice(p: GridParams, n: nat): real {
    if p.side.LONG? then p.boPrice * (1.0 - CumDev(p, n)) else p.boPrice * (1.0 + CumDev(p, n))
  }

  function SoMargin(p: GridParams, n: nat): real {
    BoMargin(p) * Pow(p.volumeScale, n)
  }

  function LevelAt(p: GridParams, n: nat): Level
    requires n >= 1
  {
    var fill := FillPrice(p, n);
    var notional := SoMargin(p, n) * p.leverage as real;
    Level(n, StepPct(p, n), CumDev(p, n), fill, SoMargin(p, n), notional,
          if fill > 0.0 then notional / fill else 0.0)
  }

  function LevelCount(p: GridParams): nat {
    if p.maxSafetyOrders > 0 then p.maxSafetyOrders else 0
  }

  function GridOf(p: GridParams): Grid {
    var notional := BoMargin(p) * p.leverage as real;
    Grid(p.boPrice, BoMargin(p), notional, if p.boPrice > 0.0 then notional / p.boPrice else 0.0,
         seq(LevelCount(p), i requires 0 <= i => LevelAt(p, i + 1)), TpTarget(p))
  }

  lemma NoDeviation(p: GridParams)
    ensures CumDev(p, 0) == 0.0
  {}

  /** One turn of the generator loop, from the running deviation before it. */
  lemma LevelIs(p: GridParams, n: nat, step1: real, boMargin: real, before: real)
    requires n >= 1 && step1 == Step1(p) && boMargin == BoMargin(p) && before == CumDev(p, n - 1)
    ensures var step := step1 * Pow(p.stepScale, n - 1);
            var dev := before + step;
            var fill := if p.side.LONG? then p.boPrice * (1.0 - dev) else p.boPrice * (1.0 + dev);
            var margin := boMargin * Pow(p.volumeScale, n);
            var notional := margin * p.leverage as real;
            && CumDev(p, n) == dev
            && LevelAt(p, n) == Level(n, step, dev, fill, margin, notional, if fill > 0.0 then notional / fill else 0.0)
  {
    hide Step1, BoMargin, Pow;
  }

  /** The generator loop: one running deviation, one level appended per safety order. */
  method CalculateGridLevels(p: GridParams) returns (g: Grid)
    ensures g == GridOf(p)
  {
    hide Step1, BoMargin, Pow, TpTarget, LevelAt, StepPct, CumDev;
    NoDeviation(p);
    var step1 := Step1(p);
    var boMargin := BoMargin(p);
    var levels: seq<Level> := [];
    var cumDev := 0.0;
    var n := 1;
    while n <= p.maxSafetyOrders
      invariant 1 <= n <= LevelCount(p) + 1
      invariant cumDev == CumDev(p, n - 1)
      invariant |levels| == n - 1 && forall i :: 0 <= i < n - 1 ==> levels[i] == LevelAt(p, i + 1)
    {
      var stepN := step1 * Pow(p.stepScale, n - 1);
      cumDev := cumDev + stepN;
      var fillPrice := if p.side.LONG? then p.boPrice * (1.0 - cumDev) else p.boPrice * (1.0 + cumDev);
      var soMargin := boMargin * Pow(p.volumeScale, n);
      var soNotional := soMargin * p.leverage as real;
      var soQty := if fillPrice > 0.0 then soNotional / fillPrice else 0.0;
      LevelIs(p, n, step1, boMargin, cumDev - stepN);
      levels := levels + [Level(n, stepN, cumDev, fillPrice, soMargin, soNotional, soQty)];
      n := n + 1;
    }
    var boNotional := boMargin * p.leverage as real;
    var boQty := if p.boPrice > 0.0 then boNotional / p.boPrice else 0.0;
    g := Grid(p.boPrice, boMargin, boNotional, boQty, levels, TpTarget(p));
  }

  function CalculateTpPrice(side: Side, avgEntry: real, qty: real, tpTarget: real): real {
    if qty <= 0.0 then 0.0
    else if side.LONG? then avgEntry + tpTarget / qty
    else avgEntry - tpTarget / qty
  }

  // ---------- Closed forms ----------

  /** 1 + s + ... + s^(n-1) */
  function GeoSum(s: real, n: nat): real {
    if n == 0 then 0.0 else GeoSum(s, n - 1) + Pow(s, n - 1)
  }

  lemma {:induction false} GeoSumClosed(s: real, n: nat)
    ensures (s - 1.0) * GeoSum(s, n) == Pow(s, n) - 1.0
  {
    if n > 0 {
      GeoSumClosed(s, n - 1);
      assert (s - 1.0) * (GeoSum(s, n - 1) + Pow(s, n - 1))
          == (s - 1.0) * GeoSum(s, n - 1) + (s - 1.0) * Pow(s, n - 1);
    }
  }

  lemma {:induction false} CumDevClosed(p: GridParams, n: nat)
    ensures CumDev(p, n) == Step1(p) * GeoSum(p.stepScale, n)
  {
    if n > 0 {
      hide Step1, Pow;
      CumDevClosed(p, n - 1);
      var step1, s := Step1(p), p.stepScale;
      var part, power, sum := GeoSum(s, n - 1), Pow(s, n - 1), GeoSum(s, n);
      assert sum == part + power;
      DistributeLeft(step1, part, power, sum);
      assert CumDev(p, n - 1) == step1 * part;
      assert StepPct(p, n) == step1 * power;
    }
  }

  lemma DistributeLeft(a: real, b: real, c: real, sum: real)
    requires sum == b + c
    ensures a * sum == a * b + a * c
  {}

  /** How far rung n (the first is 1) lies from the base price, in the losing direction. */
  function Away(p: GridParams, n: nat): real
    requires 1 <= n <= |GridOf(p).levels|
  {
    if p.side.LONG? then p.boPrice - GridOf(p).levels[n - 1].fillPrice
    else GridOf(p).levels[n - 1].fillPrice - p.boPrice
  }

  /** The first rung lies one ATR times the multiplier from the base price when that is between the two bounds on the
      step, and at the bound it passes otherwise; the lower bound wins when they cross. */
  lemma FirstRungDistance(p: GridParams)
    requires p.boPrice > 0.0 && p.maxSafetyOrders >= 1
    ensures var low, high, move := p.stepMin * p.boPrice, p.stepMax * p.boPrice, p.atr * p.atrMultiplier;
            && (low <= move <= high ==> Away(p, 1) == move)
            && (move < low || high < low ==> Away(p, 1) == low)
            && (low <= high < move ==> Away(p, 1) == high)
  {
    hide Step1, Clamp, GridOf, Away;
    var low, high, move := p.stepMin * p.boPrice, p.stepMax * p.boPrice, p.atr * p.atrMultiplier;
    var step := StepOf(p, move);
    ClampScaled(step, p.stepMin, p.stepMax, p.boPrice, move, low, high);
    FirstRungIsStep(p);
  }

  /** Without a positive price the ATR counts as zero. */
  lemma FirstRungWithoutPrice(p: GridParams)
    requires p.boPrice <= 0.0 && p.maxSafetyOrders >= 1 && p.stepMin <= p.stepMax
    ensures Away(p, 1)
            == (if p.stepMin > 0.0 then p.stepMin else if p.stepMax < 0.0 then p.stepMax else 0.0) * p.boPrice
  {
    StepWithoutPrice(p);
    FirstRungIsStep(p);
    hide Step1, Away, GridOf;
  }

  lemma StepWithoutPrice(p: GridParams)
    requires p.boPrice <= 0.0 && p.stepMin <= p.stepMax
    ensures Step1(p) == if p.stepMin > 0.0 then p.stepMin else if p.stepMax < 0.0 then p.stepMax else 0.0
  {
    assert 0.0 * p.atrMultiplier == 0.0;
  }

  lemma StepOf(p: GridParams, move: real) returns (step: real)
    requires p.boPrice > 0.0 && move == p.atr * p.atrMultiplier
    ensures Step1(p) == Clamp(step, p.stepMin, p.stepMax) && move == step * p.boPrice
  {
    step := p.atr / p.boPrice * p.atrMultiplier;
    StepTimesPrice(p.atr, p.boPrice, p.atrMultiplier);
  }

  lemma StepTimesPrice(atr: real, price: real, times: real)
    requires price > 0.0
    ensures atr / price * times * price == atr * times
  {
    var ratio := atr / price;
    DivMul(atr, price);
    assert ratio * times * price == (ratio * price) * times;
  }

  lemma ClampScaled(x: real, lo: real, hi: real, scale: real, move: real, low: real, high: real)
    requires scale > 0.0 && move == x * scale && low == lo * scale && high == hi * scale
    ensures var clamped := Clamp(x, lo, hi) * scale;
            && (low <= move <= high ==> clamped == move)
            && (move < low || high < low ==> clamped == low)
            && (low <= high < move ==> clamped == high)
  {
    ScaledCompare(x, lo, scale);
    ScaledCompare(x, hi, scale);
    ScaledCompare(hi, lo, scale);
    ScaledCompare(hi, x, scale);
    ScaledCompare(lo, hi, scale);
    ScaledCompare(lo, x, scale);
    var clamped := Clamp(x, lo, hi);
    if clamped == x {
      assert clamped * scale == move;
    } else if clamped == lo {
      assert clamped * scale == low;
    } else {
      assert clamped == hi && clamped * scale == high;
    }
  }

  lemma FirstRungIsStep(p: GridParams)
    requires p.maxSafetyOrders >= 1
    ensures Away(p, 1) == Step1(p) * p.boPrice
  {
    hide Step1;
    assert CumDev(p, 0) == 0.0 && Pow(p.stepScale, 0) == 1.0;
    assert CumDev(p, 1) == Step1(p);
    OffsetOf(p, 1);
  }

  lemma OffsetOf(p: GridParams, n: nat)
    requires 1 <= n <= |GridOf(p).levels|
    ensures Away(p, n) == CumDev(p, n) * p.boPrice
  {
    hide CumDev, SoMargin, StepPct, BoMargin, TpTarget;
    assert p.boPrice * (1.0 - CumDev(p, n)) == p.boPrice - CumDev(p, n) * p.boPrice;
    assert p.boPrice * (1.0 + CumDev(p, n)) == p.boPrice + CumDev(p, n) * p.boPrice;
  }

  /** Rung n lies 1 + s + ... + s^(n-1) times as far away as the first. */
  lemma RungsAreGeometric(p: GridParams, n: nat)
    requires 1 <= n <= |GridOf(p).levels|
    ensures Away(p, n) == Away(p, 1) * GeoSum(p.stepScale, n)
  {
    hide Step1, GeoSum, CumDev, Away, LevelAt, BoMargin, TpTarget;
    OffsetOf(p, n);
    FirstRungIsStep(p);
    CumDevClosed(p, n);
    Reorder(Step1(p), GeoSum(p.stepScale, n), p.boPrice, CumDev(p, n), Away(p, 1));
  }

  lemma Reorder(a: real, b: real, c: real, ab: real, ac: real)
    requires ab == a * b && ac == a * c
    ensures ab * c == ac * b
  {}

  /** Margin of the base order and the first n safety orders. */
  function MarginThrough(p: GridParams, n: nat): real {
    if n == 0 then BoMargin(p) else MarginThrough(p, n - 1) + SoMargin(p, n)
  }

  /** A fully filled basket locks bo_margin * (1 + v + ... + v^N). */
  lemma {:induction false} TotalMarginClosed(p: GridParams, n: nat)
    ensures MarginThrough(p, n) == BoMargin(p) * GeoSum(p.volumeScale, n + 1)
  {
    hide BoMargin;
    var bo, v := BoMargin(p), p.volumeScale;
    if n == 0 {
      assert GeoSum(v, 0) == 0.0 && Pow(v, 0) == 1.0;
      assert GeoSum(v, 1) == 1.0;
    } else {
      hide Pow;
      var m: nat := n - 1;
      TotalMarginClosed(p, m);
      assert m + 1 == n;
      var part, power, sum := GeoSum(v, n), Pow(v, n), GeoSum(v, n + 1);
      assert sum == part + power;
      DistributeLeft(bo, part, power, sum);
      assert MarginThrough(p, m) == bo * part;
      assert SoMargin(p, n) == bo * power;
    }
  }

  // ---------- Order and positivity ----------

  lemma {:induction false} PowPositive(base: real, n: nat)
    requires base > 0.0
    ensures Pow(base, n) > 0.0
  {
    if n > 0 {
      PowPositive(base, n - 1);
      MulPos(Pow(base, n - 1), base);
    }
  }

  lemma Step1InBounds(p: GridParams)
    requires p.stepMin <= p.stepMax
    ensures p.stepMin <= Step1(p) <= p.stepMax
  {}

  lemma {:induction false} CumDevIncreases(p: GridParams, m: nat, n: nat)
    requires Step1(p) > 0.0 && p.stepScale > 0.0 && m < n
    ensures 0.0 <= CumDev(p, m) < CumDev(p, n)
    decreases n
  {
    hide Step1;
    PowPositive(p.stepScale, n - 1);
    MulPos(Step1(p), Pow(p.stepScale, n - 1));
    if m < n - 1 {
      CumDevIncreases(p, m, n - 1);
    } else if m > 0 {
      CumDevIncreases(p, 0, m);
    }
  }

  /** The ladder moves strictly away from the base order: down for LONG, up for SHORT.  Index 0
      stands for the base order itself. */
  lemma FillPricesOrdered(p: GridParams, m: nat, n: nat)
    requires p.boPrice > 0.0 && p.stepMin > 0.0 && p.stepScale > 0.0 && m < n
    ensures if p.side.LONG? then FillPrice(p, n) < FillPrice(p, m) else FillPrice(p, m) < FillPrice(p, n)
  {
    CumDevIncreases(p, m, n);
    var a, b := CumDev(p, m), CumDev(p, n);
    MulStrict(1.0 - b, 1.0 - a, p.boPrice);
    MulStrict(1.0 + a, 1.0 + b, p.boPrice);
  }

  lemma LevelValue(p: GridParams, n: nat)
    requires n >= 1 && FillPrice(p, n) > 0.0
    ensures LevelAt(p, n).qty * LevelAt(p, n).fillPrice == SoMargin(p, n) * p.leverage as real
  {
    DivMul(SoMargin(p, n) * p.leverage as real, FillPrice(p, n));
  }

  ghost predicate LadderOrdered(side: Side, boPrice: real, levels: seq<Level>) {
    && (forall i :: 0 <= i < |levels| ==> levels[i].index == i + 1)
    && (forall i :: 0 <= i < |levels| ==>
          if side.LONG? then levels[i].fillPrice < boPrice else boPrice < levels[i].fillPrice)
    && (forall i, j :: 0 <= i < j < |levels| ==>
          if side.LONG? then levels[j].fillPrice < levels[i].fillPrice
          else levels[i].fillPrice < levels[j].fillPrice)
  }

  /** The ladder as a whole: indices count up from 1 and prices move strictly away from the base
      price, for every number of levels. */
  lemma LadderIsOrdered(p: GridParams)
    requires p.boPrice > 0.0 && p.stepMin > 0.0 && p.stepScale > 0.0
    ensures LadderOrdered(p.side, p.boPrice, GridOf(p).levels)
  {
    hide FillPrice, Step1, BoMargin, SoMargin, StepPct, CumDev;
    BasePriceIsRungZero(p);
    var levels := GridOf(p).levels;
    forall i | 0 <= i < |levels|
      ensures if p.side.LONG? then levels[i].fillPrice < p.boPrice else p.boPrice < levels[i].fillPrice
    {
      FillPricesOrdered(p, 0, i + 1);
    }
    forall i, j | 0 <= i < j < |levels|
      ensures if p.side.LONG? then levels[j].fillPrice < levels[i].fillPrice
              else levels[i].fillPrice < levels[j].fillPrice
    {
      FillPricesOrdered(p, i + 1, j + 1);
    }
  }

  lemma BasePriceIsRungZero(p: GridParams)
    ensures FillPrice(p, 0) == p.boPrice
  {}

  /** The base order never takes more than half of the wallet, whatever the sizing mode and the
      compounding; so a later test for more than half cannot succeed. */
  lemma BaseOrderAtMostHalf(p: GridParams)
    ensures GridOf(p).boMargin <= p.wallet * 0.5
    ensures !(GridOf(p).boMargin > p.wallet * 0.5)
  {}

  /** What the base order asks for before compounding: the fixed size, or the share of the wallet without one. */
  function BaseAsked(p: GridParams): real {
    if p.sizing.FixedUsdSizing? && p.baseOrderUsd > 0.0 then p.baseOrderUsd else p.wallet * p.boPct
  }

  /** What compounding adds: the compounding share of the amount for every whole growth of the wallet over the initial
      capital. */
  function GrowthExtra(p: GridParams, base: real): real {
    if p.compounding && 0.0 < p.initialCapital < p.wallet
    then base * p.compoundingPct * (p.wallet - p.initialCapital) / p.initialCapital
    else 0.0
  }

  /** The base margin in amounts, never more than half of the wallet. */
  lemma BaseMarginIs(p: GridParams)
    ensures var asked := BaseAsked(p) + GrowthExtra(p, BaseAsked(p));
            GridOf(p).boMargin == if asked <= p.wallet / 2.0 then asked else p.wallet / 2.0
  {
    GrowsBy(p, BaseAsked(p));
    MarginOf(p, BaseAsked(p) + GrowthExtra(p, BaseAsked(p)));
    hide BoMargin, LevelAt, TpTarget, BaseAsked, GrowthExtra;
  }

  lemma GrowsBy(p: GridParams, base: real)
    ensures base * Compound(p) == base + GrowthExtra(p, base)
  {
    if p.compounding && 0.0 < p.initialCapital < p.wallet {
      CompoundIs(base, p.compoundingPct, p.wallet, p.initialCapital);
    }
  }

  lemma MarginOf(p: GridParams, sized: real)
    requires sized == BaseAsked(p) * Compound(p)
    ensures BoMargin(p) == if sized <= p.wallet / 2.0 then sized else p.wallet / 2.0
  {
    hide Compound;
    var times := Compound(p);
    if p.sizing.FixedUsdSizing? && p.baseOrderUsd > 0.0 {
      assert sized == p.baseOrderUsd * times;
      assert BoMargin(p) == Min(p.baseOrderUsd * times, p.wallet * 0.5);
    } else {
      assert sized == p.wallet * p.boPct * times;
      assert BoMargin(p) == Min(p.wallet * p.boPct * times, p.wallet * 0.5);
    }
    assert p.wallet * 0.5 == p.wallet / 2.0;
  }

  lemma CompoundIs(base: real, rate: real, wallet: real, capital: real)
    requires capital > 0.0
    ensures base * (1.0 + rate * (wallet / capital - 1.0)) == base + base * rate * (wallet - capital) / capital
  {
    var ratio := wallet / capital;
    DivMul(wallet, capital);
    assert (ratio - 1.0) * capital == wallet - capital;
    var part := base * rate;
    DivIs(part * (ratio - 1.0), part * (wallet - capital), capital) by {
      assert part * (ratio - 1.0) * capital == part * ((ratio - 1.0) * capital);
    }
    assert base * (1.0 + rate * (ratio - 1.0)) == base + part * (ratio - 1.0);
  }

  /** The rest of the grid: notional and coins of the base order, the target in dollars, and margin, value and number of
      the rungs. */
  lemma GridIs(p: GridParams)
    ensures var g := GridOf(p);
            && g.tpTarget == (if p.tpFixed && p.tpFixedAmount > 0.0 then p.tpFixedAmount else p.wallet * p.tpPct)
            && g.boNotional == g.boMargin * p.leverage as real
            && (p.boPrice > 0.0 ==> g.boQty * p.boPrice == g.boNotional) && (p.boPrice <= 0.0 ==> g.boQty == 0.0)
            && |g.levels| == (if p.maxSafetyOrders < 0 then 0 else p.maxSafetyOrders)
    ensures forall i :: 0 <= i < |GridOf(p).levels| ==>
              var so := GridOf(p).levels[i];
              && so.index == i + 1 && so.notional == so.margin * p.leverage as real
              && (so.fillPrice > 0.0 ==> so.qty * so.fillPrice == so.notional)
              && (so.fillPrice <= 0.0 ==> so.qty == 0.0)
  {
    hide BoMargin, SoMargin, FillPrice, CumDev, StepPct;
    if p.boPrice > 0.0 {
      DivMul(BoMargin(p) * p.leverage as real, p.boPrice);
    }
    forall i | 0 <= i < |GridOf(p).levels|
      ensures GridOf(p).levels[i].fillPrice > 0.0 ==>
                GridOf(p).levels[i].qty * GridOf(p).levels[i].fillPrice == GridOf(p).levels[i].notional
    {
      if FillPrice(p, i + 1) > 0.0 {
        DivMul(SoMargin(p, i + 1) * p.leverage as real, FillPrice(p, i + 1));
      }
    }
  }

  /** The margin of rung n is the base margin times the volume scale, n times over. */
  lemma RungMargins(p: GridParams, n: nat)
    requires 1 <= n <= |GridOf(p).levels|
    ensures GridOf(p).levels[n - 1].margin
            == p.volumeScale * (if n == 1 then GridOf(p).boMargin else GridOf(p).levels[n - 2].margin)
  {
    hide BoMargin, FillPrice, CumDev, StepPct;
    assert Pow(p.volumeScale, 0) == 1.0;
    var bo, v, before := BoMargin(p), p.volumeScale, Pow(p.volumeScale, n - 1);
    assert bo * (before * v) == v * (bo * before);
  }

  /** A position without coins has no take-profit price. */
  lemma NoCoinsNoTarget(side: Side, avgEntry: real, qty: real, tpTarget: real)
    requires qty <= 0.0
    ensures CalculateTpPrice(side, avgEntry, qty, tpTarget) == 0.0
  {}

  /** Closing at the take-profit price earns the target exactly, before fees. */
  lemma TpEarnsTarget(side: Side, avgEntry: real, qty: real, tpTarget: real)
    requires qty > 0.0
    ensures Unrealized(side, avgEntry, qty, CalculateTpPrice(side, avgEntry, qty, tpTarget)) == tpTarget
  {
    DivMul(tpTarget, qty);
    var gain := tpTarget / qty;
    assert avgEntry + gain - avgEntry == gain == avgEntry - (avgEntry - gain);
  }
}
