/** How safety orders move the average entry and the take-profit price of the LONG baskets the engine opens. */
module TargetFacts {
  import opened Options
  import opened RealArith
  import opened Rounding
  import opened Liquidation
  import opened RiskController
  import opened GridLevels
  import opened SimBasket
  import opened BasketFacts
  import opened Backtest
  import opened BacktestFacts

  // ---------- A safety order is at least as large as the base order ----------

  lemma {:induction false} PowAtLeastOne(base: real, n: nat)
    requires base >= 1.0
    ensures Pow(base, n) >= 1.0
  {
    if n > 0 {
      PowAtLeastOne(base, n - 1);
      MulMono(1.0, Pow(base, n - 1), base);
    }
  }

  /** More money at a lower price buys more coins. */
  lemma MoreCoins(money: real, more: real, price: real, lower: real)
    requires 0.0 <= money <= more && 0.0 < lower <= price
    ensures money / price <= more / lower
  {
    DivMul(money, price);
    DivMul(more, lower);
    var few, many := money / price, more / lower;
    ScaledCompare(few, 0.0, price);
    MulMono(lower, price, few);
    assert few * lower == lower * few && few * price == price * few;
    ScaledCompare(many, few, lower);
  }

  lemma LevelBuysMore(p: GridParams, n: nat)
    requires p.side.LONG? && p.leverage >= 1 && p.volumeScale >= 1.0 && BoMargin(p) >= 0.0 && p.boPrice > 0.0
    requires p.stepMin > 0.0 && p.stepScale > 0.0 && n >= 1 && FillPrice(p, n) > 0.0
    ensures LevelAt(p, n).qty >= GridOf(p).boQty
  {
    hide BoMargin, Step1, FillPrice, TpTarget, StepPct, CumDev, Pow;
    var bo, power := BoMargin(p), Pow(p.volumeScale, n);
    PowAtLeastOne(p.volumeScale, n);
    MulMono(1.0, power, bo);
    assert bo * power == power * bo && 1.0 * bo == bo;
    assert SoMargin(p, n) >= bo;
    MulMono(bo, SoMargin(p, n), p.leverage as real);
    MulNonNeg(bo, p.leverage as real);
    FillPricesOrdered(p, 0, n);
    BasePriceIsRungZero(p);
    MoreCoins(bo * p.leverage as real, SoMargin(p, n) * p.leverage as real, p.boPrice, FillPrice(p, n));
  }

  // ---------- Where the rungs of an opened basket come from ----------

  /** Rung n of the generated ladder, rounded. */
  function Rung(cfg: EngineConfig, p: GridParams, n: nat): Level
    requires n >= 1
  {
    RoundedLevel(cfg, LevelAt(p, n))
  }

  predicate KeptRung(cfg: EngineConfig, p: GridParams, n: nat)
    requires n >= 1
  {
    Tradable(cfg, Rung(cfg, p, n).qty, Rung(cfg, p, n).fillPrice)
  }

  lemma {:induction false} KeptIsRung(cfg: EngineConfig, p: GridParams, n: nat, i: nat) returns (m: nat)
    requires n <= |GridOf(p).levels| && i < |KeptLevels(cfg, GridOf(p).levels, n)|
    ensures 1 <= m <= n && KeptLevels(cfg, GridOf(p).levels, n)[i] == Rung(cfg, p, m) && KeptRung(cfg, p, m)
  {
    hide LevelAt, RoundedLevel, Tradable, BoMargin, TpTarget;
    if i < |KeptLevels(cfg, GridOf(p).levels, n - 1)| {
      m := KeptIsRung(cfg, p, n - 1, i);
    } else {
      m := n;
    }
  }

  // ---------- The first fill, exactly ----------

  /** Two multiples of a step that differ are a whole step apart. */
  lemma MultiplesApart(j: int, k: int, step: real)
    requires step > 0.0 && Multiple(j, step) < Multiple(k, step)
    ensures Multiple(j, step) + step <= Multiple(k, step)
  {
    var x, y := j as real, k as real;
    ScaledCompare(x, y, step);
    assert j < k;
    MulMono((j + 1) as real, y, step);
    NextMultiple(j, step);
  }

  lemma RoundedApart(a: real, b: real, step: real)
    requires step > 0.0 && RoundDown(a, step) < RoundDown(b, step)
    ensures RoundDown(a, step) + step <= RoundDown(b, step)
  {
    hide Multiple;
    MultiplesApart(Trunc(a / step), Trunc(b / step), step);
  }

  /** What the engine's own rounding makes of the general condition: `tick` is one price tick, the stored target
      lies less than a tick under the exact one, and the safety order buys at least as many coins as are held. */
  lemma FillPullsWhenBelow(b: Basket, so: Level, exact: real, tick: real)
    requires b.side.LONG? && 0.0 < b.qty <= so.qty && exact == CalculateTpPrice(b.side, b.avgEntry, b.qty, b.tpTarget)
    requires b.tpPrice <= exact < b.tpPrice + tick
    requires so.fillPrice < b.tpPrice ==> so.fillPrice + tick <= b.tpPrice
    ensures Fill(b, so).tpPrice < b.tpPrice <==> so.fillPrice < b.tpPrice
  {
    hide Fill, CalculateTpPrice, Notional;
    FillPullsTarget(b, so, exact);
    var lost, behind := exact - b.tpPrice, b.tpPrice - so.fillPrice;
    if so.fillPrice < b.tpPrice {
      NotionalOrder(tick, lost, b.qty);
      MoreQty(tick, b.qty, so.qty);
      NotionalOrder(behind, tick, so.qty);
    } else {
      NothingPositive(lost, b.qty, behind, so.qty);
    }
  }

  lemma MoreQty(price: real, qty: real, more: real)
    requires price >= 0.0 && qty <= more
    ensures Notional(price, qty) <= Notional(price, more)
  {
    MulMono(qty, more, price);
  }

  lemma NothingPositive(lost: real, qty: real, behind: real, more: real)
    requires lost >= 0.0 && qty > 0.0 && behind <= 0.0 && more > 0.0
    ensures Notional(behind, more) <= 0.0 <= Notional(lost, qty)
  {
    MulNonNeg(lost, qty);
    MulSign(behind, more);
  }

  /** Besides `Tuned`, the target is a positive share of the wallet. */
  predicate Aiming(cfg: EngineConfig) {
    Tuned(cfg) && cfg.takeProfitPct > 0.0
  }

  /** What the endpoint that starts a backtest makes sure of: safety orders never shrink either. */
  predicate Growing(cfg: EngineConfig) {
    Aiming(cfg) && cfg.volumeScale >= 1.0
  }

  /** The facts about an opened LONG basket and one of its rungs that the exact condition rests on. */
  lemma OpenedRung(cfg: EngineConfig, price: real, atr: real, wallet: real, time: int, i: nat) returns (m: nat)
    requires Growing(cfg) && TryOpen(cfg, LONG, price, atr, wallet, time).Some?
    requires i < |TryOpen(cfg, LONG, price, atr, wallet, time).value.levels|
    ensures var p := ParamsOf(cfg, LONG, price, atr, wallet);
            var b := TryOpen(cfg, LONG, price, atr, wallet, time).value;
            && m >= 1 && b.levels[i] == Rung(cfg, p, m)
            && b.levels[i].qty >= b.qty > 0.0
            && FillPrice(p, m) > 0.0 && price > 0.0 && b.tpTarget > 0.0
  {
    hide Notional, RoundDown, Step1, CalculateTpPrice, Fee, FillPrice, KeptLevels, BoMargin;
    var p := ParamsOf(cfg, LONG, price, atr, wallet);
    EntryLeavesHalf(cfg, LONG, price, atr, wallet, time);
    m := KeptIsRung(cfg, p, |GridOf(p).levels|, i);
    KeptLevelFacts(cfg, p, m);
    RoundDownPositive(GridOf(p).boQty, QtyStep(cfg.symbol));
    LevelBuysMore(p, m);
    RoundDownMono(GridOf(p).boQty, LevelAt(p, m).qty, QtyStep(cfg.symbol));
    MulPos(wallet, cfg.takeProfitPct / 100.0);
  }

  /** For every LONG basket the engine opens and every rung of its ladder: filling that rung first strictly lowers
      the take-profit price if and only if the rung's stored price lies below the stored take-profit price, that
      is, if rounding to the tick has not put the two into one cell. */
  lemma FirstFillPullsExactly(cfg: EngineConfig, price: real, atr: real, wallet: real, time: int, i: nat)
    requires Growing(cfg)
    ensures var attempt := TryOpen(cfg, LONG, price, atr, wallet, time);
            attempt.Some? && i < |attempt.value.levels| ==>
              (Fill(attempt.value, attempt.value.levels[i]).tpPrice < attempt.value.tpPrice <==>
               attempt.value.levels[i].fillPrice < attempt.value.tpPrice)
  {
    hide Notional, RoundDown, GridOf, KeptLevels, CalculateTpPrice, Fee, Fill, FillPrice, LevelAt;
    var attempt := TryOpen(cfg, LONG, price, atr, wallet, time);
    if attempt.Some? && i < |attempt.value.levels| {
      var p, b, tick := ParamsOf(cfg, LONG, price, atr, wallet), attempt.value, TickSize(cfg.symbol);
      var m := OpenedRung(cfg, price, atr, wallet, time, i);
      LevelMargin(p, m);
      var exact := OpenedTarget(cfg, b, price, atr, wallet, time);
      RoundDownLoses(exact, tick);
      if b.levels[i].fillPrice < b.tpPrice {
        RoundedApart(FillPrice(p, m), exact, tick);
      }
      FillPullsWhenBelow(b, b.levels[i], exact, tick);
    }
  }

  /** The exact opening target of a LONG lies above its entry, and is what the stored one was rounded from. */
  lemma OpenedTarget(cfg: EngineConfig, b: Basket, price: real, atr: real, wallet: real, time: int)
    returns (exact: real)
    requires Aiming(cfg) && TryOpen(cfg, LONG, price, atr, wallet, time) == Some(b)
    ensures exact == CalculateTpPrice(b.side, b.avgEntry, b.qty, b.tpTarget) && b.side.LONG? && b.avgEntry == price
    ensures exact > price > 0.0 && b.tpPrice == RoundDown(exact, TickSize(cfg.symbol))
  {
    hide TryOpen, RoundDown, CalculateTpPrice, LadderBehindEntry;
    EntryLeavesHalf(cfg, LONG, price, atr, wallet, time);
    OpensSoundly(cfg, LONG, price, atr, wallet, time);
    OpensOnSide(cfg, LONG, price, atr, wallet, time);
    OpenedPricePositive(cfg, price, atr, wallet, time);
    Opens(cfg, LONG, price, atr, wallet, time, b);
    OpeningTarget(cfg, b);
    OpenedTargetPositive(cfg, price, atr, wallet, time);
    TargetAboveEntry(b.avgEntry, b.qty, b.tpTarget);
    exact := CalculateTpPrice(b.side, b.avgEntry, b.qty, b.tpTarget);
  }

  lemma OpenedPricePositive(cfg: EngineConfig, price: real, atr: real, wallet: real, time: int)
    requires Aiming(cfg) && TryOpen(cfg, LONG, price, atr, wallet, time).Some?
    ensures price > 0.0
  {
    hide Notional, RoundDown, Step1, CalculateTpPrice, Fee, KeptLevels, BoMargin;
    RoundDownPositive(GridOf(ParamsOf(cfg, LONG, price, atr, wallet)).boQty, QtyStep(cfg.symbol));
  }

  lemma TargetAboveEntry(avg: real, qty: real, target: real)
    requires qty > 0.0 && target > 0.0
    ensures CalculateTpPrice(LONG, avg, qty, target) > avg
  {
    DivPos(target, qty);
  }

  /** No rung shares the target's cell when the smallest step is at least one tick wide at the entry price: then
      every first fill strictly lowers the target. */
  lemma WideStepsPull(cfg: EngineConfig, price: real, atr: real, wallet: real, time: int, i: nat)
    requires Growing(cfg) && TickSize(cfg.symbol) <= cfg.stepMin * price
    ensures var attempt := TryOpen(cfg, LONG, price, atr, wallet, time);
            attempt.Some? && i < |attempt.value.levels| ==>
              && attempt.value.levels[i].fillPrice < attempt.value.tpPrice
              && Fill(attempt.value, attempt.value.levels[i]).tpPrice < attempt.value.tpPrice
  {
    hide Notional, RoundDown, GridOf, KeptLevels, CalculateTpPrice, Fee, Fill, FillPrice, LevelAt;
    var attempt := TryOpen(cfg, LONG, price, atr, wallet, time);
    if attempt.Some? && i < |attempt.value.levels| {
      var p, tick := ParamsOf(cfg, LONG, price, atr, wallet), TickSize(cfg.symbol);
      var m := OpenedRung(cfg, price, atr, wallet, time, i);
      LevelMargin(p, m);
      var exact := OpenedTarget(cfg, attempt.value, price, atr, wallet, time);
      RungBelow(p, m);
      ShiftByStep(FillPrice(p, m), exact, tick);
      FirstFillPullsExactly(cfg, price, atr, wallet, time, i);
    }
  }

  /** Every rung lies at least the smallest step below the entry. */
  lemma RungBelow(p: GridParams, n: nat)
    requires p.side.LONG? && p.boPrice > 0.0 && p.stepMin > 0.0 && p.stepScale > 0.0 && n >= 1
    ensures FillPrice(p, n) <= p.boPrice - p.stepMin * p.boPrice
  {
    hide Step1;
    assert Step1(p) >= p.stepMin by { StepAtLeastMin(p); }
    assert CumDev(p, 1) == Step1(p) by {
      assert CumDev(p, 0) == 0.0 && Pow(p.stepScale, 0) == 1.0;
    }
    if n > 1 {
      CumDevIncreases(p, 1, n);
    }
    MulMono(p.stepMin, CumDev(p, n), p.boPrice);
    assert p.boPrice * (1.0 - CumDev(p, n)) == p.boPrice - CumDev(p, n) * p.boPrice;
  }

  lemma StepAtLeastMin(p: GridParams)
    ensures Step1(p) >= p.stepMin
  {}

  /** A price at least a tick lower rounds to a lower price, when it is not negative. */
  lemma ShiftByStep(low: real, high: real, step: real)
    requires step > 0.0 && 0.0 <= low && low + step <= high
    ensures RoundDown(low, step) < RoundDown(high, step)
  {
    RoundDownLoses(low, step);
    RoundDownLoses(high, step);
  }

  // ---------- Over any sequence of candles ----------

  /** Between two moments of a basket's life the average did not rise, and the target fell strictly if anything
      was filled and stayed if nothing was. */
  ghost predicate AverageFalls(before: Basket, after: Basket) {
    after.avgEntry <= before.avgEntry
  }

  ghost predicate TargetFalls(before: Basket, after: Basket) {
    && |before.filled| <= |after.filled|
    && (if |after.filled| == |before.filled| then after.tpPrice == before.tpPrice else after.tpPrice < before.tpPrice)
  }

  /** How many rungs a candle that just touches the nearest one fills: those stored at its price. */
  function NearestRungs(b0: Basket): nat {
    if b0.levels == [] then 0
    else Depth(LONG, b0.levels, b0.levels[0].fillPrice, b0.levels[0].fillPrice, |b0.levels|)
  }

  /** The coins of those rungs, at the distance their price lies below the stored target, outweigh what rounding to the
      tick took from the target on the coins of the base order. */
  predicate NearestPulls(b0: Basket) {
    b0.levels == []
    || Notional(CalculateTpPrice(LONG, b0.avgEntry, b0.qty, b0.tpTarget) - b0.tpPrice, b0.qty)
       < Notional(b0.tpPrice - b0.levels[0].fillPrice, SumQty(b0.levels[..NearestRungs(b0)]))
  }

  /** The rung nearest to the entry, if any, is stored below the take-profit price. */
  predicate NearestBelowTarget(b0: Basket) {
    b0.levels == [] || b0.levels[0].fillPrice < b0.tpPrice
  }

  /** An opened LONG basket on an ordered ladder below its entry. */
  ghost predicate LongOpened(b0: Basket) {
    b0.side.LONG? && Opened(b0) && LadderBehindEntry(b0) && b0.tpTarget > 0.0
  }

  lemma FillLowersAverage(b0: Basket, b: Basket, k: nat)
    requires LongOpened(b0) && Grown(b0, b, k) && k < |b0.levels|
    ensures AverageFalls(b, Fill(b, b0.levels[k]))
  {
    hide Fill, Notional, Fee, CalculateTpPrice;
    GrownQtyPositive(b0, b, k);
    AverageAheadOfLadder(b0, b, k, k);
    FillMovesAverage(b, b0.levels[k]);
  }

  lemma FillLowersTarget(b0: Basket, b: Basket, k: nat)
    requires LongOpened(b0) && Grown(b0, b, k) && 0 < k < |b0.levels|
    ensures Fill(b, b0.levels[k]).tpPrice < b.tpPrice
  {
    hide Notional, Fee, CalculateTpPrice;
    GrownQtyPositive(b0, b, k);
    AverageAheadOfLadder(b0, b, k, k);
    LaterFillsPullTarget(b, b0.levels[k]);
  }

  /** On a sorted ladder the nearest rungs are those at the nearest price. */
  lemma NearestRungsMeans(b0: Basket)
    requires LongOpened(b0) && b0.levels != []
    ensures 0 < NearestRungs(b0) <= |b0.levels|
    ensures forall i :: 0 <= i < NearestRungs(b0) ==> b0.levels[i].fillPrice == b0.levels[0].fillPrice
  {
    hide LadderBehindEntry, Notional, Fee;
    var price := b0.levels[0].fillPrice;
    DepthMeans(LONG, b0.levels, price, price, |b0.levels|);
    forall i | 0 <= i < NearestRungs(b0)
      ensures b0.levels[i].fillPrice == price
    {
      assert Touches(LONG, b0.levels[i].fillPrice, price, price);
    }
  }

  lemma {:induction false} SumCostAtPrice(sos: seq<Level>, price: real)
    requires forall i :: 0 <= i < |sos| ==> sos[i].fillPrice == price
    ensures SumCost(sos) == Notional(price, SumQty(sos))
  {
    if sos == [] {
      assert Notional(price, 0.0) == 0.0;
    } else {
      var n := |sos| - 1;
      SumCostAtPrice(sos[..n], price);
      NotionalAdds(price, SumQty(sos[..n]), sos[n].qty);
      hide Notional;
    }
  }

  /** With exactly the nearest rungs filled, the target has fallen if and only if they pull. */
  lemma NearestPullExactly(b0: Basket, b: Basket)
    requires LongOpened(b0) && b0.levels != [] && Grown(b0, b, NearestRungs(b0))
    ensures b.tpPrice < b0.tpPrice <==> NearestPulls(b0)
  {
    hide Notional, Fee, CalculateTpPrice, Opened, LadderBehindEntry;
    NearestRungsMeans(b0);
    LongIsOpened(b0);
    GrownQtyPositive(b0, b, NearestRungs(b0));
    var price, near := b0.levels[0].fillPrice, b0.levels[..NearestRungs(b0)];
    SumCostAtPrice(near, price);
    var exact := CalculateTpPrice(LONG, b0.avgEntry, b0.qty, b0.tpTarget);
    LongQtyPositive(b0);
    TpTimesQty(LONG, b0.avgEntry, b0.qty, b0.tpTarget);
    TpTimesQty(LONG, b.avgEntry, b.qty, b.tpTarget);
    NotionalAdds(b0.tpPrice, b0.qty, SumQty(near));
    NotionalOrder(b0.tpPrice, b.tpPrice, b.qty);
    NotionalSubtracts(exact, b0.tpPrice, b0.qty);
    NotionalSubtracts(b0.tpPrice, price, SumQty(near));
  }

  lemma LongQtyPositive(b0: Basket)
    requires LongOpened(b0)
    ensures b0.qty > 0.0 && b0.side.LONG?
  {}

  lemma {:induction false} FillAllLowers(b0: Basket, b: Basket, k: nat, m: nat)
    requires LongOpened(b0) && Grown(b0, b, k) && !b.closed && k <= m <= |b0.levels|
    ensures var after := FillAll(b, b0.levels[k..m]);
            && AverageFalls(b, after)
            && (k == m ==> after == b)
            && (k < m && (k > 0 || (NearestRungs(b0) <= m && NearestPulls(b0))) ==> after.tpPrice < b.tpPrice)
    decreases m
  {
    hide Notional, Fee, CalculateTpPrice, Fill, LongOpened, Grown, NearestRungs, NearestPulls;
    if m == k {
      assert b0.levels[k..m] == [];
    } else {
      FillAllLowers(b0, b, k, m - 1);
      LongIsOpened(b0);
      FillAllKeepsBooks(b0, b, k, m - 1);
      FillAllKeepsBooks(b0, b, k, m);
      assert b0.levels[k..m][..m - k - 1] == b0.levels[k..m - 1];
      var before := FillAll(b, b0.levels[k..m - 1]);
      FillLowersAverage(b0, before, m - 1);
      if k == 0 && NearestRungs(b0) == m {
        NearestPullExactly(b0, FillAll(b, b0.levels[k..m]));
        GrownFromOpening(b0, b);
      } else if m - 1 > 0 {
        FillLowersTarget(b0, before, m - 1);
        NearestIsSome(b0);
      } else {
        NearestIsSome(b0);
      }
    }
  }

  lemma GrownFromOpening(b0: Basket, b: Basket)
    requires Grown(b0, b, 0)
    ensures b.tpPrice == b0.tpPrice
  {}

  lemma NearestIsSome(b0: Basket)
    requires LongOpened(b0) && b0.levels != []
    ensures NearestRungs(b0) > 0
  {
    NearestRungsMeans(b0);
  }

  lemma GrownCounts(b0: Basket, b: Basket, k: nat)
    requires Grown(b0, b, k)
    ensures |b.filled| == k <= |b0.levels|
  {}

  lemma LongIsOpened(b0: Basket)
    requires LongOpened(b0)
    ensures Opened(b0)
  {}

  /** Closing and risk checks move neither the average nor the target nor the filled levels. */
  lemma RiskKeepsTarget(b: Basket, bar: BasketBar)
    ensures var after := RiskChecked(b, bar);
            after.avgEntry == b.avgEntry && after.tpPrice == b.tpPrice && after.filled == b.filled
  {
    hide Notional, Fee, Unrealized, Evaluate;
  }

  lemma AgedKeepsTarget(b: Basket, bar: BasketBar, funding: seq<FundingEvent>)
    ensures var after := Aged(b, bar, funding);
            after.avgEntry == b.avgEntry && after.tpPrice == b.tpPrice && after.filled == b.filled &&
                    after.closed == b.closed
  {
    hide Funded;
    FundingOnlyMovesCounters(b.(barsSinceFill := b.barsSinceFill + 1), bar, funding, |funding|);
  }

  lemma BarLowers(b0: Basket, b: Basket, k: nat, bar: BasketBar, funding: seq<FundingEvent>)
    requires LongOpened(b0) && Grown(b0, b, k)
    ensures AverageFalls(b, AfterBar(b, bar, funding))
    ensures NearestPulls(b0) ==> TargetFalls(b, AfterBar(b, bar, funding))
  {
    hide Notional, Fee, CalculateTpPrice, Unrealized, TpPenetrated, Funded, RiskChecked, NewlyFilled, FillAll, Fill,
         LongOpened, Grown, Aged, NearestRungs, NearestPulls, Depth;
    LongIsOpened(b0);
    var m := FilledAfter(b, k, bar, funding);
    BarKeepsBooks(b0, b, k, bar, funding);
    var aged, after := Aged(b, bar, funding), AfterBar(b, bar, funding);
    AgedKeepsBooks(b0, b, k, bar, funding);
    AgedKeepsTarget(b, bar, funding);
    GrownCounts(b0, b, k);
    GrownCounts(b0, after, m);
    if !b.closed && !TakesProfit(aged, bar) {
      GrownSide(b0, b, k);
      if m > k {
        ReachesNearest(b0, bar);
      }
      FillAllLowers(b0, aged, k, m);
      var filled := FillAll(aged, b0.levels[k..m]);
      RiskKeepsTarget(if b0.levels[k..m] != [] then filled.(barsSinceFill := 0) else filled, bar);
    }
  }

  lemma GrownSide(b0: Basket, b: Basket, k: nat)
    requires LongOpened(b0) && Grown(b0, b, k)
    ensures b.side.LONG? && b.levels == b0.levels
  {}

  /** A candle that fills anything reaches all the nearest rungs. */
  lemma ReachesNearest(b0: Basket, bar: BasketBar)
    requires LongOpened(b0) && Depth(LONG, b0.levels, bar.high, bar.low, |b0.levels|) > 0
    ensures NearestRungs(b0) <= Depth(LONG, b0.levels, bar.high, bar.low, |b0.levels|)
  {
    hide LadderBehindEntry, Notional, Fee, Depth;
    var depth, near := Depth(LONG, b0.levels, bar.high, bar.low, |b0.levels|), NearestRungs(b0);
    DepthMeans(LONG, b0.levels, bar.high, bar.low, |b0.levels|);
    NearestRungsMeans(b0);
    assert Touches(LONG, b0.levels[0].fillPrice, bar.high, bar.low);
    assert Touches(LONG, b0.levels[near - 1].fillPrice, bar.high, bar.low);
  }

  lemma {:induction false} RunIsGrown(b0: Basket, bars: seq<BasketBar>, funding: seq<FundingEvent>) returns (k: nat)
    requires Opened(b0)
    ensures Grown(b0, RunBars(b0, bars, funding), k)
  {
    hide Grown, Opened;
    k := ExtremeDepth(b0.side, b0.levels, Reaching(b0, bars, funding));
    FillsFollowTheExtreme(b0, bars, funding);
  }

  lemma {:induction false} RunLowers(b0: Basket, bars: seq<BasketBar>, more: seq<BasketBar>, funding: seq<FundingEvent>)
    requires LongOpened(b0)
    ensures var before, after := RunBars(b0, bars, funding), RunBars(b0, bars + more, funding);
            && AverageFalls(before, after)
            && (NearestPulls(b0) ==> TargetFalls(before, after))
  {
    hide AfterBar, LongOpened, Grown, Opened, NearestPulls;
    if more == [] {
      assert bars + more == bars;
    } else {
      var n := |more| - 1;
      assert (bars + more)[..|bars + more| - 1] == bars + more[..n];
      RunLowers(b0, bars, more[..n], funding);
      LongIsOpened(b0);
      var k := RunIsGrown(b0, bars + more[..n], funding);
      BarLowers(b0, RunBars(b0, bars + more[..n], funding), k, more[n], funding);
    }
  }

  // ---------- The theorems for engine baskets ----------

  lemma EngineLongOpened(cfg: EngineConfig, b0: Basket)
    requires Aiming(cfg) && EngineOpens(cfg, b0) && b0.side.LONG?
    ensures LongOpened(b0)
  {
    hide TryOpen, Opened, LadderBehindEntry;
    EngineOpensSoundly(cfg, b0);
    var side, price, atr, wallet, time :| TryOpen(cfg, side, price, atr, wallet, time) == Some(b0);
    OpensOnSide(cfg, side, price, atr, wallet, time);
    assert b0.tpTarget > 0.0 by { OpenedTargetPositive(cfg, price, atr, wallet, time); }
  }

  lemma OpenedTargetPositive(cfg: EngineConfig, price: real, atr: real, wallet: real, time: int)
    requires Aiming(cfg) && TryOpen(cfg, LONG, price, atr, wallet, time).Some?
    ensures TryOpen(cfg, LONG, price, atr, wallet, time).value.tpTarget > 0.0
  {
    hide Notional, RoundDown, Step1, CalculateTpPrice, Fee, KeptLevels, BoMargin;
    EntryLeavesHalf(cfg, LONG, price, atr, wallet, time);
    MulPos(wallet, cfg.takeProfitPct / 100.0);
  }

  ghost predicate AverageAlwaysFalls(b0: Basket) {
    forall bars, more, funding :: AverageFalls(RunBars(b0, bars, funding), RunBars(b0, bars + more, funding))
  }

  ghost predicate TargetAlwaysFalls(b0: Basket) {
    forall bars, more, funding :: TargetFalls(RunBars(b0, bars, funding), RunBars(b0, bars + more, funding))
  }

  /** For every LONG basket the engine opens: over any candles the average entry never rises. */
  lemma AverageNeverRises(cfg: EngineConfig, b0: Basket)
    requires Aiming(cfg)
    ensures EngineOpens(cfg, b0) && b0.side.LONG? ==> AverageAlwaysFalls(b0)
  {
    hide RunBars, AverageFalls, TargetFalls, LongOpened, EngineOpens, Aiming, NearestPulls;
    if EngineOpens(cfg, b0) && b0.side.LONG? {
      EngineLongOpened(cfg, b0);
      forall bars, more, funding
        ensures AverageFalls(RunBars(b0, bars, funding), RunBars(b0, bars + more, funding))
      {
        RunLowers(b0, bars, more, funding);
      }
    }
  }

  /** For every LONG basket the engine opens, at any volume scale: over any candles every fill strictly lowers the
      take-profit price, and nothing else moves it, if and only if the nearest rungs outweigh the rounding. */
  lemma TargetFallsExactly(cfg: EngineConfig, b0: Basket)
    requires Aiming(cfg)
    ensures EngineOpens(cfg, b0) && b0.side.LONG? ==> (TargetAlwaysFalls(b0) <==> NearestPulls(b0))
  {
    hide TargetAlwaysFalls, NearestPulls, EngineOpens, Aiming;
    if EngineOpens(cfg, b0) && b0.side.LONG? {
      if NearestPulls(b0) {
        FallsWhenPulled(cfg, b0);
      } else {
        HoldsAtTarget(cfg, b0);
      }
    }
  }

  lemma FallsWhenPulled(cfg: EngineConfig, b0: Basket)
    requires Aiming(cfg) && EngineOpens(cfg, b0) && b0.side.LONG? && NearestPulls(b0)
    ensures TargetAlwaysFalls(b0)
  {
    hide RunBars, TargetFalls, AverageFalls, LongOpened, EngineOpens, Aiming, NearestPulls;
    EngineLongOpened(cfg, b0);
    forall bars, more, funding
      ensures TargetFalls(RunBars(b0, bars, funding), RunBars(b0, bars + more, funding))
    {
      RunLowers(b0, bars, more, funding);
    }
  }

  lemma HoldsAtTarget(cfg: EngineConfig, b0: Basket)
    requires Aiming(cfg) && EngineOpens(cfg, b0) && b0.side.LONG? && !NearestPulls(b0)
    ensures !TargetAlwaysFalls(b0)
  {
    assert b0.levels != [];
    hide RunBars, TargetFalls, LongOpened, EngineOpens, Aiming, NearestPulls;
    EngineLongOpened(cfg, b0);
    NearestNotAbove(cfg, b0);
    var price := b0.levels[0].fillPrice;
    var bar := BasketBar(price, price, 0, 0.0);
    NearestTouchHolds(b0, bar);
    assert [] + [bar] == [bar];
    assert !TargetFalls(RunBars(b0, [], []), RunBars(b0, [] + [bar], []));
  }

  lemma NearestNotAbove(cfg: EngineConfig, b0: Basket)
    requires Aiming(cfg) && EngineOpens(cfg, b0) && b0.side.LONG? && b0.levels != []
    ensures b0.levels[0].fillPrice <= b0.tpPrice
  {
    hide TryOpen, Aiming, RoundDown, GridOf, KeptRung, Rung, KeptLevels;
    var side, price, atr, wallet, time :| TryOpen(cfg, side, price, atr, wallet, time) == Some(b0);
    OpensOnSide(cfg, side, price, atr, wallet, time);
    AimingIsTuned(cfg);
    var exact := OpenedTarget(cfg, b0, price, atr, wallet, time);
    var p := ParamsOf(cfg, LONG, price, atr, wallet);
    OpenedLevels(cfg, price, atr, wallet, time);
    var m := KeptIsRung(cfg, p, |GridOf(p).levels|, 0);
    RungNotAbove(cfg, p, m, exact);
  }

  lemma OpenedLevels(cfg: EngineConfig, price: real, atr: real, wallet: real, time: int)
    requires TryOpen(cfg, LONG, price, atr, wallet, time).Some?
    ensures var g := GridOf(ParamsOf(cfg, LONG, price, atr, wallet));
            TryOpen(cfg, LONG, price, atr, wallet, time).value.levels == KeptLevels(cfg, g.levels, |g.levels|)
  {
    hide Notional, RoundDown, GridOf, CalculateTpPrice, Fee, KeptLevels;
  }

  /** A candle that just touches the nearest rung fills the nearest rungs and no take-profit. */
  lemma NearestTouchHolds(b0: Basket, bar: BasketBar)
    requires LongOpened(b0) && b0.levels != [] && !NearestPulls(b0)
    requires bar.high == bar.low == b0.levels[0].fillPrice <= b0.tpPrice
    ensures !TargetFalls(RunBars(b0, [], []), RunBars(b0, [bar], []))
  {
    hide Notional, Fee, CalculateTpPrice, AfterBar, Funded, SumQty, SumCost, NearestPulls, Grown;
    assert RunBars(b0, [], []) == b0;
    assert [bar][..0] == [];
    var after := AfterBar(b0, bar, []);
    assert RunBars(b0, [bar], []) == after;
    OpenedIsGrown(b0);
    BarKeepsBooks(b0, b0, 0, bar, []);
    AgedKeepsTarget(b0, bar, []);
    SameLevels(b0, bar, []);
    assert !TakesProfit(Aged(b0, bar, []), bar);
    NearestRungsMeans(b0);
    assert FilledAfter(b0, 0, bar, []) == NearestRungs(b0);
    GrownCounts(b0, after, NearestRungs(b0));
    NearestPullExactly(b0, after);
  }

  /** In every run, between any two moments at which the same LONG basket is open: its average never rose, and its
      target fell strictly if anything was filled in between and the nearest rungs pull. */
  lemma RunTargetsFall(cfg: EngineConfig, candles: seq<Candle>, funding: seq<FundingEvent>, from: nat, b0: Basket,
                       m: nat)
    requires Aiming(cfg) && from < m <= |candles|
    ensures HeldSince(cfg, candles, funding, from, b0) && b0.side.LONG? ==>
              var before, after := RunCandles(cfg, candles[..m], funding).active,
                                   RunCandles(cfg, candles, funding).active;
              && before.Some? && after.Some?
              && AverageFalls(before.value, after.value)
              && (NearestPulls(b0) ==> TargetFalls(before.value, after.value))
  {
    hide RunCandles, RunBars, BarsAfter, OpenedAt, LongOpened, EngineOpens, AverageFalls, TargetFalls, NearestPulls,
         Aiming;
    if HeldSince(cfg, candles, funding, from, b0) && b0.side.LONG? {
      HeldNow(cfg, candles, funding, from, b0);
      EngineLongOpened(cfg, b0);
      BarsAfterExtend(cfg, candles, funding, from, m);
      var early, all := BarsAfter(cfg, candles[..m], funding, from), BarsAfter(cfg, candles, funding, from);
      assert all == early + all[|early|..];
      RunLowers(b0, early, all[|early|..], funding);
    }
  }

  // ---------- Safety orders that do not shrink ----------

  /** With safety orders that never shrink, the nearest rungs pull if and only if their price was stored below the
      opening take-profit price: one tick between the two is enough. */
  lemma GrowingPullsExactly(cfg: EngineConfig, b0: Basket)
    requires Growing(cfg)
    ensures EngineOpens(cfg, b0) && b0.side.LONG? ==> (NearestPulls(b0) <==> NearestBelowTarget(b0))
  {
    hide TryOpen, Growing, Fill, NearestRungs, LongOpened, CalculateTpPrice, RoundDown, Notional, SumQty;
    if EngineOpens(cfg, b0) && b0.side.LONG? && b0.levels != [] {
      var side, price, atr, wallet, time :| TryOpen(cfg, side, price, atr, wallet, time) == Some(b0);
      OpensOnSide(cfg, side, price, atr, wallet, time);
      GrowingIsAiming(cfg);
      EngineLongOpened(cfg, b0);
      var exact := OpenedTarget(cfg, b0, price, atr, wallet, time);
      RoundDownLoses(exact, TickSize(cfg.symbol));
      var m := OpenedRung(cfg, price, atr, wallet, time, 0);
      NearestRungsMeans(b0);
      LongQties(b0);
      var near := SumQty(b0.levels[..NearestRungs(b0)]);
      FirstQtyAtMost(b0.levels[..NearestRungs(b0)]);
      var lost, behind := exact - b0.tpPrice, b0.tpPrice - b0.levels[0].fillPrice;
      if behind > 0.0 {
        FirstFillPullsExactly(cfg, price, atr, wallet, time, 0);
        FillPullsTarget(b0, b0.levels[0], exact);
        MoreQty(behind, b0.levels[0].qty, near);
      } else {
        NothingPositive(lost, b0.qty, behind, near);
      }
    }
  }

  lemma LongQties(b0: Basket)
    requires LongOpened(b0)
    ensures b0.qty > 0.0 && forall i :: 0 <= i < |b0.levels| ==> b0.levels[i].qty > 0.0
  {}

  lemma {:induction false} FirstQtyAtMost(sos: seq<Level>)
    requires sos != [] && forall i :: 0 <= i < |sos| ==> sos[i].qty > 0.0
    ensures SumQty(sos) >= sos[0].qty
  {
    if |sos| == 1 {
      assert sos[..0] == [] && SumQty([]) == 0.0;
    } else {
      FirstQtyAtMost(sos[..|sos| - 1]);
    }
  }

  /** So for safety orders that never shrink the target always falls if and only if the nearest rung was stored below
      the opening take-profit price. */
  lemma NearestRungDecides(cfg: EngineConfig, b0: Basket)
    requires Growing(cfg)
    ensures EngineOpens(cfg, b0) && b0.side.LONG? ==> (TargetAlwaysFalls(b0) <==> NearestBelowTarget(b0))
  {
    hide TargetAlwaysFalls, NearestPulls, NearestBelowTarget, EngineOpens, Growing;
    GrowingIsAiming(cfg);
    TargetFallsExactly(cfg, b0);
    GrowingPullsExactly(cfg, b0);
  }

  lemma AimingIsTuned(cfg: EngineConfig)
    requires Aiming(cfg)
    ensures Tuned(cfg)
  {}

  lemma GrowingIsAiming(cfg: EngineConfig)
    requires Growing(cfg)
    ensures Aiming(cfg)
  {}

  lemma RungNotAbove(cfg: EngineConfig, p: GridParams, m: nat, exact: real)
    requires p.side.LONG? && p.boPrice > 0.0 && p.stepMin > 0.0 && p.stepScale > 0.0 && m >= 1 && exact > p.boPrice
    ensures Rung(cfg, p, m).fillPrice <= RoundDown(exact, TickSize(cfg.symbol))
  {
    hide RoundDown, FillPrice, LevelAt;
    LevelMargin(p, m);
    FillPricesOrdered(p, 0, m);
    BasePriceIsRungZero(p);
    RoundDownMono(FillPrice(p, m), exact, TickSize(cfg.symbol));
  }

  /** In particular the target always falls when the smallest step is at least one tick wide at the entry price. */
  lemma WideStepsAlwaysPull(cfg: EngineConfig, b0: Basket)
    requires Growing(cfg) && TickSize(cfg.symbol) <= cfg.stepMin * b0.entryPrice
    ensures EngineOpens(cfg, b0) && b0.side.LONG? ==> TargetAlwaysFalls(b0)
  {
    hide TryOpen, TargetAlwaysFalls, Growing, Fill;
    if EngineOpens(cfg, b0) && b0.side.LONG? {
      var side, price, atr, wallet, time :| TryOpen(cfg, side, price, atr, wallet, time) == Some(b0);
      OpensOnSide(cfg, side, price, atr, wallet, time);
      if b0.levels != [] {
        WideStepsPull(cfg, price, atr, wallet, time, 0);
      }
      NearestRungDecides(cfg, b0);
    }
  }

  /** The smallest admissible geometry on SOLUSDT: 0.1 percent steps, equal orders, a 0.1 percent target. */
  predicate TightGrid(cfg: EngineConfig) {
    && cfg.symbol == "SOLUSDT" && cfg.leverage == 20 && cfg.sizing.FixedUsdSizing? && cfg.baseOrderUsd == 500.9
    && !cfg.compounding && cfg.maxSafetyOrders == 1 && cfg.takeProfitPct == 0.1 && !cfg.tpFixed
    && cfg.volumeScale == 1.0 && cfg.stepScale == 1.0 && cfg.atrMultiplier == 0.6
    && cfg.stepMin == 0.001 && cfg.stepMax == 0.005
  }

  lemma TightLadder(cfg: EngineConfig)
    requires TightGrid(cfg)
    ensures var p := ParamsOf(cfg, LONG, 0.5009, 0.0001, 1100.0);
            && LevelCount(p) == 1 && BoMargin(p) == 500.9 && TpTarget(p) == 1.1 && GridOf(p).boQty == 20_000.0
            && LevelAt(p, 1).fillPrice == 0.5003991 && LevelAt(p, 1).qty == 10_018.0 / 0.5003991
            && LevelAt(p, 1).index == 1
  {
    var p := ParamsOf(cfg, LONG, 0.5009, 0.0001, 1100.0);
    assert Step1(p) == 0.001;
    assert Pow(1.0, 0) == 1.0 && Pow(1.0, 1) == 1.0;
    assert CumDev(p, 0) == 0.0 && CumDev(p, 1) == 0.001;
  }

  /** On it the engine opens a basket at 0.5009 whose one rung (0.5003991) and whose target (0.500955) are both stored
      as 0.500, and the first fill raises the target. */
  lemma SameCellRaisesTarget(cfg: EngineConfig)
    requires TightGrid(cfg)
    ensures var attempt := TryOpen(cfg, LONG, 0.5009, 0.0001, 1100.0, 0);
            && Growing(cfg) && attempt.Some? && |attempt.value.levels| == 1
            && !NearestBelowTarget(attempt.value)
            && Fill(attempt.value, attempt.value.levels[0]).tpPrice > attempt.value.tpPrice
  {
    var p := ParamsOf(cfg, LONG, 0.5009, 0.0001, 1100.0);
    TightLadder(cfg);
    hide BoMargin, TpTarget, LevelAt, Step1, FillPrice, SoMargin;
    var g := GridOf(p);
    assert RoundDown(20_000.0, 1.0) == 20_000.0;
    assert RoundDown(0.5003991, 0.001) == 0.5;
    assert RoundDown(10_018.0 / 0.5003991, 1.0) == 20_020.0;
    assert CalculateTpPrice(LONG, 0.5009, 20_000.0, 1.1) == 0.500955;
    assert RoundDown(0.500955, 0.001) == 0.5;
    assert g.levels == [LevelAt(p, 1)];
    var so := RoundedLevel(cfg, LevelAt(p, 1));
    assert so.qty == 20_020.0 && so.fillPrice == 0.5;
    assert Tradable(cfg, so.qty, so.fillPrice);
    assert KeptLevels(cfg, g.levels, 0) == [];
    assert KeptLevels(cfg, g.levels, 1) == [so];
    var b := TryOpen(cfg, LONG, 0.5009, 0.0001, 1100.0, 0).value;
    assert b.levels == [so] && b.tpPrice == 0.5 && b.qty == 20_000.0 && b.avgEntry == 0.5009 && b.tpTarget == 1.1;
    TightFill(b, so);
  }

  lemma TightFill(b: Basket, so: Level)
    requires b.side.LONG? && b.qty == 20_000.0 && b.avgEntry == 0.5009 && b.tpTarget == 1.1
    requires so.qty == 20_020.0 && so.fillPrice == 0.5
    ensures Fill(b, so).tpPrice > 0.5
  {
    assert Fill(b, so).avgEntry == 20_028.0 / 40_020.0;
  }
}
