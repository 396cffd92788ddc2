/** What every backtest run keeps, over any candles, signals, fills, funding and exits. */
module BacktestFacts {
  import opened Options
  import opened RealArith
  import opened Rounding
  import opened Liquidation
  import opened RiskController
  import opened GridLevels
  import opened SimBasket
  import opened BasketFacts
  import opened Backtest

  // ---------- Money conservation ----------

  function TotalPnl(trades: seq<Basket>): real {
    if trades == [] then 0.0 else TotalPnl(trades[..|trades| - 1]) + trades[|trades| - 1].pnl
  }

  /** What the wallet and the locked margin add up to when no money appears or disappears. */
  function Owed(cfg: EngineConfig, s: EngineState): real {
    cfg.initialCapital + TotalPnl(s.trades)
  }

  ghost predicate CostlyLevels(levels: seq<Level>) {
    forall i :: 0 <= i < |levels| ==> levels[i].margin > 0.0
  }

  /** Locked margin is the margin of the active basket; wallet plus locked margin is the initial
      capital plus all realised profit, save for a wallet below zero that a liquidation wrote up
      to zero. */
  ghost predicate Conserved(cfg: EngineConfig, s: EngineState) {
    && s.locked == (if s.active.Some? then s.active.value.margin else 0.0)
    && (s.active.Some? ==> !s.active.value.closed && CostlyLevels(s.active.value.levels) && !s.stopped)
    && (s.liquidated <==> s.stopped)
    && (|| s.wallet + s.locked == Owed(cfg, s)
        || (s.liquidated && s.wallet == 0.0 && s.active.None? && Owed(cfg, s) < 0.0))
  }

  lemma TotalPnlAppend(trades: seq<Basket>, b: Basket)
    ensures TotalPnl(trades + [b]) == TotalPnl(trades) + b.pnl
  {
    assert (trades + [b])[..|trades|] == trades;
  }

  lemma {:induction false} FillAllMargin(b: Basket, sos: seq<Level>)
    ensures FillAll(b, sos).margin == b.margin + SumMargin(sos)
    ensures FillAll(b, sos).levels == b.levels
  {
    hide Notional, Fee, CalculateTpPrice;
    if sos != [] {
      FillAllMargin(b, sos[..|sos| - 1]);
    }
  }

  /** On any ladder, sorted or not, a candle adds to the margin what it reports as consumed. */
  lemma BarAddsConsumed(b: Basket, bar: BasketBar, funding: seq<FundingEvent>)
    ensures AfterBar(b, bar, funding).margin == b.margin + SumMargin(FillsOf(b, bar, funding))
    ensures AfterBar(b, bar, funding).levels == b.levels
  {
    hide Notional, Fee, CalculateTpPrice, Unrealized, Evaluate, TpPenetrated, Funded, NewlyFilled, FillAll;
    FundingOnlyMovesCounters(b.(barsSinceFill := b.barsSinceFill + 1), bar, funding, |funding|);
    var aged := Aged(b, bar, funding);
    FillAllMargin(aged, NewlyFilled(aged, bar.high, bar.low, |aged.levels|));
  }

  lemma {:induction false} FillsAreLevels(b: Basket, high: real, low: real, n: nat)
    requires n <= |b.levels| && CostlyLevels(b.levels)
    ensures CostlyLevels(NewlyFilled(b, high, low, n))
  {
    if n > 0 {
      FillsAreLevels(b, high, low, n - 1);
    }
  }

  /** So the margin lock `if so_margin_used > 0` never drops a fill. */
  lemma ConsumedNotNegative(b: Basket, bar: BasketBar, funding: seq<FundingEvent>)
    requires CostlyLevels(b.levels)
    ensures SumMargin(FillsOf(b, bar, funding)) >= 0.0
  {
    hide TpPenetrated, Funded, NewlyFilled;
    FundingOnlyMovesCounters(b.(barsSinceFill := b.barsSinceFill + 1), bar, funding, |funding|);
    var aged := Aged(b, bar, funding);
    FillsAreLevels(aged, bar.high, bar.low, |aged.levels|);
    SumMarginPositive(FillsOf(b, bar, funding));
  }

  lemma HeldMargin(cfg: EngineConfig, b: Basket, c: Candle, wallet: real, funding: seq<FundingEvent>)
    ensures Held(cfg, b, c, wallet, funding).margin == b.margin + Consumed(b, c, wallet, funding)
    ensures Held(cfg, b, c, wallet, funding).levels == b.levels
  {
    hide AfterBar, FillsOf, SumMargin, Notional, Fee, Unrealized;
    BarAddsConsumed(b, BarOf(c, wallet), funding);
  }

  lemma SettledConserves(cfg: EngineConfig, s: EngineState, b: Basket)
    requires s.wallet + s.locked == Owed(cfg, s)
    ensures Settled(s, b).wallet == Owed(cfg, Settled(s, b))
  {
    TotalPnlAppend(s.trades, b);
  }

  lemma ActiveConserves(cfg: EngineConfig, s: EngineState, c: Candle, funding: seq<FundingEvent>)
    requires Conserved(cfg, s) && s.active.Some?
    ensures Conserved(cfg, AfterActive(cfg, s, s.active.value, c, funding))
  {
    hide Held, Consumed, WipedOut, Closed, TotalPnl;
    var b := s.active.value;
    var held := Held(cfg, b, c, s.wallet, funding);
    HeldMargin(cfg, b, c, s.wallet, funding);
    assert Consumed(b, c, s.wallet, funding) == SumMargin(FillsOf(b, BarOf(c, s.wallet), funding)) by {
      ConsumedUnfolds(b, c, s.wallet, funding);
    }
    ConsumedNotNegative(b, BarOf(c, s.wallet), funding);
    var paid := Locked(s, Consumed(b, c, s.wallet, funding));
    SettledConserves(cfg, paid, held);
    SettledConserves(cfg, paid, ForceClosed(held, c.close, WipeOut));
  }

  lemma ConsumedUnfolds(b: Basket, c: Candle, wallet: real, funding: seq<FundingEvent>)
    ensures Consumed(b, c, wallet, funding) == SumMargin(FillsOf(b, BarOf(c, wallet), funding))
  {}

  // ---------- What a freshly opened basket looks like ----------

  lemma QuotientSign(margin: real, leverage: int, price: real)
    requires leverage >= 1 && price > 0.0 && margin * leverage as real / price > 0.0
    ensures margin > 0.0
  {
    DivMul(margin * leverage as real, price);
    MulSign(margin * leverage as real / price, price);
    MulSign(margin, leverage as real);
  }

  lemma RoundDownPositive(value: real, step: real)
    requires step > 0.0 && RoundDown(value, step) > 0.0
    ensures value > 0.0
  {
    if value < 0.0 {
      RoundDownOfNegative(value, step);
    } else {
      RoundDownLoses(value, step);
    }
  }

  /** A level that survives the minimum-size filter costs margin and had a positive fill price. */
  lemma KeptLevelFacts(cfg: EngineConfig, p: GridParams, n: nat)
    requires n >= 1 && p.leverage >= 1
    requires Tradable(cfg, RoundedLevel(cfg, LevelAt(p, n)).qty, RoundedLevel(cfg, LevelAt(p, n)).fillPrice)
    ensures SoMargin(p, n) > 0.0 && FillPrice(p, n) > 0.0
  {
    hide Notional, RoundDown, FillPrice, SoMargin;
    RoundDownPositive(LevelAt(p, n).qty, QtyStep(cfg.symbol));
    QuotientSign(SoMargin(p, n), p.leverage, FillPrice(p, n));
  }

  /** Kept levels keep their order, margins and sizes; the filter only drops some. */
  ghost predicate KeptSoundly(side: Side, entry: real, kept: seq<Level>, upTo: int, deepest: real) {
    && SoundLadder(kept)
    && (forall i :: 0 <= i < |kept| ==> kept[i].index <= upTo)
    && Sorted(side, kept)
    && (forall i :: 0 <= i < |kept| ==> Worse(side, kept[i].fillPrice, deepest))
    && (side.LONG? ==> forall i :: 0 <= i < |kept| ==> kept[i].fillPrice <= entry)
  }

  lemma {:induction false} KeptAreCostly(cfg: EngineConfig, p: GridParams, n: nat)
    requires p.leverage >= 1 && n <= |GridOf(p).levels|
    ensures CostlyLevels(KeptLevels(cfg, GridOf(p).levels, n))
  {
    hide Notional, RoundDown, LevelAt, BoMargin, TpTarget;
    if n > 0 {
      KeptAreCostly(cfg, p, n - 1);
      if Tradable(cfg, RoundedLevel(cfg, LevelAt(p, n)).qty, RoundedLevel(cfg, LevelAt(p, n)).fillPrice) {
        KeptLevelFacts(cfg, p, n);
        LevelMargin(p, n);
      }
    }
  }

  lemma LevelMargin(p: GridParams, n: nat)
    requires n >= 1
    ensures LevelAt(p, n).margin == SoMargin(p, n) && LevelAt(p, n).index == n &&
            LevelAt(p, n).fillPrice == FillPrice(p, n)
  {}

  lemma {:induction false} KeptLaddersSound(cfg: EngineConfig, p: GridParams, n: nat)
    requires p.leverage >= 1 && p.boPrice > 0.0 && p.stepMin > 0.0 && p.stepScale > 0.0
    requires n <= |GridOf(p).levels|
    ensures KeptSoundly(p.side, p.boPrice, KeptLevels(cfg, GridOf(p).levels, n), n,
                        RoundDown(FillPrice(p, n), TickSize(cfg.symbol)))
  {
    hide Notional, RoundDown, LevelAt, BoMargin, TpTarget, FillPrice, Step1, SoMargin;
    if n > 0 {
      KeptLaddersSound(cfg, p, n - 1);
      LevelMargin(p, n);
      FillPricesOrdered(p, n - 1, n);
      FillPricesOrdered(p, 0, n);
      BasePriceIsRungZero(p);
      var tick := TickSize(cfg.symbol);
      if p.side.LONG? {
        RoundDownMono(FillPrice(p, n), FillPrice(p, n - 1), tick);
      } else {
        RoundDownMono(FillPrice(p, n - 1), FillPrice(p, n), tick);
      }
      var so := RoundedLevel(cfg, LevelAt(p, n));
      var before := KeptLevels(cfg, GridOf(p).levels, n - 1);
      DeeperBound(p.side, p.boPrice, before, n - 1, RoundDown(FillPrice(p, n - 1), tick), n,
                  RoundDown(FillPrice(p, n), tick));
      if Tradable(cfg, so.qty, so.fillPrice) {
        KeptLevelFacts(cfg, p, n);
        RoundDownLoses(FillPrice(p, n), tick);
        AppendKept(p.side, p.boPrice, before, n, so);
      }
    }
  }

  lemma DeeperBound(side: Side, entry: real, kept: seq<Level>, upTo: int, deepest: real, further: int, deeper: real)
    requires KeptSoundly(side, entry, kept, upTo, deepest) && upTo < further && Worse(side, deepest, deeper)
    ensures KeptSoundly(side, entry, kept, further - 1, deeper)
  {}

  lemma AppendKept(side: Side, entry: real, kept: seq<Level>, n: int, so: Level)
    requires KeptSoundly(side, entry, kept, n - 1, so.fillPrice)
    requires so.index == n && so.qty > 0.0 && so.margin > 0.0 && (side.LONG? ==> so.fillPrice <= entry)
    ensures KeptSoundly(side, entry, kept + [so], n, so.fillPrice)
  {}

  /** What the endpoint that starts a backtest makes sure of: a leverage of at least 1 and positive steps. */
  predicate Tuned(cfg: EngineConfig) {
    cfg.leverage >= 1 && cfg.stepMin > 0.0 && cfg.stepScale > 0.0
  }

  /** A basket the engine opens starts with clean books on a sound, sorted ladder; a LONG ladder
      lies at or below the entry. */
  lemma OpensSoundly(cfg: EngineConfig, side: Side, price: real, atr: real, wallet: real, time: int)
    requires Tuned(cfg)
    ensures var attempt := TryOpen(cfg, side, price, atr, wallet, time);
            attempt.Some? ==> Opened(attempt.value) && (side.LONG? ==> LadderBehindEntry(attempt.value))
  {
    hide Notional, RoundDown, BoMargin, TpTarget, Step1, CalculateTpPrice, Fee, KeptLevels;
    var p := ParamsOf(cfg, side, price, atr, wallet);
    if TryOpen(cfg, side, price, atr, wallet, time).Some? {
      RoundDownPositive(GridOf(p).boQty, QtyStep(cfg.symbol));
      KeptLaddersSound(cfg, p, |GridOf(p).levels|);
    }
  }

  lemma OpensCostly(cfg: EngineConfig, side: Side, price: real, atr: real, wallet: real, time: int)
    requires cfg.leverage >= 1
    ensures var attempt := TryOpen(cfg, side, price, atr, wallet, time);
            attempt.Some? ==> CostlyLevels(attempt.value.levels)
  {
    hide Notional, RoundDown, BoMargin, TpTarget, Step1, CalculateTpPrice, Fee, KeptLevels, LevelAt;
    var p := ParamsOf(cfg, side, price, atr, wallet);
    KeptAreCostly(cfg, p, |GridOf(p).levels|);
  }

  /** Opening takes a positive margin of at most half the wallet, so the wallet is positive both
      before and after, and the rejection for more than half never happens. */
  lemma EntryLeavesHalf(cfg: EngineConfig, side: Side, price: real, atr: real, wallet: real, time: int)
    requires cfg.leverage >= 1
    ensures var g := GridOf(ParamsOf(cfg, side, price, atr, wallet));
            && !(g.boMargin > wallet * 0.5)
            && (TryOpen(cfg, side, price, atr, wallet, time).None? <==>
                !Tradable(cfg, RoundDown(g.boQty, QtyStep(cfg.symbol)), price))
            && (TryOpen(cfg, side, price, atr, wallet, time).Some? ==>
                  var m := TryOpen(cfg, side, price, atr, wallet, time).value.margin;
                  0.0 < m <= wallet * 0.5 && wallet - m >= wallet * 0.5 > 0.0)
  {
    hide Notional, RoundDown, BoMargin, TpTarget, CalculateTpPrice, Fee, KeptLevels, LevelAt;
    var p := ParamsOf(cfg, side, price, atr, wallet);
    var g := GridOf(p);
    BaseOrderAtMostHalf(p);
    if TryOpen(cfg, side, price, atr, wallet, time).Some? {
      RoundDownPositive(g.boQty, QtyStep(cfg.symbol));
      QuotientSign(BoMargin(p), p.leverage, p.boPrice);
    }
  }

  /** Entries slip against the trader: with a slippage in the simulated range a LONG pays and a SHORT gives up
      between 0.05 and 0.1 percent of the close, so a position of any size starts that far under water. */
  lemma EntrySlipsAgainst(side: Side, close: real, slip: real, qty: real, value: real)
    requires close > 0.0 && qty > 0.0 && 0.0005 <= slip <= 0.001 && value == Notional(close, qty)
    ensures Unrealized(side, EntryPrice(side, close, slip), qty, close) == -(value * slip)
    ensures -(value * 0.001) <= -(value * slip) <= -(value * 0.0005) < 0.0
  {
    SlippedValue(close, slip, qty, value);
    MulPos(close, qty);
    MulMono(0.0005, slip, value);
    MulMono(slip, 0.001, value);
  }

  lemma SlippedValue(close: real, slip: real, qty: real, value: real)
    requires value == Notional(close, qty)
    ensures (close - close * (1.0 + slip)) * qty == -(value * slip)
    ensures (close * (1.0 - slip) - close) * qty == -(value * slip)
  {
    assert close * (1.0 + slip) == close + close * slip && close * (1.0 - slip) == close - close * slip;
    assert (close * slip) * qty == (close * qty) * slip;
  }

  lemma EntryConserves(cfg: EngineConfig, s: EngineState, c: Candle)
    requires Conserved(cfg, s) && cfg.leverage >= 1 && !s.stopped
    ensures Conserved(cfg, AfterEntry(cfg, s, c))
  {
    hide TotalPnl, RoundDown, Notional, GridOf, KeptLevels, CalculateTpPrice, Fee;
    if c.signal.Enter? {
      var price := EntryPrice(c.signal.side, c.close, c.signal.slip);
      if TryOpen(cfg, c.signal.side, price, c.signal.atr, s.wallet, c.openTime).Some? {
        OpensCostly(cfg, c.signal.side, price, c.signal.atr, s.wallet, c.openTime);
      }
    }
  }

  lemma StepConserves(cfg: EngineConfig, s: EngineState, c: Candle, funding: seq<FundingEvent>)
    requires Conserved(cfg, s) && cfg.leverage >= 1
    ensures Conserved(cfg, Step(cfg, s, c, funding))
  {
    hide AfterActive, AfterEntry, TotalPnl;
    if !s.stopped {
      var counted := s.(barsSinceClose := s.barsSinceClose + 1);
      if s.active.Some? {
        ActiveConserves(cfg, counted, c, funding);
        var after := AfterActive(cfg, counted, s.active.value, c, funding);
        if !after.stopped {
          EntryConserves(cfg, after, c);
        }
      } else {
        EntryConserves(cfg, counted, c);
      }
    }
  }

  /** For every candle sequence, every bar ends with the books in balance. */
  lemma {:induction false} RunConserves(cfg: EngineConfig, candles: seq<Candle>, funding: seq<FundingEvent>)
    requires cfg.leverage >= 1
    ensures Conserved(cfg, RunCandles(cfg, candles, funding))
  {
    hide Step;
    if candles != [] {
      RunConserves(cfg, candles[..|candles| - 1], funding);
      StepConserves(cfg, RunCandles(cfg, candles[..|candles| - 1], funding), candles[|candles| - 1], funding);
    }
  }

  /** A run that is not liquidated ends with the initial capital plus the profit of all its trades;
      a liquidated one ends there too, or at zero when that sum is negative. */
  lemma FinalWallet(cfg: EngineConfig, candles: seq<Candle>, funding: seq<FundingEvent>, lastClose: real)
    requires cfg.leverage >= 1
    ensures var end := Finish(RunCandles(cfg, candles, funding), lastClose);
            && end.active.None? && end.locked == 0.0
            && (!end.liquidated ==> end.wallet == Owed(cfg, end))
            && (end.liquidated ==> end.wallet == Owed(cfg, end) || (end.wallet == 0.0 && Owed(cfg, end) < 0.0))
  {
    hide RunCandles, TotalPnl, Closed;
    RunConserves(cfg, candles, funding);
    var s := RunCandles(cfg, candles, funding);
    if s.active.Some? {
      SettledConserves(cfg, s, ForceClosed(s.active.value, lastClose, EndOfData));
    }
  }

  // ---------- Survivors are backed ----------

  function PositionOf(b: Basket, wallet: real, symbol: string): Position {
    Position(b.side, b.avgEntry, b.qty, wallet, symbol)
  }

  /** A basket held into the candle and still open after it is backed: wallet plus unrealised
      profit at the close strictly exceeds the maintenance margin, which is not negative.  The
      wallet is the one after the fills were paid, so it may itself be below zero. */
  lemma SurvivorsAreBacked(cfg: EngineConfig, s: EngineState, c: Candle, funding: seq<FundingEvent>)
    requires !s.stopped && s.active.Some?
    ensures var t := Step(cfg, s, c, funding);
            t.active.Some? ==>
              var p := PositionOf(t.active.value, t.wallet, cfg.symbol);
              p.Balance(c.close) > p.Maint(c.close) >= 0.0
  {
    hide Held, Consumed, MarginRatio, Unrealized, Notional, Closed, TryOpen;
    var t := Step(cfg, s, c, funding);
    if t.active.Some? {
      SurvivorIsBacked(PositionOf(t.active.value, t.wallet, cfg.symbol), c.close);
    }
  }

  // ---------- Every basket of every run keeps its books ----------

  /** The basket b0 is one the engine opens. */
  ghost predicate EngineOpens(cfg: EngineConfig, b0: Basket) {
    exists side, price, atr, wallet, time :: TryOpen(cfg, side, price, atr, wallet, time) == Some(b0)
  }

  /** The basket is an engine-opened one after filling the first k levels of its ladder. */
  ghost predicate BooksInOrder(cfg: EngineConfig, b: Basket) {
    exists b0: Basket, k: nat :: EngineOpens(cfg, b0) && Grown(b0, b, k)
  }

  /** A finished trade: books in order, profit plus costs equal to the price move, a take-profit
      exit at the basket's take-profit price, which is positive. */
  ghost predicate GoodTrade(cfg: EngineConfig, b: Basket) {
    b.closed && BooksInOrder(cfg, b) && SettledUp(b)
  }

  ghost predicate SettledUp(b: Basket) {
    && b.pnl + b.tradingFees + (b.fundingPaid - b.fundingReceived) == Unrealized(b.side, b.avgEntry, b.qty, b.exitPrice)
    && (b.exitReason.TakeProfit? ==> b.exitPrice == b.tpPrice > 0.0)
  }

  ghost predicate Sound(cfg: EngineConfig, s: EngineState) {
    && (s.active.Some? ==> !s.active.value.closed && BooksInOrder(cfg, s.active.value))
    && (forall i :: 0 <= i < |s.trades| ==> GoodTrade(cfg, s.trades[i]))
  }

  lemma EngineOpensSoundly(cfg: EngineConfig, b0: Basket)
    requires EngineOpens(cfg, b0) && Tuned(cfg)
    ensures Opened(b0) && (b0.side.LONG? ==> LadderBehindEntry(b0))
  {
    hide TryOpen, Opened, LadderBehindEntry;
    var side, price, atr, wallet, time :| TryOpen(cfg, side, price, atr, wallet, time) == Some(b0);
    OpensSoundly(cfg, side, price, atr, wallet, time);
    OpensOnSide(cfg, side, price, atr, wallet, time);
  }

  lemma OpensOnSide(cfg: EngineConfig, side: Side, price: real, atr: real, wallet: real, time: int)
    ensures var attempt := TryOpen(cfg, side, price, atr, wallet, time);
            attempt.Some? ==> attempt.value.side == side && attempt.value.entryPrice == price
  {
    hide Notional, RoundDown, GridOf, CalculateTpPrice, Fee, KeptLevels;
  }

  lemma ClosedIsGood(cfg: EngineConfig, b: Basket, reason: ExitReason, price: real)
    requires BooksInOrder(cfg, b) && !b.closed && (reason.TakeProfit? ==> price == b.tpPrice > 0.0)
    ensures GoodTrade(cfg, Closed(b, reason, price))
  {
    var b0: Basket, k: nat :| EngineOpens(cfg, b0) && Grown(b0, b, k);
    hide *;
    ClosedKeepsBooks(b0, b, k, reason, price);
    InOrder(cfg, b0, Closed(b, reason, price), k);
    CloseSettles(b, reason, price);
    GoodFrom(cfg, Closed(b, reason, price));
  }

  lemma BarIsGood(cfg: EngineConfig, b: Basket, bar: BasketBar, funding: seq<FundingEvent>)
    requires !b.closed && BooksInOrder(cfg, b) && Tuned(cfg)
    ensures BooksInOrder(cfg, AfterBar(b, bar, funding))
    ensures AfterBar(b, bar, funding).closed ==> GoodTrade(cfg, AfterBar(b, bar, funding))
  {
    var b0: Basket, k: nat :| EngineOpens(cfg, b0) && Grown(b0, b, k);
    hide *;
    EngineOpensSoundly(cfg, b0);
    BarKeepsBooks(b0, b, k, bar, funding);
    BarClosesInOrder(b, bar, funding);
    InOrder(cfg, b0, AfterBar(b, bar, funding), FilledAfter(b, k, bar, funding));
    GoodFrom(cfg, AfterBar(b, bar, funding));
  }

  lemma InOrder(cfg: EngineConfig, b0: Basket, b: Basket, k: nat)
    requires EngineOpens(cfg, b0) && Grown(b0, b, k)
    ensures BooksInOrder(cfg, b)
  {
    hide EngineOpens, Grown;
  }

  lemma GoodFrom(cfg: EngineConfig, b: Basket)
    requires b.closed ==> SettledUp(b)
    requires BooksInOrder(cfg, b)
    ensures b.closed ==> GoodTrade(cfg, b)
  {
    hide BooksInOrder, SettledUp;
  }

  /** Whichever way a candle closes a basket, the profit is settled against that exit. */
  lemma BarClosesInOrder(b: Basket, bar: BasketBar, funding: seq<FundingEvent>)
    requires !b.closed
    ensures AfterBar(b, bar, funding).closed ==> SettledUp(AfterBar(b, bar, funding))
  {
    hide Notional, Fee, CalculateTpPrice, Unrealized, Evaluate, TpPenetrated, Funded, NewlyFilled, FillAll, Closed;
    SameLevels(b, bar, funding);
    var aged := Aged(b, bar, funding);
    if TakesProfit(aged, bar) {
      PenetratedIsPositive(aged.side, aged.tpPrice, bar.high, bar.low);
      CloseSettles(aged, TakeProfit, aged.tpPrice);
    }
    var sos := NewlyFilled(aged, bar.high, bar.low, |aged.levels|);
    var filled := FillAll(aged, sos);
    FillAllStaysOpen(aged, sos);
    var ready := if sos != [] then filled.(barsSinceFill := 0) else filled;
    RiskSettles(ready, bar);
  }

  /** A take-profit price at or below zero never counts as penetrated. */
  lemma PenetratedIsPositive(side: Side, tpPrice: real, high: real, low: real)
    requires TpPenetrated(side, tpPrice, high, low)
    ensures tpPrice > 0.0
  {}

  lemma {:induction false} FillAllStaysOpen(b: Basket, sos: seq<Level>)
    ensures FillAll(b, sos).closed == b.closed
  {
    hide Notional, Fee, CalculateTpPrice;
    if sos != [] {
      FillAllStaysOpen(b, sos[..|sos| - 1]);
    }
  }

  lemma CloseSettles(b: Basket, reason: ExitReason, price: real)
    requires reason.TakeProfit? ==> price == b.tpPrice > 0.0
    ensures SettledUp(Closed(b, reason, price)) && Closed(b, reason, price).closed
  {
    hide Unrealized, Fee, Notional;
  }

  lemma RiskSettles(b: Basket, bar: BasketBar)
    requires !b.closed
    ensures RiskChecked(b, bar).closed ==> SettledUp(RiskChecked(b, bar))
  {
    hide Unrealized, Fee, Notional, Evaluate;
  }

  lemma HeldIsGood(cfg: EngineConfig, b: Basket, c: Candle, wallet: real, funding: seq<FundingEvent>)
    requires !b.closed && BooksInOrder(cfg, b) && Tuned(cfg)
    ensures var held := Held(cfg, b, c, wallet, funding);
            && BooksInOrder(cfg, held)
            && (held.closed ==> GoodTrade(cfg, held))
  {
    hide AfterBar, BooksInOrder, Closed, SettledUp, Slipped;
    var after := AfterBar(b, BarOf(c, wallet), funding);
    BarIsGood(cfg, b, BarOf(c, wallet), funding);
    if !after.closed {
      ClosedIsGood(cfg, after, MaxAge, Slipped(after.side, c.close));
    }
  }

  lemma OpensInOrder(cfg: EngineConfig, side: Side, price: real, atr: real, wallet: real, time: int)
    requires Tuned(cfg)
    ensures var attempt := TryOpen(cfg, side, price, atr, wallet, time);
            attempt.Some? ==> !attempt.value.closed && BooksInOrder(cfg, attempt.value)
  {
    hide *;
    OpensSoundly(cfg, side, price, atr, wallet, time);
    var attempt := TryOpen(cfg, side, price, atr, wallet, time);
    if attempt.Some? {
      OpenedIsGrown(attempt.value);
      assert EngineOpens(cfg, attempt.value) by {
        Opens(cfg, side, price, atr, wallet, time, attempt.value);
      }
      InOrder(cfg, attempt.value, attempt.value, 0);
    }
  }

  lemma Opens(cfg: EngineConfig, side: Side, price: real, atr: real, wallet: real, time: int, b0: Basket)
    requires TryOpen(cfg, side, price, atr, wallet, time) == Some(b0)
    ensures EngineOpens(cfg, b0)
  {
    hide TryOpen;
  }

  lemma OpenedIsGrown(b: Basket)
    requires Opened(b)
    ensures Grown(b, b, 0) && !b.closed
  {
    hide Notional, Fee, CalculateTpPrice;
    assert b.levels[..0] == [];
    assert Indices([]) == [];
  }

  lemma AppendTrade(cfg: EngineConfig, trades: seq<Basket>, b: Basket)
    requires (forall i :: 0 <= i < |trades| ==> GoodTrade(cfg, trades[i])) && GoodTrade(cfg, b)
    ensures forall i :: 0 <= i < |trades + [b]| ==> GoodTrade(cfg, (trades + [b])[i])
  {
    hide GoodTrade;
  }

  lemma ActiveKeepsSound(cfg: EngineConfig, s: EngineState, c: Candle, funding: seq<FundingEvent>)
    requires Sound(cfg, s) && s.active.Some? && Tuned(cfg)
    ensures Sound(cfg, AfterActive(cfg, s, s.active.value, c, funding))
  {
    hide Held, Consumed, WipedOut, Closed, GoodTrade, BooksInOrder, Slipped;
    var b := s.active.value;
    var held := Held(cfg, b, c, s.wallet, funding);
    HeldIsGood(cfg, b, c, s.wallet, funding);
    if held.closed {
      AppendTrade(cfg, s.trades, held);
    } else {
      ClosedIsGood(cfg, held, WipeOut, Slipped(held.side, c.close));
      AppendTrade(cfg, s.trades, ForceClosed(held, c.close, WipeOut));
    }
  }

  lemma EntryKeepsSound(cfg: EngineConfig, s: EngineState, c: Candle)
    requires Sound(cfg, s) && Tuned(cfg)
    ensures Sound(cfg, AfterEntry(cfg, s, c))
  {
    hide TryOpen, GoodTrade, BooksInOrder, Tuned;
    if c.signal.Enter? {
      var price := EntryPrice(c.signal.side, c.close, c.signal.slip);
      if TryOpen(cfg, c.signal.side, price, c.signal.atr, s.wallet, c.openTime).Some? {
        OpensInOrder(cfg, c.signal.side, price, c.signal.atr, s.wallet, c.openTime);
      }
    }
  }

  lemma StepKeepsSound(cfg: EngineConfig, s: EngineState, c: Candle, funding: seq<FundingEvent>)
    requires Sound(cfg, s) && Tuned(cfg)
    ensures Sound(cfg, Step(cfg, s, c, funding))
  {
    hide AfterActive, AfterEntry, GoodTrade, BooksInOrder, Tuned;
    var counted := s.(barsSinceClose := s.barsSinceClose + 1);
    if s.active.Some? {
      ActiveKeepsSound(cfg, counted, c, funding);
      EntryKeepsSound(cfg, AfterActive(cfg, counted, s.active.value, c, funding), c);
    } else {
      EntryKeepsSound(cfg, counted, c);
    }
  }

  /** For every candle sequence the active basket and all finished trades are baskets the engine opens, grown by
      a prefix of their ladder: quantity, margin, cost and fees (entry, safety orders and exit) are the sums they
      should be, the take-profit price is the opening one or the exact one, and the profit is settled. */
  lemma {:induction false} RunIsSound(cfg: EngineConfig, candles: seq<Candle>, funding: seq<FundingEvent>)
    requires Tuned(cfg)
    ensures Sound(cfg, RunCandles(cfg, candles, funding))
  {
    hide Step, GoodTrade, BooksInOrder, Tuned;
    if candles != [] {
      var before := candles[..|candles| - 1];
      RunIsSound(cfg, before, funding);
      StepKeepsSound(cfg, RunCandles(cfg, before, funding), candles[|candles| - 1], funding);
    }
  }

  /** The trades of a finished run, the one closed at the end of the data included. */
  lemma FinishIsSound(cfg: EngineConfig, candles: seq<Candle>, funding: seq<FundingEvent>, lastClose: real)
    requires Tuned(cfg)
    ensures Sound(cfg, Finish(RunCandles(cfg, candles, funding), lastClose))
  {
    hide RunCandles, GoodTrade, BooksInOrder, Closed, Tuned;
    RunIsSound(cfg, candles, funding);
    var s := RunCandles(cfg, candles, funding);
    if s.active.Some? {
      ClosedIsGood(cfg, s.active.value, EndOfData, lastClose);
      AppendTrade(cfg, s.trades, ForceClosed(s.active.value, lastClose, EndOfData));
    }
  }

  // ---------- What a take-profit trade earns ----------

  /** What the trade earned before fees and funding. */
  function GrossOf(t: Basket): real {
    t.pnl + t.tradingFees + (t.fundingPaid - t.fundingReceived)
  }

  /** With a safety order a take-profit earns its target exactly; without one it earns the target less than a tick
      short (LONG) or less than a tick over (SHORT). */
  ghost predicate PaysTarget(t: Basket, tick: real) {
    if t.filled != [] then GrossOf(t) == t.tpTarget
    else if t.side.LONG? then t.tpTarget - tick * t.qty < GrossOf(t) <= t.tpTarget
    else t.tpTarget <= GrossOf(t) < t.tpTarget + tick * t.qty
  }

  lemma OpeningTarget(cfg: EngineConfig, b0: Basket)
    requires EngineOpens(cfg, b0)
    ensures b0.tpPrice == RoundDown(CalculateTpPrice(b0.side, b0.avgEntry, b0.qty, b0.tpTarget), TickSize(cfg.symbol))
  {
    hide Notional, RoundDown, GridOf, CalculateTpPrice, Fee, KeptLevels;
    var side, price, atr, wallet, time :| TryOpen(cfg, side, price, atr, wallet, time) == Some(b0);
  }

  lemma GoodTakeProfitPays(cfg: EngineConfig, t: Basket)
    requires Tuned(cfg) && GoodTrade(cfg, t) && t.exitReason.TakeProfit?
    ensures PaysTarget(t, TickSize(cfg.symbol))
  {
    hide EngineOpens, Unrealized, CalculateTpPrice, Notional, Fee, RoundDown, Opened, LadderBehindEntry, Tuned;
    var b0: Basket, k: nat :| EngineOpens(cfg, b0) && Grown(b0, t, k);
    EngineOpensSoundly(cfg, b0);
    GrownQtyPositive(b0, t, k);
    if k > 0 {
      TpEarnsTarget(t.side, t.avgEntry, t.qty, t.tpTarget);
    } else {
      assert b0.levels[..0] == [];
      OpeningTarget(cfg, b0);
      var exact := CalculateTpPrice(t.side, t.avgEntry, t.qty, t.tpTarget);
      RoundDownPositive(exact, TickSize(cfg.symbol));
      FirstTakeProfitWithinTick(t.side, t.avgEntry, t.qty, t.tpTarget, TickSize(cfg.symbol), t.tpPrice);
    }
  }

  /** In every run every take-profit trade pays its target in this sense. */
  lemma TakeProfitTradesPayTarget(cfg: EngineConfig, candles: seq<Candle>, funding: seq<FundingEvent>)
    requires Tuned(cfg)
    ensures var trades := RunCandles(cfg, candles, funding).trades;
            forall i :: 0 <= i < |trades| && trades[i].exitReason.TakeProfit? ==>
                    PaysTarget(trades[i], TickSize(cfg.symbol))
  {
    hide RunCandles, GoodTrade, PaysTarget, Tuned;
    RunIsSound(cfg, candles, funding);
    var trades := RunCandles(cfg, candles, funding).trades;
    forall i | 0 <= i < |trades| && trades[i].exitReason.TakeProfit?
      ensures PaysTarget(trades[i], TickSize(cfg.symbol))
    {
      GoodTakeProfitPays(cfg, trades[i]);
    }
  }

  // ---------- The open basket of a run is a run of candles ----------

  /** A candle met with an open basket ends with that basket held and paid for, or with none. */
  lemma HeldOnly(cfg: EngineConfig, s: EngineState, c: Candle, funding: seq<FundingEvent>)
    requires s.active.Some? && !s.stopped
    ensures var t, bar := Step(cfg, s, c, funding), BarOf(c, s.wallet);
            t.active.Some? ==>
              && t.active.value == AfterBar(s.active.value, bar, funding)
              && var used := SumMargin(FillsOf(s.active.value, bar, funding));
                 t.wallet == if used > 0.0 then s.wallet - used else s.wallet
  {
    hide AfterBar, FillsOf, SumMargin, WipedOut, TryOpen, Unrealized, Notional, Fee;
  }

  /** The candles after number `from`, each with the wallet balance the engine passes along. */
  function BarsAfter(cfg: EngineConfig, candles: seq<Candle>, funding: seq<FundingEvent>, from: nat): seq<BasketBar> {
    if |candles| <= from + 1 then []
    else
      var before := candles[..|candles| - 1];
      BarsAfter(cfg, before, funding, from)
      + [BarOf(candles[|candles| - 1], RunCandles(cfg, before, funding).wallet)]
  }

  /** Candle number `from` meets no open basket, and the engine opens b0 on it from the wallet it has then. */
  ghost predicate OpenedAt(cfg: EngineConfig, candles: seq<Candle>, funding: seq<FundingEvent>, from: nat, b0: Basket) {
    && from < |candles| && candles[from].signal.Enter?
    && var s, c := RunCandles(cfg, candles[..from], funding), candles[from];
       && s.active.None?
       && TryOpen(cfg, c.signal.side, EntryPrice(c.signal.side, c.close, c.signal.slip), c.signal.atr, s.wallet,
                  c.openTime) == Some(b0)
  }

  /** From that candle on b0 is the open basket of the run, moved on by every candle. */
  ghost predicate HeldSince(cfg: EngineConfig, candles: seq<Candle>, funding: seq<FundingEvent>, from: nat,
                            b0: Basket)
  {
    && OpenedAt(cfg, candles, funding, from, b0)
    && forall m :: from < m <= |candles| ==>
         RunCandles(cfg, candles[..m], funding).active
         == Some(RunBars(b0, BarsAfter(cfg, candles[..m], funding, from), funding))
  }

  lemma StaysHeld(cfg: EngineConfig, candles: seq<Candle>, funding: seq<FundingEvent>, from: nat, b0: Basket)
    requires candles != [] && HeldSince(cfg, candles[..|candles| - 1], funding, from, b0)
    requires RunCandles(cfg, candles, funding).active.Some?
    requires !RunCandles(cfg, candles[..|candles| - 1], funding).stopped
    ensures HeldSince(cfg, candles, funding, from, b0)
  {
    hide Step, TryOpen, AfterBar;
    var n := |candles| - 1;
    var before := candles[..n];
    assert before[..n] == before && before[..from] == candles[..from];
    forall m | from < m <= |candles|
      ensures RunCandles(cfg, candles[..m], funding).active
              == Some(RunBars(b0, BarsAfter(cfg, candles[..m], funding, from), funding))
    {
      if m <= n {
        assert before[..m] == candles[..m];
      } else {
        assert candles[..m] == candles;
        HeldOnly(cfg, RunCandles(cfg, before, funding), candles[n], funding);
        var bars := BarsAfter(cfg, before, funding, from);
        var bar := BarOf(candles[n], RunCandles(cfg, before, funding).wallet);
        assert (bars + [bar])[..|bars|] == bars;
      }
    }
  }

  lemma JustHeld(cfg: EngineConfig, candles: seq<Candle>, funding: seq<FundingEvent>, b0: Basket)
    requires candles != [] && OpenedAt(cfg, candles, funding, |candles| - 1, b0)
    requires RunCandles(cfg, candles, funding).active == Some(b0)
    ensures HeldSince(cfg, candles, funding, |candles| - 1, b0)
  {
    hide OpenedAt;
    assert candles[..|candles|] == candles;
  }

  lemma EntryOpens(cfg: EngineConfig, s: EngineState, c: Candle, funding: seq<FundingEvent>)
    requires s.active.None?
    ensures var t := Step(cfg, s, c, funding);
            t.active.Some? ==>
              && c.signal.Enter? && !s.stopped
              && TryOpen(cfg, c.signal.side, EntryPrice(c.signal.side, c.close, c.signal.slip), c.signal.atr, s.wallet,
                         c.openTime) == t.active
  {
    hide TryOpen;
  }

  /** In every run the open basket is one the engine opened on some candle of the run, moved on by every candle since:
      whatever holds of a basket over any sequence of candles holds in every run. */
  lemma {:induction false} ActiveIsRun(cfg: EngineConfig, candles: seq<Candle>, funding: seq<FundingEvent>)
    requires cfg.leverage >= 1
    ensures var s := RunCandles(cfg, candles, funding);
            s.active.Some? ==>
              exists from, b0 ::
                && HeldSince(cfg, candles, funding, from, b0)
                && s.active.value == RunBars(b0, BarsAfter(cfg, candles, funding, from), funding)
  {
    hide Step, TryOpen, AfterBar, OpenedAt, HeldSince, RunBars, TotalPnl, CostlyLevels;
    if candles != [] && RunCandles(cfg, candles, funding).active.Some? {
      var n := |candles| - 1;
      var before, c := candles[..n], candles[n];
      var s := RunCandles(cfg, before, funding);
      RunConserves(cfg, before, funding);
      if s.active.Some? {
        ActiveIsRun(cfg, before, funding);
        var from, b0 :| HeldSince(cfg, before, funding, from, b0)
                        && s.active.value == RunBars(b0, BarsAfter(cfg, before, funding, from), funding);
        StaysHeld(cfg, candles, funding, from, b0);
        HeldNow(cfg, candles, funding, from, b0);
      } else {
        EntryOpens(cfg, s, c, funding);
        var b0 := RunCandles(cfg, candles, funding).active.value;
        OpensAt(cfg, candles, funding, b0);
        JustHeld(cfg, candles, funding, b0);
        HeldNow(cfg, candles, funding, n, b0);
      }
    }
  }

  lemma OpensAt(cfg: EngineConfig, candles: seq<Candle>, funding: seq<FundingEvent>, b0: Basket)
    requires candles != [] && candles[|candles| - 1].signal.Enter?
    requires var s, c := RunCandles(cfg, candles[..|candles| - 1], funding), candles[|candles| - 1];
             && s.active.None?
             && TryOpen(cfg, c.signal.side, EntryPrice(c.signal.side, c.close, c.signal.slip), c.signal.atr, s.wallet,
                        c.openTime) == Some(b0)
    ensures OpenedAt(cfg, candles, funding, |candles| - 1, b0)
  {
    hide RunCandles, TryOpen;
  }

  lemma HeldNow(cfg: EngineConfig, candles: seq<Candle>, funding: seq<FundingEvent>, from: nat, b0: Basket)
    requires HeldSince(cfg, candles, funding, from, b0)
    ensures RunCandles(cfg, candles, funding).active
            == Some(RunBars(b0, BarsAfter(cfg, candles, funding, from), funding))
    ensures EngineOpens(cfg, b0)
  {
    hide RunCandles, TryOpen, RunBars;
    assert candles[..|candles|] == candles;
    var s, c := RunCandles(cfg, candles[..from], funding), candles[from];
    Opens(cfg, c.signal.side, EntryPrice(c.signal.side, c.close, c.signal.slip), c.signal.atr, s.wallet, c.openTime,
          b0);
  }

  lemma {:induction false} BarsAfterExtend(cfg: EngineConfig, candles: seq<Candle>, funding: seq<FundingEvent>,
                                           from: nat, m: nat)
    requires from < m <= |candles|
    ensures BarsAfter(cfg, candles[..m], funding, from) <= BarsAfter(cfg, candles, funding, from)
    decreases |candles|
  {
    hide RunCandles;
    if m == |candles| {
      assert candles[..m] == candles;
    } else {
      var before := candles[..|candles| - 1];
      assert before[..m] == candles[..m];
      BarsAfterExtend(cfg, before, funding, from, m);
    }
  }

  /** In every run, level i of the open basket is filled exactly when the running extreme since its entry has reached
      its price, and the filled levels are a prefix of the ladder with the books that go with it. */
  lemma RunFillsFollowTheExtreme(cfg: EngineConfig, candles: seq<Candle>, funding: seq<FundingEvent>, from: nat,
                                 b0: Basket)
    requires Tuned(cfg)
    ensures var s := RunCandles(cfg, candles, funding);
            HeldSince(cfg, candles, funding, from, b0) ==>
              s.active.Some? &&
              var b := s.active.value;
              var reached := Reaching(b0, BarsAfter(cfg, candles, funding, from), funding);
              && Grown(b0, b, ExtremeDepth(b0.side, b0.levels, reached))
              && forall i :: 0 <= i < |b0.levels| ==>
                   (b0.levels[i].index in b.filled <==>
                    reached != [] && Touches(b0.side, b0.levels[i].fillPrice, HighestHigh(reached), LowestLow(reached)))
  {
    hide RunCandles, HeldSince, RunBars, BarsAfter, Reaching, Opened, Grown, EngineOpens, LadderBehindEntry, Touches;
    if HeldSince(cfg, candles, funding, from, b0) {
      HeldNow(cfg, candles, funding, from, b0);
      EngineOpensSoundly(cfg, b0);
      var bars := BarsAfter(cfg, candles, funding, from);
      FillsFollowTheExtreme(b0, bars, funding);
      forall i | 0 <= i < |b0.levels|
        ensures var reached := Reaching(b0, bars, funding);
                b0.levels[i].index in RunBars(b0, bars, funding).filled <==>
                reached != [] && Touches(b0.side, b0.levels[i].fillPrice, HighestHigh(reached), LowestLow(reached))
      {
        FilledMeansReached(b0, bars, funding, i);
      }
    }
  }
}
