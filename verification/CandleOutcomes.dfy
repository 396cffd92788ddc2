/** What one candle of a backtest does to the open basket, decided in amounts, and what that means for every trade of
    every run. */
module CandleOutcomes {
  import opened Options
  import opened RealArith
  import opened Rounding
  import opened MarginTiers
  import opened Liquidation
  import opened RiskController
  import opened GridLevels
  import opened SimBasket
  import opened BasketFacts
  import opened Backtest
  import opened BacktestFacts

  // ---------- The conditions ----------

  /** The candle goes at least 0.02 percent through a positive take-profit price, and the last safety order was not
      filled on the candle before. */
  predicate ReachesTarget(b: Basket, high: real, low: real) {
    && b.barsSinceFill >= 1 && b.tpPrice > 0.0
    && if b.side.LONG? then high - b.tpPrice >= 0.0002 * b.tpPrice else b.tpPrice - low >= 0.0002 * b.tpPrice
  }

  /** What a position has gained at a price. */
  function GainAt(b: Basket, price: real): real {
    if b.side.LONG? then price * b.qty - b.avgEntry * b.qty else b.avgEntry * b.qty - price * b.qty
  }

  function DeepestLoss(b: Basket, price: real): real {
    Max(b.peakLoss, if GainAt(b, price) < 0.0 then -GainAt(b, price) else 0.0)
  }

  function MaintAt(b: Basket, price: real, symbol: string): real {
    MaintenanceMargin(if price * b.qty < 0.0 then -(price * b.qty) else price * b.qty, symbol)
  }

  /** The risk controller closes the basket at this price: the margin guard, or the loss limit once the trigger number
      of safety orders is filled. */
  predicate RiskStops(b: Basket, price: real, wallet: real) {
    && b.risk.enabled
    && (|| GuardStops(b.risk, wallet + GainAt(b, price), MaintAt(b, price, b.symbol))
        || (|b.filled| >= b.risk.soTrigger
            && LossReached(b.risk, GainAt(b, price), wallet, DeepestLoss(b, price))))
  }

  /** The basket has been open for the configured number of hours. */
  predicate AgeReached(cfg: EngineConfig, b: Basket, now: int) {
    cfg.maxAgeHours > 0.0 && (now - b.entryTime) as real >= cfg.maxAgeHours * 3_600_000.0
  }

  predicate NotBacked(b: Basket, price: real, wallet: real, symbol: string) {
    wallet + GainAt(b, price) <= MaintAt(b, price, symbol)
  }

  /** A price 0.05 percent worse for the side that has to close. */
  function Worsened(side: Side, price: real): real {
    if side.LONG? then 0.9995 * price else 1.0005 * price
  }

  // ---------- Each condition is the code's ----------

  lemma TakesProfitExactly(b: Basket, bar: BasketBar, funding: seq<FundingEvent>)
    ensures TakesProfit(Aged(b, bar, funding), bar) <==> ReachesTarget(b, bar.high, bar.low)
  {
    hide Funded;
    FundingOnlyMovesCounters(b.(barsSinceFill := b.barsSinceFill + 1), bar, funding, |funding|);
    if b.tpPrice > 0.0 {
      DivCompare(bar.high - b.tpPrice, b.tpPrice, 0.0002, 0.0002 * b.tpPrice);
      DivCompare(b.tpPrice - bar.low, b.tpPrice, 0.0002, 0.0002 * b.tpPrice);
    }
  }

  lemma GainIs(b: Basket, price: real)
    ensures Unrealized(b.side, b.avgEntry, b.qty, price) == GainAt(b, price)
  {
    Distribute(price, b.avgEntry, b.qty);
    Distribute(b.avgEntry, price, b.qty);
  }

  lemma MaintIs(b: Basket, price: real, symbol: string)
    ensures MaintenanceMargin(Abs(Notional(price, b.qty)), symbol) == MaintAt(b, price, symbol)
  {
    hide MaintenanceMargin;
  }

  lemma RiskStopsExactly(b: Basket, bar: BasketBar)
    requires !b.closed
    ensures var mid, after := (bar.high + bar.low) / 2.0, RiskChecked(b, bar);
            && (after.closed <==> RiskStops(b, mid, bar.wallet))
            && (after.closed ==> after.exitReason.RiskStop? && after.exitPrice == Worsened(b.side, mid))
            && (!after.closed ==> after == b.(peakLoss := after.peakLoss))
            && after.peakLoss == (if b.risk.enabled then DeepestLoss(b, mid) else b.peakLoss)
  {
    hide Evaluate, Fee, MaintenanceMargin, LossReached, GuardStops;
    var mid := (bar.high + bar.low) / 2.0;
    GainIs(b, mid);
    VerdictExactly(|b.filled|, GainAt(b, mid), bar.wallet, Notional(mid, b.qty), b.symbol, b.risk,
                   DeepestLoss(b, mid));
    MaintIs(b, mid, b.symbol);
    assert Slipped(b.side, mid) == Worsened(b.side, mid);
    hide Unrealized, GainAt, Slipped, Worsened;
  }

  lemma TooOldExactly(cfg: EngineConfig, b: Basket, now: int)
    ensures TooOld(cfg, b, now) <==> AgeReached(cfg, b, now)
  {
    DivCompare((now - b.entryTime) as real, 3_600_000.0, cfg.maxAgeHours, cfg.maxAgeHours * 3_600_000.0);
  }

  lemma WipedOutExactly(cfg: EngineConfig, b: Basket, close: real, wallet: real)
    ensures WipedOut(cfg, b, close, wallet) <==> NotBacked(b, close, wallet, cfg.symbol)
  {
    hide MaintenanceMargin;
    GainIs(b, close);
    var p := PositionOf(b, wallet, cfg.symbol);
    LiquidatedMeans(p, close);
    assert p.Balance(close) == wallet + GainAt(b, close);
    assert p.Maint(close) == MaintAt(b, close, cfg.symbol) by { MaintIs(b, close, cfg.symbol); }
    assert WipedOut(cfg, b, close, wallet) <==> p.Liquidated(close);
  }

  // ---------- One candle ----------

  /** The basket after the candle's fills, as its risk check finds it. */
  function BeforeRisk(b: Basket, after: Basket): Basket {
    after.(peakLoss := b.peakLoss)
  }

  ghost predicate SameIdentity(b: Basket, c: Basket) {
    && c.side == b.side && c.entryTime == b.entryTime && c.symbol == b.symbol && c.risk == b.risk
    && c.levels == b.levels && c.tpTarget == b.tpTarget && c.entryPrice == b.entryPrice
  }

  lemma {:induction false} FillAllIdentity(b: Basket, sos: seq<Level>)
    ensures var after := FillAll(b, sos);
            SameIdentity(b, after) && after.peakLoss == b.peakLoss && after.closed == b.closed
  {
    hide Notional, Fee, CalculateTpPrice;
    if sos != [] {
      FillAllIdentity(b, sos[..|sos| - 1]);
    }
  }

  /** A candle closes an open basket by itself at the take-profit or, failing that, by the risk controller. */
  lemma BarOutcome(b: Basket, bar: BasketBar, funding: seq<FundingEvent>)
    requires !b.closed
    ensures var after, mid := AfterBar(b, bar, funding), (bar.high + bar.low) / 2.0;
            var target := ReachesTarget(b, bar.high, bar.low);
            var risk := RiskStops(BeforeRisk(b, after), mid, bar.wallet);
            && SameIdentity(b, after)
            && (after.closed <==> target || risk)
            && (target ==> after.exitReason.TakeProfit? && after.exitPrice == b.tpPrice)
            && (!target && risk ==> after.exitReason.RiskStop? && after.exitPrice == Worsened(b.side, mid))
  {
    hide Notional, Fee, CalculateTpPrice, Unrealized, Evaluate, TpPenetrated, Funded, NewlyFilled, FillAll, RiskChecked,
         ReachesTarget, RiskStops, Worsened;
    FundingOnlyMovesCounters(b.(barsSinceFill := b.barsSinceFill + 1), bar, funding, |funding|);
    TakesProfitExactly(b, bar, funding);
    var aged := Aged(b, bar, funding);
    if !TakesProfit(aged, bar) {
      var sos := NewlyFilled(aged, bar.high, bar.low, |aged.levels|);
      FillAllIdentity(aged, sos);
      var filled := FillAll(aged, sos);
      var ready := if sos != [] then filled.(barsSinceFill := 0) else filled;
      RiskStopsExactly(ready, bar);
      RiskSees(b, ready, bar);
    }
  }

  lemma RiskKeepsPosition(ready: Basket, bar: BasketBar)
    ensures var after := RiskChecked(ready, bar);
            && SameIdentity(ready, after)
            && after.qty == ready.qty && after.avgEntry == ready.avgEntry && after.filled == ready.filled
  {
    hide Evaluate, Fee, Notional, Unrealized;
  }

  lemma SameStops(b: Basket, c: Basket, price: real, wallet: real)
    requires c.side == b.side && c.qty == b.qty && c.avgEntry == b.avgEntry && c.filled == b.filled
    requires c.symbol == b.symbol && c.risk == b.risk && c.peakLoss == b.peakLoss
    ensures RiskStops(b, price, wallet) <==> RiskStops(c, price, wallet)
  {
    hide MaintenanceMargin, GuardStops, LossReached;
    assert GainAt(b, price) == GainAt(c, price);
    assert MaintAt(b, price, b.symbol) == MaintAt(c, price, c.symbol);
    hide GainAt, MaintAt;
  }

  /** Closing changes none of what the risk check looks at. */
  lemma RiskSees(b: Basket, ready: Basket, bar: BasketBar)
    requires ready.peakLoss == b.peakLoss && !ready.closed
    ensures var after, mid := RiskChecked(ready, bar), (bar.high + bar.low) / 2.0;
            && SameIdentity(ready, after)
            && (RiskStops(BeforeRisk(b, after), mid, bar.wallet) <==> RiskStops(ready, mid, bar.wallet))
  {
    hide RiskChecked, RiskStops;
    RiskKeepsPosition(ready, bar);
    SameStops(BeforeRisk(b, RiskChecked(ready, bar)), ready, (bar.high + bar.low) / 2.0, bar.wallet);
  }

  /** How a candle ends for an open basket: at its take-profit, or else by the risk controller, or else by its age, or
      else by liquidation, or else not at all. */
  function Outcome(cfg: EngineConfig, s: EngineState, c: Candle, after: Basket, paid: real): ExitReason
    requires s.active.Some?
  {
    var b := s.active.value;
    if ReachesTarget(b, c.high, c.low) then TakeProfit
    else if RiskStops(BeforeRisk(b, after), (c.high + c.low) / 2.0, s.wallet) then RiskStop
    else if AgeReached(cfg, b, c.openTime) then MaxAge
    else if NotBacked(after, c.close, paid, cfg.symbol) then WipeOut
    else NotExited
  }

  /** Where it is priced. */
  function ExitAt(b: Basket, c: Candle, reason: ExitReason): real {
    match reason
    case TakeProfit => b.tpPrice
    case RiskStop => Worsened(b.side, (c.high + c.low) / 2.0)
    case _ => Worsened(b.side, c.close)
  }

  /** Every candle met with an open basket, decided in amounts: either the basket survives, or it becomes the next trade
      with exactly this reason at exactly this price. `after` is the basket with the candle's fills, `paid` the wallet
      after paying them. */
  lemma CandleOutcome(cfg: EngineConfig, s: EngineState, c: Candle, funding: seq<FundingEvent>)
    requires s.active.Some? && !s.active.value.closed && !s.stopped && CostlyLevels(s.active.value.levels)
    ensures var b, bar, t := s.active.value, BarOf(c, s.wallet), Step(cfg, s, c, funding);
            var after, paid := AfterBar(b, bar, funding), s.wallet - SumMargin(FillsOf(b, bar, funding));
            var reason := Outcome(cfg, s, c, after, paid);
            if reason.NotExited?
            then && t.active == Some(after) && t.trades == s.trades && !t.stopped && t.liquidated == s.liquidated
                 && t.wallet == paid && t.locked == s.locked + (s.wallet - paid)
            else && t.active.None? && |t.trades| == |s.trades| + 1 && t.trades[..|s.trades|] == s.trades
                 && var trade := t.trades[|s.trades|];
                 && SameIdentity(b, trade) && trade.closed
                 && trade.exitReason == reason && trade.exitPrice == ExitAt(b, c, reason)
                 && trade.filled == after.filled && trade.qty == after.qty && trade.avgEntry == after.avgEntry
                 && var settled := s.wallet + s.locked + trade.pnl;
                 && t.locked == 0.0
                 && t.wallet == (if reason.WipeOut? && settled < 0.0 then 0.0 else settled)
                 && t.barsSinceClose == (if reason.WipeOut? then s.barsSinceClose + 1 else 0)
                 && (t.stopped <==> reason.WipeOut? || settled <= 0.0)
                 && (t.liquidated <==> s.liquidated || t.stopped)
  {
    hide AfterBar, FillsOf, SumMargin, TryOpen, ReachesTarget, RiskStops, NotBacked, AgeReached, Unrealized, Notional,
         Fee, WipedOut, TooOld;
    var b, bar := s.active.value, BarOf(c, s.wallet);
    var after, paid := AfterBar(b, bar, funding), s.wallet - SumMargin(FillsOf(b, bar, funding));
    BarOutcome(b, bar, funding);
    ConsumedNotNegative(b, bar, funding);
    TooOldExactly(cfg, after, c.openTime);
    SameAge(cfg, b, after, c.openTime);
    WipedOutExactly(cfg, after, c.close, paid);
    assert Slipped(b.side, c.close) == Worsened(b.side, c.close);
  }

  lemma SameAge(cfg: EngineConfig, b: Basket, c: Basket, now: int)
    requires b.entryTime == c.entryTime
    ensures AgeReached(cfg, b, now) <==> AgeReached(cfg, c, now)
  {}

  /** A candle met without an open basket, decided in amounts: it opens one exactly when four candles have passed since
      the one that closed the last, an entry is signalled with a positive ATR, and the base order, rounded down, is at
      least the exchange's minimum. */
  lemma EntryOutcome(cfg: EngineConfig, s: EngineState, c: Candle, funding: seq<FundingEvent>)
    requires cfg.leverage >= 1 && s.active.None? && !s.stopped
    ensures var t := Step(cfg, s, c, funding);
            && t.trades == s.trades && !t.stopped && t.barsSinceClose == s.barsSinceClose + 1
            && (t.active.Some? <==>
                  && s.barsSinceClose >= 4 && c.signal.Enter? && c.signal.atr > 0.0
                  && BigEnough(cfg, c.signal, c.close, s.wallet))
            && (t.active.Some? ==>
                  && t.active.value.side == c.signal.side && t.active.value.entryTime == c.openTime
                  && t.active.value.entryPrice == EntryPrice(c.signal.side, c.close, c.signal.slip)
                  && t.active.value.barsSinceFill >= 1 && !t.active.value.closed
                  && t.wallet == s.wallet - t.active.value.margin)
  {
    hide GridOf, KeptLevels, RoundDown, CalculateTpPrice, Fee, EntryPrice;
    if c.signal.Enter? {
      EntryLeavesHalf(cfg, c.signal.side, EntryPrice(c.signal.side, c.close, c.signal.slip), c.signal.atr, s.wallet,
                      c.openTime);
    }
  }

  /** The smallest order of a symbol, and the step its quantities are rounded down to. */
  function SmallestOrder(symbol: string): real {
    if symbol == "SOLUSDT" then 1.0 else if symbol == "XRPUSDT" then 0.1 else 0.001
  }

  /** The base order, rounded down, reaches the smallest order of its symbol and a value of 5. */
  predicate BigEnough(cfg: EngineConfig, signal: Signal, close: real, wallet: real)
    requires signal.Enter?
  {
    var price := EntryPrice(signal.side, close, signal.slip);
    var qty := RoundDown(GridOf(ParamsOf(cfg, signal.side, price, signal.atr, wallet)).boQty,
                         SmallestOrder(cfg.symbol));
    qty >= SmallestOrder(cfg.symbol) && price * qty >= 5.0
  }

  /** The smallest price step of a symbol. */
  function PriceStep(symbol: string): real {
    match symbol
    case "BTCUSDT" => 0.1
    case "SOLUSDT" => 0.001
    case "XRPUSDT" => 0.0001
    case _ => 0.01
  }

  predicate CountsSteps(value: real, k: int, step: real) {
    value == k as real * step
  }

  /** The value is a whole number of steps, the largest that does not pass `exact` on the way from zero. */
  ghost predicate WholeSteps(value: real, exact: real, step: real) {
    && (exists k: int :: CountsSteps(value, k, step))
    && (if exact >= 0.0 then value <= exact < value + step else value - step < exact <= value)
  }

  lemma RoundsToWholeSteps(exact: real, step: real)
    requires step > 0.0
    ensures WholeSteps(RoundDown(exact, step), exact, step)
  {
    if exact >= 0.0 {
      RoundDownLoses(exact, step);
    } else {
      RoundDownOfNegative(exact, step);
    }
    assert CountsSteps(RoundDown(exact, step), Trunc(exact / step), step);
  }

  /** What a freshly opened basket is: side, price and time as asked, the base margin locked, margin times leverage over
      price in coins and the exact take-profit price in whole steps of the symbol, the configured fees and limits, one
      taker fee paid, nothing else on the books. */
  lemma OpenedTerms(cfg: EngineConfig, side: Side, price: real, atr: real, wallet: real, time: int)
    requires TryOpen(cfg, side, price, atr, wallet, time).Some?
    ensures var b := TryOpen(cfg, side, price, atr, wallet, time).value;
            var p := ParamsOf(cfg, side, price, atr, wallet);
            && b.side == side && b.entryPrice == price && b.avgEntry == price && b.entryTime == time
            && b.symbol == cfg.symbol && b.risk == cfg.risk && b.takerFee == cfg.takerFee && b.makerFee == cfg.makerFee
            && b.margin == BoMargin(p) && b.tpTarget == TpTarget(p)
            && b.tradingFees == price * b.qty * cfg.takerFee && b.fundingPaid == 0.0 && b.fundingReceived == 0.0
            && !b.closed && b.filled == [] && b.peakLoss == 0.0 && b.barsSinceFill >= 1
            && (price > 0.0 ==>
                  && WholeSteps(b.qty, BoMargin(p) * cfg.leverage as real / price, SmallestOrder(cfg.symbol))
                  && b.qty > 0.0
                  && WholeSteps(b.tpPrice, if side.LONG? then price + TpTarget(p) / b.qty
                                           else price - TpTarget(p) / b.qty, PriceStep(cfg.symbol)))
  {
    hide RoundDown, BoMargin, TpTarget, KeptLevels, LevelAt, WholeSteps;
    var g := GridOf(ParamsOf(cfg, side, price, atr, wallet));
    var b := TryOpen(cfg, side, price, atr, wallet, time).value;
    if price > 0.0 {
      assert g.boQty == BoMargin(ParamsOf(cfg, side, price, atr, wallet)) * cfg.leverage as real / price;
      assert b.qty == RoundDown(g.boQty, SmallestOrder(cfg.symbol)) > 0.0;
      RoundsToWholeSteps(g.boQty, SmallestOrder(cfg.symbol));
      RoundsToWholeSteps(CalculateTpPrice(side, price, b.qty, g.tpTarget), PriceStep(cfg.symbol));
    }
  }

  // ---------- Every run ----------

  /** The trade is the outcome of this candle for the basket open before it. */
  ghost predicate EndedBy(cfg: EngineConfig, s: EngineState, c: Candle, funding: seq<FundingEvent>, trade: Basket) {
    && s.active.Some? && SameIdentity(s.active.value, trade) && !trade.exitReason.NotExited?
    && var b, bar := s.active.value, BarOf(c, s.wallet);
       var after, paid := AfterBar(b, bar, funding), s.wallet - SumMargin(FillsOf(b, bar, funding));
       && trade.exitReason == Outcome(cfg, s, c, after, paid)
       && trade.exitPrice == ExitAt(b, c, trade.exitReason)
       && trade.filled == after.filled
  }

  /** The trade ended on candle number j. */
  ghost predicate EndedOn(cfg: EngineConfig, candles: seq<Candle>, funding: seq<FundingEvent>, j: nat, trade: Basket) {
    j < |candles| && EndedBy(cfg, RunCandles(cfg, candles[..j], funding), candles[j], funding, trade)
  }

  lemma StepEnds(cfg: EngineConfig, s: EngineState, c: Candle, funding: seq<FundingEvent>)
    requires cfg.leverage >= 1 && Conserved(cfg, s)
    ensures var t := Step(cfg, s, c, funding);
            && |s.trades| <= |t.trades| <= |s.trades| + 1 && t.trades[..|s.trades|] == s.trades
            && (|t.trades| > |s.trades| ==> EndedBy(cfg, s, c, funding, t.trades[|s.trades|]))
  {
    hide Step, AfterBar, FillsOf, Outcome, ExitAt, SumMargin, TotalPnl;
    if s.stopped {
      StoppedStep(cfg, s, c, funding);
    } else if s.active.Some? {
      CandleOutcome(cfg, s, c, funding);
    } else {
      EntryOutcome(cfg, s, c, funding);
    }
  }

  lemma EndsOnLast(cfg: EngineConfig, candles: seq<Candle>, funding: seq<FundingEvent>)
    requires cfg.leverage >= 1 && candles != []
    ensures var before := RunCandles(cfg, candles[..|candles| - 1], funding);
            var after := RunCandles(cfg, candles, funding);
            && |before.trades| <= |after.trades| <= |before.trades| + 1
            && after.trades[..|before.trades|] == before.trades
            && (|after.trades| > |before.trades| ==>
                  EndedOn(cfg, candles, funding, |candles| - 1, after.trades[|before.trades|]))
  {
    hide RunCandles, Step, EndedBy, Conserved;
    var n := |candles| - 1;
    RunConserves(cfg, candles[..n], funding);
    StepEnds(cfg, RunCandles(cfg, candles[..n], funding), candles[n], funding);
    LastStep(cfg, candles, funding);
  }

  lemma LastStep(cfg: EngineConfig, candles: seq<Candle>, funding: seq<FundingEvent>)
    requires candles != []
    ensures RunCandles(cfg, candles, funding)
            == Step(cfg, RunCandles(cfg, candles[..|candles| - 1], funding), candles[|candles| - 1], funding)
  {}

  lemma StoppedStep(cfg: EngineConfig, s: EngineState, c: Candle, funding: seq<FundingEvent>)
    requires s.stopped
    ensures Step(cfg, s, c, funding) == s
  {}

  lemma EndedEarlier(cfg: EngineConfig, candles: seq<Candle>, funding: seq<FundingEvent>, j: nat, trade: Basket)
    requires candles != [] && EndedOn(cfg, candles[..|candles| - 1], funding, j, trade)
    ensures EndedOn(cfg, candles, funding, j, trade)
  {
    hide RunCandles, EndedBy;
    assert candles[..|candles| - 1][..j] == candles[..j];
  }

  ghost predicate HasItsCandle(cfg: EngineConfig, candles: seq<Candle>, funding: seq<FundingEvent>, trade: Basket) {
    exists j: nat :: EndedOn(cfg, candles, funding, j, trade)
  }

  ghost predicate AllEnded(cfg: EngineConfig, candles: seq<Candle>, funding: seq<FundingEvent>, trades: seq<Basket>) {
    forall i :: 0 <= i < |trades| ==> HasItsCandle(cfg, candles, funding, trades[i])
  }

  lemma EndedHasCandle(cfg: EngineConfig, candles: seq<Candle>, funding: seq<FundingEvent>, j: nat, trade: Basket)
    requires EndedOn(cfg, candles, funding, j, trade)
    ensures HasItsCandle(cfg, candles, funding, trade)
  {
    hide EndedOn;
  }

  lemma EarlierHasCandle(cfg: EngineConfig, candles: seq<Candle>, funding: seq<FundingEvent>, trade: Basket)
    requires candles != [] && HasItsCandle(cfg, candles[..|candles| - 1], funding, trade)
    ensures HasItsCandle(cfg, candles, funding, trade)
  {
    hide EndedOn;
    var j: nat :| EndedOn(cfg, candles[..|candles| - 1], funding, j, trade);
    EndedEarlier(cfg, candles, funding, j, trade);
  }

  lemma AllEndedGrows(cfg: EngineConfig, candles: seq<Candle>, funding: seq<FundingEvent>, before: seq<Basket>,
                      trades: seq<Basket>)
    requires candles != [] && AllEnded(cfg, candles[..|candles| - 1], funding, before)
    requires |before| <= |trades| <= |before| + 1 && trades[..|before|] == before
    requires |trades| > |before| ==> EndedOn(cfg, candles, funding, |candles| - 1, trades[|before|])
    ensures AllEnded(cfg, candles, funding, trades)
  {
    hide EndedOn, HasItsCandle;
    forall i | 0 <= i < |trades|
      ensures HasItsCandle(cfg, candles, funding, trades[i])
    {
      if i < |before| {
        assert trades[..|before|][i] == before[i];
        EarlierHasCandle(cfg, candles, funding, trades[i]);
      } else {
        EndedHasCandle(cfg, candles, funding, |candles| - 1, trades[i]);
      }
    }
  }

  /** Every trade of every run is the outcome, in this sense, of one of its candles. */
  lemma {:induction false} EveryTradeHasItsCandle(cfg: EngineConfig, candles: seq<Candle>, funding: seq<FundingEvent>)
    requires cfg.leverage >= 1
    ensures AllEnded(cfg, candles, funding, RunCandles(cfg, candles, funding).trades)
  {
    hide Step, EndedOn;
    if candles != [] {
      hide AllEnded;
      var before := candles[..|candles| - 1];
      EveryTradeHasItsCandle(cfg, before, funding);
      EndsOnLast(cfg, candles, funding);
      AllEndedGrows(cfg, candles, funding, RunCandles(cfg, before, funding).trades,
                    RunCandles(cfg, candles, funding).trades);
    }
  }

  /** Trades that ended by age ended on a candle at which they had been open for the configured number of hours, at its
      close with the slippage. */
  lemma AgeTradesAreOld(cfg: EngineConfig, candles: seq<Candle>, funding: seq<FundingEvent>, i: nat)
    requires cfg.leverage >= 1 && i < |RunCandles(cfg, candles, funding).trades|
    ensures var trade := RunCandles(cfg, candles, funding).trades[i];
            trade.exitReason.MaxAge? ==>
              exists j :: 0 <= j < |candles| && cfg.maxAgeHours > 0.0
                          && (candles[j].openTime - trade.entryTime) as real >= cfg.maxAgeHours * 3_600_000.0
                          && trade.exitPrice == Worsened(trade.side, candles[j].close)
  {
    hide RunCandles, AfterBar, FillsOf, SumMargin, ReachesTarget, RiskStops, NotBacked, Worsened;
    EveryTradeHasItsCandle(cfg, candles, funding);
    assert HasItsCandle(cfg, candles, funding, RunCandles(cfg, candles, funding).trades[i]);
    var trade := RunCandles(cfg, candles, funding).trades[i];
    var j: nat :| EndedOn(cfg, candles, funding, j, trade);
  }

  /** With the margin guard off, a trade stopped by the risk controller had the trigger number of safety orders. */
  lemma StoppedTradesHaveTrigger(cfg: EngineConfig, candles: seq<Candle>, funding: seq<FundingEvent>, i: nat)
    requires cfg.leverage >= 1 && i < |RunCandles(cfg, candles, funding).trades|
    ensures var trade := RunCandles(cfg, candles, funding).trades[i];
            trade.exitReason.RiskStop? ==>
              trade.risk.enabled && (trade.risk.guardEnabled || |trade.filled| >= trade.risk.soTrigger)
  {
    hide RunCandles, FillsOf, SumMargin, ReachesTarget, NotBacked, Worsened, AgeReached, GainAt, MaintAt, LossReached,
         DeepestLoss, MarginReached, AfterBar;
    EveryTradeHasItsCandle(cfg, candles, funding);
    RunConserves(cfg, candles, funding);
    var trade := RunCandles(cfg, candles, funding).trades[i];
    var j: nat :| EndedOn(cfg, candles, funding, j, trade);
    var s, c := RunCandles(cfg, candles[..j], funding), candles[j];
    RunKeepsActiveOpen(cfg, candles[..j], funding);
    BarOutcome(s.active.value, BarOf(c, s.wallet), funding);
  }

  /** After every candle of every run the open basket is younger than the limit. */
  lemma OpenBasketsAreYoung(cfg: EngineConfig, candles: seq<Candle>, funding: seq<FundingEvent>)
    requires cfg.leverage >= 1 && cfg.maxAgeHours > 0.0 && candles != []
    ensures var s := RunCandles(cfg, candles, funding);
            s.active.Some? ==>
              (candles[|candles| - 1].openTime - s.active.value.entryTime) as real < cfg.maxAgeHours * 3_600_000.0
  {
    var n := |candles| - 1;
    var before, c := RunCandles(cfg, candles[..n], funding), candles[n];
    RunConserves(cfg, candles[..n], funding);
    MulPos(cfg.maxAgeHours, 3_600_000.0);
    hide Step, AfterBar, FillsOf, ReachesTarget, RiskStops, NotBacked, Worsened, SumMargin, RunCandles;
    LastStep(cfg, candles, funding);
    if before.stopped {
      StoppedStep(cfg, before, c, funding);
    } else if before.active.Some? {
      CandleOutcome(cfg, before, c, funding);
      BarOutcome(before.active.value, BarOf(c, before.wallet), funding);
    } else {
      EntryOutcome(cfg, before, c, funding);
    }
  }

  // ---------- The cooldown ----------

  ghost predicate ClosesOn(cfg: EngineConfig, candles: seq<Candle>, funding: seq<FundingEvent>, i: nat)
    requires i < |candles|
  {
    |RunCandles(cfg, candles[..i + 1], funding).trades| > |RunCandles(cfg, candles[..i], funding).trades|
  }

  /** The counter never runs ahead of the candles since a close. */
  lemma {:induction false} CounterSinceClose(cfg: EngineConfig, candles: seq<Candle>, funding: seq<FundingEvent>,
                                             i: nat)
    requires cfg.leverage >= 1 && i < |candles| && ClosesOn(cfg, candles, funding, i)
    ensures var s := RunCandles(cfg, candles, funding);
            s.stopped || s.barsSinceClose <= |candles| - 1 - i
    decreases |candles|
  {
    hide RunCandles, Step;
    var n := |candles| - 1;
    var before, c := RunCandles(cfg, candles[..n], funding), candles[n];
    LastStep(cfg, candles, funding);
    assert candles[..n + 1] == candles;
    if i < n {
      assert candles[..n][..i + 1] == candles[..i + 1] && candles[..n][..i] == candles[..i];
      CounterSinceClose(cfg, candles[..n], funding, i);
      CounterSteps(cfg, before, c, funding);
    } else {
      CloseResets(cfg, before, c, funding);
    }
  }

  lemma CounterSteps(cfg: EngineConfig, s: EngineState, c: Candle, funding: seq<FundingEvent>)
    ensures var t := Step(cfg, s, c, funding);
            t.stopped || t.barsSinceClose == s.barsSinceClose + 1 || t.barsSinceClose == 0
    ensures s.stopped ==> Step(cfg, s, c, funding) == s
  {
    hide Held, Consumed, WipedOut, TryOpen, Closed;
  }

  lemma CloseResets(cfg: EngineConfig, s: EngineState, c: Candle, funding: seq<FundingEvent>)
    requires |Step(cfg, s, c, funding).trades| > |s.trades|
    ensures var t := Step(cfg, s, c, funding); t.stopped || t.barsSinceClose == 0
  {
    hide Held, Consumed, WipedOut, TryOpen, Closed;
  }

  /** In every run a basket is opened at the earliest on the fifth candle after the one that closed the last. */
  lemma EntriesCoolDown(cfg: EngineConfig, candles: seq<Candle>, funding: seq<FundingEvent>, i: nat, j: nat)
    requires cfg.leverage >= 1 && i < j < |candles| && ClosesOn(cfg, candles, funding, i)
    requires RunCandles(cfg, candles[..j], funding).active.None?
    ensures RunCandles(cfg, candles[..j + 1], funding).active.Some? ==> j >= i + 5
  {
    hide RunCandles, Step;
    assert candles[..j][..i + 1] == candles[..i + 1] && candles[..j][..i] == candles[..i];
    CounterSinceClose(cfg, candles[..j], funding, i);
    assert candles[..j + 1][..j] == candles[..j];
    LastStep(cfg, candles[..j + 1], funding);
    var s := RunCandles(cfg, candles[..j], funding);
    if s.stopped {
      StoppedStep(cfg, s, candles[j], funding);
    } else {
      EntryOutcome(cfg, s, candles[j], funding);
    }
  }
}
