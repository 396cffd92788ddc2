/** SimulatedBasket of backtest_engine.py: one basket of the bar-by-bar simulation. */
module SimBasket {
  import opened Liquidation
  import opened RiskController
  import opened GridLevels

  datatype ExitReason = NotExited | TakeProfit | RiskStop | MaxAge | WipeOut | EndOfData

  datatype FundingEvent = FundingEvent(time: int, rate: real, markPrice: real)

  /** One candle as the basket sees it, with the wallet balance the engine passes along. */
  datatype BasketBar = BasketBar(high: real, low: real, openTime: int, wallet: real)

  datatype Basket = Basket(
    side: Side,
    entryPrice: real,
    avgEntry: real,
    qty: real,
    margin: real,
    levels: seq<Level>,
    filled: seq<int>,
    tpTarget: real,
    tpPrice: real,
    takerFee: real,
    makerFee: real,
    tradingFees: real,
    fundingPaid: real,
    fundingReceived: real,
    closed: bool,
    exitPrice: real,
    exitReason: ExitReason,
    pnl: real,
    barsSinceFill: int,
    entryTime: int,
    symbol: string,
    risk: RiskConfig,
    peakLoss: real)

  /** A fee on a notional amount. */
  function Fee(notional: real, rate: real): real {
    notional * rate
  }

  const FUNDING_WINDOW_MS := 300_000
  const MIN_PENETRATION := 0.0002
  const CLOSE_SLIPPAGE := 0.0005

  function NewBasket(side: Side, entryPrice: real, boQty: real, boMargin: real, levels: seq<Level>,
                     tpTarget: real, tpPrice: real, entryTime: int, takerFee: real, makerFee: real,
                     symbol: string, risk: RiskConfig): Basket
  {
    Basket(side, entryPrice, entryPrice, boQty, boMargin, levels, [], tpTarget, tpPrice, takerFee, makerFee,
           Fee(Notional(entryPrice, boQty), takerFee), 0.0, 0.0, false, 0.0, NotExited, 0.0, 999, entryTime,
           symbol, risk, 0.0)
  }

  // ---------- What one candle does, step by step ----------

  /** What the position pays, negative when it receives. */
  function FundingCost(side: Side, qty: real, markPrice: real, rate: real): real {
    if side.LONG? then Notional(markPrice, qty) * rate else -(Notional(markPrice, qty) * rate)
  }

  function AddFunding(b: Basket, markPrice: real, rate: real): Basket {
    var cost := FundingCost(b.side, b.qty, markPrice, rate);
    if cost > 0.0 then b.(fundingPaid := b.fundingPaid + cost)
    else b.(fundingReceived := b.fundingReceived + Abs(cost))
  }

  predicate InWindow(e: FundingEvent, openTime: int) {
    openTime <= e.time < openTime + FUNDING_WINDOW_MS
  }

  /** The first n funding events applied to the basket. */
  function Funded(b: Basket, bar: BasketBar, funding: seq<FundingEvent>, n: nat): Basket
    requires n <= |funding|
  {
    if n == 0 then b
    else
      var before := Funded(b, bar, funding, n - 1);
      var e := funding[n - 1];
      if InWindow(e, bar.openTime)
      then AddFunding(before, if e.markPrice <= 0.0 then (bar.high + bar.low) / 2.0 else e.markPrice, e.rate)
      else before
  }

  /** The candle reaches the take-profit price and goes 0.02 percent through it. */
  predicate TpPenetrated(side: Side, tpPrice: real, high: real, low: real) {
    if side.LONG? then
      high >= tpPrice && (if tpPrice > 0.0 then (high - tpPrice) / tpPrice else 0.0) >= MIN_PENETRATION
    else
      low <= tpPrice && (if tpPrice > 0.0 then (tpPrice - low) / tpPrice else 0.0) >= MIN_PENETRATION
  }

  predicate Touches(side: Side, price: real, high: real, low: real) {
    if side.LONG? then low <= price else high >= price
  }

  /** The unfilled levels among the first n that the candle touches, in ladder order. */
  function NewlyFilled(b: Basket, high: real, low: real, n: nat): seq<Level>
    requires n <= |b.levels|
  {
    if n == 0 then []
    else
      var so := b.levels[n - 1];
      NewlyFilled(b, high, low, n - 1)
      + if so.index !in b.filled && Touches(b.side, so.fillPrice, high, low) then [so] else []
  }

  function Average(cost: real, qty: real): real {
    if qty > 0.0 then cost / qty else 0.0
  }

  function Fill(b: Basket, so: Level): Basket {
    var qty := b.qty + so.qty;
    var avg := Average(Notional(b.avgEntry, b.qty) + Notional(so.fillPrice, so.qty), qty);
    b.(filled := b.filled + [so.index],
       qty := qty,
       avgEntry := avg,
       margin := b.margin + so.margin,
       tradingFees := b.tradingFees + Fee(Notional(so.fillPrice, so.qty), b.takerFee),
       tpPrice := CalculateTpPrice(b.side, avg, qty, b.tpTarget))
  }

  function FillAll(b: Basket, sos: seq<Level>): Basket {
    if sos == [] then b else Fill(FillAll(b, sos[..|sos| - 1]), sos[|sos| - 1])
  }

  function SumMargin(sos: seq<Level>): real {
    if sos == [] then 0.0 else SumMargin(sos[..|sos| - 1]) + sos[|sos| - 1].margin
  }

  function Closed(b: Basket, reason: ExitReason, exitPrice: real): Basket {
    var fees := b.tradingFees
                + Fee(Notional(exitPrice, b.qty), if reason.TakeProfit? then b.makerFee else b.takerFee);
    b.(closed := true,
       exitPrice := exitPrice,
       exitReason := reason,
       tradingFees := fees,
       pnl := Unrealized(b.side, b.avgEntry, b.qty, exitPrice) - (fees + (b.fundingPaid - b.fundingReceived)))
  }

  function Slipped(side: Side, price: real): real {
    if side.LONG? then price - price * CLOSE_SLIPPAGE else price + price * CLOSE_SLIPPAGE
  }

  function ForceClosed(b: Basket, price: real, reason: ExitReason): Basket {
    Closed(b, reason, if reason.EndOfData? then price else Slipped(b.side, price))
  }

  function RiskChecked(b: Basket, bar: BasketBar): Basket {
    if !b.risk.enabled then b
    else
      var price := (bar.high + bar.low) / 2.0;
      var unrealized := Unrealized(b.side, b.avgEntry, b.qty, price);
      var loss := if unrealized < 0.0 then -unrealized else 0.0;
      var tracked := b.(peakLoss := if loss > b.peakLoss then loss else b.peakLoss);
      if Evaluate(|b.filled|, unrealized, bar.wallet, Notional(price, b.qty), b.symbol, b.risk, tracked.peakLoss).Keep?
      then tracked
      else Closed(tracked, RiskStop, Slipped(b.side, price))
  }

  /** The part of a candle before the safety orders: counters and funding. */
  function Aged(b: Basket, bar: BasketBar, funding: seq<FundingEvent>): Basket {
    Funded(b.(barsSinceFill := b.barsSinceFill + 1), bar, funding, |funding|)
  }

  predicate TakesProfit(b: Basket, bar: BasketBar) {
    b.barsSinceFill >= 2 && TpPenetrated(b.side, b.tpPrice, bar.high, bar.low)
  }

  /** The safety orders this candle fills, empty when it closes at the take-profit first. */
  function FillsOf(b: Basket, bar: BasketBar, funding: seq<FundingEvent>): seq<Level> {
    var aged := Aged(b, bar, funding);
    if b.closed || TakesProfit(aged, bar) then []
    else NewlyFilled(aged, bar.high, bar.low, |aged.levels|)
  }

  function AfterBar(b: Basket, bar: BasketBar, funding: seq<FundingEvent>): Basket {
    if b.closed then b
    else
      var aged := Aged(b, bar, funding);
      if TakesProfit(aged, bar) then Closed(aged, TakeProfit, aged.tpPrice)
      else
        var sos := NewlyFilled(aged, bar.high, bar.low, |aged.levels|);
        var filled := FillAll(aged, sos);
        RiskChecked(if sos != [] then filled.(barsSinceFill := 0) else filled, bar)
  }

  // ---------- The class ----------

  class SimulatedBasket {
    const side: Side
    const entryPrice: real
    var avgEntry: real
    var totalQty: real
    var totalMargin: real
    const soLevels: seq<Level>
    var filledSoIndices: seq<int>
    const tpTargetUsd: real
    var tpPrice: real
    const takerFee: real
    const makerFee: real
    var tradingFees: real
    var fundingPaid: real
    var fundingReceived: real
    var isClosed: bool
    var exitPrice: real
    var exitReason: ExitReason
    var pnl: real
    var barsSinceLastSoFill: int
    const entryTime: int
    const symbol: string
    const riskConfig: RiskConfig
    var peakLossUsd: real

    function View(): Basket
      reads this
    {
      Basket(side, entryPrice, avgEntry, totalQty, totalMargin, soLevels, filledSoIndices, tpTargetUsd, tpPrice,
             takerFee, makerFee, tradingFees, fundingPaid, fundingReceived, isClosed, exitPrice, exitReason, pnl,
             barsSinceLastSoFill, entryTime, symbol, riskConfig, peakLossUsd)
    }

    constructor (side: Side, entryPrice: real, boQty: real, boMargin: real, soLevels: seq<Level>,
                 tpTargetUsd: real, tpPrice: real, entryTime: int, takerFee: real, makerFee: real,
                 symbol: string, riskConfig: RiskConfig)
      ensures View() == NewBasket(side, entryPrice, boQty, boMargin, soLevels, tpTargetUsd, tpPrice, entryTime,
                                  takerFee, makerFee, symbol, riskConfig)
    {
      this.side, this.entryPrice, this.avgEntry := side, entryPrice, entryPrice;
      this.totalQty, this.totalMargin := boQty, boMargin;
      this.soLevels, this.filledSoIndices := soLevels, [];
      this.tpTargetUsd, this.tpPrice := tpTargetUsd, tpPrice;
      this.takerFee, this.makerFee := takerFee, makerFee;
      this.tradingFees := Fee(Notional(entryPrice, boQty), takerFee);
      this.fundingPaid, this.fundingReceived := 0.0, 0.0;
      this.isClosed, this.exitPrice, this.exitReason, this.pnl := false, 0.0, NotExited, 0.0;
      this.barsSinceLastSoFill := 999;
      this.entryTime, this.symbol, this.riskConfig := entryTime, symbol, riskConfig;
      this.peakLossUsd := 0.0;
    }

    method ApplyFunding(bar: BasketBar, funding: seq<FundingEvent>)
      modifies this
      ensures View() == Funded(old(View()), bar, funding, |funding|)
    {
      hide FundingCost;
      var i := 0;
      while i < |funding|
        invariant 0 <= i <= |funding|
        invariant View() == Funded(old(View()), bar, funding, i)
      {
        var e := funding[i];
        if InWindow(e, bar.openTime) {
          var mark := if e.markPrice <= 0.0 then (bar.high + bar.low) / 2.0 else e.markPrice;
          var cost := FundingCost(side, totalQty, mark, e.rate);
          if cost > 0.0 {
            fundingPaid := fundingPaid + cost;
          } else {
            fundingReceived := fundingReceived + Abs(cost);
          }
        }
        i := i + 1;
      }
    }

    method Close(reason: ExitReason, price: real)
      modifies this
      ensures View() == Closed(old(View()), reason, price)
    {
      hide Notional, Fee, Unrealized;
      isClosed, exitPrice, exitReason := true, price, reason;
      if reason.TakeProfit? {
        tradingFees := tradingFees + Fee(Notional(price, totalQty), makerFee);
      } else {
        tradingFees := tradingFees + Fee(Notional(price, totalQty), takerFee);
      }
      var netFunding := fundingPaid - fundingReceived;
      pnl := Unrealized(side, avgEntry, totalQty, price) - (tradingFees + netFunding);
    }

    method ForceClose(price: real, reason: ExitReason)
      modifies this
      ensures View() == ForceClosed(old(View()), price, reason)
    {
      if reason.EndOfData? {
        Close(reason, price);
      } else {
        Close(reason, Slipped(side, price));
      }
    }

    /** Collects the unfilled levels the candle touches. */
    method CollectFills(high: real, low: real) returns (newlyFilled: seq<Level>)
      ensures newlyFilled == NewlyFilled(View(), high, low, |soLevels|)
    {
      newlyFilled := [];
      var i := 0;
      while i < |soLevels|
        invariant 0 <= i <= |soLevels|
        invariant newlyFilled == NewlyFilled(View(), high, low, i)
      {
        var so := soLevels[i];
        if so.index !in filledSoIndices {
          if side.LONG? && low <= so.fillPrice {
            newlyFilled := newlyFilled + [so];
          } else if side.SHORT? && high >= so.fillPrice {
            newlyFilled := newlyFilled + [so];
          }
        }
        i := i + 1;
      }
    }

    /** Executes safety orders one after the other, re-averaging the entry and moving the
        take-profit price after each. */
    method ExecuteFills(sos: seq<Level>) returns (consumed: real)
      modifies this
      ensures View() == FillAll(old(View()), sos)
      ensures consumed == SumMargin(sos)
    {
      hide Notional, Fee, CalculateTpPrice, Average;
      consumed := 0.0;
      var i := 0;
      while i < |sos|
        invariant 0 <= i <= |sos|
        invariant View() == FillAll(old(View()), sos[..i])
        invariant consumed == SumMargin(sos[..i])
      {
        var so := sos[i];
        assert sos[..i + 1][..i] == sos[..i];
        filledSoIndices := filledSoIndices + [so.index];
        var oldCost := Notional(avgEntry, totalQty);
        var newCost := Notional(so.fillPrice, so.qty);
        totalQty := totalQty + so.qty;
        avgEntry := Average(oldCost + newCost, totalQty);
        totalMargin := totalMargin + so.margin;
        consumed := consumed + so.margin;
        tradingFees := tradingFees + Fee(newCost, takerFee);
        tpPrice := CalculateTpPrice(side, avgEntry, totalQty, tpTargetUsd);
        i := i + 1;
      }
      assert sos[..|sos|] == sos;
    }

    method RiskCheck(bar: BasketBar)
      modifies this
      ensures View() == RiskChecked(old(View()), bar)
    {
      hide Notional, Unrealized, Evaluate, Fee;
      if riskConfig.enabled {
        var price := (bar.high + bar.low) / 2.0;
        var unrealized := Unrealized(side, avgEntry, totalQty, price);
        var loss := if unrealized < 0.0 then -unrealized else 0.0;
        if loss > peakLossUsd {
          peakLossUsd := loss;
        }
        var verdict := Evaluate(|filledSoIndices|, unrealized, bar.wallet, Notional(price, totalQty), symbol,
                                riskConfig, peakLossUsd);
        if !verdict.Keep? {
          Close(RiskStop, Slipped(side, price));
        }
      }
    }

    /** One candle; returns the margin the filled safety orders consumed. */
    method CheckFills(bar: BasketBar, funding: seq<FundingEvent>) returns (consumed: real)
      modifies this
      ensures View() == AfterBar(old(View()), bar, funding)
      ensures consumed == SumMargin(FillsOf(old(View()), bar, funding))
    {
      hide Notional, Fee, Unrealized, Evaluate, TpPenetrated, Closed, RiskChecked, Funded, NewlyFilled, FillAll;
      if isClosed {
        return 0.0;
      }
      barsSinceLastSoFill := barsSinceLastSoFill + 1;
      ApplyFunding(bar, funding);
      assert View() == Aged(old(View()), bar, funding);
      if barsSinceLastSoFill >= 2 {
        if TpPenetrated(side, tpPrice, bar.high, bar.low) {
          Close(TakeProfit, tpPrice);
          return 0.0;
        }
      }
      var sos := CollectFills(bar.high, bar.low);
      consumed := ExecuteFills(sos);
      if sos != [] {
        barsSinceLastSoFill := 0;
      }
      RiskCheck(bar);
    }
  }
}
