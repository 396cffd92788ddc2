/** What every basket of the simulation keeps, over any sequence of candles. */
module BasketFacts {
  import opened RealArith
  import opened Rounding
  import opened Liquidation
  import opened RiskController
  import opened GridLevels
  import opened SimBasket

  // ---------- Ladders ----------

  function Indices(sos: seq<Level>): seq<int> {
    seq(|sos|, i requires 0 <= i < |sos| => sos[i].index)
  }

  /** Every level costs margin and buys coins, and indices count up. */
  ghost predicate SoundLadder(levels: seq<Level>) {
    && (forall i :: 0 <= i < |levels| ==> levels[i].qty > 0.0 && levels[i].margin > 0.0)
    && (forall i, j :: 0 <= i < j < |levels| ==> levels[i].index < levels[j].index)
  }

  /** Prices never come back towards the entry further down the ladder.  Rounding to ticks may make
      neighbours equal, so the order is weak. */
  ghost predicate Sorted(side: Side, levels: seq<Level>) {
    forall i, j :: 0 <= i < j < |levels| ==> Worse(side, levels[i].fillPrice, levels[j].fillPrice)
  }

  /** One past the deepest level among the first n that a price range touches. */
  function Depth(side: Side, levels: seq<Level>, high: real, low: real, n: nat): (d: nat)
    requires n <= |levels|
    ensures d <= n
  {
    if n == 0 then 0
    else if Touches(side, levels[n - 1].fillPrice, high, low) then n
    else Depth(side, levels, high, low, n - 1)
  }

  /** On a sorted ladder the levels above the depth are exactly the touched ones. */
  lemma {:induction false} DepthMeans(side: Side, levels: seq<Level>, high: real, low: real, n: nat)
    requires n <= |levels| && Sorted(side, levels)
    ensures forall i :: 0 <= i < n ==>
              (i < Depth(side, levels, high, low, n) <==> Touches(side, levels[i].fillPrice, high, low))
  {
    if n > 0 {
      DepthMeans(side, levels, high, low, n - 1);
    }
  }

  /** Two price ranges reach as deep as their hull. */
  lemma {:induction false} DepthOfHull(side: Side, levels: seq<Level>, n: nat, h1: real, l1: real, h2: real, l2: real)
    requires n <= |levels|
    ensures var d1, d2 := Depth(side, levels, h1, l1, n), Depth(side, levels, h2, l2, n);
            Depth(side, levels, Max(h1, h2), Min(l1, l2), n) == if d1 >= d2 then d1 else d2
  {
    if n > 0 {
      DepthOfHull(side, levels, n - 1, h1, l1, h2, l2);
    }
  }

  /** What one candle fills, when the first k levels are filled already. */
  function FilledNow(levels: seq<Level>, k: nat, depth: nat): seq<Level>
    requires depth <= |levels|
  {
    if depth <= k then [] else levels[k..depth]
  }

  lemma {:induction false} NewlyFilledIsNextSlice(b: Basket, high: real, low: real, k: nat, n: nat)
    requires n <= |b.levels| && k <= |b.levels|
    requires SoundLadder(b.levels) && Sorted(b.side, b.levels) && b.filled == Indices(b.levels[..k])
    ensures NewlyFilled(b, high, low, n) == FilledNow(b.levels, k, Depth(b.side, b.levels, high, low, n))
  {
    if n > 0 {
      NewlyFilledIsNextSlice(b, high, low, k, n - 1);
      FilledIndex(b, k, n - 1);
      if Touches(b.side, b.levels[n - 1].fillPrice, high, low) && n > 1 {
        DepthMeans(b.side, b.levels, high, low, n - 1);
      }
      if n - 1 >= k {
        assert b.levels[k..n - 1] + [b.levels[n - 1]] == b.levels[k..n];
      }
    }
  }

  lemma FilledIndex(b: Basket, k: nat, i: nat)
    requires k <= |b.levels| && i < |b.levels|
    requires SoundLadder(b.levels) && b.filled == Indices(b.levels[..k])
    ensures b.levels[i].index in b.filled <==> i < k
  {
    if i < k {
      assert b.filled[i] == b.levels[i].index;
    } else {
      forall j | 0 <= j < |b.filled|
        ensures b.filled[j] != b.levels[i].index
      {
        assert b.filled[j] == b.levels[j].index;
      }
    }
  }

  // ---------- The books of an open basket ----------

  function SumQty(sos: seq<Level>): real {
    if sos == [] then 0.0 else SumQty(sos[..|sos| - 1]) + sos[|sos| - 1].qty
  }

  function SumCost(sos: seq<Level>): real {
    if sos == [] then 0.0
    else SumCost(sos[..|sos| - 1]) + Notional(sos[|sos| - 1].fillPrice, sos[|sos| - 1].qty)
  }

  ghost predicate SameTerms(b0: Basket, b: Basket) {
    && b.side == b0.side && b.entryPrice == b0.entryPrice && b.levels == b0.levels && b.tpTarget == b0.tpTarget
    && b.takerFee == b0.takerFee && b.makerFee == b0.makerFee && b.symbol == b0.symbol && b.risk == b0.risk
    && b.entryTime == b0.entryTime
  }

  /** A basket as the constructor leaves it. */
  ghost predicate Opened(b0: Basket) {
    && !b0.closed && b0.filled == [] && b0.qty > 0.0 && b0.avgEntry == b0.entryPrice
    && b0.tradingFees == Fee(Notional(b0.avgEntry, b0.qty), b0.takerFee)
    && b0.fundingPaid == 0.0 && b0.fundingReceived == 0.0
    && SoundLadder(b0.levels) && Sorted(b0.side, b0.levels)
  }

  /** What the exit of a closed basket costs. */
  function ExitFee(b: Basket): real {
    if !b.closed then 0.0
    else Fee(Notional(b.exitPrice, b.qty), if b.exitReason.TakeProfit? then b.makerFee else b.takerFee)
  }

  /** The basket b has grown out of b0 by filling exactly the first k levels: quantities, margin
      and cost are the sums over those levels, fees are the taker fee on the whole cost and, once it
      is closed, the maker fee on a take-profit exit or the taker fee on any other, and the
      take-profit price is the one for the present average. */
  ghost predicate Grown(b0: Basket, b: Basket, k: nat) {
    && k <= |b0.levels| && SameTerms(b0, b)
    && b.filled == Indices(b0.levels[..k])
    && b.qty == b0.qty + SumQty(b0.levels[..k])
    && b.margin == b0.margin + SumMargin(b0.levels[..k])
    && Notional(b.avgEntry, b.qty) == Notional(b0.avgEntry, b0.qty) + SumCost(b0.levels[..k])
    && b.tradingFees == Fee(Notional(b.avgEntry, b.qty), b.takerFee) + ExitFee(b)
    && (k == 0 ==> b.avgEntry == b0.avgEntry && b.tpPrice == b0.tpPrice)
    && (k > 0 ==> b.tpPrice == CalculateTpPrice(b.side, b.avgEntry, b.qty, b.tpTarget))
  }

  lemma {:induction false} SumQtyNonNegative(sos: seq<Level>)
    requires forall i :: 0 <= i < |sos| ==> sos[i].qty > 0.0
    ensures SumQty(sos) >= 0.0
  {
    if sos != [] {
      SumQtyNonNegative(sos[..|sos| - 1]);
    }
  }

  lemma GrownQtyPositive(b0: Basket, b: Basket, k: nat)
    requires Opened(b0) && Grown(b0, b, k)
    ensures b.qty > 0.0
  {
    SumQtyNonNegative(b0.levels[..k]);
  }

  lemma {:induction false} SumMarginPositive(sos: seq<Level>)
    requires forall i :: 0 <= i < |sos| ==> sos[i].margin > 0.0
    ensures SumMargin(sos) >= 0.0
    ensures SumMargin(sos) > 0.0 <==> sos != []
  {
    if sos != [] {
      SumMarginPositive(sos[..|sos| - 1]);
    }
  }

  lemma {:induction false} SumMarginConcat(a: seq<Level>, b: seq<Level>)
    ensures SumMargin(a + b) == SumMargin(a) + SumMargin(b)
  {
    if b == [] {
      assert a + b == a;
    } else {
      SumMarginConcat(a, b[..|b| - 1]);
      assert (a + b)[..|a + b| - 1] == a + b[..|b| - 1];
    }
  }

  lemma FeeAdds(x: real, y: real, rate: real)
    ensures Fee(x + y, rate) == Fee(x, rate) + Fee(y, rate)
  {
    Distribute(x, y, rate);
  }

  lemma AverageTimesQty(cost: real, qty: real)
    requires qty > 0.0
    ensures Notional(cost / qty, qty) == cost
  {
    DivMul(cost, qty);
  }

  /** One fill in amounts: coins, margin, fee and index are added, the average is the cost of all coins over their
      number, zero without any, and the take-profit price follows it. */
  lemma FillIs(b: Basket, so: Level)
    ensures var after := Fill(b, so);
            && after.qty == b.qty + so.qty && after.margin == b.margin + so.margin
            && after.filled == b.filled + [so.index]
            && after.tradingFees == b.tradingFees + so.fillPrice * so.qty * b.takerFee
            && (if after.qty > 0.0 then after.avgEntry * after.qty == b.avgEntry * b.qty + so.fillPrice * so.qty
                else after.avgEntry == 0.0)
            && after.tpPrice == CalculateTpPrice(b.side, after.avgEntry, after.qty, b.tpTarget)
            && after == b.(qty := after.qty, margin := after.margin, filled := after.filled, avgEntry := after.avgEntry,
                           tradingFees := after.tradingFees, tpPrice := after.tpPrice)
  {
    hide CalculateTpPrice;
    if b.qty + so.qty > 0.0 {
      DivMul(Notional(b.avgEntry, b.qty) + Notional(so.fillPrice, so.qty), b.qty + so.qty);
    }
  }

  /** Filling the next level keeps the books. */
  lemma FillKeepsBooks(b0: Basket, b: Basket, k: nat)
    requires Opened(b0) && Grown(b0, b, k) && !b.closed && k < |b0.levels|
    ensures Grown(b0, Fill(b, b0.levels[k]), k + 1)
  {
    hide Notional, Fee, CalculateTpPrice;
    var so := b0.levels[k];
    GrownQtyPositive(b0, b, k);
    assert b0.levels[..k + 1][..k] == b0.levels[..k];
    assert b0.levels[..k + 1][k] == so;
    var cost := Notional(b.avgEntry, b.qty) + Notional(so.fillPrice, so.qty);
    AverageTimesQty(cost, b.qty + so.qty);
    FeeAdds(Notional(b.avgEntry, b.qty), Notional(so.fillPrice, so.qty), b.takerFee);
  }

  lemma {:induction false} FillAllKeepsBooks(b0: Basket, b: Basket, k: nat, m: nat)
    requires Opened(b0) && Grown(b0, b, k) && !b.closed && k <= m <= |b0.levels|
    ensures Grown(b0, FillAll(b, b0.levels[k..m]), m) && !FillAll(b, b0.levels[k..m]).closed
    decreases m
  {
    hide Notional, Fee, CalculateTpPrice;
    if m == k {
      assert b0.levels[k..m] == [];
    } else {
      FillAllKeepsBooks(b0, b, k, m - 1);
      assert b0.levels[k..m][..m - k - 1] == b0.levels[k..m - 1];
      FillKeepsBooks(b0, FillAll(b, b0.levels[k..m - 1]), m - 1);
    }
  }

  // ---------- Funding ----------

  /** Signed funding of the first n events: what was paid minus what was received. */
  function NetFunding(b: Basket, bar: BasketBar, funding: seq<FundingEvent>, n: nat): real
    requires n <= |funding|
  {
    if n == 0 then 0.0
    else
      var e := funding[n - 1];
      NetFunding(b, bar, funding, n - 1)
      + if InWindow(e, bar.openTime)
        then FundingCost(b.side, b.qty, if e.markPrice <= 0.0 then (bar.high + bar.low) / 2.0 else e.markPrice, e.rate)
        else 0.0
  }

  /** Funding touches nothing but its two counters, which never fall and whose difference is the
      signed sum. */
  lemma {:induction false} FundingOnlyMovesCounters(b: Basket, bar: BasketBar, funding: seq<FundingEvent>, n: nat)
    requires n <= |funding|
    ensures var f := Funded(b, bar, funding, n);
            && f == b.(fundingPaid := f.fundingPaid, fundingReceived := f.fundingReceived)
            && f.fundingPaid >= b.fundingPaid && f.fundingReceived >= b.fundingReceived
            && f.fundingPaid - f.fundingReceived == b.fundingPaid - b.fundingReceived + NetFunding(b, bar, funding, n)
  {
    hide FundingCost;
    if n > 0 {
      FundingOnlyMovesCounters(b, bar, funding, n - 1);
    }
  }

  /** One funding event.  In the five minutes from the candle's opening, at a positive price (the middle of the candle
      stands in for a missing one), a LONG pays quantity times price times a positive rate and receives that much of a
      negative one; a SHORT the other way round; the other counter stays.  Outside them nothing happens. */
  lemma EventCharges(b: Basket, bar: BasketBar, e: FundingEvent, price: real, amount: real)
    requires b.qty > 0.0 && price > 0.0 && amount == b.qty * price * e.rate
    requires price == if e.markPrice > 0.0 then e.markPrice else (bar.high + bar.low) / 2.0
    ensures var after := Funded(b, bar, [e], 1);
            if !(bar.openTime <= e.time < bar.openTime + 300_000) then after == b
            else if e.rate == 0.0 then after == b
            else if (e.rate > 0.0) == b.side.LONG?
            then after == b.(fundingPaid := b.fundingPaid + if amount > 0.0 then amount else -amount)
            else after == b.(fundingReceived := b.fundingReceived + if amount > 0.0 then amount else -amount)
  {
    CostSign(b.side, b.qty, price, e.rate, amount);
    hide FundingCost;
    assert Funded(b, bar, [e], 0) == b;
    assert FundingCost(b.side, b.qty, price, e.rate) == 0.0 ==> AddFunding(b, price, e.rate) == b;
  }

  lemma CostSign(side: Side, qty: real, price: real, rate: real, amount: real)
    requires qty > 0.0 && price > 0.0 && amount == qty * price * rate
    ensures FundingCost(side, qty, price, rate) == if side.LONG? then amount else -amount
    ensures (amount > 0.0 <==> rate > 0.0) && (amount < 0.0 <==> rate < 0.0)
  {
    var value := qty * price;
    MulPos(qty, price);
    MulSign(rate, value);
    assert rate * value == value * rate && price * qty == value;
  }

  /** The price an event is charged at. */
  function ChargedAt(bar: BasketBar, e: FundingEvent): real {
    if e.markPrice > 0.0 then e.markPrice else (bar.high + bar.low) / 2.0
  }

  /** Price times rate, summed over the first n events that fall into the five minutes from the candle's opening. */
  function RateOnPrice(bar: BasketBar, funding: seq<FundingEvent>, n: nat): real
    requires n <= |funding|
  {
    if n == 0 then 0.0
    else RateOnPrice(bar, funding, n - 1)
         + if bar.openTime <= funding[n - 1].time < bar.openTime + 300_000
           then ChargedAt(bar, funding[n - 1]) * funding[n - 1].rate else 0.0
  }

  function Directed(side: Side, amount: real): real {
    if side.LONG? then amount else -amount
  }

  lemma {:induction false} NetFundingIs(b: Basket, bar: BasketBar, funding: seq<FundingEvent>, n: nat)
    requires n <= |funding|
    ensures NetFunding(b, bar, funding, n) == Directed(b.side, Notional(RateOnPrice(bar, funding, n), b.qty))
  {
    hide Notional, FundingCost;
    if n == 0 {
      assert Notional(0.0, b.qty) == 0.0 by { NothingIsWorthNothing(b.qty); }
    } else {
      NetFundingIs(b, bar, funding, n - 1);
      var e, part := funding[n - 1], RateOnPrice(bar, funding, n - 1);
      if bar.openTime <= e.time < bar.openTime + 300_000 {
        var price, term := ChargedAt(bar, e), RateOnPrice(bar, funding, n) - part;
        assert term == price * e.rate;
        FundingCostIs(b.side, b.qty, price, e.rate, term);
        ValueAdds(part, term, b.qty, part + term);
      }
    }
  }

  lemma NothingIsWorthNothing(qty: real)
    ensures Notional(0.0, qty) == 0.0
  {}

  lemma ValueAdds(a: real, b: real, qty: real, sum: real)
    requires sum == a + b
    ensures Notional(sum, qty) == Notional(a, qty) + Notional(b, qty)
  {
    Distribute(a, b, qty);
  }

  lemma FundingCostIs(side: Side, qty: real, price: real, rate: real, term: real)
    requires term == price * rate
    ensures FundingCost(side, qty, price, rate) == Directed(side, Notional(term, qty))
  {
    assert price * qty * rate == (price * rate) * qty;
  }

  /** The funding of a whole candle: what was paid less what was received moves by the quantity times the summed price
      times rate for a LONG and by its negation for a SHORT, on the quantity held before the candle's fills. */
  lemma CandleFunding(b: Basket, bar: BasketBar, funding: seq<FundingEvent>)
    requires !b.closed
    ensures var after, moved := AfterBar(b, bar, funding), b.qty * RateOnPrice(bar, funding, |funding|);
            && after.fundingPaid - after.fundingReceived
               == b.fundingPaid - b.fundingReceived + (if b.side.LONG? then moved else -moved)
            && after.fundingPaid >= b.fundingPaid && after.fundingReceived >= b.fundingReceived
  {
    hide Notional, Fee, CalculateTpPrice, Unrealized, Evaluate, TpPenetrated, Funded, NewlyFilled, FillAll, RateOnPrice,
         NetFunding;
    var counted := b.(barsSinceFill := b.barsSinceFill + 1);
    FundingOnlyMovesCounters(counted, bar, funding, |funding|);
    NetFundingIs(counted, bar, funding, |funding|);
    NotionalIs(RateOnPrice(bar, funding, |funding|), b.qty);
    var aged := Aged(b, bar, funding);
    FillAllKeepsFunding(aged, NewlyFilled(aged, bar.high, bar.low, |aged.levels|));
  }

  lemma NotionalIs(price: real, qty: real)
    ensures Notional(price, qty) == qty * price
  {}

  lemma {:induction false} FillAllKeepsFunding(b: Basket, sos: seq<Level>)
    ensures var after := FillAll(b, sos);
            after.fundingPaid == b.fundingPaid && after.fundingReceived == b.fundingReceived
  {
    hide Notional, Fee, CalculateTpPrice;
    if sos != [] {
      FillAllKeepsFunding(b, sos[..|sos| - 1]);
    }
  }

  /** On one-minute bars an event is charged on every bar whose five-minute window holds it: five
      times, not once. */
  lemma FundingChargedFiveTimes(e: FundingEvent, firstOpen: int, i: int)
    requires firstOpen <= e.time < firstOpen + 60_000
    ensures InWindow(e, firstOpen + i * 60_000) <==> -4 <= i <= 0
  {}

  // ---------- One candle ----------

  lemma AgedKeepsBooks(b0: Basket, b: Basket, k: nat, bar: BasketBar, funding: seq<FundingEvent>)
    requires Grown(b0, b, k)
    ensures Grown(b0, Aged(b, bar, funding), k) && Aged(b, bar, funding).closed == b.closed
  {
    hide Notional, Fee, CalculateTpPrice, Funded;
    FundingOnlyMovesCounters(b.(barsSinceFill := b.barsSinceFill + 1), bar, funding, |funding|);
  }

  lemma ClosedKeepsBooks(b0: Basket, b: Basket, k: nat, reason: ExitReason, price: real)
    requires Grown(b0, b, k) && !b.closed
    ensures Grown(b0, Closed(b, reason, price), k)
  {
    hide Notional, Fee, CalculateTpPrice, Unrealized;
  }

  lemma RiskKeepsBooks(b0: Basket, b: Basket, k: nat, bar: BasketBar)
    requires Grown(b0, b, k) && !b.closed
    ensures Grown(b0, RiskChecked(b, bar), k)
  {
    hide Notional, Fee, CalculateTpPrice, Unrealized, Evaluate;
  }

  /** How many levels are filled after the candle. */
  function FilledAfter(b: Basket, k: nat, bar: BasketBar, funding: seq<FundingEvent>): nat {
    if b.closed || TakesProfit(Aged(b, bar, funding), bar) then k
    else
      var d := Depth(b.side, b.levels, bar.high, bar.low, |b.levels|);
      if d <= k then k else d
  }

  /** One candle keeps the books, fills exactly the levels between the old and the new depth, and
      reports exactly the margin it has added. */
  lemma BarKeepsBooks(b0: Basket, b: Basket, k: nat, bar: BasketBar, funding: seq<FundingEvent>)
    requires Opened(b0) && Grown(b0, b, k)
    ensures var m := FilledAfter(b, k, bar, funding);
            && k <= m <= |b0.levels|
            && Grown(b0, AfterBar(b, bar, funding), m)
            && FillsOf(b, bar, funding) == b0.levels[k..m]
            && AfterBar(b, bar, funding).margin == b.margin + SumMargin(FillsOf(b, bar, funding))
  {
    hide Notional, Fee, CalculateTpPrice, Unrealized, Evaluate, TpPenetrated, Funded, RiskChecked, Closed, SumMargin,
         SumCost, SumQty, NewlyFilled, FillAll;
    var m := FilledAfter(b, k, bar, funding);
    var aged := Aged(b, bar, funding);
    AgedKeepsBooks(b0, b, k, bar, funding);
    SameLevels(b, bar, funding);
    if b.closed || TakesProfit(aged, bar) {
      assert b0.levels[k..m] == [];
      if !b.closed {
        ClosedKeepsBooks(b0, aged, k, TakeProfit, aged.tpPrice);
      }
    } else {
      NewlyFilledIsNextSlice(aged, bar.high, bar.low, k, |aged.levels|);
      assert m == k ==> b0.levels[k..m] == [];
      var sos := b0.levels[k..m];
      assert FillsOf(b, bar, funding) == sos;
      FillAllKeepsBooks(b0, aged, k, m);
      var filled := FillAll(aged, sos);
      RiskKeepsBooks(b0, if sos != [] then filled.(barsSinceFill := 0) else filled, m, bar);
    }
    assert b0.levels[..m] == b0.levels[..k] + b0.levels[k..m];
    SumMarginConcat(b0.levels[..k], b0.levels[k..m]);
  }

  lemma SameLevels(b: Basket, bar: BasketBar, funding: seq<FundingEvent>)
    ensures Aged(b, bar, funding).levels == b.levels && Aged(b, bar, funding).side == b.side
    ensures Aged(b, bar, funding).closed == b.closed && Aged(b, bar, funding).filled == b.filled
  {
    hide Funded;
    FundingOnlyMovesCounters(b.(barsSinceFill := b.barsSinceFill + 1), bar, funding, |funding|);
  }

  // ---------- Any sequence of candles ----------

  function RunBars(b0: Basket, bars: seq<BasketBar>, funding: seq<FundingEvent>): Basket {
    if bars == [] then b0
    else AfterBar(RunBars(b0, bars[..|bars| - 1], funding), bars[|bars| - 1], funding)
  }

  /** The candles that got as far as the safety orders: not closed before, no take-profit. */
  function Reaching(b0: Basket, bars: seq<BasketBar>, funding: seq<FundingEvent>): seq<BasketBar> {
    if bars == [] then []
    else
      var before, bar := RunBars(b0, bars[..|bars| - 1], funding), bars[|bars| - 1];
      Reaching(b0, bars[..|bars| - 1], funding)
      + if before.closed || TakesProfit(Aged(before, bar, funding), bar) then [] else [bar]
  }

  function HighestHigh(bars: seq<BasketBar>): real
    requires bars != []
  {
    if |bars| == 1 then bars[0].high else Max(HighestHigh(bars[..|bars| - 1]), bars[|bars| - 1].high)
  }

  function LowestLow(bars: seq<BasketBar>): real
    requires bars != []
  {
    if |bars| == 1 then bars[0].low else Min(LowestLow(bars[..|bars| - 1]), bars[|bars| - 1].low)
  }

  function ExtremeDepth(side: Side, levels: seq<Level>, bars: seq<BasketBar>): nat {
    if bars == [] then 0 else Depth(side, levels, HighestHigh(bars), LowestLow(bars), |levels|)
  }

  lemma ExtremeDepthExtends(side: Side, levels: seq<Level>, bars: seq<BasketBar>, bar: BasketBar)
    ensures var d := Depth(side, levels, bar.high, bar.low, |levels|);
            var e := ExtremeDepth(side, levels, bars);
            ExtremeDepth(side, levels, bars + [bar]) == if d <= e then e else d
  {
    var more := bars + [bar];
    assert more[..|more| - 1] == bars;
    if bars != [] {
      DepthOfHull(side, levels, |levels|, HighestHigh(bars), LowestLow(bars), bar.high, bar.low);
    }
  }

  /** Over every sequence of candles the books hold, and the filled levels are exactly the prefix of
      the ladder down to the running extreme of the candles that reached the safety orders. */
  lemma {:induction false} FillsFollowTheExtreme(b0: Basket, bars: seq<BasketBar>, funding: seq<FundingEvent>)
    requires Opened(b0)
    ensures var k := ExtremeDepth(b0.side, b0.levels, Reaching(b0, bars, funding));
            Grown(b0, RunBars(b0, bars, funding), k)
  {
    hide Notional, Fee, CalculateTpPrice, TakesProfit, Aged, AfterBar, Depth;
    if bars == [] {
      assert b0.levels[..0] == [];
      assert Indices([]) == [];
    } else {
      var n := |bars| - 1;
      FillsFollowTheExtreme(b0, bars[..n], funding);
      var before := RunBars(b0, bars[..n], funding);
      var reached := Reaching(b0, bars[..n], funding);
      BarKeepsBooks(b0, before, ExtremeDepth(b0.side, b0.levels, reached), bars[n], funding);
      ExtremeDepthExtends(b0.side, b0.levels, reached, bars[n]);
      assert reached + [] == reached;
    }
  }

  /** The same in terms of prices: level i is filled exactly when the lowest low (LONG) or highest
      high (SHORT) so far has reached its price, and nothing is filled twice. */
  lemma FilledMeansReached(b0: Basket, bars: seq<BasketBar>, funding: seq<FundingEvent>, i: nat)
    requires Opened(b0) && i < |b0.levels|
    ensures var reached := Reaching(b0, bars, funding);
            var filled := RunBars(b0, bars, funding).filled;
            && (b0.levels[i].index in filled <==>
                reached != [] && Touches(b0.side, b0.levels[i].fillPrice, HighestHigh(reached), LowestLow(reached)))
            && (forall x, y :: 0 <= x < y < |filled| ==> filled[x] < filled[y])
  {
    hide Notional, Fee, CalculateTpPrice, TakesProfit, Aged, AfterBar;
    var reached := Reaching(b0, bars, funding);
    var b := RunBars(b0, bars, funding);
    FillsFollowTheExtreme(b0, bars, funding);
    FilledIndex(b, ExtremeDepth(b0.side, b0.levels, reached), i);
    if reached != [] {
      DepthMeans(b0.side, b0.levels, HighestHigh(reached), LowestLow(reached), |b0.levels|);
    }
  }

  // ---------- Payoff ----------

  /** Whatever the exit, profit plus all costs is the price move on the whole position. */
  lemma PnlPlusCosts(b: Basket, reason: ExitReason, price: real)
    ensures var c := Closed(b, reason, price);
            c.pnl + c.tradingFees + (c.fundingPaid - c.fundingReceived)
            == Unrealized(b.side, b.avgEntry, b.qty, price)
  {
    hide Unrealized, Fee, Notional;
  }

  /** A forced close at a positive price exits strictly on the losing side and gives up 0.05 percent of the
      position's value at that price; only the close at the end of the data does not. */
  lemma ForcedCloseCostsSlippage(b: Basket, price: real, reason: ExitReason, value: real)
    requires price > 0.0 && b.qty > 0.0 && value == Notional(price, b.qty)
    ensures var exit := ForceClosed(b, price, reason).exitPrice;
            if reason.EndOfData? then exit == price
            else && exit != price && Worse(b.side, price, exit)
                 && Unrealized(b.side, b.avgEntry, b.qty, exit)
                    == Unrealized(b.side, b.avgEntry, b.qty, price) - value * CLOSE_SLIPPAGE
  {
    if !reason.EndOfData? {
      var exit := Slipped(b.side, price);
      UnrealizedShift(b.side, b.avgEntry, b.qty, price, exit);
      SlippageValue(price, b.qty, value);
      hide Unrealized;
    }
  }

  lemma SlippageValue(price: real, qty: real, value: real)
    requires value == Notional(price, qty)
    ensures (price * CLOSE_SLIPPAGE) * qty == value * CLOSE_SLIPPAGE
  {}

  /** After at least one safety order a take-profit exit earns the target exactly, before costs. */
  lemma TakeProfitPaysTarget(b0: Basket, b: Basket, k: nat)
    requires Opened(b0) && Grown(b0, b, k) && k > 0
    ensures var c := Closed(b, TakeProfit, b.tpPrice);
            c.pnl + c.tradingFees + (c.fundingPaid - c.fundingReceived) == b0.tpTarget
  {
    hide Unrealized, Fee, Notional, CalculateTpPrice;
    PnlPlusCosts(b, TakeProfit, b.tpPrice);
    GrownQtyPositive(b0, b, k);
    TpEarnsTarget(b.side, b.avgEntry, b.qty, b.tpTarget);
  }

  /** Gain of moving the exit by `delta` in the winning direction. */
  lemma UnrealizedShift(side: Side, avg: real, qty: real, price: real, other: real)
    ensures Unrealized(side, avg, qty, other) - Unrealized(side, avg, qty, price)
            == (if side.LONG? then other - price else price - other) * qty
  {}

  /** Before the first safety order the take-profit price is rounded to the tick towards zero, so
      the gross gain misses the target by less than one tick on the position: below it for a LONG,
      above it for a SHORT, and the other way round when the exact price is negative. */
  lemma FirstTakeProfitWithinTick(side: Side, avg: real, qty: real, target: real, tick: real, tp: real)
    requires qty > 0.0 && tick > 0.0 && tp == RoundDown(CalculateTpPrice(side, avg, qty, target), tick)
    ensures var gain := Unrealized(side, avg, qty, tp);
            if side.LONG? <==> CalculateTpPrice(side, avg, qty, target) >= 0.0
            then target - tick * qty < gain <= target
            else target <= gain < target + tick * qty
  {
    var exact := CalculateTpPrice(side, avg, qty, target);
    TpEarnsTarget(side, avg, qty, target);
    if exact >= 0.0 {
      RoundDownLoses(exact, tick);
    } else {
      RoundDownOfNegative(exact, tick);
    }
    hide CalculateTpPrice, RoundDown, Unrealized;
    var move := if side.LONG? then tp - exact else exact - tp;
    var gained, slack := move * qty, tick * qty;
    GainOfMove(side, avg, qty, exact, tp, move, gained);
    WithinTick(move, qty, tick, gained, slack);
  }

  lemma GainOfMove(side: Side, avg: real, qty: real, price: real, other: real, move: real, gained: real)
    requires (move == if side.LONG? then other - price else price - other) && gained == move * qty
    ensures Unrealized(side, avg, qty, other) == Unrealized(side, avg, qty, price) + gained
  {
    UnrealizedShift(side, avg, qty, price, other);
  }

  lemma WithinTick(move: real, qty: real, tick: real, gained: real, slack: real)
    requires qty > 0.0 && -tick < move < tick && gained == move * qty && slack == tick * qty
    ensures -slack < gained < slack
    ensures move >= 0.0 ==> gained >= 0.0
    ensures move <= 0.0 ==> gained <= 0.0
  {
    MulStrict(move, tick, qty);
    MulStrict(-move, tick, qty);
    assert (-move) * qty == -gained;
    MulSign(move, qty);
  }

  // ---------- Safety orders improve the average and pull the target closer ----------

  /** Unfilled levels never lie on the winning side of the average. */
  ghost predicate LadderBehindEntry(b0: Basket) {
    forall i :: 0 <= i < |b0.levels| ==> Worse(b0.side, b0.entryPrice, b0.levels[i].fillPrice)
  }

  lemma {:induction false} SumCostBound(side: Side, sos: seq<Level>, price: real)
    requires forall i :: 0 <= i < |sos| ==> sos[i].qty > 0.0 && Worse(side, sos[i].fillPrice, price)
    ensures if side.LONG? then SumCost(sos) >= Notional(price, SumQty(sos))
            else SumCost(sos) <= Notional(price, SumQty(sos))
  {
    if sos == [] {
      assert Notional(price, 0.0) == 0.0;
    } else {
      var init, last := sos[..|sos| - 1], sos[|sos| - 1];
      SumCostBound(side, init, price);
      NotionalAdds(price, SumQty(init), last.qty);
      NotionalMono(side, last.fillPrice, price, last.qty);
      hide Notional;
    }
  }

  lemma NotionalAdds(price: real, q: real, r: real)
    ensures Notional(price, q + r) == Notional(price, q) + Notional(price, r)
  {}

  lemma NotionalMono(side: Side, a: real, b: real, qty: real)
    requires qty >= 0.0 && Worse(side, a, b)
    ensures if side.LONG? then Notional(a, qty) >= Notional(b, qty) else Notional(a, qty) <= Notional(b, qty)
  {
    if side.LONG? { MulMono(b, a, qty); } else { MulMono(a, b, qty); }
  }

  lemma NotionalOrder(a: real, b: real, qty: real)
    requires qty > 0.0
    ensures Notional(a, qty) >= Notional(b, qty) <==> a >= b
    ensures Notional(a, qty) > Notional(b, qty) <==> a > b
  {
    ScaledCompare(a, b, qty);
  }

  /** The average stays ahead of every level that is still unfilled. */
  lemma AverageAheadOfLadder(b0: Basket, b: Basket, k: nat, j: nat)
    requires Opened(b0) && LadderBehindEntry(b0) && Grown(b0, b, k) && k <= j < |b0.levels|
    ensures Worse(b.side, b.avgEntry, b0.levels[j].fillPrice)
  {
    hide Notional, Fee, CalculateTpPrice, SumCost, SumQty;
    var price := b0.levels[j].fillPrice;
    SumCostBound(b0.side, b0.levels[..k], price);
    NotionalMono(b0.side, b0.avgEntry, price, b0.qty);
    NotionalAdds(price, b0.qty, SumQty(b0.levels[..k]));
    GrownQtyPositive(b0, b, k);
    NotionalOrder(b.avgEntry, price, b.qty);
    NotionalOrder(price, b.avgEntry, b.qty);
  }

  /** The new average lies between the old one and the fill price. */
  lemma FillMovesAverage(b: Basket, so: Level)
    requires b.qty > 0.0 && so.qty > 0.0 && Worse(b.side, b.avgEntry, so.fillPrice)
    ensures Worse(b.side, b.avgEntry, Fill(b, so).avgEntry)
    ensures Worse(b.side, Fill(b, so).avgEntry, so.fillPrice)
  {
    hide Notional, Fee, CalculateTpPrice;
    var qty := b.qty + so.qty;
    var cost := Notional(b.avgEntry, b.qty) + Notional(so.fillPrice, so.qty);
    AverageTimesQty(cost, qty);
    NotionalAdds(b.avgEntry, b.qty, so.qty);
    NotionalAdds(so.fillPrice, b.qty, so.qty);
    NotionalMono(b.side, b.avgEntry, so.fillPrice, so.qty);
    NotionalMono(b.side, b.avgEntry, so.fillPrice, b.qty);
    NotionalOrder(b.avgEntry, cost / qty, qty);
    NotionalOrder(cost / qty, b.avgEntry, qty);
    NotionalOrder(so.fillPrice, cost / qty, qty);
    NotionalOrder(cost / qty, so.fillPrice, qty);
  }

  /** The exact take-profit price times the quantity is the cost plus (or minus) the target. */
  lemma TpTimesQty(side: Side, avg: real, qty: real, target: real)
    requires qty > 0.0
    ensures Notional(CalculateTpPrice(side, avg, qty, target), qty)
            == Notional(avg, qty) + if side.LONG? then target else -target
  {
    DivMul(target, qty);
  }

  /** Exactly when a fill moves the stored take-profit price towards the market.  `exact` is the
      unrounded price for the old average; the left side is what rounding took from the whole old
      position, the right side what the new coins lie behind the stored price. */
  lemma FillPullsTarget(b: Basket, so: Level, exact: real)
    requires b.qty > 0.0 && so.qty > 0.0
    requires exact == CalculateTpPrice(b.side, b.avgEntry, b.qty, b.tpTarget)
    ensures var moved := Fill(b, so).tpPrice;
            if b.side.LONG? then
              moved < b.tpPrice <==> Notional(exact - b.tpPrice, b.qty) < Notional(b.tpPrice - so.fillPrice, so.qty)
            else
              moved > b.tpPrice <==> Notional(b.tpPrice - exact, b.qty) < Notional(so.fillPrice - b.tpPrice, so.qty)
  {
    hide Notional, Fee, CalculateTpPrice;
    var qty := b.qty + so.qty;
    var cost := Notional(b.avgEntry, b.qty) + Notional(so.fillPrice, so.qty);
    AverageTimesQty(cost, qty);
    var moved := Fill(b, so).tpPrice;
    TpTimesQty(b.side, b.avgEntry, b.qty, b.tpTarget);
    TpTimesQty(b.side, cost / qty, qty, b.tpTarget);
    NotionalAdds(b.tpPrice, b.qty, so.qty);
    NotionalOrder(moved, b.tpPrice, qty);
    NotionalOrder(b.tpPrice, moved, qty);
    NotionalSubtracts(exact, b.tpPrice, b.qty);
    NotionalSubtracts(b.tpPrice, exact, b.qty);
    NotionalSubtracts(b.tpPrice, so.fillPrice, so.qty);
    NotionalSubtracts(so.fillPrice, b.tpPrice, so.qty);
  }

  lemma NotionalSubtracts(a: real, b: real, qty: real)
    ensures Notional(a - b, qty) == Notional(a, qty) - Notional(b, qty)
  {}

  /** From the second safety order on (and from the first when the opening price fell on a tick)
      the target strictly approaches the market, for a positive target. */
  lemma LaterFillsPullTarget(b: Basket, so: Level)
    requires b.qty > 0.0 && so.qty > 0.0 && b.tpTarget > 0.0 && Worse(b.side, b.avgEntry, so.fillPrice)
    requires b.tpPrice == CalculateTpPrice(b.side, b.avgEntry, b.qty, b.tpTarget)
    ensures if b.side.LONG? then Fill(b, so).tpPrice < b.tpPrice else Fill(b, so).tpPrice > b.tpPrice
  {
    FillPullsTarget(b, so, b.tpPrice);
    DivPos(b.tpTarget, b.qty);
    var behind := if b.side.LONG? then b.tpPrice - so.fillPrice else so.fillPrice - b.tpPrice;
    assert behind > 0.0;
    MulPos(behind, so.qty);
    assert Notional(0.0, b.qty) == 0.0;
  }
}
