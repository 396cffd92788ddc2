/** Margin ratio, liquidation estimate and the basket risk controller of risk_manager.py. */
module Liquidation {
  import opened RealArith
  import opened MarginTiers

  datatype Side = LONG | SHORT

  /** The ratio the source reports once nothing backs the position any more. */
  const WIPED_OUT := 999.0

  function Abs(x: real): real {
    if x < 0.0 then -x else x
  }

  function Notional(price: real, qty: real): real {
    price * qty
  }

  function Unrealized(side: Side, avgEntry: real, qty: real, price: real): real {
    if side.LONG? then (price - avgEntry) * qty else (avgEntry - price) * qty
  }

  function MarginRatio(wallet: real, unrealized: real, notional: real, symbol: string): real {
    var balance := wallet + unrealized;
    if balance <= 0.0 then WIPED_OUT
    else MaintenanceMargin(Abs(notional), symbol) / balance
  }

  /** The price at which the position has lost `slack`. */
  function PriceAtSlack(side: Side, avgEntry: real, qty: real, slack: real): real
    requires qty > 0.0
  {
    if side.LONG? then avgEntry - slack / qty else avgEntry + slack / qty
  }

  function LiquidationPrice(side: Side, avgEntry: real, qty: real, wallet: real, symbol: string): real {
    if qty <= 0.0 || avgEntry <= 0.0 then 0.0
    else
      var maint := MaintenanceMargin(Notional(avgEntry, qty), symbol);
      var price := PriceAtSlack(side, avgEntry, qty, wallet - maint);
      if price < 0.0 then 0.0 else price
  }

  /** A position as the margin test sees it. */
  datatype Position = Position(side: Side, avgEntry: real, qty: real, wallet: real, symbol: string)
  {
    function Balance(price: real): real {
      wallet + Unrealized(side, avgEntry, qty, price)
    }

    function Maint(price: real): real {
      MaintenanceMargin(Abs(Notional(price, qty)), symbol)
    }

    function Ratio(price: real): real {
      MarginRatio(wallet, Unrealized(side, avgEntry, qty, price), Notional(price, qty), symbol)
    }

    function Estimate(): real {
      LiquidationPrice(side, avgEntry, qty, wallet, symbol)
    }

    ghost predicate Liquidated(price: real) {
      Ratio(price) >= 1.0
    }
  }

  /** `b` is at least as bad a price as `a` for this side. */
  predicate Worse(side: Side, a: real, b: real) {
    if side.LONG? then b <= a else b >= a
  }

  /** The estimate in amounts: zero without a position, and otherwise the price at which the position's value has moved
      against it by what the wallet holds beyond the requirement at the entry, or zero where that is below zero. */
  lemma EstimateIs(p: Position)
    ensures var slack := p.wallet - MaintenanceMargin(p.avgEntry * p.qty, p.symbol);
            var value := if p.side.LONG? then p.avgEntry * p.qty - slack else p.avgEntry * p.qty + slack;
            if p.qty <= 0.0 || p.avgEntry <= 0.0 then p.Estimate() == 0.0
            else p.Estimate() * p.qty == if value < 0.0 then 0.0 else value
  {
    hide MaintenanceMargin;
    if p.qty > 0.0 && p.avgEntry > 0.0 {
      var slack := p.wallet - MaintenanceMargin(p.avgEntry * p.qty, p.symbol);
      DivMul(slack, p.qty);
      var raw := PriceAtSlack(p.side, p.avgEntry, p.qty, slack);
      RawTimesQty(p.side, p.avgEntry, p.qty, slack / p.qty, slack, raw);
      MulSign(raw, p.qty);
      assert Notional(p.avgEntry, p.qty) == p.avgEntry * p.qty;
      assert p.Estimate() == if raw < 0.0 then 0.0 else raw;
      assert 0.0 * p.qty == 0.0;
    }
  }

  lemma RawTimesQty(side: Side, avg: real, qty: real, gap: real, slack: real, raw: real)
    requires gap * qty == slack && raw == if side.LONG? then avg - gap else avg + gap
    ensures raw * qty == if side.LONG? then avg * qty - slack else avg * qty + slack
  {
    Distribute(avg, gap, qty);
  }

  // ---------- The ratio in terms of balance and requirement ----------

  /** Comparing the ratio with a level c is comparing the requirement with c times the balance. */
  lemma RatioAtLeast(p: Position, price: real, c: real, level: real)
    requires 0.0 < c && level == c * p.Balance(price)
    ensures p.Ratio(price) >= c <==>
            if p.Balance(price) <= 0.0 then c <= WIPED_OUT else p.Maint(price) >= level
  {
    hide MaintenanceMargin, Unrealized, Abs;
    RatioLevel(p.wallet + Unrealized(p.side, p.avgEntry, p.qty, price), p.Maint(price), c, level);
  }

  lemma RatioLevel(balance: real, maint: real, c: real, level: real)
    requires level == c * balance
    ensures (if balance <= 0.0 then WIPED_OUT else maint / balance) >= c <==>
            if balance <= 0.0 then c <= WIPED_OUT else maint >= level
  {
    if balance > 0.0 {
      DivCompare(maint, balance, c, level);
    }
  }

  lemma MaintNonNegative(p: Position, price: real)
    ensures p.Maint(price) >= 0.0
  {
    hide MaintenanceMargin;
    MaintenanceNonNegative(Abs(Notional(price, p.qty)), p.symbol);
  }

  /** The test `margin_ratio >= 1.0` compares balance and requirement, also when the balance is
      gone and the ratio is the constant 999. */
  lemma LiquidatedMeans(p: Position, price: real)
    ensures p.Liquidated(price) <==> p.Balance(price) <= p.Maint(price)
  {
    hide MaintenanceMargin;
    RatioAtLeast(p, price, 1.0, p.Balance(price));
    MaintNonNegative(p, price);
  }

  lemma BalanceMoves(p: Position, a: real, b: real, move: real)
    requires move == (if p.side.LONG? then b - a else a - b) * p.qty
    ensures p.Balance(b) == p.Balance(a) + move
  {}

  lemma AbsOfValue(price: real, qty: real)
    requires qty > 0.0
    ensures Abs(price * qty) == Abs(price) * qty
  {
    MulSign(price, qty);
  }

  lemma AbsNotionalMoves(a: real, b: real, qty: real)
    requires qty > 0.0
    ensures Abs(Notional(a, qty)) - Abs(Notional(b, qty)) <= Abs(b - a) * qty
    ensures Abs(b - a) * qty >= 0.0
  {
    var x, y, d := a * qty, b * qty, b - a;
    AbsOfValue(d, qty);
    assert y - x == d * qty;
  }

  /** A maintenance requirement never falls faster than the position's value moves. */
  lemma MaintMoves(p: Position, a: real, b: real, move: real)
    requires p.qty > 0.0 && move == Abs(b - a) * p.qty
    ensures p.Maint(a) - p.Maint(b) <= move
  {
    hide MaintenanceMargin, Abs, Notional;
    AbsNotionalMoves(a, b, p.qty);
    MaintDrop(Abs(Notional(a, p.qty)), Abs(Notional(b, p.qty)), move, p.symbol);
  }

  lemma MaintDrop(x: real, y: real, move: real, symbol: string)
    requires x - y <= move && move >= 0.0
    ensures MaintenanceMargin(x, symbol) - MaintenanceMargin(y, symbol) <= move
  {
    hide MaintenanceMargin;
    if x > y {
      MaintenanceGrowth(y, x, symbol);
    } else if x < y {
      MaintenanceGrowth(x, y, symbol);
    }
  }

  // ---------- Liquidation is closed under adverse moves ----------

  /** Once a price liquidates the position, every worse price does too, whatever the symbol,
      the wallet (negative ones included) and the entry. */
  lemma LiquidationClosedUnderAdverseMoves(p: Position, price: real, worse: real)
    requires p.qty > 0.0 && Worse(p.side, price, worse)
    requires p.Liquidated(price)
    ensures p.Liquidated(worse)
  {
    var move := Abs(worse - price) * p.qty;
    AdverseMove(p, price, worse, move);
    MaintMoves(p, price, worse, move);
    LiquidatedMeans(p, price);
    LiquidatedMeans(p, worse);
    hide *;
  }

  lemma AdverseMove(p: Position, price: real, worse: real, move: real)
    requires Worse(p.side, price, worse) && move == Abs(worse - price) * p.qty
    ensures p.Balance(worse) == p.Balance(price) - move
  {
    BalanceMoves(p, price, worse, -move);
  }

  /** What surviving the test means. */
  lemma SurvivorIsBacked(p: Position, price: real)
    requires !p.Liquidated(price)
    ensures p.Balance(price) > p.Maint(price) >= 0.0
  {
    LiquidatedMeans(p, price);
    MaintNonNegative(p, price);
  }

  // ---------- The stored liquidation estimate ----------

  /** The estimate before the clamp at zero. */
  function RawEstimate(p: Position): real
    requires p.qty > 0.0
  {
    PriceAtSlack(p.side, p.avgEntry, p.qty, p.wallet - p.Maint(p.avgEntry))
  }

  lemma MaintOfPrice(p: Position, price: real)
    requires p.qty > 0.0 && price >= 0.0
    ensures p.Maint(price) == MaintenanceMargin(Notional(price, p.qty), p.symbol)
  {
    hide MaintenanceMargin;
    MulNonNeg(price, p.qty);
  }

  lemma EstimateIsClampedRaw(p: Position)
    requires p.qty > 0.0 && p.avgEntry > 0.0
    ensures p.Estimate() == if RawEstimate(p) < 0.0 then 0.0 else RawEstimate(p)
  {
    hide MaintenanceMargin, Abs, PriceAtSlack, Notional;
    MaintOfPrice(p, p.avgEntry);
  }

  lemma BalanceAtRaw(p: Position)
    requires p.qty > 0.0
    ensures p.Balance(RawEstimate(p)) == p.Maint(p.avgEntry)
  {
    hide MaintenanceMargin, Unrealized, Abs, PriceAtSlack;
    UnrealizedAtSlack(p.side, p.avgEntry, p.qty, p.wallet - p.Maint(p.avgEntry));
  }

  lemma UnrealizedAtSlack(side: Side, avgEntry: real, qty: real, slack: real)
    requires qty > 0.0
    ensures Unrealized(side, avgEntry, qty, PriceAtSlack(side, avgEntry, qty, slack)) == -slack
  {
    var step := slack / qty;
    DivMul(slack, qty);
    assert avgEntry - step - avgEntry == -step == avgEntry - (avgEntry + step);
  }

  lemma BalanceAtEntry(p: Position)
    ensures p.Balance(p.avgEntry) == p.wallet
  {}

  /** The raw estimate is past the entry, on the losing side, exactly when the wallet covers the
      requirement at entry. */
  lemma RawVersusEntry(p: Position)
    requires p.qty > 0.0
    ensures p.wallet >= p.Maint(p.avgEntry) <==> Worse(p.side, p.avgEntry, RawEstimate(p))
  {
    hide MaintenanceMargin;
    var slack := p.wallet - p.Maint(p.avgEntry);
    DivCompare(slack, p.qty, 0.0, 0.0);
  }

  /** Moving away from `a` in the winning direction adds to the balance. */
  lemma BalanceImproves(p: Position, a: real, b: real)
    requires p.qty > 0.0 && a != b && Worse(p.side, b, a)
    ensures p.Balance(a) < p.Balance(b)
  {
    var d := if p.side.LONG? then b - a else a - b;
    MulPos(d, p.qty);
    BalanceMoves(p, a, b, d * p.qty);
  }

  lemma MaintGrowsWithPrice(p: Position, a: real, b: real)
    requires p.qty > 0.0 && 0.0 <= a < b
    ensures p.Maint(a) < p.Maint(b)
  {
    hide *;
    MaintOfPrice(p, a);
    MaintOfPrice(p, b);
    NotionalIncreases(a, b, p.qty);
    MaintenanceGrowth(Notional(a, p.qty), Notional(b, p.qty), p.symbol);
  }

  lemma NotionalIncreases(a: real, b: real, qty: real)
    requires qty > 0.0 && a < b
    ensures Notional(a, qty) < Notional(b, qty)
  {
    MulStrict(a, b, qty);
  }

  /** LONG, covered wallet: no price strictly above the estimate liquidates, the estimate clamped
      to zero included. */
  lemma LongEstimateSafeAbove(p: Position, price: real)
    requires p.side.LONG? && p.qty > 0.0 && p.avgEntry > 0.0
    requires p.wallet >= p.Maint(p.avgEntry)
    requires price > p.Estimate()
    ensures !p.Liquidated(price)
  {
    EstimateIsClampedRaw(p);
    BalanceAtRaw(p);
    BalanceAtEntry(p);
    LiquidatedMeans(p, price);
    RawVersusEntry(p);
    hide *;
    if price < p.avgEntry {
      BalanceImproves(p, RawEstimate(p), price);
      MaintGrowsWithPrice(p, price, p.avgEntry);
    } else if price == p.avgEntry {
      BalanceImproves(p, RawEstimate(p), price);
    } else {
      AboveEntryStaysSafe(p, price);
    }
  }

  /** LONG above the entry: the balance grows by more than the requirement does. */
  lemma AboveEntryStaysSafe(p: Position, price: real)
    requires p.side.LONG? && p.qty > 0.0 && 0.0 < p.avgEntry < price
    requires p.wallet >= p.Maint(p.avgEntry)
    ensures p.Balance(price) > p.Maint(price)
  {
    hide *;
    MaintOfPrice(p, p.avgEntry);
    MaintOfPrice(p, price);
    NotionalIncreases(p.avgEntry, price, p.qty);
    MaintenanceGrowth(Notional(p.avgEntry, p.qty), Notional(price, p.qty), p.symbol);
    BalanceOfLong(p, price);
  }

  lemma BalanceOfLong(p: Position, price: real)
    requires p.side.LONG?
    ensures p.Balance(price) == p.wallet + Notional(price, p.qty) - Notional(p.avgEntry, p.qty)
  {
    Distribute(price, p.avgEntry, p.qty);
  }

  /** LONG, uncovered wallet: this price lies strictly above the estimate and still liquidates. */
  lemma LongEstimateUnsafeAbove(p: Position) returns (price: real)
    requires p.side.LONG? && p.qty > 0.0 && p.avgEntry > 0.0
    requires p.wallet < p.Maint(p.avgEntry)
    ensures price > p.Estimate() && p.Liquidated(price)
  {
    EstimateIsClampedRaw(p);
    BalanceAtRaw(p);
    RawVersusEntry(p);
    var est := RawEstimate(p);
    assert p.avgEntry < est by {
      hide MaintenanceMargin;
    }
    hide *;
    MaintGrowsWithPrice(p, p.avgEntry, est);
    price := PriceGaining(p, est, p.Maint(est) - p.Maint(p.avgEntry));
    MaintGrowsWithPrice(p, est, price);
    LiquidatedMeans(p, price);
  }

  /** The price at which a LONG has gained a given positive amount. */
  lemma PriceGaining(p: Position, from: real, gain: real) returns (price: real)
    requires p.side.LONG? && p.qty > 0.0 && gain > 0.0
    ensures price > from && p.Balance(price) == p.Balance(from) + gain
  {
    hide MaintenanceMargin;
    DivPos(gain, p.qty);
    DivMul(gain, p.qty);
    price := from + gain / p.qty;
    BalanceMoves(p, from, price, gain);
  }

  /** The LONG estimate is one-sided exactly when the wallet covers the maintenance margin at the
      entry price. */
  lemma LongEstimateOneSided(p: Position)
    requires p.side.LONG? && p.qty > 0.0 && p.avgEntry > 0.0
    ensures (forall price :: price > p.Estimate() ==> !p.Liquidated(price)) <==> p.wallet >= p.Maint(p.avgEntry)
  {
    hide *;
    if p.wallet >= p.Maint(p.avgEntry) {
      forall price | price > p.Estimate()
        ensures !p.Liquidated(price)
      {
        LongEstimateSafeAbove(p, price);
      }
    } else {
      var price := LongEstimateUnsafeAbove(p);
      assert !(price > p.Estimate() ==> !p.Liquidated(price));
    }
  }

  lemma ShortEstimateLiquidatesBeyond(p: Position, price: real)
    requires p.side.SHORT? && p.qty > 0.0 && p.avgEntry > 0.0
    requires p.wallet >= p.Maint(p.avgEntry)
    requires price >= p.Estimate()
    ensures p.Liquidated(price)
  {
    EstimateIsClampedRaw(p);
    BalanceAtRaw(p);
    RawVersusEntry(p);
    LiquidatedMeans(p, price);
    var raw := RawEstimate(p);
    if price != raw {
      BalanceImproves(p, price, raw);
    }
    if p.avgEntry < price {
      MaintGrowsWithPrice(p, p.avgEntry, price);
    }
    hide *;
  }

  /** With nothing left even at price zero, every non-negative price liquidates a SHORT. */
  lemma ShortBankruptAtZero(p: Position, price: real)
    requires p.side.SHORT? && p.qty > 0.0
    requires p.Balance(0.0) <= 0.0 && price >= 0.0
    ensures p.Liquidated(price)
  {
    LiquidatedMeans(p, price);
    MaintNonNegative(p, price);
    if price > 0.0 {
      BalanceImproves(p, price, 0.0);
    }
    hide *;
  }

  lemma ShortEstimateMisses(p: Position)
    requires p.side.SHORT? && p.qty > 0.0 && p.avgEntry > 0.0
    requires p.wallet < p.Maint(p.avgEntry) && p.Balance(0.0) > 0.0
    ensures !p.Liquidated(p.Estimate())
  {
    EstimateIsClampedRaw(p);
    BalanceAtRaw(p);
    RawVersusEntry(p);
    var raw := RawEstimate(p);
    LiquidatedMeans(p, p.Estimate());
    if raw >= 0.0 {
      MaintGrowsWithPrice(p, raw, p.avgEntry);
    } else {
      MaintAtZero(p);
    }
    hide *;
  }

  lemma MaintAtZero(p: Position)
    ensures p.Maint(0.0) == 0.0
  {
    MaintenanceNonNegative(0.0, p.symbol);
    assert 0.0 * p.qty == 0.0;
  }

  /** Every price at or beyond the SHORT estimate liquidates exactly when the wallet covers the
      maintenance margin at entry, or the position is bankrupt at price zero already. */
  lemma ShortEstimateOneSided(p: Position)
    requires p.side.SHORT? && p.qty > 0.0 && p.avgEntry > 0.0
    ensures (forall price :: price >= p.Estimate() ==> p.Liquidated(price))
            <==> (p.wallet >= p.Maint(p.avgEntry) || p.Balance(0.0) <= 0.0)
  {
    EstimateIsClampedRaw(p);
    hide *;
    if p.wallet >= p.Maint(p.avgEntry) {
      forall price | price >= p.Estimate()
        ensures p.Liquidated(price)
      {
        ShortEstimateLiquidatesBeyond(p, price);
      }
    } else if p.Balance(0.0) <= 0.0 {
      forall price | price >= p.Estimate()
        ensures p.Liquidated(price)
      {
        ShortBankruptAtZero(p, price);
      }
    } else {
      ShortEstimateMisses(p);
    }
  }
}
