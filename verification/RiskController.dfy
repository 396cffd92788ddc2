/** evaluate_basket_risk of risk_manager.py: the margin guard and the SO-trigger loss limit. */
module RiskController {
  import opened RealArith
  import opened MarginTiers
  import opened Liquidation

  datatype LossMode = PctWallet | FixedUsd | UnknownMode
  datatype LossDirection = Exceeds | RecoversTo | UnknownDirection

  datatype RiskConfig = RiskConfig(
    enabled: bool,
    guardEnabled: bool,
    marginPct: real,
    soTrigger: int,
    lossMode: LossMode,
    direction: LossDirection,
    maxLossPct: real,
    maxLossUsd: real)

  datatype Verdict = Keep | MarginGuard | LossLimit

  function Percent(part: real, whole: real): real
    requires whole > 0.0
  {
    part / whole * 100.0
  }

  predicate GuardFires(ratio: real, marginPct: real) {
    ratio * 100.0 >= marginPct
  }

  /** The loss test on an amount the source calls the loss; `peak` is the deepest loss so far. */
  predicate LossTest(direction: LossDirection, loss: real, peak: real, limit: real) {
    match direction
    case Exceeds => loss >= limit
    case RecoversTo => peak >= limit && loss <= limit
    case UnknownDirection => false
  }

  /** Condition 2 of the source, on the amount it takes as the loss. */
  predicate LossLimitHit(loss: real, wallet: real, peak: real, c: RiskConfig) {
    match c.lossMode
    case PctWallet => wallet > 0.0 && LossTest(c.direction, Percent(loss, wallet), Percent(peak, wallet), c.maxLossPct)
    case FixedUsd => c.maxLossUsd > 0.0 && LossTest(c.direction, loss, peak, c.maxLossUsd)
    case UnknownMode => false
  }

  function Evaluate(sosFilled: int, unrealized: real, wallet: real, notional: real, symbol: string,
                    c: RiskConfig, peak: real): Verdict
  {
    if !c.enabled then Keep
    else if c.guardEnabled && c.marginPct > 0.0
            && GuardFires(MarginRatio(wallet, unrealized, notional, symbol), c.marginPct) then MarginGuard
    else if sosFilled >= c.soTrigger && LossLimitHit(Abs(unrealized), wallet, peak, c) then LossLimit
    else Keep
  }

  // ---------- The verdict in amounts ----------

  /** The account's requirement has reached `marginPct` percent of what backs it, or nothing backs it any more. */
  predicate MarginReached(balance: real, maint: real, marginPct: real) {
    if balance <= 0.0 then marginPct <= 99_900.0 else 100.0 * maint >= marginPct * balance
  }

  /** The result is as far from zero as the limit allows or further, or has come back to it from further down. */
  predicate LossReached(c: RiskConfig, unrealized: real, wallet: real, peak: real) {
    match (c.lossMode, c.direction)
    case (PctWallet, Exceeds) =>
      wallet > 0.0 && (100.0 * unrealized >= c.maxLossPct * wallet || -100.0 * unrealized >= c.maxLossPct * wallet)
    case (PctWallet, RecoversTo) =>
      wallet > 0.0 && 100.0 * peak >= c.maxLossPct * wallet
      && -(c.maxLossPct * wallet) <= 100.0 * unrealized <= c.maxLossPct * wallet
    case (FixedUsd, Exceeds) => c.maxLossUsd > 0.0 && (unrealized >= c.maxLossUsd || -unrealized >= c.maxLossUsd)
    case (FixedUsd, RecoversTo) =>
      c.maxLossUsd > 0.0 && peak >= c.maxLossUsd && -c.maxLossUsd <= unrealized <= c.maxLossUsd
    case _ => false
  }

  predicate GuardStops(c: RiskConfig, balance: real, maint: real) {
    c.guardEnabled && c.marginPct > 0.0 && MarginReached(balance, maint, c.marginPct)
  }

  lemma PercentCompare(part: real, whole: real, limit: real, level: real)
    requires whole > 0.0 && level * 100.0 == limit * whole
    ensures Percent(part, whole) >= limit <==> part >= level
    ensures Percent(part, whole) <= limit <==> part <= level
  {
    DivCompare(part, whole, limit / 100.0, level);
  }

  /** The whole verdict in amounts: the guard comes first and asks for no safety order; the loss limit waits until the
      trigger number of safety orders is filled. */
  lemma VerdictExactly(sosFilled: int, unrealized: real, wallet: real, notional: real, symbol: string, c: RiskConfig,
                       peak: real)
    ensures var maint := MaintenanceMargin(if notional < 0.0 then -notional else notional, symbol);
            var guard, loss := GuardStops(c, wallet + unrealized, maint), LossReached(c, unrealized, wallet, peak);
            Evaluate(sosFilled, unrealized, wallet, notional, symbol, c, peak)
            == if c.enabled && guard then MarginGuard
               else if c.enabled && sosFilled >= c.soTrigger && loss then LossLimit
               else Keep
  {
    hide MaintenanceMargin, Percent;
    var balance, maint := wallet + unrealized, MaintenanceMargin(Abs(notional), symbol);
    if balance > 0.0 {
      DivCompare(maint, balance, c.marginPct / 100.0, c.marginPct / 100.0 * balance);
      ScaleByHundred(c.marginPct, balance);
    }
    if wallet > 0.0 {
      var dollars := c.maxLossPct / 100.0 * wallet;
      ScaleByHundred(c.maxLossPct, wallet);
      PercentCompare(Abs(unrealized), wallet, c.maxLossPct, dollars);
      PercentCompare(peak, wallet, c.maxLossPct, dollars);
    }
  }

  lemma ScaleByHundred(pct: real, x: real)
    ensures 100.0 * (pct / 100.0 * x) == pct * x
  {}

  /** Below the trigger no loss stops a basket, however large. */
  lemma BelowTriggerKeeps(sosFilled: int, unrealized: real, wallet: real, notional: real, symbol: string,
                          c: RiskConfig, peak: real)
    requires !c.guardEnabled && sosFilled < c.soTrigger
    ensures Evaluate(sosFilled, unrealized, wallet, notional, symbol, c, peak) == Keep
  {
    hide MarginRatio, LossLimitHit;
  }

  // ---------- The loss limit reads a profit as a loss ----------

  /** The loss in the sense of the documentation: what the basket is down, zero when it is up. */
  function DocumentedLoss(unrealized: real): real {
    if unrealized < 0.0 then -unrealized else 0.0
  }

  /** With the guard out of the way, the verdict cannot tell a profit from an equal loss. */
  lemma ProfitReadsAsLoss(sosFilled: int, unrealized: real, wallet: real, notional: real, symbol: string,
                          c: RiskConfig, peak: real)
    requires !c.guardEnabled
    ensures Evaluate(sosFilled, unrealized, wallet, notional, symbol, c, peak)
            == Evaluate(sosFilled, -unrealized, wallet, notional, symbol, c, peak)
  {
    hide MarginRatio, LossLimitHit;
  }

  /** A basket 100 up on a wallet of 1000 is stopped by a 10 percent loss limit. */
  lemma ProfitableBasketStopped(symbol: string)
    ensures var c := RiskConfig(true, false, 80.0, 5, PctWallet, Exceeds, 10.0, 0.0);
            && Evaluate(5, 100.0, 1000.0, 1000.0, symbol, c, 0.0) == LossLimit
            && !LossLimitHit(DocumentedLoss(100.0), 1000.0, 0.0, c)
  {
    assert Percent(100.0, 1000.0) == 10.0;
    assert Percent(0.0, 1000.0) == 0.0;
  }

  /** The fixed-dollar stop agrees with its documentation exactly outside this family: a limit is set,
      and the profit is at least as large as it (exceeds), or lies beyond it while the peak loss has
      reached it (recovers_to). */
  lemma FixedLimitMeetsDocumentation(unrealized: real, wallet: real, peak: real, c: RiskConfig)
    requires c.lossMode.FixedUsd?
    ensures (LossLimitHit(Abs(unrealized), wallet, peak, c) <==>
            LossLimitHit(DocumentedLoss(unrealized), wallet, peak, c))
            <==> !(c.maxLossUsd > 0.0 && (|| (c.direction.Exceeds? && unrealized >= c.maxLossUsd)
                                          || (c.direction.RecoversTo? && peak >= c.maxLossUsd
                                              && unrealized > c.maxLossUsd)))
  {}

  /** The same for the percentage stop, with the limit turned into dollars of the wallet.  The code
      accepts limits of zero and below here. */
  lemma PercentLimitMeetsDocumentation(unrealized: real, wallet: real, peak: real, c: RiskConfig, dollars: real)
    requires c.lossMode.PctWallet? && dollars * 100.0 == c.maxLossPct * wallet
    ensures (LossLimitHit(Abs(unrealized), wallet, peak, c) <==>
            LossLimitHit(DocumentedLoss(unrealized), wallet, peak, c))
            <==> !(wallet > 0.0 && (|| (c.direction.Exceeds? && unrealized >= dollars > 0.0)
                                    || (c.direction.RecoversTo? && unrealized > dollars >= 0.0 && peak >= dollars)))
  {
    if wallet > 0.0 {
      PercentCompare(Abs(unrealized), wallet, c.maxLossPct, dollars);
      PercentCompare(DocumentedLoss(unrealized), wallet, c.maxLossPct, dollars);
      PercentCompare(peak, wallet, c.maxLossPct, dollars);
      hide Percent;
    }
  }

  // ---------- When is the margin guard closed under adverse moves? ----------

  predicate GuardAt(p: Position, price: real, pct: real) {
    GuardFires(p.Ratio(price), pct)
  }

  /** The guard never un-fires when the price gets worse for the position. */
  ghost predicate GuardClosed(side: Side, symbol: string, pct: real) {
    forall p: Position, price, worse ::
      p.side == side && p.symbol == symbol && p.qty > 0.0
      && 0.0 <= price && 0.0 <= worse && Worse(side, price, worse) && GuardAt(p, price, pct)
      ==> GuardAt(p, worse, pct)
  }

  /** A factor kept symbolic, so that comparisons below stay linear. */
  function Times(factor: real, x: real): real {
    factor * x
  }

  lemma GuardMeans(p: Position, price: real, pct: real)
    requires 0.0 < pct
    ensures GuardAt(p, price, pct) <==>
            if p.Balance(price) <= 0.0 then pct <= WIPED_OUT * 100.0
            else 100.0 * p.Maint(price) >= Times(pct, p.Balance(price))
  {
    hide MaintenanceMargin, Unrealized, Abs, Notional;
    RatioAtLeast(p, price, pct / 100.0, pct / 100.0 * p.Balance(price));
  }

  lemma TimesDifference(factor: real, x: real, y: real)
    ensures Times(factor, x) - Times(factor, y) == Times(factor, x - y)
  {}

  lemma TimesMono(factor: real, x: real, y: real)
    requires factor >= 0.0 && x <= y
    ensures Times(factor, x) <= Times(factor, y)
  {
    MulMono(x, y, factor);
  }

  lemma TimesFactorMono(factor: real, bigger: real, x: real)
    requires factor <= bigger && x >= 0.0
    ensures Times(factor, x) <= Times(bigger, x)
  {
    MulMono(factor, bigger, x);
  }

  /** Between two non-negative prices of a LONG the requirement falls by at most the last rate
      times the fall in value. */
  lemma MaintFallsAtMost(p: Position, high: real, low: real)
    requires p.qty > 0.0 && p.side.LONG? && 0.0 <= low <= high
    ensures p.Balance(high) >= p.Balance(low)
    ensures p.Maint(high) - p.Maint(low) <= Times(LastRate(TiersOf(p.symbol)), p.Balance(high) - p.Balance(low))
  {
    hide *;
    if low < high {
      MaintOfPrice(p, high);
      MaintOfPrice(p, low);
      NotionalIncreases(low, high, p.qty);
      MaintenanceGrowth(Notional(low, p.qty), Notional(high, p.qty), p.symbol);
      BalanceOfLong(p, high);
      BalanceOfLong(p, low);
      TimesIs(LastRate(TiersOf(p.symbol)), Notional(high, p.qty) - Notional(low, p.qty));
    } else {
      TimesIs(LastRate(TiersOf(p.symbol)), 0.0);
    }
  }

  lemma TimesIs(factor: real, x: real)
    ensures Times(factor, x) == factor * x
    ensures x == 0.0 ==> Times(factor, x) == 0.0
  {}

  lemma TimesHundred(rate: real, pct: real, x: real)
    requires 100.0 * rate <= pct && x >= 0.0
    ensures 100.0 * Times(rate, x) <= Times(pct, x)
  {
    TimesFactorMono(100.0 * rate, pct, x);
    assert Times(100.0 * rate, x) == 100.0 * Times(rate, x);
  }

  lemma LongGuardStays(p: Position, price: real, worse: real, pct: real)
    requires p.qty > 0.0 && p.side.LONG? && 0.0 <= worse <= price
    requires 0.0 < pct && 100.0 * LastRate(TiersOf(p.symbol)) <= pct <= WIPED_OUT * 100.0
    requires GuardAt(p, price, pct)
    ensures GuardAt(p, worse, pct)
  {
    GuardMeans(p, price, pct);
    GuardMeans(p, worse, pct);
    MaintFallsAtMost(p, price, worse);
    var fall := p.Balance(price) - p.Balance(worse);
    TimesHundred(LastRate(TiersOf(p.symbol)), pct, fall);
    TimesDifference(pct, p.Balance(price), p.Balance(worse));
    hide *;
  }

  lemma ShortGuardStays(p: Position, price: real, worse: real, pct: real)
    requires p.qty > 0.0 && p.side.SHORT? && 0.0 <= price <= worse
    requires 0.0 < pct <= WIPED_OUT * 100.0
    requires GuardAt(p, price, pct)
    ensures GuardAt(p, worse, pct)
  {
    hide *;
    if price < worse {
      GuardMeans(p, price, pct);
      GuardMeans(p, worse, pct);
      ShortBalanceFalls(p, price, worse);
      MaintGrowsWithPrice(p, price, worse);
      TimesMono(pct, p.Balance(worse), p.Balance(price));
    }
  }

  lemma ShortBalanceFalls(p: Position, price: real, worse: real)
    requires p.qty > 0.0 && p.side.SHORT? && price < worse
    ensures p.Balance(worse) < p.Balance(price)
  {
    BalanceImproves(p, worse, price);
  }

  // Witnesses for the thresholds that are not closed.

  lemma {:induction false} PastEveryTier(tiers: seq<Tier>, from: real, notional: real)
    requires WellFormed(tiers, from) && notional > tiers[|tiers| - 1].upTo
    ensures tiers[|tiers| - 1].upTo > from
    ensures TierIndex(tiers, notional) == |tiers| - 1
  {
    if |tiers| > 1 {
      PastEveryTier(tiers[1..], tiers[0].upTo, notional);
    }
  }

  /** One dollar apart in the last tier, the requirement differs by exactly the last rate. */
  lemma LastTierStep(symbol: string) returns (notional: real)
    ensures notional > 0.0
    ensures MaintenanceMargin(notional + 1.0, symbol) - MaintenanceMargin(notional, symbol) == LastRate(TiersOf(symbol))
  {
    TablesWellFormed(symbol);
    notional := TiersOf(symbol)[|TiersOf(symbol)| - 1].upTo + 1.0;
    LastTierLine(TiersOf(symbol), notional);
  }

  lemma LastTierLine(tiers: seq<Tier>, notional: real)
    requires WellFormed(tiers, 0.0) && notional > tiers[|tiers| - 1].upTo
    ensures notional > 0.0
    ensures Lookup(tiers, notional + 1.0) - Lookup(tiers, notional) == LastRate(tiers)
  {
    PastEveryTier(tiers, 0.0, notional);
    PastEveryTier(tiers, 0.0, notional + 1.0);
    LineDifference(tiers[|tiers| - 1], notional, notional + 1.0);
  }

  /** A one-coin position with a chosen balance at a chosen price. */
  function OneCoin(side: Side, symbol: string, price: real, balance: real): Position {
    Position(side, 1.0, 1.0, balance - (if side.LONG? then price - 1.0 else 1.0 - price), symbol)
  }

  lemma OneCoinFacts(side: Side, symbol: string, price: real, balance: real, other: real)
    requires other >= 0.0
    ensures var p := OneCoin(side, symbol, price, balance);
            && p.Balance(other) == balance + (if side.LONG? then other - price else price - other)
            && p.Maint(other) == MaintenanceMargin(other, symbol)
  {
    hide MaintenanceMargin;
    MaintOfPrice(OneCoin(side, symbol, price, balance), other);
    assert Notional(other, 1.0) == other;
  }

  lemma LongGuardReopens(symbol: string, pct: real) returns (p: Position, price: real, worse: real)
    requires 0.0 < pct < 100.0 * LastRate(TiersOf(symbol)) && pct <= WIPED_OUT * 100.0
    ensures p.side.LONG? && p.symbol == symbol && p.qty > 0.0 && 0.0 <= worse < price
    ensures GuardAt(p, price, pct) && !GuardAt(p, worse, pct)
  {
    hide *;
    worse := LastTierStep(symbol);
    price := worse + 1.0;
    MaintenanceNonNegative(worse, symbol);
    p := ReopeningPosition(symbol, pct, worse, price, LastRate(TiersOf(symbol)));
  }

  lemma ReopeningPosition(symbol: string, pct: real, worse: real, price: real, rate: real) returns (p: Position)
    requires 0.0 < pct < 100.0 * rate && pct <= WIPED_OUT * 100.0
    requires 0.0 < worse && price == worse + 1.0
    requires MaintenanceMargin(price, symbol) - MaintenanceMargin(worse, symbol) == rate
    requires MaintenanceMargin(worse, symbol) >= 0.0
    ensures p.side.LONG? && p.symbol == symbol && p.qty > 0.0
    ensures GuardAt(p, price, pct) && !GuardAt(p, worse, pct)
  {
    hide MaintenanceMargin, GuardAt, Times;
    var maint := MaintenanceMargin(price, symbol);
    var balance := 100.0 * maint / pct;
    p := OneCoin(LONG, symbol, price, balance);
    OneCoinFacts(LONG, symbol, price, balance, price);
    OneCoinFacts(LONG, symbol, price, balance, worse);
    GuardMeans(p, price, pct);
    GuardMeans(p, worse, pct);
    ReopeningArithmetic(maint, pct, rate, balance);
  }

  lemma ReopeningArithmetic(maint: real, pct: real, rate: real, balance: real)
    requires 0.0 < pct < 100.0 * rate && maint >= rate && balance == 100.0 * maint / pct
    ensures balance > 1.0
    ensures Times(pct, balance) == 100.0 * maint
    ensures Times(pct, balance - 1.0) > 100.0 * (maint - rate)
  {
    DivMul(100.0 * maint, pct);
    DivCompare(100.0 * maint, pct, 1.0, pct);
    TimesIs(pct, balance);
    assert Times(pct, balance - 1.0) == Times(pct, balance) - pct;
  }

  /** Above 99900 percent the constant ratio 999 is too small to fire, so running out of balance
      switches the guard off. */
  lemma GuardBeyondWipedOut(side: Side, symbol: string, pct: real) returns (p: Position, price: real, worse: real)
    requires pct > WIPED_OUT * 100.0
    ensures p.side == side && p.symbol == symbol && p.qty > 0.0 && 0.0 <= price && 0.0 <= worse
    ensures Worse(side, price, worse) && GuardAt(p, price, pct) && !GuardAt(p, worse, pct)
  {
    hide MaintenanceMargin, GuardAt, Times;
    price := 1.0;
    var maint := MaintenanceMargin(price, symbol);
    MaintenanceNonNegative(price, symbol);
    var balance := 100.0 * maint / pct;
    WipedOutArithmetic(maint, pct, balance);
    p := OneCoin(side, symbol, price, balance);
    worse := if side.LONG? then price - balance else price + balance;
    OneCoinFacts(side, symbol, price, balance, price);
    OneCoinFacts(side, symbol, price, balance, worse);
    GuardMeans(p, price, pct);
    GuardMeans(p, worse, pct);
  }

  lemma WipedOutArithmetic(maint: real, pct: real, balance: real)
    requires pct > 99_900.0 && 0.0 < maint <= 1.0 && balance == 100.0 * maint / pct
    ensures 0.0 < balance < 1.0 && Times(pct, balance) == 100.0 * maint
  {
    DivMul(100.0 * maint, pct);
    DivPos(100.0 * maint, pct);
    DivCompare(100.0 * maint, pct, 1.0, pct);
  }

  /** LONG: the guard is closed under adverse moves exactly for thresholds from the last rate of the
      symbol's table (50 percent for BTCUSDT) up to 99900 percent. */
  lemma LongGuardClosedExactly(symbol: string, pct: real)
    requires pct > 0.0
    ensures GuardClosed(LONG, symbol, pct) <==> 100.0 * LastRate(TiersOf(symbol)) <= pct <= WIPED_OUT * 100.0
  {
    hide MaintenanceMargin, GuardAt, LastRate, TiersOf;
    if pct > WIPED_OUT * 100.0 {
      var p, price, worse := GuardBeyondWipedOut(LONG, symbol, pct);
      assert !GuardClosed(LONG, symbol, pct);
    } else if pct < 100.0 * LastRate(TiersOf(symbol)) {
      var p, price, worse := LongGuardReopens(symbol, pct);
      assert !GuardClosed(LONG, symbol, pct);
    } else {
      forall p: Position, price, worse |
        p.side == LONG && p.symbol == symbol && p.qty > 0.0
        && 0.0 <= price && 0.0 <= worse && Worse(LONG, price, worse) && GuardAt(p, price, pct)
        ensures GuardAt(p, worse, pct)
      {
        LongGuardStays(p, price, worse, pct);
      }
    }
  }

  /** SHORT: every threshold up to 99900 percent is closed, and no other. */
  lemma ShortGuardClosedExactly(symbol: string, pct: real)
    requires pct > 0.0
    ensures GuardClosed(SHORT, symbol, pct) <==> pct <= WIPED_OUT * 100.0
  {
    hide MaintenanceMargin, GuardAt;
    if pct > WIPED_OUT * 100.0 {
      var p, price, worse := GuardBeyondWipedOut(SHORT, symbol, pct);
      assert !GuardClosed(SHORT, symbol, pct);
    } else {
      forall p: Position, price, worse |
        p.side == SHORT && p.symbol == symbol && p.qty > 0.0
        && 0.0 <= price && 0.0 <= worse && Worse(SHORT, price, worse) && GuardAt(p, price, pct)
        ensures GuardAt(p, worse, pct)
      {
        ShortGuardStays(p, price, worse, pct);
      }
    }
  }

  // ---------- Does the guard come before liquidation? ----------

  /** Every position past the liquidation test is also past the guard. */
  ghost predicate GuardCoversLiquidation(symbol: string, pct: real) {
    forall p: Position, price ::
      p.symbol == symbol && p.qty > 0.0 && price >= 0.0 && p.Liquidated(price) ==> GuardAt(p, price, pct)
  }

  /** The guard covers liquidation exactly for thresholds of at most 100 percent. */
  lemma GuardCoversLiquidationExactly(symbol: string, pct: real)
    requires pct > 0.0
    ensures GuardCoversLiquidation(symbol, pct) <==> pct <= 100.0
  {
    if pct <= 100.0 {
      forall p: Position, price | p.symbol == symbol && p.qty > 0.0 && price >= 0.0 && p.Liquidated(price)
        ensures GuardAt(p, price, pct)
      {
        RatioAboveOne(p.Ratio(price), pct);
      }
    } else {
      var maint := MaintenanceMargin(1.0, symbol);
      MaintenanceNonNegative(1.0, symbol);
      var p := OneCoin(LONG, symbol, 1.0, maint);
      OneCoinFacts(LONG, symbol, 1.0, maint, 1.0);
      hide MaintenanceMargin;
      assert p.Ratio(1.0) == 1.0 by {
        ExactlyOne(p, 1.0);
      }
      assert p.Liquidated(1.0) && !GuardAt(p, 1.0, pct);
    }
  }

  lemma RatioAboveOne(ratio: real, pct: real)
    requires ratio >= 1.0 && pct <= 100.0
    ensures GuardFires(ratio, pct)
  {}

  lemma ExactlyOne(p: Position, price: real)
    requires p.Balance(price) == p.Maint(price) > 0.0
    ensures p.Ratio(price) == 1.0
  {
    hide MaintenanceMargin, Unrealized, Notional;
    DivIs(1.0, p.Maint(price), p.Balance(price));
  }

  /** With the controller and its guard on at a threshold of at most 100 percent, a position that could be
      liquidated is stopped, whatever else the configuration says. */
  lemma LiquidatableIsStopped(sosFilled: int, p: Position, price: real, c: RiskConfig, peak: real)
    requires c.enabled && c.guardEnabled && 0.0 < c.marginPct <= 100.0 && p.Liquidated(price)
    ensures Evaluate(sosFilled, Unrealized(p.side, p.avgEntry, p.qty, price), p.wallet, Notional(price, p.qty),
            p.symbol,
                     c, peak) == MarginGuard
  {
    hide MaintenanceMargin, Unrealized, Notional, LossLimitHit;
    RatioAboveOne(p.Ratio(price), c.marginPct);
  }
}
