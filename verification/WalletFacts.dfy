/** When the wallet of a run stays at or above zero while a basket is open, and when it does not: safety orders are
    paid without asking the wallet. */
module WalletFacts {
  import opened Options
  import opened RealArith
  import opened Rounding
  import opened MarginTiers
  import opened Liquidation
  import opened RiskController
  import opened GridLevels
  import opened SimBasket
  import opened BasketFacts
  import opened Backtest
  import opened BacktestFacts
  import opened TargetFacts

  // ---------- What a basket can still cost ----------

  /** What the unfilled rungs of a basket would take out of the wallet. */
  function UnfilledMargin(b: Basket): real {
    if |b.filled| <= |b.levels| then SumMargin(b.levels[|b.filled|..]) else 0.0
  }

  ghost predicate Covered(s: EngineState) {
    s.active.Some? ==> s.wallet >= UnfilledMargin(s.active.value) >= 0.0
  }

  /** Every basket the engine would open is paid for in full by the wallet it is opened from. */
  ghost predicate EntriesCovered(cfg: EngineConfig) {
    forall side, price, atr, wallet, time ::
      var attempt := TryOpen(cfg, side, price, atr, wallet, time);
      attempt.Some? ==> attempt.value.margin + SumMargin(attempt.value.levels) <= wallet
  }

  lemma GrownUnfilled(b0: Basket, b: Basket, k: nat)
    requires Opened(b0) && Grown(b0, b, k)
    ensures |b.filled| == k && UnfilledMargin(b) == SumMargin(b0.levels[k..]) >= 0.0
    ensures UnfilledMargin(b) > 0.0 <==> k < |b0.levels|
  {
    hide Notional, Fee, CalculateTpPrice;
    SumMarginPositive(b0.levels[k..]);
  }

  /** A candle that leaves the basket open takes what it fills off both the wallet and the unfilled margin. */
  lemma CandlePaysUnfilled(cfg: EngineConfig, s: EngineState, c: Candle, funding: seq<FundingEvent>)
    requires Tuned(cfg) && Sound(cfg, s) && s.active.Some? && !s.stopped
    ensures var t := Step(cfg, s, c, funding);
            t.active.Some? ==>
              && t.wallet - UnfilledMargin(t.active.value) == s.wallet - UnfilledMargin(s.active.value)
              && UnfilledMargin(t.active.value) >= 0.0
  {
    var b := s.active.value;
    var b0: Basket, k: nat :| EngineOpens(cfg, b0) && Grown(b0, b, k);
    hide *;
    HeldOnly(cfg, s, c, funding);
    EngineOpensSoundly(cfg, b0);
    BarPaysUnfilled(b0, b, k, BarOf(c, s.wallet), funding);
  }

  lemma BarPaysUnfilled(b0: Basket, b: Basket, k: nat, bar: BasketBar, funding: seq<FundingEvent>)
    requires Opened(b0) && Grown(b0, b, k)
    ensures var used := SumMargin(FillsOf(b, bar, funding));
            && used >= 0.0
            && UnfilledMargin(b) == used + UnfilledMargin(AfterBar(b, bar, funding))
            && UnfilledMargin(AfterBar(b, bar, funding)) >= 0.0
  {
    hide *;
    var m := FilledAfter(b, k, bar, funding);
    BarKeepsBooks(b0, b, k, bar, funding);
    OpenedMargins(b0);
    GrownUnfilled(b0, b, k);
    GrownUnfilled(b0, AfterBar(b, bar, funding), m);
    SumMarginPositive(b0.levels[k..m]);
    assert b0.levels[k..] == b0.levels[k..m] + b0.levels[m..];
    SumMarginConcat(b0.levels[k..m], b0.levels[m..]);
  }

  lemma OpenedMargins(b0: Basket)
    requires Opened(b0)
    ensures forall i :: 0 <= i < |b0.levels| ==> b0.levels[i].margin > 0.0
  {}

  lemma EntryIsCovered(cfg: EngineConfig, s: EngineState, c: Candle)
    requires Tuned(cfg) && EntriesCovered(cfg) && Covered(s)
    ensures Covered(AfterEntry(cfg, s, c))
  {
    hide TryOpen, SumMargin, Tuned;
    if c.signal.Enter? {
      var price := EntryPrice(c.signal.side, c.close, c.signal.slip);
      var attempt := TryOpen(cfg, c.signal.side, price, c.signal.atr, s.wallet, c.openTime);
      if attempt.Some? {
        OpensSoundly(cfg, c.signal.side, price, c.signal.atr, s.wallet, c.openTime);
        FreshUnfilled(attempt.value);
      }
    }
  }

  lemma FreshUnfilled(b: Basket)
    requires Opened(b)
    ensures UnfilledMargin(b) == SumMargin(b.levels) >= 0.0
  {
    assert b.levels[0..] == b.levels;
    OpenedMargins(b);
    SumMarginPositive(b.levels);
  }

  lemma StepIsCovered(cfg: EngineConfig, s: EngineState, c: Candle, funding: seq<FundingEvent>)
    requires Tuned(cfg) && EntriesCovered(cfg) && Sound(cfg, s) && Covered(s)
    ensures Covered(Step(cfg, s, c, funding))
  {
    hide EntriesCovered, Tuned, Sound, AfterEntry, Covered;
    if !s.stopped {
      var counted := s.(barsSinceClose := s.barsSinceClose + 1);
      if s.active.Some? {
        CandlePaysUnfilled(cfg, s, c, funding);
        StillCovered(s, Step(cfg, s, c, funding));
      } else {
        StillCovered(s, counted);
        EntryIsCovered(cfg, counted, c);
      }
    }
  }

  lemma StillCovered(s: EngineState, t: EngineState)
    requires Covered(s)
    requires s.active.Some? && t.active.Some? ==>
               && t.wallet - UnfilledMargin(t.active.value) == s.wallet - UnfilledMargin(s.active.value)
               && UnfilledMargin(t.active.value) >= 0.0
    requires s.active.None? ==> t.active.None?
    ensures Covered(t)
  {
    hide UnfilledMargin;
  }

  /** If every entry is covered, then in every run the wallet covers the unfilled rungs of the open basket after
      every candle; in particular it is never negative. */
  lemma {:induction false} CoveredEntriesCoverRuns(cfg: EngineConfig, candles: seq<Candle>, funding: seq<FundingEvent>)
    requires Tuned(cfg) && EntriesCovered(cfg)
    ensures Covered(RunCandles(cfg, candles, funding))
  {
    hide Step, EntriesCovered, Tuned, Sound;
    if candles != [] {
      var before := candles[..|candles| - 1];
      CoveredEntriesCoverRuns(cfg, before, funding);
      RunIsSound(cfg, before, funding);
      StepIsCovered(cfg, RunCandles(cfg, before, funding), candles[|candles| - 1], funding);
    }
  }

  // ---------- The condition in parameters ----------

  /** The wallet a base order is sized against keeps raising it. */
  predicate Compounds(cfg: EngineConfig) {
    cfg.compounding && cfg.initialCapital > 0.0 && cfg.compoundingPct > 0.0
  }

  /** The largest share of the wallet a base order takes, over all wallets. */
  function PeakShare(cfg: EngineConfig): real {
    if (cfg.sizing.FixedUsdSizing? && cfg.baseOrderUsd > 0.0) || (Compounds(cfg) && cfg.baseOrderPct > 0.0) then 0.5
    else Min(cfg.baseOrderPct / 100.0, 0.5)
  }

  /** How often the base margin is locked when every rung is filled: 1 + v + ... + v^N. */
  function LadderFactor(cfg: EngineConfig): real {
    GeoSum(cfg.volumeScale, (if cfg.maxSafetyOrders > 0 then cfg.maxSafetyOrders else 0) + 1)
  }

  /** What the endpoint that starts a backtest makes sure of about sizes. */
  predicate Sized(cfg: EngineConfig) {
    cfg.volumeScale > 0.0 && cfg.baseOrderPct >= 0.0
  }

  function WholeMargin(p: GridParams): real {
    MarginThrough(p, LevelCount(p))
  }

  /** Every generated ladder, base order included, fits into the wallet it is sized against. */
  ghost predicate LaddersAffordable(cfg: EngineConfig) {
    forall side, price, atr, wallet ::
      wallet > 0.0 ==> WholeMargin(ParamsOf(cfg, side, price, atr, wallet)) <= wallet
  }

  /** The grid can never cost more than the wallet if and only if the largest share of the base order times
      1 + v + ... + v^N is at most 1. */
  lemma LaddersAffordableExactly(cfg: EngineConfig)
    requires Sized(cfg)
    ensures LaddersAffordable(cfg) <==> PeakShare(cfg) * LadderFactor(cfg) <= 1.0
  {
    hide PeakShare, MarginThrough, BoMargin;
    FactorPositive(cfg);
    var factor, share := LadderFactor(cfg), PeakShare(cfg);
    if share * factor <= 1.0 {
      forall side, price, atr, wallet | wallet > 0.0
        ensures WholeMargin(ParamsOf(cfg, side, price, atr, wallet)) <= wallet
      {
        var p := ParamsOf(cfg, side, price, atr, wallet);
        TotalMarginClosed(p, LevelCount(p));
        ShareIsUpperBound(cfg, side, price, atr, wallet);
        ShareFits(BoMargin(p), share, wallet, factor);
      }
    }
    if LaddersAffordable(cfg) {
      var wallet := ShareIsAttained(cfg);
      var p := ParamsOf(cfg, LONG, 1.0, 1.0, wallet);
      TotalMarginClosed(p, LevelCount(p));
      assert WholeMargin(p) <= wallet;
      ShareMustFit(share, wallet, factor);
    }
  }

  lemma {:induction false} GeoSumPositive(s: real, n: nat)
    requires s > 0.0
    ensures GeoSum(s, n + 1) >= 1.0
  {
    hide Pow;
    if n == 0 {
      assert GeoSum(s, 0) == 0.0 && Pow(s, 0) == 1.0 by { FirstTerm(s); }
    } else {
      GeoSumPositive(s, n - 1);
      PowPositive(s, n);
    }
  }

  lemma FirstTerm(s: real)
    ensures GeoSum(s, 0) == 0.0 && Pow(s, 0) == 1.0
  {}

  lemma FactorPositive(cfg: EngineConfig)
    requires Sized(cfg)
    ensures LadderFactor(cfg) >= 1.0
  {
    GeoSumPositive(cfg.volumeScale, if cfg.maxSafetyOrders > 0 then cfg.maxSafetyOrders else 0);
  }

  lemma ShareFits(margin: real, share: real, wallet: real, factor: real)
    requires margin <= wallet * share && share * factor <= 1.0 && wallet > 0.0 && factor > 0.0
    ensures margin * factor <= wallet
  {
    MulMono(margin, wallet * share, factor);
    MulMono(share * factor, 1.0, wallet);
    assert (wallet * share) * factor == (share * factor) * wallet;
  }

  lemma ShareMustFit(share: real, wallet: real, factor: real)
    requires wallet > 0.0 && (wallet * share) * factor <= wallet
    ensures share * factor <= 1.0
  {
    var x := share * factor;
    assert (wallet * share) * factor == x * wallet;
    ScaledCompare(x, 1.0, wallet);
  }

  lemma ShareIsUpperBound(cfg: EngineConfig, side: Side, price: real, atr: real, wallet: real)
    requires Sized(cfg) && wallet > 0.0
    ensures BoMargin(ParamsOf(cfg, side, price, atr, wallet)) <= wallet * PeakShare(cfg)
  {
    var p := ParamsOf(cfg, side, price, atr, wallet);
    var pct := cfg.baseOrderPct / 100.0;
    if PeakShare(cfg) != 0.5 {
      var part := wallet * pct;
      MulNonNeg(wallet, pct);
      if pct > 0.0 {
        CompoundBounded(cfg, p);
      }
      AtMostOnce(part, Compound(p));
    }
  }

  lemma AtMostOnce(part: real, times: real)
    requires part >= 0.0 && (times <= 1.0 || part == 0.0)
    ensures part * times <= part
  {
    if part > 0.0 {
      MulMono(times, 1.0, part);
    }
  }

  lemma CompoundBounded(cfg: EngineConfig, p: GridParams)
    requires p.compounding == cfg.compounding && p.initialCapital == cfg.initialCapital
    requires p.compoundingPct == cfg.compoundingPct / 100.0
    requires !Compounds(cfg)
    ensures Compound(p) <= 1.0
  {
    if p.compounding && p.initialCapital > 0.0 && p.wallet > p.initialCapital {
      DivCompare(p.wallet, p.initialCapital, 1.0, p.initialCapital);
      var growth := p.wallet / p.initialCapital - 1.0;
      MulNonNeg(-p.compoundingPct, growth);
      assert (-p.compoundingPct) * growth == -(p.compoundingPct * growth);
    }
  }

  /** Some wallet has its base order sized at the peak share: a small one for a fixed size, a grown one when it
      compounds, and otherwise any up to the initial capital. */
  lemma ShareIsAttained(cfg: EngineConfig) returns (wallet: real)
    requires Sized(cfg)
    ensures wallet > 0.0
    ensures BoMargin(ParamsOf(cfg, LONG, 1.0, 1.0, wallet)) == wallet * PeakShare(cfg)
  {
    if cfg.sizing.FixedUsdSizing? && cfg.baseOrderUsd > 0.0 {
      wallet := AttainedByFixedSize(cfg);
    } else if Compounds(cfg) && cfg.baseOrderPct > 0.0 {
      wallet := AttainedByGrowth(cfg);
    } else {
      wallet := AttainedAtOnce(cfg);
    }
  }

  lemma AttainedByFixedSize(cfg: EngineConfig) returns (wallet: real)
    requires cfg.sizing.FixedUsdSizing? && cfg.baseOrderUsd > 0.0
    ensures wallet > 0.0
    ensures BoMargin(ParamsOf(cfg, LONG, 1.0, 1.0, wallet)) == wallet * 0.5
  {
    var capital := cfg.initialCapital;
    wallet := if capital > 0.0 then Min(2.0 * cfg.baseOrderUsd, capital) else 2.0 * cfg.baseOrderUsd;
    assert Compound(ParamsOf(cfg, LONG, 1.0, 1.0, wallet)) == 1.0;
  }

  lemma AttainedByGrowth(cfg: EngineConfig) returns (wallet: real)
    requires !(cfg.sizing.FixedUsdSizing? && cfg.baseOrderUsd > 0.0) && Compounds(cfg) && cfg.baseOrderPct > 0.0
    ensures wallet > 0.0
    ensures BoMargin(ParamsOf(cfg, LONG, 1.0, 1.0, wallet)) == wallet * 0.5
  {
    var pct, rate := cfg.baseOrderPct / 100.0, cfg.compoundingPct / 100.0;
    wallet := GrownWallet(cfg.initialCapital, pct, rate);
    var times := Compound(ParamsOf(cfg, LONG, 1.0, 1.0, wallet));
    assert pct * times == pct + 0.5;
    hide Compound;
    MulMono(0.5, pct + 0.5, wallet);
    assert wallet * pct * times == wallet * (pct * times);
  }

  lemma AttainedAtOnce(cfg: EngineConfig) returns (wallet: real)
    requires !(cfg.sizing.FixedUsdSizing? && cfg.baseOrderUsd > 0.0)
    ensures wallet > 0.0
    ensures BoMargin(ParamsOf(cfg, LONG, 1.0, 1.0, wallet)) == wallet * Min(cfg.baseOrderPct / 100.0, 0.5)
  {
    var pct := cfg.baseOrderPct / 100.0;
    wallet := if cfg.initialCapital > 0.0 then cfg.initialCapital else 1.0;
    var p := ParamsOf(cfg, LONG, 1.0, 1.0, wallet);
    assert Compound(p) == 1.0;
    hide Compound;
    assert BoMargin(p) == Min(wallet * pct, wallet * 0.5);
    if pct <= 0.5 {
      MulMono(pct, 0.5, wallet);
    } else {
      MulMono(0.5, pct, wallet);
    }
  }

  /** A wallet whose growth over the capital adds one half to the share `pct`. */
  lemma GrownWallet(capital: real, pct: real, rate: real) returns (wallet: real)
    requires capital > 0.0 && pct > 0.0 && rate > 0.0
    ensures wallet > capital && pct * (1.0 + rate * (wallet / capital - 1.0)) == pct + 0.5
  {
    var both := pct * rate;
    MulPos(pct, rate);
    var growth := 0.5 / both;
    DivPos(0.5, both);
    DivMul(0.5, both);
    wallet := capital * (1.0 + growth);
    MulPos(capital, growth);
    DivIs(1.0 + growth, wallet, capital);
    assert pct * (1.0 + rate * growth) == pct + both * growth;
  }

  /** Rounding keeps margins and the minimum-size filter only drops rungs, so an opened ladder costs at most the
      generated one, and as much when nothing is dropped. */
  lemma {:induction false} KeptMarginAtMost(cfg: EngineConfig, p: GridParams, n: nat)
    requires n <= |GridOf(p).levels| && BoMargin(p) >= 0.0 && p.volumeScale > 0.0
    ensures var kept := KeptLevels(cfg, GridOf(p).levels, n);
            && |kept| <= n
            && SumMargin(kept) <= MarginThrough(p, n) - BoMargin(p)
            && (|kept| == n ==> SumMargin(kept) == MarginThrough(p, n) - BoMargin(p))
  {
    hide BoMargin, LevelAt, RoundDown, Tradable, Pow, TpTarget, Notional;
    if n > 0 {
      KeptMarginAtMost(cfg, p, n - 1);
      LevelMargin(p, n);
      PowPositive(p.volumeScale, n);
      MulNonNeg(BoMargin(p), Pow(p.volumeScale, n));
      var kept := KeptLevels(cfg, GridOf(p).levels, n - 1);
      var so := RoundedLevel(cfg, LevelAt(p, n));
      assert (kept + [so])[..|kept|] == kept;
      assert MarginThrough(p, n) == MarginThrough(p, n - 1) + SoMargin(p, n);
      if Tradable(cfg, so.qty, so.fillPrice) {
        assert KeptLevels(cfg, GridOf(p).levels, n) == kept + [so];
      } else {
        assert KeptLevels(cfg, GridOf(p).levels, n) == kept + [] == kept;
      }
    }
  }

  lemma AffordableEntriesAreCovered(cfg: EngineConfig)
    requires Tuned(cfg) && Sized(cfg) && LaddersAffordable(cfg)
    ensures EntriesCovered(cfg)
  {
    hide TryOpen, LaddersAffordable, SumMargin;
    forall side, price, atr, wallet, time | TryOpen(cfg, side, price, atr, wallet, time).Some?
      ensures var b := TryOpen(cfg, side, price, atr, wallet, time).value; b.margin + SumMargin(b.levels) <= wallet
    {
      var p := ParamsOf(cfg, side, price, atr, wallet);
      EntryLeavesHalf(cfg, side, price, atr, wallet, time);
      OpenedLadder(cfg, side, price, atr, wallet, time);
      KeptMarginAtMost(cfg, p, LevelCount(p));
      FitsAt(cfg, side, price, atr, wallet);
    }
  }

  lemma FitsAt(cfg: EngineConfig, side: Side, price: real, atr: real, wallet: real)
    requires LaddersAffordable(cfg) && wallet > 0.0
    ensures WholeMargin(ParamsOf(cfg, side, price, atr, wallet)) <= wallet
  {
    hide WholeMargin;
  }

  lemma OpenedLadder(cfg: EngineConfig, side: Side, price: real, atr: real, wallet: real, time: int)
    requires TryOpen(cfg, side, price, atr, wallet, time).Some?
    ensures var p, b := ParamsOf(cfg, side, price, atr, wallet), TryOpen(cfg, side, price, atr, wallet, time).value;
            && |GridOf(p).levels| == LevelCount(p)
            && b.margin == BoMargin(p) && b.levels == KeptLevels(cfg, GridOf(p).levels, LevelCount(p))
            && b.risk == cfg.risk
  {
    hide BoMargin, LevelAt, RoundDown, Tradable, TpTarget, Notional, CalculateTpPrice, Fee, KeptLevels;
  }

  /** In parameters: if the largest share of the base order times 1 + v + ... + v^N is at most 1, the wallet covers the
      unfilled rungs after every candle of every run, so it is never negative while a basket is open. */
  lemma AffordableRunsStayCovered(cfg: EngineConfig, candles: seq<Candle>, funding: seq<FundingEvent>)
    requires Tuned(cfg) && Sized(cfg)
    ensures PeakShare(cfg) * LadderFactor(cfg) <= 1.0 ==>
              var s := RunCandles(cfg, candles, funding);
              s.active.Some? ==> s.wallet >= UnfilledMargin(s.active.value) >= 0.0
  {
    hide RunCandles, EntriesCovered, LaddersAffordable, PeakShare, LadderFactor, Tuned, Sized;
    LaddersAffordableExactly(cfg);
    if PeakShare(cfg) * LadderFactor(cfg) <= 1.0 {
      AffordableEntriesAreCovered(cfg);
      CoveredEntriesCoverRuns(cfg, candles, funding);
    }
  }

  // ---------- The converse ----------

  predicate GoesNegative(cfg: EngineConfig, s: EngineState, c: Candle, funding: seq<FundingEvent>) {
    var t := Step(cfg, s, c, funding);
    t.active.Some? && t.wallet < 0.0
  }

  /** Some next candle with positive, ordered prices leaves the basket open and the wallet below zero. */
  ghost predicate CanGoNegative(cfg: EngineConfig, s: EngineState) {
    exists c: Candle, funding: seq<FundingEvent> ::
      0.0 < c.low <= c.close <= c.high && GoesNegative(cfg, s, c, funding)
  }

  /** Every rung is worth at least its margin and has a positive price. */
  ghost predicate Weighty(levels: seq<Level>) {
    forall i :: 0 <= i < |levels| ==> levels[i].margin <= Notional(levels[i].fillPrice, levels[i].qty)
  }

  ghost predicate PricesPositive(levels: seq<Level>) {
    forall i :: 0 <= i < |levels| ==> levels[i].fillPrice > 0.0
  }

  lemma PositiveFactor(price: real, qty: real)
    requires qty > 0.0 && Notional(price, qty) > 0.0
    ensures price > 0.0
  {
    MulSign(price, qty);
  }

  lemma RoundDownKeepsHalf(value: real, step: real)
    requires step > 0.0 && RoundDown(value, step) > 0.0
    ensures value < 2.0 * RoundDown(value, step)
  {
    RoundDownPositive(value, step);
    assert RoundDown(0.0, step) == 0.0 by { RoundDownLoses(0.0, step); }
    RoundedApart(0.0, value, step);
    RoundDownLoses(value, step);
  }

  /** With a leverage of 4 or more, rounding price and quantity down leaves a rung worth more than its margin. */
  lemma RungIsWeighty(cfg: EngineConfig, p: GridParams, n: nat)
    requires n >= 1 && p.leverage >= 1 && KeptRung(cfg, p, n)
    ensures Rung(cfg, p, n).fillPrice > 0.0
    ensures p.leverage >= 4 ==> Rung(cfg, p, n).margin <= Notional(Rung(cfg, p, n).fillPrice, Rung(cfg, p, n).qty)
  {
    hide RoundDown, Notional, FillPrice, SoMargin;
    var rung, whole := Rung(cfg, p, n), LevelAt(p, n);
    PositiveFactor(rung.fillPrice, rung.qty);
    KeptLevelFacts(cfg, p, n);
    RoundDownKeepsHalf(whole.qty, QtyStep(cfg.symbol));
    RoundDownKeepsHalf(whole.fillPrice, TickSize(cfg.symbol));
    LevelValue(p, n);
    RoundDownPositive(whole.qty, QtyStep(cfg.symbol));
    QuarterKept(whole.fillPrice, whole.qty, rung.fillPrice, rung.qty, SoMargin(p, n), p.leverage);
  }

  lemma QuarterKept(price: real, qty: real, roundPrice: real, roundQty: real, margin: real, leverage: int)
    requires 0.0 < price < 2.0 * roundPrice && 0.0 < qty < 2.0 * roundQty && margin > 0.0
    requires qty * price == margin * leverage as real
    ensures leverage >= 4 ==> margin <= Notional(roundPrice, roundQty)
  {
    if leverage >= 4 {
      MulStrict(price, 2.0 * roundPrice, qty);
      MulStrict(qty, 2.0 * roundQty, 2.0 * roundPrice);
      MulMono(4.0, leverage as real, margin);
      assert price * qty == qty * price && (2.0 * roundPrice) * qty == qty * (2.0 * roundPrice);
      assert (2.0 * roundQty) * (2.0 * roundPrice) == 4.0 * (roundPrice * roundQty);
      assert margin * leverage as real == leverage as real * margin;
    }
  }

  lemma EngineRungs(cfg: EngineConfig, b0: Basket)
    requires Tuned(cfg) && EngineOpens(cfg, b0)
    ensures PricesPositive(b0.levels) && (cfg.leverage >= 4 ==> Weighty(b0.levels))
    ensures b0.risk == cfg.risk && Notional(b0.avgEntry, b0.qty) > 0.0
  {
    hide TryOpen, RoundedLevel, LevelAt, KeptLevels, Notional, GridOf;
    var side, price, atr, wallet, time :| TryOpen(cfg, side, price, atr, wallet, time) == Some(b0);
    var p := ParamsOf(cfg, side, price, atr, wallet);
    OpenedLadder(cfg, side, price, atr, wallet, time);
    OpenedWorth(cfg, side, price, atr, wallet, time);
    forall i | 0 <= i < |b0.levels|
      ensures b0.levels[i].fillPrice > 0.0
      ensures cfg.leverage >= 4 ==> b0.levels[i].margin <= Notional(b0.levels[i].fillPrice, b0.levels[i].qty)
    {
      var m := KeptIsRung(cfg, p, LevelCount(p), i);
      RungIsWeighty(cfg, p, m);
    }
  }

  lemma OpenedWorth(cfg: EngineConfig, side: Side, price: real, atr: real, wallet: real, time: int)
    requires TryOpen(cfg, side, price, atr, wallet, time).Some?
    ensures var b := TryOpen(cfg, side, price, atr, wallet, time).value; Notional(b.avgEntry, b.qty) > 0.0
  {
    hide Notional, RoundDown, GridOf, KeptLevels, CalculateTpPrice, Fee;
  }

  lemma {:induction false} SumCostCoversMargin(levels: seq<Level>)
    requires Weighty(levels)
    ensures SumMargin(levels) <= SumCost(levels)
  {
    hide Notional;
    if levels != [] {
      SumCostCoversMargin(levels[..|levels| - 1]);
    }
  }

  /** A LONG survives any hole if the price is high enough. */
  lemma HighValueBacks(symbol: string, need: real, least: real) returns (value: real)
    ensures value >= least && value > 0.0 && value - need > MaintenanceMargin(value, symbol)
  {
    hide MaintenanceMargin, Lookup, TierIndex;
    var rate := LastRate(TiersOf(symbol));
    assert 0.0 < rate < 1.0 by {
      TablesWellFormed(symbol);
      RatesBelow(TiersOf(symbol), 0.0, |TiersOf(symbol)| - 1);
    }
    var free, wanted := 1.0 - rate, Abs(need) + 1.0;
    var enough := wanted / free;
    DivMul(wanted, free);
    DivPos(wanted, free);
    value := Max(least, enough);
    MulMono(enough, value, free);
    MaintenanceNonNegative(0.0, symbol);
    MaintenanceGrowth(0.0, value, symbol);
    assert rate * value + value * free == value by { SplitWhole(value, rate, free); }
  }

  lemma SplitWhole(value: real, rate: real, free: real)
    requires rate + free == 1.0
    ensures rate * value + value * free == value
  {
    assert value * (rate + free) == rate * value + value * free;
  }

  /** A SHORT survives a hole smaller than its whole cost if the price is low enough. */
  lemma LowValueBacks(symbol: string, gap: real, most: real) returns (value: real)
    requires gap > 0.0 && most > 0.0
    ensures 0.0 < value <= most && gap - value > MaintenanceMargin(value, symbol)
  {
    hide MaintenanceMargin;
    value := Min(most, gap / 4.0);
    MaintenanceNonNegative(value, symbol);
  }

  /** Some price at or beyond a rung's backs the position, whatever the wallet for a LONG and with a positive rest
      for a SHORT. */
  lemma BackingPrice(p: Position, rung: real) returns (price: real)
    requires p.qty > 0.0 && rung > 0.0
    requires p.side.SHORT? ==> p.wallet + Notional(p.avgEntry, p.qty) > 0.0
    ensures price > 0.0 && (if p.side.LONG? then rung <= price else price <= rung)
    ensures p.Balance(price) > p.Maint(price)
  {
    hide MaintenanceMargin;
    var cost, edge := Notional(p.avgEntry, p.qty), rung * p.qty;
    MulPos(rung, p.qty);
    var value: real;
    if p.side.LONG? {
      value := HighValueBacks(p.symbol, cost - p.wallet, edge);
    } else {
      value := LowValueBacks(p.symbol, p.wallet + cost, edge);
    }
    price := value / p.qty;
    DivPos(value, p.qty);
    DivMul(value, p.qty);
    ScaledCompare(price, rung, p.qty);
    ScaledCompare(rung, price, p.qty);
    assert Unrealized(p.side, p.avgEntry, p.qty, price) == if p.side.LONG? then value - cost else cost - value;
  }

  /** The basket with every rung filled. */
  function FullyFilled(b: Basket, rest: seq<Level>): Basket {
    FillAll(b.(barsSinceFill := 1), rest).(barsSinceFill := 0)
  }

  /** The candle after a fill checks no take-profit; if it touches the deepest rung it fills everything left. */
  lemma FillsEverything(b0: Basket, b: Basket, k: nat, bar: BasketBar)
    requires Opened(b0) && Grown(b0, b, k) && k < |b0.levels| && !b.closed && b.barsSinceFill == 0 && !b.risk.enabled
    requires if b.side.LONG? then bar.low <= b0.levels[|b0.levels| - 1].fillPrice
             else bar.high >= b0.levels[|b0.levels| - 1].fillPrice
    ensures AfterBar(b, bar, []) == FullyFilled(b, b0.levels[k..]) && FillsOf(b, bar, []) == b0.levels[k..]
    ensures Grown(b0, FullyFilled(b, b0.levels[k..]), |b0.levels|) && !FullyFilled(b, b0.levels[k..]).closed
  {
    hide Notional, Fee, CalculateTpPrice, Unrealized, Evaluate, TpPenetrated, Closed, SumMargin, SumCost, SumQty,
         NewlyFilled, FillAll, Opened;
    BarKeepsBooks(b0, b, k, bar, []);
    var aged := Aged(b, bar, []);
    assert aged == b.(barsSinceFill := 1);
    assert b0.levels[k..|b0.levels|] == b0.levels[k..] != [];
    FillAllStaysOpen(aged, b0.levels[k..]);
    AgedKeepsBooks(b0, b, k, bar, []);
    FillAllKeepsBooks(b0, aged, k, |b0.levels|);
  }

  /** If it is backed at its close, it goes through. */
  lemma BackedGoesThrough(cfg: EngineConfig, s: EngineState, c: Candle, funding: seq<FundingEvent>)
    requires s.active.Some? && !s.stopped && cfg.maxAgeHours <= 0.0
    requires var bar := BarOf(c, s.wallet);
             var after := AfterBar(s.active.value, bar, funding);
             var used := SumMargin(FillsOf(s.active.value, bar, funding));
             && !after.closed && used > s.wallet >= 0.0
             && var p := PositionOf(after, s.wallet - used, cfg.symbol);
                p.Balance(c.close) > p.Maint(c.close)
    ensures GoesNegative(cfg, s, c, funding)
  {
    hide AfterBar, FillsOf, SumMargin, TryOpen, Unrealized, Notional, Fee, MarginRatio, MaintenanceMargin;
    var bar := BarOf(c, s.wallet);
    var after, used := AfterBar(s.active.value, bar, funding), SumMargin(FillsOf(s.active.value, bar, funding));
    LiquidatedMeans(PositionOf(after, s.wallet - used, cfg.symbol), c.close);
  }

  lemma UncoveredCanGoNegative(cfg: EngineConfig, s: EngineState, b0: Basket, k: nat)
    requires Tuned(cfg) && cfg.maxAgeHours <= 0.0 && !cfg.risk.enabled && EngineOpens(cfg, b0)
    requires s.active.Some? && !s.stopped && Grown(b0, s.active.value, k)
    requires !s.active.value.closed && s.active.value.barsSinceFill == 0
    requires s.active.value.side.LONG? || cfg.leverage >= 4
    requires 0.0 <= s.wallet < UnfilledMargin(s.active.value)
    ensures CanGoNegative(cfg, s)
  {
    hide Grown, Opened, EngineOpens, AfterBar, FillsOf, FullyFilled, SumMargin, MaintenanceMargin, Tuned, CanGoNegative,
         GoesNegative, Unrealized, PricesPositive, Weighty, LadderBehindEntry, Notional;
    EngineOpensSoundly(cfg, b0);
    GrownTerms(cfg, b0, s.active.value, k);
    var b, rest := s.active.value, b0.levels[k..];
    GrownUnfilled(b0, b, k);
    var rung := b0.levels[|b0.levels| - 1].fillPrice;
    var full := FullyFilled(b, rest);
    FillsEverything(b0, b, k, BasketBar(rung, rung, 0, 0.0));
    GrownQtyPositive(b0, full, |b0.levels|);
    GrownTerms(cfg, b0, full, |b0.levels|);
    var p := PositionOf(full, s.wallet - SumMargin(rest), cfg.symbol);
    if b.side.SHORT? {
      CostCoversRest(cfg, b0, full, k);
    }
    var price := BackingPrice(p, rung);
    var c := if b.side.LONG? then Candle(0, price, rung, price, NoSignal) else Candle(0, rung, price, price, NoSignal);
    FillsEverything(b0, b, k, BarOf(c, s.wallet));
    BackedGoesThrough(cfg, s, c, []);
    Witnessed(cfg, s, c, []);
  }

  lemma Witnessed(cfg: EngineConfig, s: EngineState, c: Candle, funding: seq<FundingEvent>)
    requires 0.0 < c.low <= c.close <= c.high && GoesNegative(cfg, s, c, funding)
    ensures CanGoNegative(cfg, s)
  {
    hide GoesNegative;
  }

  lemma GrownTerms(cfg: EngineConfig, b0: Basket, b: Basket, k: nat)
    requires Tuned(cfg) && EngineOpens(cfg, b0) && Grown(b0, b, k)
    ensures b.side == b0.side && b.risk == cfg.risk && k <= |b0.levels|
    ensures forall i :: 0 <= i < |b0.levels| ==> b0.levels[i].fillPrice > 0.0
  {
    hide EngineOpens, Notional, Fee, CalculateTpPrice, Weighty;
    EngineRungs(cfg, b0);
  }

  lemma CostCoversRest(cfg: EngineConfig, b0: Basket, full: Basket, k: nat)
    requires Tuned(cfg) && EngineOpens(cfg, b0) && Opened(b0) && cfg.leverage >= 4
    requires Grown(b0, full, |b0.levels|) && k <= |b0.levels|
    ensures Notional(full.avgEntry, full.qty) > SumMargin(b0.levels[k..])
  {
    hide EngineOpens, Notional, Fee, CalculateTpPrice, Weighty, SumMargin, SumCost, SumQty;
    EngineRungs(cfg, b0);
    SumCostCoversMargin(b0.levels);
    assert b0.levels[..|b0.levels|] == b0.levels;
    assert b0.levels == b0.levels[..k] + b0.levels[k..];
    SumMarginConcat(b0.levels[..k], b0.levels[k..]);
    SumMarginPositive(b0.levels[..k]);
  }

  /** With neither risk stop nor age stop: right after a candle that filled a rung, the next one can take a wallet that
      is not negative below zero, with the basket still open, if and only if the wallet does not cover the unfilled
      rungs.  (A SHORT gains at most its cost, so it needs a leverage that makes each rung worth its margin.) */
  lemma ExposedExactly(cfg: EngineConfig, candles: seq<Candle>, funding: seq<FundingEvent>)
    requires Tuned(cfg) && !cfg.risk.enabled && cfg.maxAgeHours <= 0.0
    ensures var s := RunCandles(cfg, candles, funding);
            s.active.Some? && s.active.value.barsSinceFill == 0 && s.wallet >= 0.0
            && (s.active.value.side.LONG? || cfg.leverage >= 4) ==>
              (CanGoNegative(cfg, s) <==> s.wallet < UnfilledMargin(s.active.value))
  {
    hide RunCandles, CanGoNegative, GoesNegative, UnfilledMargin, Grown, EngineOpens, GoodTrade, TotalPnl, CostlyLevels;
    var s := RunCandles(cfg, candles, funding);
    RunIsSound(cfg, candles, funding);
    RunConserves(cfg, candles, funding);
    if s.active.Some? {
      if s.wallet >= UnfilledMargin(s.active.value) {
        CoveredCannotGoNegative(cfg, s);
      } else if s.active.value.barsSinceFill == 0 && s.wallet >= 0.0
                && (s.active.value.side.LONG? || cfg.leverage >= 4) {
        var b0: Basket, k: nat :| EngineOpens(cfg, b0) && Grown(b0, s.active.value, k);
        UncoveredCanGoNegative(cfg, s, b0, k);
      }
    }
  }

  lemma CoveredCannotGoNegative(cfg: EngineConfig, s: EngineState)
    requires Tuned(cfg) && Sound(cfg, s) && s.active.Some? && !s.stopped && s.wallet >= UnfilledMargin(s.active.value)
    ensures !CanGoNegative(cfg, s)
  {
    hide Step, UnfilledMargin, Sound, Tuned;
    forall c: Candle, funding: seq<FundingEvent>
      ensures !GoesNegative(cfg, s, c, funding)
    {
      CandlePaysUnfilled(cfg, s, c, funding);
    }
  }

  // ---------- The converse from the entry on ----------

  /** One or two further candles with positive, ordered prices leave the basket open and the wallet below zero. */
  ghost predicate CanGoNegativeSoon(cfg: EngineConfig, s: EngineState) {
    || CanGoNegative(cfg, s)
    || exists c: Candle, funding: seq<FundingEvent> ::
         0.0 < c.low <= c.close <= c.high && CanGoNegative(cfg, Step(cfg, s, c, funding))
  }

  /** The basket after a candle that touches just its nearest rungs. */
  function NearestFilled(b: Basket): Basket
    requires NearestRungs(b) <= |b.levels|
  {
    FillAll(b.(barsSinceFill := b.barsSinceFill + 1), b.levels[..NearestRungs(b)]).(barsSinceFill := 0)
  }

  /** With its nearest rungs filled and paid the basket would be backed at its take-profit price. */
  ghost predicate NearestBacked(cfg: EngineConfig, s: EngineState) {
    s.active.Some? && s.active.value.levels != [] && NearestRungs(s.active.value) <= |s.active.value.levels| &&
    var b := s.active.value;
    var p := PositionOf(NearestFilled(b), s.wallet - SumMargin(b.levels[..NearestRungs(b)]), cfg.symbol);
    p.Balance(b.tpPrice) > p.Maint(b.tpPrice)
  }

  lemma {:induction false} DepthOfLow(levels: seq<Level>, high: real, other: real, low: real, n: nat)
    requires n <= |levels|
    ensures Depth(LONG, levels, high, low, n) == Depth(LONG, levels, other, low, n)
  {
    if n > 0 {
      DepthOfLow(levels, high, other, low, n - 1);
    }
  }

  /** A candle between the nearest rungs and the take-profit price fills the former and does not take the latter. */
  lemma TouchesNearest(b0: Basket, b: Basket, bar: BasketBar)
    requires LongOpened(b0) && Grown(b0, b, 0) && !b.closed && !b.risk.enabled && b0.levels != []
    requires bar.low == b0.levels[0].fillPrice && bar.high == b.tpPrice
    ensures 0 < NearestRungs(b) <= |b.levels|
    ensures AfterBar(b, bar, []) == NearestFilled(b) && FillsOf(b, bar, []) == b.levels[..NearestRungs(b)]
    ensures Grown(b0, NearestFilled(b), NearestRungs(b)) && !NearestFilled(b).closed
  {
    hide Notional, Fee, CalculateTpPrice, Unrealized, Evaluate, Closed, SumMargin, SumCost, SumQty, NewlyFilled,
         FillAll, Depth, Opened, LadderBehindEntry;
    LongIsOpened(b0);
    NearestRungsMeans(b0);
    DepthOfLow(b.levels, bar.high, bar.low, bar.low, |b.levels|);
    BarKeepsBooks(b0, b, 0, bar, []);
    var aged := Aged(b, bar, []);
    assert aged == b.(barsSinceFill := b.barsSinceFill + 1);
    assert !TakesProfit(aged, bar);
    var near := b.levels[..NearestRungs(b)];
    assert b0.levels[0..NearestRungs(b)] == near;
    FillAllStaysOpen(aged, near);
    AgedKeepsBooks(b0, b, 0, bar, []);
    FillAllKeepsBooks(b0, aged, 0, NearestRungs(b));
  }

  lemma FreshCanGoNegative(cfg: EngineConfig, s: EngineState, b0: Basket)
    requires Aiming(cfg) && cfg.maxAgeHours <= 0.0 && !cfg.risk.enabled && EngineOpens(cfg, b0) && b0.side.LONG?
    requires s.active.Some? && !s.stopped && Grown(b0, s.active.value, 0) && !s.active.value.closed
    requires 0.0 <= s.wallet < UnfilledMargin(s.active.value) && NearestBacked(cfg, s)
    ensures CanGoNegativeSoon(cfg, s)
  {
    hide Grown, Opened, EngineOpens, AfterBar, FillsOf, NearestFilled, SumMargin, MaintenanceMargin, Aiming,
         CanGoNegative, GoesNegative, Unrealized, LadderBehindEntry, Notional, NearestRungs, LongOpened, Step,
         UnfilledMargin;
    var b := s.active.value;
    AimingIsTuned(cfg);
    EngineLongOpened(cfg, b0);
    LongIsOpened(b0);
    GrownTerms(cfg, b0, b, 0);
    FreshTerms(b0, b);
    NearestNotAbove(cfg, b0);
    var c := Candle(0, b.tpPrice, b0.levels[0].fillPrice, b.tpPrice, NoSignal);
    TouchesNearest(b0, b, BarOf(c, s.wallet));
    BarPaysUnfilled(b0, b, 0, BarOf(c, s.wallet), []);
    if SumMargin(b.levels[..NearestRungs(b)]) > s.wallet {
      BackedGoesThrough(cfg, s, c, []);
      Witnessed(cfg, s, c, []);
    } else {
      BackedSurvives(cfg, s, c, []);
      var t := Step(cfg, s, c, []);
      NearestResets(b);
      GrownTerms(cfg, b0, t.active.value, NearestRungs(b));
      UncoveredCanGoNegative(cfg, t, b0, NearestRungs(b));
    }
  }

  lemma FreshTerms(b0: Basket, b: Basket)
    requires Grown(b0, b, 0)
    ensures b.tpPrice == b0.tpPrice && b.levels == b0.levels
  {}

  lemma NearestResets(b: Basket)
    requires NearestRungs(b) <= |b.levels|
    ensures NearestFilled(b).barsSinceFill == 0
  {}

  /** A candle whose fills the wallet can pay and at whose close the basket is backed leaves it open. */
  lemma BackedSurvives(cfg: EngineConfig, s: EngineState, c: Candle, funding: seq<FundingEvent>)
    requires s.active.Some? && !s.stopped && cfg.maxAgeHours <= 0.0
    requires var bar := BarOf(c, s.wallet);
             var after := AfterBar(s.active.value, bar, funding);
             var used := SumMargin(FillsOf(s.active.value, bar, funding));
             && !after.closed && 0.0 <= used
             && var p := PositionOf(after, s.wallet - used, cfg.symbol);
                p.Balance(c.close) > p.Maint(c.close)
    ensures var t, bar := Step(cfg, s, c, funding), BarOf(c, s.wallet);
            && t.active == Some(AfterBar(s.active.value, bar, funding)) && !t.stopped
            && t.wallet == s.wallet - SumMargin(FillsOf(s.active.value, bar, funding))
  {
    hide AfterBar, FillsOf, SumMargin, TryOpen, Unrealized, Notional, Fee, MarginRatio, MaintenanceMargin;
    var bar := BarOf(c, s.wallet);
    var after, used := AfterBar(s.active.value, bar, funding), SumMargin(FillsOf(s.active.value, bar, funding));
    LiquidatedMeans(PositionOf(after, s.wallet - used, cfg.symbol), c.close);
  }

  lemma EntryIsPositive(cfg: EngineConfig, s: EngineState, c: Candle, funding: seq<FundingEvent>)
    requires Tuned(cfg) && s.active.None?
    ensures !GoesNegative(cfg, s, c, funding)
  {
    hide TryOpen, BoMargin, RoundDown, Tradable;
    if c.signal.Enter? {
      EntryLeavesHalf(cfg, c.signal.side, EntryPrice(c.signal.side, c.close, c.signal.slip), c.signal.atr, s.wallet,
                      c.openTime);
    }
  }

  lemma OpenIsNotStopped(cfg: EngineConfig, s: EngineState, c: Candle, funding: seq<FundingEvent>)
    requires s.active.Some? && !s.stopped
    ensures var t := Step(cfg, s, c, funding); t.active.Some? ==> !t.stopped
  {
    hide Held, Consumed, WipedOut, TryOpen, Closed;
  }

  lemma CoveredStaysCovered(cfg: EngineConfig, s: EngineState)
    requires Tuned(cfg) && Sound(cfg, s) && s.active.Some? && !s.stopped && s.wallet >= UnfilledMargin(s.active.value)
    ensures !CanGoNegativeSoon(cfg, s)
  {
    hide UnfilledMargin, Sound, Tuned, GoesNegative, Step;
    CoveredCannotGoNegative(cfg, s);
    forall c: Candle, funding: seq<FundingEvent>
      ensures !CanGoNegative(cfg, Step(cfg, s, c, funding))
    {
      var t := Step(cfg, s, c, funding);
      CandlePaysUnfilled(cfg, s, c, funding);
      OpenIsNotStopped(cfg, s, c, funding);
      StepKeepsSound(cfg, s, c, funding);
      if t.active.Some? {
        CoveredCannotGoNegative(cfg, t);
      } else {
        forall c2: Candle, more: seq<FundingEvent>
          ensures !GoesNegative(cfg, t, c2, more)
        {
          EntryIsPositive(cfg, t, c2, more);
        }
      }
    }
  }

  /** With neither risk stop nor age stop: from the entry of a LONG on until its first fill, one or two further candles
      can take a wallet that is not negative below zero, with the basket still open, if and only if the wallet does not
      cover the ladder, provided the nearest rungs, once filled and paid, leave it backed at its take-profit price. */
  lemma FreshExposedExactly(cfg: EngineConfig, candles: seq<Candle>, funding: seq<FundingEvent>)
    requires Aiming(cfg) && !cfg.risk.enabled && cfg.maxAgeHours <= 0.0
    ensures var s := RunCandles(cfg, candles, funding);
            s.active.Some? && s.active.value.side.LONG? && s.active.value.filled == [] && s.wallet >= 0.0
            && NearestBacked(cfg, s) ==>
              (CanGoNegativeSoon(cfg, s) <==> s.wallet < SumMargin(s.active.value.levels))
  {
    hide RunCandles, CanGoNegativeSoon, GoesNegative, Grown, EngineOpens, GoodTrade, TotalPnl, CostlyLevels, Aiming,
         NearestBacked, SumMargin;
    AimingIsTuned(cfg);
    var s := RunCandles(cfg, candles, funding);
    RunIsSound(cfg, candles, funding);
    RunConserves(cfg, candles, funding);
    if s.active.Some? && s.active.value.filled == [] {
      var b := s.active.value;
      assert b.levels[0..] == b.levels;
      var b0: Basket, k: nat :| EngineOpens(cfg, b0) && Grown(b0, b, k);
      EngineOpensSoundly(cfg, b0);
      GrownUnfilled(b0, b, k);
      GrownTerms(cfg, b0, b, k);
      if s.wallet >= UnfilledMargin(b) {
        CoveredStaysCovered(cfg, s);
      } else if b.side.LONG? && s.wallet >= 0.0 && NearestBacked(cfg, s) {
        FreshCanGoNegative(cfg, s, b0);
      }
    }
  }

  /** Whenever it does happen, the open profit exceeds the hole. */
  lemma NegativeWalletNeedsOpenProfit(cfg: EngineConfig, s: EngineState, c: Candle, funding: seq<FundingEvent>)
    requires !s.stopped && s.active.Some?
    ensures var t := Step(cfg, s, c, funding);
            t.active.Some? && t.wallet < 0.0 ==>
            Unrealized(t.active.value.side, t.active.value.avgEntry, t.active.value.qty, c.close) > -t.wallet > 0.0
  {
    hide Step, Unrealized;
    SurvivorsAreBacked(cfg, s, c, funding);
  }

  // ---------- A run that does it ----------

  /** Half of the wallet in the base order and one safety order of one and a half times that, 5 percent below. */
  predicate HalfAndMore(cfg: EngineConfig) {
    && cfg.symbol == "BTCUSDT" && cfg.initialCapital == 8004.0 && cfg.leverage == 10
    && cfg.sizing.FixedUsdSizing? && cfg.baseOrderUsd == 4002.0 && !cfg.compounding && cfg.maxSafetyOrders == 1
    && cfg.takeProfitPct == 1.0 && !cfg.tpFixed && cfg.volumeScale == 1.5 && cfg.stepScale == 1.0
    && cfg.atrMultiplier == 0.6 && cfg.stepMin == 0.05 && cfg.stepMax == 0.05 && cfg.maxAgeHours == 0.0
    && !cfg.risk.enabled
  }

  const ENTRY_CANDLE := Candle(0, 20_000.0, 20_000.0, 20_000.0, Enter(LONG, 100.0, 0.0005))
  const DIP_CANDLE := Candle(60_000, 20_000.0, 19_009.5, 20_000.0, NoSignal)

  lemma HalfLadder(cfg: EngineConfig)
    requires HalfAndMore(cfg)
    ensures var p := ParamsOf(cfg, LONG, 20_010.0, 100.0, 8004.0);
            && LevelCount(p) == 1 && BoMargin(p) == 4002.0 && TpTarget(p) == 80.04 && GridOf(p).boQty == 2.0
            && LevelAt(p, 1).fillPrice == 19_009.5 && LevelAt(p, 1).qty == 60_030.0 / 19_009.5
            && LevelAt(p, 1).index == 1 && LevelAt(p, 1).margin == 6003.0
  {
    var p := ParamsOf(cfg, LONG, 20_010.0, 100.0, 8004.0);
    assert Step1(p) == 0.05;
    assert Pow(1.0, 0) == 1.0 && Pow(1.5, 0) == 1.0 && Pow(1.5, 1) == 1.5;
    assert CumDev(p, 0) == 0.0 && CumDev(p, 1) == 0.05;
  }

  /** What the engine opens on the first candle. */
  lemma HalfOpens(cfg: EngineConfig) returns (b: Basket)
    requires HalfAndMore(cfg)
    ensures TryOpen(cfg, LONG, 20_010.0, 100.0, 8004.0, 0) == Some(b)
    ensures b.side.LONG? && b.qty == 2.0 && b.avgEntry == 20_010.0 && b.margin == 4002.0 && b.filled == []
    ensures |b.levels| == 1 && b.levels[0].fillPrice == 19_009.5 && b.levels[0].qty == 3.157
    ensures b.levels[0].margin == 6003.0 && b.tpPrice == 20_050.0 && b.tpTarget == 80.04
    ensures !b.closed && b.barsSinceFill == 999 && !b.risk.enabled
  {
    var p := ParamsOf(cfg, LONG, 20_010.0, 100.0, 8004.0);
    HalfLadder(cfg);
    hide BoMargin, TpTarget, LevelAt, Step1, FillPrice, SoMargin;
    var g := GridOf(p);
    assert RoundDown(2.0, 0.001) == 2.0;
    assert RoundDown(19_009.5, 0.1) == 19_009.5;
    assert RoundDown(60_030.0 / 19_009.5, 0.001) == 3.157;
    assert CalculateTpPrice(LONG, 20_010.0, 2.0, 80.04) == 20_050.02;
    assert RoundDown(20_050.02, 0.1) == 20_050.0;
    assert g.levels == [LevelAt(p, 1)];
    var so := RoundedLevel(cfg, LevelAt(p, 1));
    assert so.qty == 3.157 && so.fillPrice == 19_009.5;
    assert Tradable(cfg, so.qty, so.fillPrice);
    assert KeptLevels(cfg, g.levels, 0) == [];
    assert KeptLevels(cfg, g.levels, 1) == [so];
    b := Opening(cfg, g, LONG, 20_010.0, 0);
  }

  /** The dip fills the rung and leaves the basket open. */
  lemma DipFills(b: Basket, bar: BasketBar)
    requires b.side.LONG? && b.qty == 2.0 && b.avgEntry == 20_010.0 && b.filled == []
    requires |b.levels| == 1 && b.levels[0].fillPrice == 19_009.5 && b.levels[0].qty == 3.157
    requires b.levels[0].margin == 6003.0 && b.tpPrice == 20_050.0
    requires !b.closed && b.barsSinceFill == 999 && !b.risk.enabled
    requires bar.high == 20_000.0 && bar.low == 19_009.5
    ensures var after := AfterBar(b, bar, []);
            && SumMargin(FillsOf(b, bar, [])) == 6003.0 && !after.closed && after.side.LONG?
            && after.qty == 5.157 && after.avgEntry * 5.157 == 100_032.9915
  {
    var so := b.levels[0];
    var aged := b.(barsSinceFill := 1000);
    assert Aged(b, bar, []) == aged;
    assert !TakesProfit(aged, bar);
    assert NewlyFilled(aged, 20_000.0, 19_009.5, 0) == [];
    assert NewlyFilled(aged, 20_000.0, 19_009.5, 1) == [so];
    assert [so][..0] == [];
    assert FillAll(aged, []) == aged && SumMargin([]) == 0.0;
    hide CalculateTpPrice;
    assert FillAll(aged, [so]) == Fill(aged, so) && SumMargin([so]) == 6003.0;
    DivMul(100_032.9915, 5.157);
  }

  /** A run of two candles that leaves the basket open and the wallet at -2001: the base order takes 4002 of 8004, the
      safety order another 6003.  The peak share is 0.5 and the ladder factor 2.5. */
  lemma WalletCanGoNegative(cfg: EngineConfig)
    requires HalfAndMore(cfg)
    ensures var s := RunCandles(cfg, [ENTRY_CANDLE, DIP_CANDLE], []);
            s.active.Some? && s.wallet == -2001.0
    ensures PeakShare(cfg) * LadderFactor(cfg) == 1.25
  {
    var b := HalfOpens(cfg);
    var entered := RunCandles(cfg, [ENTRY_CANDLE], []);
    OpensOnEntry(cfg, b);
    DipFills(b, BarOf(DIP_CANDLE, 4002.0));
    DipSurvives(cfg, entered, b);
    assert [ENTRY_CANDLE, DIP_CANDLE][..1] == [ENTRY_CANDLE];
    HalfFactor(cfg);
  }

  lemma HalfFactor(cfg: EngineConfig)
    requires HalfAndMore(cfg)
    ensures PeakShare(cfg) == 0.5 && LadderFactor(cfg) == 2.5
  {
    assert GeoSum(1.5, 0) == 0.0 && Pow(1.5, 0) == 1.0;
    assert GeoSum(1.5, 1) == 1.0 && Pow(1.5, 1) == 1.5;
    assert GeoSum(1.5, 2) == 2.5;
  }

  lemma OpensOnEntry(cfg: EngineConfig, b: Basket)
    requires HalfAndMore(cfg) && TryOpen(cfg, LONG, 20_010.0, 100.0, 8004.0, 0) == Some(b) && b.margin == 4002.0
    ensures var s := RunCandles(cfg, [ENTRY_CANDLE], []);
            s.active == Some(b) && s.wallet == 4002.0 && !s.stopped
  {
    hide TryOpen;
    assert [ENTRY_CANDLE][..0] == [];
    assert RunCandles(cfg, [], []) == Start(cfg);
    assert EntryPrice(LONG, 20_000.0, 0.0005) == 20_010.0;
  }

  lemma DipSurvives(cfg: EngineConfig, s: EngineState, b: Basket)
    requires HalfAndMore(cfg) && s.active == Some(b) && s.wallet == 4002.0 && !s.stopped
    requires var bar := BarOf(DIP_CANDLE, 4002.0); var after := AfterBar(b, bar, []);
             && SumMargin(FillsOf(b, bar, [])) == 6003.0 && !after.closed && after.side.LONG?
             && after.qty == 5.157 && after.avgEntry * 5.157 == 100_032.9915
    ensures var t := Step(cfg, s, DIP_CANDLE, []); t.active.Some? && t.wallet == -2001.0
  {
    hide AfterBar, FillsOf, SumMargin, TryOpen, MarginRatio, MaintenanceMargin;
    var after := AfterBar(b, BarOf(DIP_CANDLE, 4002.0), []);
    var p := PositionOf(after, -2001.0, "BTCUSDT");
    assert p.Balance(20_000.0) == 1106.0085;
    assert p.Maint(20_000.0) == 465.7 by { DipMaint(); }
    LiquidatedMeans(p, 20_000.0);
  }

  lemma DipMaint()
    ensures MaintenanceMargin(103_140.0, "BTCUSDT") == 465.7
  {}
}
