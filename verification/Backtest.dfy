/** BacktestEngine of backtest_engine.py: the bar-by-bar loop over wallet, locked margin and the
    active basket.  Signals, ATR and entry slippage arrive with each candle as free inputs. */
module Backtest {
  import opened Options
  import opened Rounding
  import opened Liquidation
  import opened RiskController
  import opened GridLevels
  import opened SimBasket

  datatype Signal = NoSignal | Enter(side: Side, atr: real, slip: real)

  datatype Candle = Candle(openTime: int, high: real, low: real, close: real, signal: Signal)

  datatype EngineConfig = EngineConfig(
    symbol: string,
    initialCapital: real,
    takerFee: real,
    makerFee: real,
    leverage: int,
    sizing: SizingMode,
    baseOrderUsd: real,
    baseOrderPct: real,
    compounding: bool,
    compoundingPct: real,
    maxSafetyOrders: int,
    takeProfitPct: real,
    tpFixed: bool,
    tpFixedAmount: real,
    volumeScale: real,
    stepScale: real,
    atrMultiplier: real,
    stepMin: real,
    stepMax: real,
    maxAgeHours: real,
    risk: RiskConfig)

  const COOLDOWN_BARS := 5
  const MS_PER_HOUR := 3_600_000.0
  const MIN_NOTIONAL := 5.0

  function QtyStep(symbol: string): (step: real)
    ensures step > 0.0
  {
    if symbol == "SOLUSDT" then 1.0 else if symbol == "XRPUSDT" then 0.1 else 0.001
  }

  function MinQty(symbol: string): (qty: real)
    ensures qty > 0.0
  {
    if symbol == "SOLUSDT" then 1.0 else if symbol == "XRPUSDT" then 0.1 else 0.001
  }

  function TickSize(symbol: string): (tick: real)
    ensures tick > 0.0
  {
    if symbol == "BTCUSDT" then 0.1
    else if symbol == "ETHUSDT" then 0.01
    else if symbol == "SOLUSDT" then 0.001
    else if symbol == "XRPUSDT" then 0.0001
    else 0.01
  }

  function ParamsOf(cfg: EngineConfig, side: Side, price: real, atr: real, wallet: real): GridParams {
    GridParams(wallet, price, side, atr, cfg.baseOrderPct / 100.0, cfg.takeProfitPct / 100.0, cfg.maxSafetyOrders,
               cfg.volumeScale, cfg.stepScale, cfg.atrMultiplier, cfg.stepMin, cfg.stepMax, cfg.leverage,
               cfg.baseOrderUsd, cfg.sizing, cfg.compounding, cfg.compoundingPct / 100.0, cfg.initialCapital,
               cfg.tpFixed, cfg.tpFixedAmount)
  }

  function RoundedLevel(cfg: EngineConfig, so: Level): Level {
    so.(qty := RoundDown(so.qty, QtyStep(cfg.symbol)), fillPrice := RoundDown(so.fillPrice, TickSize(cfg.symbol)))
  }

  predicate Tradable(cfg: EngineConfig, qty: real, price: real) {
    qty >= MinQty(cfg.symbol) && Notional(price, qty) >= MIN_NOTIONAL
  }

  /** The first n levels rounded to exchange precision; those below the minimum are skipped. */
  function KeptLevels(cfg: EngineConfig, levels: seq<Level>, n: nat): seq<Level>
    requires n <= |levels|
  {
    if n == 0 then []
    else
      var so := RoundedLevel(cfg, levels[n - 1]);
      KeptLevels(cfg, levels, n - 1) + if Tradable(cfg, so.qty, so.fillPrice) then [so] else []
  }

  function Opening(cfg: EngineConfig, g: Grid, side: Side, price: real, time: int): Basket {
    var qty := RoundDown(g.boQty, QtyStep(cfg.symbol));
    NewBasket(side, price, qty, g.boMargin, KeptLevels(cfg, g.levels, |g.levels|), g.tpTarget,
              RoundDown(CalculateTpPrice(side, price, qty, g.tpTarget), TickSize(cfg.symbol)), time,
              cfg.takerFee, cfg.makerFee, cfg.symbol, cfg.risk)
  }

  function TryOpen(cfg: EngineConfig, side: Side, price: real, atr: real, wallet: real, time: int): Option<Basket> {
    var g := GridOf(ParamsOf(cfg, side, price, atr, wallet));
    if !Tradable(cfg, RoundDown(g.boQty, QtyStep(cfg.symbol)), price) then None
    else if g.boMargin > wallet * 0.5 then None
    else Some(Opening(cfg, g, side, price, time))
  }

  // ---------- The engine on values ----------

  /** `stopped` stands for the two `break`s of the loop. */
  datatype EngineState = EngineState(
    wallet: real,
    locked: real,
    active: Option<Basket>,
    trades: seq<Basket>,
    barsSinceClose: int,
    liquidated: bool,
    stopped: bool)

  function Start(cfg: EngineConfig): EngineState {
    EngineState(cfg.initialCapital, 0.0, None, [], 999, false, false)
  }

  function BarOf(c: Candle, wallet: real): BasketBar {
    BasketBar(c.high, c.low, c.openTime, wallet)
  }

  predicate TooOld(cfg: EngineConfig, b: Basket, now: int) {
    cfg.maxAgeHours > 0.0 && (now - b.entryTime) as real / MS_PER_HOUR >= cfg.maxAgeHours
  }

  /** The basket after fills, funding, take-profit, risk stop and age stop of one candle. */
  function Held(cfg: EngineConfig, b: Basket, c: Candle, wallet: real, funding: seq<FundingEvent>): Basket {
    var after := AfterBar(b, BarOf(c, wallet), funding);
    if !after.closed && TooOld(cfg, after, c.openTime) then ForceClosed(after, c.close, MaxAge) else after
  }

  /** Margin the candle's fills take out of the wallet. */
  function Consumed(b: Basket, c: Candle, wallet: real, funding: seq<FundingEvent>): real {
    SumMargin(FillsOf(b, BarOf(c, wallet), funding))
  }

  /** The margin lock: the source only moves a positive amount. */
  function Locked(s: EngineState, used: real): EngineState {
    if used > 0.0 then s.(wallet := s.wallet - used, locked := s.locked + used) else s
  }

  predicate WipedOut(cfg: EngineConfig, b: Basket, close: real, wallet: real) {
    MarginRatio(wallet, Unrealized(b.side, b.avgEntry, b.qty, close), Notional(close, b.qty), cfg.symbol) >= 1.0
  }

  /** A closed basket returns its margin and profit to the wallet and becomes a trade. */
  function Settled(s: EngineState, b: Basket): EngineState {
    s.(wallet := s.wallet + (s.locked + b.pnl), locked := 0.0, active := None, trades := s.trades + [b])
  }

  function AfterActive(cfg: EngineConfig, s: EngineState, b: Basket, c: Candle,
                       funding: seq<FundingEvent>): EngineState {
    var held := Held(cfg, b, c, s.wallet, funding);
    var paid := Locked(s, Consumed(b, c, s.wallet, funding));
    if !held.closed then
      if WipedOut(cfg, held, c.close, paid.wallet) then
        var done := Settled(paid, ForceClosed(held, c.close, WipeOut));
        done.(wallet := if done.wallet < 0.0 then 0.0 else done.wallet, liquidated := true, stopped := true)
      else
        paid.(active := Some(held))
    else
      var done := Settled(paid, held).(barsSinceClose := 0);
      if done.wallet <= 0.0 then done.(liquidated := true, stopped := true) else done
  }

  function EntryPrice(side: Side, close: real, slip: real): real {
    if side.LONG? then close * (1.0 + slip) else close * (1.0 - slip)
  }

  function AfterEntry(cfg: EngineConfig, s: EngineState, c: Candle): EngineState {
    if s.active.Some? || s.barsSinceClose < COOLDOWN_BARS || c.signal.NoSignal? || c.signal.atr <= 0.0 then s
    else
      var attempt := TryOpen(cfg, c.signal.side, EntryPrice(c.signal.side, c.close, c.signal.slip), c.signal.atr,
                            s.wallet, c.openTime);
      if attempt.None? then s
      else s.(wallet := s.wallet - attempt.value.margin, locked := attempt.value.margin, active := attempt)
  }

  function Step(cfg: EngineConfig, s: EngineState, c: Candle, funding: seq<FundingEvent>): EngineState {
    if s.stopped then s
    else
      var counted := s.(barsSinceClose := s.barsSinceClose + 1);
      var after := if s.active.Some? then AfterActive(cfg, counted, s.active.value, c, funding) else counted;
      if after.stopped then after else AfterEntry(cfg, after, c)
  }

  function RunCandles(cfg: EngineConfig, candles: seq<Candle>, funding: seq<FundingEvent>): EngineState {
    if candles == [] then Start(cfg)
    else Step(cfg, RunCandles(cfg, candles[..|candles| - 1], funding), candles[|candles| - 1], funding)
  }

  /** The end-of-data close after the loop. */
  function Finish(s: EngineState, lastClose: real): EngineState {
    if s.active.Some? then Settled(s, ForceClosed(s.active.value, lastClose, EndOfData)) else s
  }

  // ---------- The engine in place ----------

  class BacktestEngine {
    const cfg: EngineConfig
    var wallet: real
    var lockedMargin: real
    var activeBasket: SimulatedBasket?
    var trades: seq<Basket>
    var barsSinceLastClose: int
    var liquidated: bool
    var stopped: bool

    function State(): EngineState
      reads this, activeBasket
    {
      EngineState(wallet, lockedMargin, if activeBasket == null then None else Some(activeBasket.View()),
                  trades, barsSinceLastClose, liquidated, stopped)
    }

    constructor (cfg: EngineConfig)
      ensures this.cfg == cfg && State() == Start(cfg) && activeBasket == null
    {
      this.cfg := cfg;
      wallet, lockedMargin, activeBasket, trades := cfg.initialCapital, 0.0, null, [];
      barsSinceLastClose, liquidated, stopped := 999, false, false;
    }

    /** The rounding loop over the ladder. */
    method RoundLevels(levels: seq<Level>) returns (kept: seq<Level>)
      ensures kept == KeptLevels(cfg, levels, |levels|)
    {
      hide Notional, RoundDown;
      kept := [];
      var i := 0;
      while i < |levels|
        invariant 0 <= i <= |levels|
        invariant kept == KeptLevels(cfg, levels, i)
      {
        var so := RoundedLevel(cfg, levels[i]);
        if Tradable(cfg, so.qty, so.fillPrice) {
          kept := kept + [so];
        }
        i := i + 1;
      }
    }

    method TryOpenBasket(side: Side, price: real, atr: real, time: int) returns (b: SimulatedBasket?)
      ensures b != null ==> fresh(b)
      ensures TryOpen(cfg, side, price, atr, wallet, time) == if b == null then None else Some(b.View())
    {
      hide Notional, RoundDown, CalculateTpPrice, GridOf, KeptLevels;
      var g := CalculateGridLevels(ParamsOf(cfg, side, price, atr, wallet));
      var boQty := RoundDown(g.boQty, QtyStep(cfg.symbol));
      if !Tradable(cfg, boQty, price) {
        return null;
      }
      if g.boMargin > wallet * 0.5 {
        return null;
      }
      var levels := RoundLevels(g.levels);
      var tp := RoundDown(CalculateTpPrice(side, price, boQty, g.tpTarget), TickSize(cfg.symbol));
      b := new SimulatedBasket(side, price, boQty, g.boMargin, levels, g.tpTarget, tp, time,
                               cfg.takerFee, cfg.makerFee, cfg.symbol, cfg.risk);
    }

    /** Margin and profit go back to the wallet, the basket becomes a trade. */
    method Settle()
      requires activeBasket != null
      modifies this
      ensures activeBasket == null && State() == Settled(old(State()), old(activeBasket.View()))
    {
      wallet := wallet + (lockedMargin + activeBasket.pnl);
      lockedMargin := 0.0;
      trades := trades + [activeBasket.View()];
      activeBasket := null;
    }

    /** Fills, funding, take-profit, risk stop and age stop of one candle, and the margin lock. */
    method HoldBasket(c: Candle, funding: seq<FundingEvent>)
      requires activeBasket != null && !activeBasket.isClosed
      modifies this`wallet, this`lockedMargin, activeBasket
      ensures State() == Locked(old(State()), Consumed(old(activeBasket.View()), c, old(wallet), funding))
                         .(active := Some(Held(cfg, old(activeBasket.View()), c, old(wallet), funding)))
    {
      hide AfterBar, FillsOf, SumMargin, Closed, ForceClosed;
      var used := activeBasket.CheckFills(BarOf(c, wallet), funding);
      if used > 0.0 {
        wallet := wallet - used;
        lockedMargin := lockedMargin + used;
      }
      if !activeBasket.isClosed && cfg.maxAgeHours > 0.0 {
        if (c.openTime - activeBasket.entryTime) as real / MS_PER_HOUR >= cfg.maxAgeHours {
          activeBasket.ForceClose(c.close, MaxAge);
        }
      }
    }

    /** Everything one candle does to the active basket. */
    method ProcessActive(c: Candle, funding: seq<FundingEvent>)
      requires activeBasket != null && !activeBasket.isClosed
      modifies this, activeBasket
      ensures activeBasket == null || activeBasket == old(activeBasket)
      ensures State() == AfterActive(cfg, old(State()), old(activeBasket.View()), c, funding)
    {
      hide Held, Consumed, ForceClosed, WipedOut, Locked;
      HoldBasket(c, funding);
      if !activeBasket.isClosed {
        if WipedOut(cfg, activeBasket.View(), c.close, wallet) {
          activeBasket.ForceClose(c.close, WipeOut);
          Settle();
          if wallet < 0.0 {
            wallet := 0.0;
          }
          liquidated, stopped := true, true;
        }
      } else {
        Settle();
        barsSinceLastClose := 0;
        if wallet <= 0.0 {
          liquidated, stopped := true, true;
        }
      }
    }

    method ProcessEntry(c: Candle)
      modifies this
      ensures activeBasket == old(activeBasket) || fresh(activeBasket)
      ensures State() == AfterEntry(cfg, old(State()), c)
    {
      hide TryOpen;
      if activeBasket == null && barsSinceLastClose >= COOLDOWN_BARS {
        if c.signal.Enter? && c.signal.atr > 0.0 {
          var price := EntryPrice(c.signal.side, c.close, c.signal.slip);
          var b := TryOpenBasket(c.signal.side, price, c.signal.atr, c.openTime);
          if b != null {
            wallet := wallet - b.totalMargin;
            lockedMargin := b.totalMargin;
            activeBasket := b;
          }
        }
      }
    }

    ghost predicate ActiveIsOpen()
      reads this, activeBasket
    {
      activeBasket != null ==> !activeBasket.isClosed
    }

    method ProcessCandle(c: Candle, funding: seq<FundingEvent>)
      requires !stopped && ActiveIsOpen()
      modifies this, activeBasket
      ensures activeBasket == null || activeBasket == old(activeBasket) || fresh(activeBasket)
      ensures State() == Step(cfg, old(State()), c, funding)
    {
      hide AfterActive, AfterEntry;
      barsSinceLastClose := barsSinceLastClose + 1;
      if activeBasket != null {
        ProcessActive(c, funding);
        if stopped {
          return;
        }
      }
      ProcessEntry(c);
    }

    /** The simulation loop and the end-of-data close. */
    method Run(candles: seq<Candle>, funding: seq<FundingEvent>)
      requires State() == Start(cfg) && activeBasket == null
      modifies this
      ensures State() == if candles == [] then Start(cfg)
                         else Finish(RunCandles(cfg, candles, funding), candles[|candles| - 1].close)
    {
      hide Step, Finish;
      var i := 0;
      while i < |candles| && !stopped
        invariant 0 <= i <= |candles|
        invariant activeBasket != null ==> fresh(activeBasket)
        invariant State() == RunCandles(cfg, candles[..i], funding)
      {
        assert candles[..i + 1][..i] == candles[..i];
        RunKeepsActiveOpen(cfg, candles[..i], funding);
        ProcessCandle(candles[i], funding);
        i := i + 1;
      }
      if stopped {
        StoppedStays(cfg, candles, funding, i);
      }
      assert candles[..|candles|] == candles;
      if candles != [] {
        RunKeepsActiveOpen(cfg, candles, funding);
        FinishInPlace(candles[|candles| - 1].close);
      }
    }

    method FinishInPlace(lastClose: real)
      modifies this, activeBasket
      ensures State() == Finish(old(State()), lastClose)
    {
      hide ForceClosed;
      if activeBasket != null {
        activeBasket.ForceClose(lastClose, EndOfData);
        Settle();
      }
    }
  }

  // ---------- Facts the loop needs ----------

  ghost predicate OpenIfActive(s: EngineState) {
    s.active.Some? ==> !s.active.value.closed
  }

  lemma StepKeepsActiveOpen(cfg: EngineConfig, s: EngineState, c: Candle, funding: seq<FundingEvent>)
    requires OpenIfActive(s)
    ensures OpenIfActive(Step(cfg, s, c, funding))
  {
    hide Held, Consumed, WipedOut, GridOf, KeptLevels, RoundDown, CalculateTpPrice, Fee, Notional;
  }

  lemma {:induction false} RunKeepsActiveOpen(cfg: EngineConfig, candles: seq<Candle>, funding: seq<FundingEvent>)
    ensures OpenIfActive(RunCandles(cfg, candles, funding))
  {
    hide Step;
    if candles != [] {
      RunKeepsActiveOpen(cfg, candles[..|candles| - 1], funding);
      StepKeepsActiveOpen(cfg, RunCandles(cfg, candles[..|candles| - 1], funding), candles[|candles| - 1], funding);
    }
  }

  /** After a `break` the remaining candles change nothing. */
  lemma {:induction false} StoppedStays(cfg: EngineConfig, candles: seq<Candle>, funding: seq<FundingEvent>, i: nat)
    requires i <= |candles| && RunCandles(cfg, candles[..i], funding).stopped
    ensures RunCandles(cfg, candles, funding) == RunCandles(cfg, candles[..i], funding)
    decreases |candles|
  {
    hide AfterActive, AfterEntry;
    if i == |candles| {
      assert candles[..i] == candles;
    } else {
      var n := |candles| - 1;
      assert candles[..n][..i] == candles[..i];
      StoppedStays(cfg, candles[..n], funding, i);
    }
  }
}
