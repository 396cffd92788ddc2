/** The missing-take-profit safety net of `_monitor_basket`: what a tick that reaches its commit leaves live. */
module SafetyNet {
  import opened Options
  import opened RealArith
  import opened MarginTiers
  import opened Rounding
  import opened RiskController
  import opened GridLevels
  import opened LiveMonitor
  import opened MonitorFacts

  /** The basket as the order loop of the tick leaves it. */
  function Ordered(l: Live, t: Tick): BasketRow
    requires OpenIds(t).Some?
  {
    AfterOrders(AfterVirtualSos(l, t).row, t, OpenIds(t).value)
  }

  /** The tick gets past the watchdog and the list of open orders, and meets at most one live take-profit. */
  predicate ReachesCommit(l: Live, t: Tick) {
    && !(Watched(l.row, t) && (Positions(t).None? || GoneConfirmed(t)))
    && OpenIds(t).Some? && |LiveTps(Ordered(l, t).orders, |Ordered(l, t).orders|)| <= 1
  }

  /** The risk controller looks at the basket and wants it closed. */
  predicate RiskWants(r: BasketRow, t: Tick) {
    r.sosFilled > 0 && t.risk.Some? && StopWanted(r, t.risk.value)
  }

  /** Something has been filled to take a profit on. */
  predicate HoldsCoins(r: BasketRow) {
    HasEntryFill(r.orders) && EntryQty(r.orders, |r.orders|) > 0.0
  }

  /** A live take-profit for all filled entry coins: rounded quantity, and the price at which their average earns the
      target, rounded to the tick. */
  predicate IsTargetFor(o: Order, r: BasketRow, id: Option<int>, p: Precision)
    requires EntryQty(r.orders, |r.orders|) > 0.0
  {
    var qty, cost := EntryQty(r.orders, |r.orders|), EntryCost(r.orders, |r.orders|);
    && o.exchangeId == id && o.role.TP? && o.orderType.LIMIT? && o.status.NEW?
    && o.qty == RoundDown(qty, p.qtyStep)
    && o.price == RoundDown(if r.side.LONG? then cost / qty + r.tpTarget / qty else cost / qty - r.tpTarget / qty,
                            p.tickSize)
  }

  /** A tick that commits, leaves the basket open after its order loop with coins and without a live take-profit, has an
      attempt left, meets no risk stop and has its order accepted, places exactly the right take-profit. */
  lemma SafetyNetPlaces(l: Live, t: Tick, id: Option<int>)
    requires ReachesCommit(l, t)
    requires Ordered(l, t).status.OPEN? && HoldsCoins(Ordered(l, t)) && Ordered(l, t).tpRetry < 3
    requires LiveTps(Ordered(l, t).orders, |Ordered(l, t).orders|) == []
    requires t.safetyTp == Some(id) && !RiskWants(Ordered(l, t), t)
    ensures var before, after := Ordered(l, t), Monitored(l, t).row;
            && after.status.OPEN? && |after.orders| == |before.orders| + 1
            && after.orders[..|before.orders|] == before.orders
            && IsTargetFor(after.orders[|before.orders|], before, id, t.precision)
            && after.tpPrice == after.orders[|before.orders|].price && after.tpRetry == 0
            && LiveTps(after.orders, |after.orders|) == [|before.orders|]
  {
    hide AfterOrders, AfterVirtualSos, RoundDown, EntryQty, EntryCost, Recalculated, Evaluate, GoneConfirmed, LiveTps,
         IsTargetFor, HasEntryFill, StopWanted;
    var before, after := Ordered(l, t), Monitored(l, t).row;
    PlacedBy(before, t, id);
    CommitsTo(l, t);
    var net := Recalculated(before, t, Some(id)).(tpRetry := 0);
    assert AfterSafetyNet(before, t) == net;
    SameWants(before, net, t);
    NotWantedStays(net, t);
  }

  lemma SameWants(r: BasketRow, other: BasketRow, t: Tick)
    requires other.sosFilled == r.sosFilled && other.peakLoss == r.peakLoss
    ensures RiskWants(other, t) <==> RiskWants(r, t)
  {
    hide Evaluate;
  }

  /** Without a risk stop the risk check touches nothing but the peak loss. */
  lemma NotWantedStays(r: BasketRow, t: Tick)
    requires !RiskWants(r, t)
    ensures AfterRisk(r, t) == r.(peakLoss := AfterRisk(r, t).peakLoss)
  {
    hide Evaluate, ForceClosedRow;
  }

  lemma PlacedBy(r: BasketRow, t: Tick, id: Option<int>)
    requires HoldsCoins(r) && LiveTps(r.orders, |r.orders|) == []
    ensures var after := Recalculated(r, t, Some(id));
            && |after.orders| == |r.orders| + 1 && after.orders[..|r.orders|] == r.orders
            && IsTargetFor(after.orders[|r.orders|], r, id, t.precision)
            && after.tpPrice == after.orders[|r.orders|].price
            && after == r.(avgEntry := after.avgEntry, qty := after.qty, tpPrice := after.tpPrice,
                           orders := after.orders)
            && LiveTps(after.orders, |after.orders|) == [|r.orders|]
  {
    hide RoundDown, EntryQty, EntryCost;
    var after := Recalculated(r, t, Some(id));
    LiveTpsPrefix(after.orders, |r.orders|);
  }

  lemma PlacesNothing(r: BasketRow, t: Tick)
    requires LiveTps(r.orders, |r.orders|) == [] && (!HoldsCoins(r) || t.safetyTp.None?)
    ensures Recalculated(r, t, t.safetyTp).orders == r.orders
    ensures Recalculated(r, t, t.safetyTp).sosFilled == r.sosFilled
    ensures Recalculated(r, t, t.safetyTp).peakLoss == r.peakLoss
    ensures Recalculated(r, t, t.safetyTp).status == r.status
  {
    hide RoundDown, EntryQty, EntryCost;
  }

  /** When exactly a tick that commits leaves an open basket without a live take-profit: the risk controller wanted it
      closed and the closing order was refused, or there was none after the order loop and the attempts are used up,
      there is nothing to take a profit on, or the order is not accepted. */
  lemma NoTargetExactly(l: Live, t: Tick)
    requires ReachesCommit(l, t)
    ensures var before, after := Ordered(l, t), Monitored(l, t).row;
            after.status.OPEN? ==>
              (LiveTps(after.orders, |after.orders|) == [] <==>
               || RiskWants(before, t)
               || (&& LiveTps(before.orders, |before.orders|) == []
                   && (before.tpRetry >= 3 || !HoldsCoins(before) || t.safetyTp.None?)))
  {
    var before, after := Ordered(l, t), Monitored(l, t).row;
    var net := AfterSafetyNet(before, t);
    if before.status.OPEN? && LiveTps(before.orders, |before.orders|) == [] && before.tpRetry < 3 {
      if HoldsCoins(before) && t.safetyTp.Some? {
        PlacedBy(before, t, t.safetyTp.value);
      } else {
        PlacesNothing(before, t);
      }
    }
    NetKeepsStatus(before, t);
    assert after == AfterRisk(net, t) by { CommitsTo(l, t); }
    RiskLeaves(net, t);
    hide Ordered, Monitored, AfterRisk, Recalculated, Evaluate, LiveTps;
  }

  lemma NetKeepsStatus(r: BasketRow, t: Tick)
    ensures var net := AfterSafetyNet(r, t);
            net.status == r.status && net.sosFilled == r.sosFilled && net.peakLoss == r.peakLoss
  {
    hide RoundDown, EntryQty, EntryCost, CalculateTpPrice;
  }

  lemma CommitsTo(l: Live, t: Tick)
    requires ReachesCommit(l, t)
    ensures Monitored(l, t).row == AfterRisk(AfterSafetyNet(Ordered(l, t), t), t)
  {
    hide AfterOrders, AfterVirtualSos, AfterRisk, Recalculated, GoneConfirmed;
  }

  /** The risk check leaves the orders alone, or cancels what is live when it wants the basket closed. */
  lemma RiskLeaves(r: BasketRow, t: Tick)
    ensures var after := AfterRisk(r, t);
            after.status.OPEN? ==>
              && r.status.OPEN?
              && (if RiskWants(r, t) then LiveTps(after.orders, |after.orders|) == [] else after.orders == r.orders)
  {
    hide RoundDown, Evaluate;
    NoneLive(CancelLive(r.orders), |r.orders|);
  }

  lemma {:induction false} NoneLive(orders: seq<Order>, n: nat)
    requires n <= |orders| && forall k :: 0 <= k < n ==> !IsLive(orders[k])
    ensures LiveTps(orders, n) == []
  {
    if n > 0 {
      NoneLive(orders, n - 1);
    }
  }

  /** What a tick leaves that trades but cannot read the open orders, or meets two live take-profits of a basket still
      open after its order loop: the exchange keeps what it executed, and the rows are the committed ones, unless a
      later basket of the same session commits what the tick had written until then. */
  lemma AbortedTick(l: Live, t: Tick)
    requires !(Watched(l.row, t) && (Positions(t).None? || GoneConfirmed(t)))
    ensures OpenIds(t).None? ==>
              Monitored(l, t) == Live(if t.siblingCommits then AfterVirtualSos(l, t).row else l.row,
                                      AfterVirtualSos(l, t).executed)
    ensures OpenIds(t).Some? && Ordered(l, t).status.OPEN?
            && |LiveTps(Ordered(l, t).orders, |Ordered(l, t).orders|)| > 1 ==>
              Monitored(l, t) == Live(if t.siblingCommits then Ordered(l, t) else l.row, AfterVirtualSos(l, t).executed)
  {
    hide AfterVirtualSos, AfterOrders, AfterRisk, AfterSafetyNet, GoneConfirmed, LiveTps;
  }

  // ---------- The risk check in amounts ----------

  /** The peak loss counts this tick's. */
  function PeakWith(r: BasketRow, inputs: RiskInputs): real {
    Max(r.peakLoss, if inputs.unrealized < 0.0 then -inputs.unrealized else 0.0)
  }

  lemma RiskWantsExactly(r: BasketRow, t: Tick)
    ensures RiskWants(r, t) <==>
            r.sosFilled > 0 && t.risk.Some? && t.risk.value.config.enabled &&
            var i := t.risk.value;
            var maint := MaintenanceMargin(if i.notional < 0.0 then -i.notional else i.notional, i.symbol);
            (|| GuardStops(i.config, i.wallet + i.unrealized, maint)
             || (r.sosFilled >= i.config.soTrigger && LossReached(i.config, i.unrealized, i.wallet, PeakWith(r, i))))
  {
    hide Evaluate, MaintenanceMargin, GuardStops, LossReached;
    if t.risk.Some? {
      var i := t.risk.value;
      VerdictExactly(r.sosFilled, i.unrealized, i.wallet, i.notional, i.symbol, i.config, PeakWith(r, i));
    }
  }

  /** A tick that commits with the basket open after its order loop and the risk controller wanting it closed marks it
      RISK_STOP, cancels what is live, and closes it once, unless there is a quantity to sell and the order is refused.
      Without that the risk check leaves the basket open. */
  lemma TickStopsExactly(l: Live, t: Tick)
    requires ReachesCommit(l, t) && Ordered(l, t).status.OPEN?
    ensures var before, after := Ordered(l, t), Monitored(l, t).row;
            var refused := after.qty > 0.0 && RoundDown(after.qty, t.precision.qtyStep) > 0.0 && !t.closeOk;
            && (after.exitReason == if RiskWants(before, t) then Some(RISK_STOP) else before.exitReason)
            && (after.status.CLOSED? <==> RiskWants(before, t) && !refused)
            && after.finalized == before.finalized + (if after.status.CLOSED? then 1 else 0)
            && (RiskWants(before, t) ==> NoLiveRows(after.orders))
            && (before.sosFilled > 0 && t.risk.Some? ==> after.peakLoss == PeakWith(before, t.risk.value))
  {
    hide AfterOrders, AfterVirtualSos, RoundDown, Recalculated, Evaluate, GoneConfirmed, LiveTps, CancelLive,
         NoLiveRows;
    CommitsTo(l, t);
    var before := Ordered(l, t);
    RecalculatedFrame(before, t, t.safetyTp);
    CancelLiveLeavesNone(AfterSafetyNet(before, t).orders);
  }

  /** With the guard off, a basket below the trigger is left as it is by the risk check, whatever it has lost; only the
      peak loss moves. */
  lemma BelowTriggerNotStopped(r: BasketRow, t: Tick)
    requires t.risk.Some? && !t.risk.value.config.guardEnabled && r.sosFilled < t.risk.value.config.soTrigger
    ensures AfterRisk(r, t) == r.(peakLoss := AfterRisk(r, t).peakLoss)
  {
    hide Evaluate;
    var i := t.risk.value;
    BelowTriggerKeeps(r.sosFilled, i.unrealized, i.wallet, i.notional, i.symbol, i.config, PeakWith(r, i));
  }
}
