/** Runs whose ticks answer well enough: an input condition under which the database and the exchange never part, so
    that every safety order is sent at most once. */
module DurableRuns {
  import opened Options
  import opened Rounding
  import opened Liquidation
  import opened RiskController
  import opened GridLevels
  import opened LiveMonitor
  import opened MonitorFacts

  /** At most one take-profit row is live, and it carries the exchange's id. */
  ghost predicate Tidy(orders: seq<Order>) {
    && !TwoLive(orders, |orders|)
    && forall i :: 0 <= i < |orders| && IsLiveTp(orders[i]) ==> orders[i].exchangeId.Some?
  }

  /** Cancels are acknowledged and accepted take-profits come with an id. */
  ghost predicate Acknowledges(t: Tick) {
    && (forall id :: t.cancelOk(id))
    && t.soTp != Some(None) && t.safetyTp != Some(None)
  }

  /** The tick can bring its rows to the database, or has no mark price to fire on. */
  predicate CanCommit(t: Tick) {
    OpenIds(t).Some? || t.siblingCommits || MarkPrice(t).None?
  }

  /** The exchange says about row j that it is live. */
  predicate SaysLive(t: Tick, j: nat) {
    && t.query(j).Some? && t.query(j).value.readable
    && (t.query(j).value.status == Some(NEW) || t.query(j).value.status == Some(PARTIALLY_FILLED))
  }

  /** The query of row j leaves its status unknown. */
  predicate Unsure(t: Tick, j: nat) {
    t.query(j).None? || !t.query(j).value.readable || t.query(j).value.status == Some(UNKNOWN)
  }

  /** No UNKNOWN take-profit row is answered as live. */
  ghost predicate NoRelapse(orders: seq<Order>, t: Tick) {
    forall j: nat :: j < |orders| && orders[j].role.TP? && orders[j].status.UNKNOWN? ==> !SaysLive(t, j)
  }

  // ---------- One tick ----------

  /** Rows that only lose life, and a take-profit appended when none is left alive. */
  lemma TidyFrame(before: seq<Order>, after: seq<Order>)
    requires Tidy(before) && |before| <= |after|
    requires forall i :: 0 <= i < |before| && IsLiveTp(after[i]) ==>
            IsLiveTp(before[i]) && after[i].exchangeId == before[i].exchangeId
    requires forall i :: |before| <= i < |after| ==> !IsLiveTp(after[i])
    ensures Tidy(after)
  {
    hide IsLiveTp;
    forall i: nat, j: nat | i < j < |after|
      ensures !(IsLiveTp(after[i]) && IsLiveTp(after[j]))
    {
    }
  }

  /** The rows a replacement keeps when the one live take-profit is canceled. */
  function Left(orders: seq<Order>, live: seq<nat>): seq<Order>
    requires forall k :: 0 <= k < |live| ==> live[k] < |orders|
  {
    if |live| == 1 then orders[live[0] := orders[live[0]].(status := CANCELED)] else orders
  }

  lemma RecalculatedRows(r: BasketRow, t: Tick, reply: Option<Option<int>>)
    requires HasEntryFill(r.orders) && EntryQty(r.orders, |r.orders|) > 0.0
    requires var live := LiveTps(r.orders, |r.orders|);
             |live| <= 1 && (|live| == 1 ==> var id := r.orders[live[0]].exchangeId; id.Some? && t.cancelOk(id.value))
    ensures var left, after := Left(r.orders, LiveTps(r.orders, |r.orders|)), Recalculated(r, t, reply).orders;
            if reply.None? then after == left
            else |after| == |left| + 1 && after[..|left|] == left && after[|left|].exchangeId == reply.value
  {
    hide RoundDown, CalculateTpPrice, Notional, EntryQty, EntryCost, HasEntryFill, IsLiveTp, LiveTps;
  }

  lemma RecalculatedTidy(r: BasketRow, t: Tick, reply: Option<Option<int>>)
    requires Tidy(r.orders) && reply != Some(None) && forall id :: t.cancelOk(id)
    ensures Tidy(Recalculated(r, t, reply).orders)
  {
    hide RoundDown, CalculateTpPrice, Notional, EntryQty, EntryCost, IsLiveTp, Tidy, LiveTps;
    var live := LiveTps(r.orders, |r.orders|);
    LiveTpsAreTps(r.orders, |r.orders|);
    if HasEntryFill(r.orders) && EntryQty(r.orders, |r.orders|) > 0.0 && |live| <= 1 {
      if |live| == 1 {
        LiveHasId(r.orders, live);
        var id: int := r.orders[live[0]].exchangeId.value;
        assert t.cancelOk(id);
      }
      RecalculatedRows(r, t, reply);
      LastCanceled(r.orders, live);
      ReplacementTidy(Left(r.orders, live), Recalculated(r, t, reply).orders, reply);
    }
  }

  lemma ReplacementTidy(left: seq<Order>, after: seq<Order>, reply: Option<Option<int>>)
    requires (forall i :: 0 <= i < |left| ==> !IsLiveTp(left[i])) && reply != Some(None)
    requires if reply.None? then after == left
             else |after| == |left| + 1 && after[..|left|] == left && after[|left|].exchangeId == reply.value
    ensures Tidy(after)
  {
    hide IsLiveTp;
    assert forall i :: 0 <= i < |left| ==> after[i] == left[i];
  }

  lemma LiveHasId(orders: seq<Order>, live: seq<nat>)
    requires Tidy(orders) && |live| == 1 && live[0] < |orders| && IsLiveTp(orders[live[0]])
    ensures orders[live[0]].exchangeId.Some?
  {
    hide IsLiveTp;
  }

  lemma LastCanceled(orders: seq<Order>, live: seq<nat>)
    requires live == LiveTps(orders, |orders|) && |live| <= 1
    ensures var left := Left(orders, live); |left| == |orders| && forall i :: 0 <= i < |left| ==> !IsLiveTp(left[i])
  {
    LiveTpsComplete(orders, |orders|);
    hide LiveTps;
  }

  lemma {:induction false} WalkTidy(l: Live, t: Tick, mark: real, already: int, i: nat)
    requires i <= |l.row.levels| && Tidy(l.row.orders)
    ensures Tidy(Walk(l, t, mark, already, i).row.orders)
    decreases |l.row.levels| - i
  {
    hide RoundDown, Notional, Breached, Tidy;
    if i < |l.row.levels| {
      var so := l.row.levels[i];
      if so.index <= already {
        WalkTidy(l, t, mark, already, i + 1);
      } else if Breached(l.row.side, mark, so.fillPrice) {
        var qty := RoundDown(so.qty, t.precision.qtyStep);
        if TooSmall(qty, mark, t.precision) {
          WalkTidy(l.(row := l.row.(sosFilled := so.index)), t, mark, already, i + 1);
        } else if t.place(so.index).Some? {
          var row := SoRow(so.index, qty, FillPriceOf(t.place(so.index).value, mark));
          TidyFrame(l.row.orders, l.row.orders + [row]);
          WalkTidy(Live(l.row.(sosFilled := so.index, orders := l.row.orders + [row]),
                        l.executed + [Execution(so.index, mark)]),
                   t, mark, already, i + 1);
        }
      }
    }
  }

  lemma VirtualSosTidy(l: Live, t: Tick)
    requires Tidy(l.row.orders) && Acknowledges(t)
    ensures Tidy(AfterVirtualSos(l, t).row.orders)
  {
    hide Walk, Recalculated, Tidy;
    if WalksLadder(l.row, t) {
      WalkTidy(l, t, MarkPrice(t).value, l.row.sosFilled, 0);
      RecalculatedTidy(Walk(l, t, MarkPrice(t).value, l.row.sosFilled, 0).row, t, t.soTp);
    }
  }

  /** Rows are only ever marked UNKNOWN by a query that leaves them so. */
  ghost predicate UnknownOnlyAsked(before: seq<Order>, after: seq<Order>, t: Tick) {
    forall j: nat :: j < |after| && after[j].role.TP? && after[j].status.UNKNOWN? ==>
      || (j < |before| && before[j].role.TP? && before[j].status.UNKNOWN?)
      || Unsure(t, j)
  }

  lemma RecalculatedNamesNone(r: BasketRow, t: Tick, reply: Option<Option<int>>)
    ensures UnknownOnlyAsked(r.orders, Recalculated(r, t, reply).orders, t)
  {
    hide RoundDown, CalculateTpPrice, Notional, EntryQty, EntryCost, LiveTps;
  }

  lemma {:induction false} WalkNamesNone(orders: seq<Order>, l: Live, t: Tick, mark: real, already: int, i: nat)
    requires i <= |l.row.levels| && UnknownOnlyAsked(orders, l.row.orders, t)
    ensures UnknownOnlyAsked(orders, Walk(l, t, mark, already, i).row.orders, t)
    decreases |l.row.levels| - i
  {
    hide RoundDown, Notional, Breached, Unsure;
    if i < |l.row.levels| {
      var so := l.row.levels[i];
      if so.index <= already {
        WalkNamesNone(orders, l, t, mark, already, i + 1);
      } else if Breached(l.row.side, mark, so.fillPrice) {
        var qty := RoundDown(so.qty, t.precision.qtyStep);
        if TooSmall(qty, mark, t.precision) {
          WalkNamesNone(orders, l.(row := l.row.(sosFilled := so.index)), t, mark, already, i + 1);
        } else if t.place(so.index).Some? {
          var row := SoRow(so.index, qty, FillPriceOf(t.place(so.index).value, mark));
          WalkNamesNone(orders, Live(l.row.(sosFilled := so.index, orders := l.row.orders + [row]),
                                     l.executed + [Execution(so.index, mark)]),
                        t, mark, already, i + 1);
        }
      }
    }
  }

  lemma NamesTransitive(a: seq<Order>, b: seq<Order>, c: seq<Order>, t: Tick)
    requires UnknownOnlyAsked(a, b, t) && UnknownOnlyAsked(b, c, t)
    ensures UnknownOnlyAsked(a, c, t)
  {
    hide Unsure;
    assert forall j: nat :: j < |b| ==> b[j] == b[j];
  }

  lemma VirtualSosNameNone(l: Live, t: Tick)
    ensures UnknownOnlyAsked(l.row.orders, AfterVirtualSos(l, t).row.orders, t)
  {
    hide Walk, Recalculated, Unsure;
    if WalksLadder(l.row, t) {
      WalkNamesNone(l.row.orders, l, t, MarkPrice(t).value, l.row.sosFilled, 0);
      var walked := Walk(l, t, MarkPrice(t).value, l.row.sosFilled, 0);
      RecalculatedNamesNone(walked.row, t, t.soTp);
      NamesTransitive(l.row.orders, walked.row.orders, Recalculated(walked.row, t, t.soTp).orders, t);
    }
  }

  /** The order loop on a basket without pending safety orders: a row live after it was live before or is an UNKNOWN
      one answered as live, and a row unknown after it was unknown before or is asked in vain. */
  ghost predicate LoopOnlyAnswers(before: seq<Order>, after: seq<Order>, t: Tick) {
    && |after| == |before|
    && forall j: nat :: j < |before| ==>
         && after[j].role == before[j].role && after[j].exchangeId == before[j].exchangeId
         && (IsLiveTp(after[j]) ==> IsLiveTp(before[j]) || (before[j].status.UNKNOWN? && SaysLive(t, j)))
         && (after[j].status.UNKNOWN? ==> before[j].status.UNKNOWN? || Unsure(t, j))
  }

  lemma {:induction false} CancelOthersOnlyAnswers(before: seq<Order>, orders: seq<Order>, t: Tick, pending: seq<nat>,
                                                   keep: nat, n: nat)
    requires n <= |pending| && (forall i :: 0 <= i < |pending| ==> pending[i] < |orders|)
    requires LoopOnlyAnswers(before, orders, t)
    ensures LoopOnlyAnswers(before, CancelOthers(orders, pending, keep, n), t)
  {
    hide SaysLive, Unsure;
    if n > 0 {
      CancelOthersOnlyAnswers(before, orders, t, pending, keep, n - 1);
    }
  }

  lemma SeenOnlyAnswers(before: seq<Order>, r: BasketRow, t: Tick, j: nat)
    requires j < |r.orders| && LoopOnlyAnswers(before, r.orders, t) && r.orders[j] == before[j] && IsPending(before[j])
    ensures LoopOnlyAnswers(before, Seen(r, j, Queried(r.orders[j], t.query(j))).orders, t)
  {}

  lemma {:induction false} OrderLoopOnlyAnswers(r0: BasketRow, r: BasketRow, t: Tick, openIds: set<int>,
                                                pending: seq<nat>, i: nat)
    requires i <= |pending| && LoopOnlyAnswers(r0.orders, r.orders, t)
    requires forall k :: 0 <= k < |pending| ==>
            pending[k] < |r0.orders| && IsPending(r0.orders[pending[k]]) && r0.orders[pending[k]].role.TP?
    requires forall k, m :: 0 <= k < m < |pending| ==> pending[k] != pending[m]
    requires forall k :: i <= k < |pending| ==> r.orders[pending[k]] == r0.orders[pending[k]]
    ensures LoopOnlyAnswers(r0.orders, OrderLoop(r, t, openIds, pending, i).orders, t)
    decreases |pending| - i
  {
    hide Recalculated, CancelOthers, Queried, LoopOnlyAnswers, Gone;
    if i < |pending| {
      var j := pending[i];
      assert |r.orders| == |r0.orders| by { LoopLength(r0.orders, r.orders, t); }
      if Gone(r.orders[j], openIds) {
        var seen := Seen(r, j, Queried(r.orders[j], t.query(j)));
        SeenOnlyAnswers(r0.orders, r, t, j);
        if Queried(r.orders[j], t.query(j)).FILLED? {
          CancelOthersOnlyAnswers(r0.orders, seen.orders, t, pending, j, |pending|);
        } else {
          OrderLoopOnlyAnswers(r0, seen, t, openIds, pending, i + 1);
        }
      } else {
        OrderLoopOnlyAnswers(r0, r, t, openIds, pending, i + 1);
      }
    }
  }

  lemma LoopLength(before: seq<Order>, after: seq<Order>, t: Tick)
    requires LoopOnlyAnswers(before, after, t)
    ensures |after| == |before|
  {}

  lemma AfterOrdersOnlyAnswers(r: BasketRow, t: Tick, openIds: set<int>)
    requires NoSoPending(r.orders)
    ensures LoopOnlyAnswers(r.orders, AfterOrders(r, t, openIds).orders, t)
  {
    hide OrderLoop, SaysLive, Unsure;
    PendingMeans(r.orders, |r.orders|);
    PendingIncreases(r.orders, |r.orders|);
    OrderLoopOnlyAnswers(r, r, t, openIds, Pending(r.orders, |r.orders|), 0);
  }

  lemma LoopTidy(before: seq<Order>, after: seq<Order>, t: Tick)
    requires LoopOnlyAnswers(before, after, t) && Tidy(before) && NoRelapse(before, t)
    ensures Tidy(after)
  {
    hide SaysLive, Unsure, Tidy;
    TidyFrame(before, after);
  }

  lemma RelapseFrame(before: seq<Order>, after: seq<Order>, t: Tick)
    requires UnknownOnlyAsked(before, after, t) && NoRelapse(before, t)
    ensures NoRelapse(after, t)
  {}

  lemma CancelLiveTidy(orders: seq<Order>, t: Tick)
    ensures Tidy(CancelLive(orders)) && UnknownOnlyAsked(orders, CancelLive(orders), t)
  {}

  lemma RiskTidy(r: BasketRow, t: Tick)
    requires Tidy(r.orders)
    ensures Tidy(AfterRisk(r, t).orders) && UnknownOnlyAsked(r.orders, AfterRisk(r, t).orders, t)
  {
    hide Evaluate, RoundDown, CancelLive, Tidy;
    CancelLiveTidy(r.orders, t);
  }

  lemma SafetyNetTidy(r: BasketRow, t: Tick)
    requires Tidy(r.orders) && Acknowledges(t)
    ensures Tidy(AfterSafetyNet(r, t).orders) && UnknownOnlyAsked(r.orders, AfterSafetyNet(r, t).orders, t)
  {
    hide Recalculated, Tidy;
    RecalculatedTidy(r, t, t.safetyTp);
    RecalculatedNamesNone(r, t, t.safetyTp);
  }

  lemma WatchdogTidy(r: BasketRow, t: Tick)
    ensures Tidy(WatchdogClosed(r, t).orders) && UnknownOnlyAsked(r.orders, WatchdogClosed(r, t).orders, t)
  {
    hide CancelLive, Tidy;
    var marked := if TpReportedFilled(r, t) then r.orders[t.tpRow.value := r.orders[t.tpRow.value].(status := FILLED)]
                  else r.orders;
    CancelLiveTidy(marked, t);
    NamesTransitive(r.orders, marked, CancelLive(marked), t);
  }

  lemma TidyNeverRaises(r: BasketRow)
    requires Tidy(r.orders)
    ensures !SafetyNetRaises(r)
  {
    LiveTpsCount(r.orders);
  }

  /** The input condition for a durable tick: with at most one live take-profit before it, open orders readable, cancels
      acknowledged, ids in the replies, and no UNKNOWN take-profit answered as live, the safety net does not raise. */
  lemma AcknowledgedTickIsDurable(l: Live, t: Tick)
    requires Regular(l.row) && Tidy(l.row.orders) && Acknowledges(t) && NoRelapse(l.row.orders, t) && OpenIds(t).Some?
    ensures Durable(l, t)
  {
    hide Regular, Tidy, Acknowledges, NoRelapse, AfterVirtualSos, AfterOrders, SafetyNetRaises, AnswersRaise;
    AfterSosRegular(l, t);
    var r := AfterVirtualSos(l, t).row;
    RegularHasNoSoPending(r);
    VirtualSosTidy(l, t);
    VirtualSosNameNone(l, t);
    RelapseFrame(l.row.orders, r.orders, t);
    AfterOrdersOnlyAnswers(r, t, OpenIds(t).value);
    LoopTidy(r.orders, AfterOrders(r, t, OpenIds(t).value).orders, t);
    TidyNeverRaises(AfterOrders(r, t, OpenIds(t).value));
    SafetyNetRaisesExactly(r, t, OpenIds(t).value);
  }

  lemma LoopNames(before: seq<Order>, after: seq<Order>, t: Tick)
    requires LoopOnlyAnswers(before, after, t)
    ensures UnknownOnlyAsked(before, after, t)
  {}

  /** Such a tick, and one that cannot commit, leaves the rows tidy. */
  lemma TickTidy(l: Live, t: Tick)
    requires Regular(l.row) && Tidy(l.row.orders) && Acknowledges(t) && NoRelapse(l.row.orders, t)
    ensures Tidy(Monitored(l, t).row.orders) && UnknownOnlyAsked(l.row.orders, Monitored(l, t).row.orders, t)
  {
    hide Regular, Tidy, Acknowledges, NoRelapse, UnknownOnlyAsked, AfterVirtualSos, AfterOrders, AfterSafetyNet,
         AfterRisk, SafetyNetRaises, WatchdogClosed, GoneConfirmed, LoopOnlyAnswers;
    NamesItself(l.row.orders, t);
    WatchdogTidy(l.row, t);
    VirtualSosTidy(l, t);
    VirtualSosNameNone(l, t);
    var r := AfterVirtualSos(l, t).row;
    if OpenIds(t).Some? {
      AfterSosRegular(l, t);
      RegularHasNoSoPending(r);
      RelapseFrame(l.row.orders, r.orders, t);
      var ordered := AfterOrders(r, t, OpenIds(t).value);
      AfterOrdersOnlyAnswers(r, t, OpenIds(t).value);
      LoopTidy(r.orders, ordered.orders, t);
      LoopNames(r.orders, ordered.orders, t);
      TidyNeverRaises(ordered);
      SafetyNetTidy(ordered, t);
      var netted := AfterSafetyNet(ordered, t);
      RiskTidy(netted, t);
      NamesTransitive(l.row.orders, r.orders, ordered.orders, t);
      NamesTransitive(l.row.orders, ordered.orders, netted.orders, t);
      NamesTransitive(l.row.orders, netted.orders, AfterRisk(netted, t).orders, t);
    }
  }

  lemma NamesItself(orders: seq<Order>, t: Tick)
    ensures UnknownOnlyAsked(orders, orders, t)
  {}

  // ---------- Runs ----------

  /** A condition on the events alone: every tick acknowledges and can commit, and a row whose query once left it
      unknown is never answered as live afterwards. */
  ghost predicate WellAnswered(events: seq<Event>) {
    && (forall n :: 0 <= n < |events| && events[n].MonitorTick? ==> Acknowledges(events[n].t) && CanCommit(events[n].t))
    && (forall m, n, j: nat ::
          (0 <= m < n < |events| && events[m].MonitorTick? && events[n].MonitorTick? && Unsure(events[m].t, j))
          ==> !SaysLive(events[n].t, j))
  }

  ghost predicate NoUnknownTp(orders: seq<Order>) {
    forall j :: 0 <= j < |orders| ==> !(orders[j].role.TP? && orders[j].status.UNKNOWN?)
  }

  /** Every UNKNOWN take-profit row was asked in vain by an earlier tick. */
  ghost predicate UnknownExplained(orders: seq<Order>, events: seq<Event>) {
    forall j: nat :: j < |orders| && orders[j].role.TP? && orders[j].status.UNKNOWN? ==> AskedInVain(events, j)
  }

  ghost predicate AskedInVain(events: seq<Event>, j: nat) {
    exists m :: 0 <= m < |events| && events[m].MonitorTick? && Unsure(events[m].t, j)
  }

  lemma ExplainedSteps(before: seq<Order>, after: seq<Order>, events: seq<Event>, t: Tick)
    requires UnknownExplained(before, events) && UnknownOnlyAsked(before, after, t)
    ensures UnknownExplained(after, events + [MonitorTick(t)])
  {
    hide Unsure;
    var more := events + [MonitorTick(t)];
    forall j: nat | j < |after| && after[j].role.TP? && after[j].status.UNKNOWN?
      ensures AskedInVain(more, j)
    {
      if j < |before| && before[j].role.TP? && before[j].status.UNKNOWN? {
        var m :| 0 <= m < |events| && events[m].MonitorTick? && Unsure(events[m].t, j);
        assert more[m] == events[m];
      } else {
        assert more[|events|].MonitorTick? && Unsure(more[|events|].t, j);
      }
    }
  }

  lemma ExplainedLonger(orders: seq<Order>, events: seq<Event>, e: Event)
    requires UnknownExplained(orders, events)
    ensures UnknownExplained(orders, events + [e])
  {
    hide Unsure;
    forall j: nat | j < |orders| && orders[j].role.TP? && orders[j].status.UNKNOWN?
      ensures AskedInVain(events + [e], j)
    {
      var m :| 0 <= m < |events| && events[m].MonitorTick? && Unsure(events[m].t, j);
      assert (events + [e])[m] == events[m];
    }
  }

  lemma ExplainedNoRelapse(orders: seq<Order>, events: seq<Event>, n: nat)
    requires n < |events| && events[n].MonitorTick? && WellAnswered(events) && UnknownExplained(orders, events[..n])
    ensures NoRelapse(orders, events[n].t)
  {
    hide Unsure, SaysLive, Acknowledges, CanCommit;
    forall j: nat | j < |orders| && orders[j].role.TP? && orders[j].status.UNKNOWN?
      ensures !SaysLive(events[n].t, j)
    {
      assert AskedInVain(events[..n], j);
      var m :| 0 <= m < n && events[..n][m].MonitorTick? && Unsure(events[..n][m].t, j);
      assert events[m] == events[..n][m];
    }
  }

  /** What the run keeps. */
  ghost predicate Kept(l: Live, events: seq<Event>) {
    Regular(l.row) && Agree(l) && Tidy(l.row.orders) && UnknownExplained(l.row.orders, events)
  }

  lemma TickKeeps(l: Live, t: Tick, events: seq<Event>)
    requires Kept(l, events) && Acknowledges(t) && CanCommit(t) && NoRelapse(l.row.orders, t)
    ensures Kept(Monitored(l, t), events + [MonitorTick(t)])
  {
    hide Regular, Agree, Tidy, Acknowledges, NoRelapse, UnknownExplained, UnknownOnlyAsked, Monitored, Durable,
         SomeFires, Trades;
    TickKeepsRegular(l, t);
    TickTidy(l, t);
    ExplainedSteps(l.row.orders, Monitored(l, t).row.orders, events, t);
    TickAgreesExactlyWhenDurable(l, t);
    if OpenIds(t).Some? {
      AcknowledgedTickIsDurable(l, t);
    } else if t.siblingCommits {
      SiblingIsDurable(l, t);
    }
  }

  lemma SiblingIsDurable(l: Live, t: Tick)
    requires t.siblingCommits
    ensures Durable(l, t)
  {}

  lemma EventKeeps(l: Live, e: Event, events: seq<Event>)
    requires Kept(l, events)
    requires e.MonitorTick? ==> Acknowledges(e.t) && CanCommit(e.t) && NoRelapse(l.row.orders, e.t)
    ensures Kept(Apply(l, e), events + [e])
  {
    hide Regular, Agree, Tidy, Acknowledges, NoRelapse, UnknownExplained, UnknownOnlyAsked, Monitored, CancelLive,
         RoundDown, Fires, Durable;
    ExplainedLonger(l.row.orders, events, e);
    if e.MonitorTick? {
      TickKeeps(l, e.t, events);
    } else {
      ApplyKeepsRegular(l, e);
      ApplyAgrees(l, e);
      if e.AgeTick? {
        CancelLiveTidy(l.row.orders, e.t);
        CancelLiveExplained(l.row.orders, events + [e]);
      }
    }
  }

  lemma CancelLiveExplained(orders: seq<Order>, events: seq<Event>)
    requires UnknownExplained(orders, events)
    ensures UnknownExplained(CancelLive(orders), events)
  {
    hide AskedInVain;
  }

  lemma WellAnsweredPrefix(events: seq<Event>, n: nat)
    requires WellAnswered(events) && n <= |events|
    ensures WellAnswered(events[..n])
  {
    hide Acknowledges, CanCommit, Unsure, SaysLive;
    assert forall m :: 0 <= m < n ==> events[..n][m] == events[m];
  }

  lemma WellAnsweredAt(events: seq<Event>, n: nat)
    requires WellAnswered(events) && n < |events| && events[n].MonitorTick?
    ensures Acknowledges(events[n].t) && CanCommit(events[n].t)
  {}

  lemma {:induction false} RunKeeps(l: Live, events: seq<Event>)
    requires Regular(l.row) && Agree(l) && Tidy(l.row.orders) && NoUnknownTp(l.row.orders) && WellAnswered(events)
    ensures Kept(RunEvents(l, events), events)
  {
    hide Apply, Regular, Agree, Tidy, WellAnswered, AskedInVain, Acknowledges, CanCommit;
    if events != [] {
      var n := |events| - 1;
      WellAnsweredPrefix(events, n);
      RunKeeps(l, events[..n]);
      var at := RunEvents(l, events[..n]);
      if events[n].MonitorTick? {
        WellAnsweredAt(events, n);
        ExplainedNoRelapse(at.row.orders, events, n);
      }
      EventKeeps(at, events[n], events[..n]);
      assert events == events[..n] + [events[n]];
    }
  }

  /** For every run of ticks, age closes and reconciliations whose events are well answered, from a basket with at most
      one live take-profit: the database records exactly what the exchange executed, and the exchange executes every
      safety order at most once, in ladder order. */
  lemma WellAnsweredRunsExecuteOnce(l: Live, events: seq<Event>)
    requires Regular(l.row) && Agree(l) && Tidy(l.row.orders) && NoUnknownTp(l.row.orders) && WellAnswered(events)
    ensures Agree(RunEvents(l, events))
    ensures var x := RunEvents(l, events).executed; forall i, j :: 0 <= i < j < |x| ==> x[i].index < x[j].index
  {
    hide Regular, Agree, Tidy, WellAnswered;
    RunKeeps(l, events);
    AgreementMeansAtMostOnce(RunEvents(l, events));
  }
}
