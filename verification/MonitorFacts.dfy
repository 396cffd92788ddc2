/** Safety of the live monitor for every cache content, every exchange answer and every failure. */
module MonitorFacts {
  import opened Options
  import opened RealArith
  import opened Rounding
  import opened Liquidation
  import opened RiskController
  import opened GridLevels
  import opened BasketFacts
  import opened LiveMonitor

  // ---------- One tick of the virtual safety orders meets its specification ----------

  /** Ladder indices count 1, 2, 3, ... and prices move strictly away from the entry, as the grid
      generator produces them. */
  ghost predicate CountingLadder(side: Side, levels: seq<Level>) {
    && (forall i :: 0 <= i < |levels| ==> levels[i].index == i + 1)
    && (forall i, j :: 0 <= i < j < |levels| ==>
          if side.LONG? then levels[j].fillPrice < levels[i].fillPrice else levels[i].fillPrice < levels[j].fillPrice)
  }

  lemma GeneratedLadderCounts(p: GridParams)
    requires p.boPrice > 0.0 && p.stepMin > 0.0 && p.stepScale > 0.0
    ensures CountingLadder(p.side, GridOf(p).levels)
  {
    hide GridOf;
    LadderIsOrdered(p);
  }

  /** How many of the first n levels the mark price has breached. */
  function BreachCount(side: Side, levels: seq<Level>, mark: real, n: nat): (count: nat)
    requires n <= |levels|
    ensures count <= n
  {
    if n == 0 then 0
    else BreachCount(side, levels, mark, n - 1) + if Breached(side, mark, levels[n - 1].fillPrice) then 1 else 0
  }

  /** On a strictly ordered ladder the breached levels form a prefix, so the first level that is not
      breached is a safe place to stop. */
  lemma {:induction false} BreachedArePrefix(side: Side, levels: seq<Level>, mark: real, n: nat)
    requires n <= |levels| && CountingLadder(side, levels)
    ensures forall i :: 0 <= i < n ==>
              (i < BreachCount(side, levels, mark, n) <==> Breached(side, mark, levels[i].fillPrice))
  {
    if n > 0 {
      BreachedArePrefix(side, levels, mark, n - 1);
    }
  }

  lemma {:induction false} WalkReaches(l: Live, t: Tick, mark: real, already: int, i: nat)
    requires CountingLadder(l.row.side, l.row.levels) && i <= |l.row.levels|
    requires 0 <= already <= |l.row.levels|
    requires forall k: int :: t.place(k).Some?
    requires l.row.sosFilled == if i > already then i else already
    requires forall k :: already <= k < i ==> Breached(l.row.side, mark, l.row.levels[k].fillPrice)
    ensures var count := BreachCount(l.row.side, l.row.levels, mark, |l.row.levels|);
            Walk(l, t, mark, already, i).row.sosFilled == if count > already then count else already
    decreases |l.row.levels| - i
  {
    hide RoundDown, Notional, Breached;
    var count := BreachCount(l.row.side, l.row.levels, mark, |l.row.levels|);
    BreachedArePrefix(l.row.side, l.row.levels, mark, |l.row.levels|);
    assert i > already ==> Breached(l.row.side, mark, l.row.levels[i - 1].fillPrice) && count >= i;
    if i < |l.row.levels| {
      var so := l.row.levels[i];
      if so.index <= already {
        WalkReaches(l, t, mark, already, i + 1);
      } else if Breached(l.row.side, mark, so.fillPrice) {
        var qty := RoundDown(so.qty, t.precision.qtyStep);
        if TooSmall(qty, mark, t.precision) {
          WalkReaches(l.(row := l.row.(sosFilled := so.index)), t, mark, already, i + 1);
        } else {
          var row := SoRow(so.index, qty, FillPriceOf(t.place(so.index).value, mark));
          WalkReaches(Live(l.row.(sosFilled := so.index, orders := l.row.orders + [row]),
                           l.executed + [Execution(so.index, mark)]),
                      t, mark, already, i + 1);
        }
      } else {
        assert count <= i;
        assert Walk(l, t, mark, already, i) == l;
      }
    }
  }

  /** Without a refused order, one tick ends with the larger of the old count and the number of
      levels the mark price has breached: stopping at the first unbreached level misses nothing. */
  lemma TickFillsEveryBreachedLevel(l: Live, t: Tick)
    requires CountingLadder(l.row.side, l.row.levels) && 0 <= l.row.sosFilled <= |l.row.levels|
    requires l.row.status.OPEN? && !HasLegacySo(l.row.orders) && MarkPrice(t).Some?
    requires forall k: int :: t.place(k).Some?
    ensures var count := BreachCount(l.row.side, l.row.levels, MarkPrice(t).value, |l.row.levels|);
            AfterVirtualSos(l, t).row.sosFilled == if count > l.row.sosFilled then count else l.row.sosFilled
  {
    hide Walk, Recalculated;
    var mark := MarkPrice(t).value;
    if WalksLadder(l.row, t) {
      WalkReaches(l, t, mark, l.row.sosFilled, 0);
      RecalculatedFrame(Walk(l, t, mark, l.row.sosFilled, 0).row, t, t.soTp);
    }
  }

  // ---------- What the routines leave alone ----------

  /** Rows keep their place, role and type; safety-order and base-order rows keep everything; only
      take-profit rows are added. */
  ghost predicate OnlyTpTouched(before: seq<Order>, after: seq<Order>) {
    && |before| <= |after|
    && (forall i :: 0 <= i < |before| ==>
           after[i].role == before[i].role && (!before[i].role.TP? ==> after[i] == before[i]))
    && (forall i :: |before| <= i < |after| ==> after[i].role.TP?)
  }

  lemma OnlyTpTouchedTransitive(a: seq<Order>, b: seq<Order>, c: seq<Order>)
    requires OnlyTpTouched(a, b) && OnlyTpTouched(b, c)
    ensures OnlyTpTouched(a, c)
  {
    forall i | |a| <= i < |c|
      ensures c[i].role.TP?
    {
      if i < |b| {
        assert c[i].role == b[i].role;
      }
    }
  }

  lemma {:induction false} LiveTpsAreTps(orders: seq<Order>, n: nat)
    requires n <= |orders|
    ensures forall i :: 0 <= i < |LiveTps(orders, n)| ==> IsLiveTp(orders[LiveTps(orders, n)[i]])
  {
    if n > 0 {
      LiveTpsAreTps(orders, n - 1);
    }
  }

  lemma RecalculatedFrame(r: BasketRow, t: Tick, reply: Option<Option<int>>)
    ensures var after := Recalculated(r, t, reply);
            && OnlyTpTouched(r.orders, after.orders)
            && after == r.(avgEntry := after.avgEntry, qty := after.qty, tpPrice := after.tpPrice,
                   orders := after.orders)
  {
    hide RoundDown, CalculateTpPrice, Notional, EntryQty, EntryCost;
    LiveTpsAreTps(r.orders, |r.orders|);
  }

  /** The re-averaged basket holds the total of its filled entry orders at their average price. */
  lemma RecalculatedIsAverage(r: BasketRow, t: Tick, reply: Option<Option<int>>)
    requires HasEntryFill(r.orders) && EntryQty(r.orders, |r.orders|) > 0.0
    ensures var after := Recalculated(r, t, reply);
            && after.qty == EntryQty(r.orders, |r.orders|)
            && Notional(after.avgEntry, after.qty) == EntryCost(r.orders, |r.orders|)
  {
    hide RoundDown, CalculateTpPrice, EntryQty, EntryCost;
    DivMul(EntryCost(r.orders, |r.orders|), EntryQty(r.orders, |r.orders|));
  }

  /** When the replacement is placed, exactly one row is added: a live limit take-profit at the stored price
      for the rounded quantity, and filling it would earn the target to within one tick on the position. */
  lemma NewTpWithinTick(r: BasketRow, t: Tick, reply: Option<int>)
    requires HasEntryFill(r.orders) && EntryQty(r.orders, |r.orders|) > 0.0
    requires |LiveTps(r.orders, |r.orders|)| <= 1 && t.precision.tickSize > 0.0
    ensures var after := Recalculated(r, t, Some(reply));
            && after.qty > 0.0
            && |after.orders| == |r.orders| + 1
            && after.orders[|r.orders|] == Order(reply, TP, LIMIT, RoundDown(after.qty, t.precision.qtyStep),
                                                 after.tpPrice, 0.0, NEW)
            && (var gain, slack := Unrealized(r.side, after.avgEntry, after.qty, after.tpPrice),
                    t.precision.tickSize * after.qty;
                r.tpTarget - slack < gain < r.tpTarget + slack)
  {
    hide RoundDown, CalculateTpPrice, EntryQty, EntryCost, Unrealized;
    var after := Recalculated(r, t, Some(reply));
    FirstTakeProfitWithinTick(r.side, after.avgEntry, after.qty, r.tpTarget, t.precision.tickSize, after.tpPrice);
  }

  // ---------- Safety-order rows over any run ----------

  /** Every safety-order row is a filled market order numbered at most sos_filled, and the numbers
      strictly increase from row to row: no index has two filled rows. */
  ghost predicate SoRowsOrdered(r: BasketRow) {
    && (forall i :: 0 <= i < |r.orders| && r.orders[i].role.SO? ==>
          r.orders[i].orderType.MARKET? && r.orders[i].status.FILLED? && r.orders[i].role.index <= r.sosFilled)
    && (forall i, j :: 0 <= i < j < |r.orders| && r.orders[i].role.SO? && r.orders[j].role.SO? ==>
          r.orders[i].role.index < r.orders[j].role.index)
  }

  ghost predicate IndicesIncrease(levels: seq<Level>) {
    forall i, j :: 0 <= i < j < |levels| ==> levels[i].index < levels[j].index
  }

  ghost predicate PastTrigger(r: BasketRow, e: Execution) {
    exists i :: 0 <= i < |r.levels| && r.levels[i].index == e.index && Breached(r.side, e.mark, r.levels[i].fillPrice)
  }

  /** The indices of the safety-order rows, in row order. */
  function SoIndices(orders: seq<Order>): seq<int> {
    if orders == [] then []
    else
      var last := orders[|orders| - 1];
      SoIndices(orders[..|orders| - 1]) + if last.role.SO? then [last.role.index] else []
  }

  function ExecutedIndices(executed: seq<Execution>): seq<int> {
    seq(|executed|, i requires 0 <= i < |executed| => executed[i].index)
  }

  lemma {:induction false} SoIndicesFrame(before: seq<Order>, after: seq<Order>)
    requires OnlyTpTouched(before, after)
    ensures SoIndices(after) == SoIndices(before)
    decreases |after|
  {
    if after != [] {
      var n := |after| - 1;
      if |before| == |after| {
        SoIndicesFrame(before[..n], after[..n]);
      } else {
        SoIndicesFrame(before, after[..n]);
      }
    }
  }

  lemma SoRowsFrame(before: BasketRow, after: BasketRow)
    requires SoRowsOrdered(before) && OnlyTpTouched(before.orders, after.orders) && after.sosFilled == before.sosFilled
    ensures SoRowsOrdered(after)
  {
    forall i | 0 <= i < |after.orders| && after.orders[i].role.SO?
      ensures i < |before.orders| && after.orders[i] == before.orders[i]
    {
    }
  }

  /** What the walk keeps: rows stay ordered, the log grows by exactly the indices of the new rows,
      and every new execution had the mark price past its trigger. */
  ghost predicate WalkSound(before: Live, after: Live) {
    && SoRowsOrdered(after.row)
    && |before.executed| <= |after.executed| && after.executed[..|before.executed|] == before.executed
    && SoIndices(after.row.orders) == SoIndices(before.row.orders) +
           ExecutedIndices(after.executed[|before.executed|..])
    && (forall k :: |before.executed| <= k < |after.executed| ==> PastTrigger(before.row, after.executed[k]))
    && after.row == before.row.(sosFilled := after.row.sosFilled, orders := after.row.orders)
    && after.row.sosFilled >= before.row.sosFilled
  }

  lemma AppendSoRowOrdered(r: BasketRow, row: Order)
    requires SoRowsOrdered(r) && row.role.SO? && r.sosFilled < row.role.index
    requires row.orderType.MARKET? && row.status.FILLED?
    ensures SoRowsOrdered(r.(sosFilled := row.role.index, orders := r.orders + [row]))
  {
    var more := r.orders + [row];
    forall i | 0 <= i < |r.orders| && r.orders[i].role.SO?
      ensures more[i] == r.orders[i] && more[i].role.index < row.role.index
    {
    }
  }

  lemma AppendExecuted(start: seq<Execution>, executed: seq<Execution>, e: Execution)
    requires |start| <= |executed| && executed[..|start|] == start
    ensures (executed + [e])[..|start|] == start
    ensures ExecutedIndices((executed + [e])[|start|..]) == ExecutedIndices(executed[|start|..]) + [e.index]
  {
    var n := |start|;
    assert (executed + [e])[n..] == executed[n..] + [e];
  }

  lemma AppendSoRow(before: Live, l: Live, row: Order, e: Execution)
    requires WalkSound(before, l) && row.role.SO? && row.role.index == e.index
    requires row.orderType.MARKET? && row.status.FILLED? && l.row.sosFilled < row.role.index
    requires PastTrigger(before.row, e)
    ensures WalkSound(before,
            Live(l.row.(sosFilled := row.role.index, orders := l.row.orders + [row]), l.executed + [e]))
  {
    hide SoRowsOrdered, PastTrigger, ExecutedIndices;
    AppendSoRowOrdered(l.row, row);
    AppendExecuted(before.executed, l.executed, e);
    var more := l.row.orders + [row];
    assert more[..|more| - 1] == l.row.orders;
    assert SoIndices(more) == SoIndices(l.row.orders) + [e.index];
  }

  lemma SkipLevel(before: Live, l: Live, index: int)
    requires WalkSound(before, l) && l.row.sosFilled <= index
    ensures WalkSound(before, l.(row := l.row.(sosFilled := index)))
  {}

  lemma {:induction false} WalkKeepsSound(before: Live, l: Live, t: Tick, mark: real, already: int, i: nat)
    requires WalkSound(before, l) && IndicesIncrease(before.row.levels)
    requires i <= |before.row.levels| && l.row.sosFilled >= already
    requires forall k :: i <= k < |before.row.levels| ==>
               l.row.sosFilled < before.row.levels[k].index || before.row.levels[k].index <= already
    ensures WalkSound(before, Walk(l, t, mark, already, i))
    decreases |before.row.levels| - i
  {
    hide RoundDown, Notional, Breached, WalkSound, PastTrigger;
    assert l.row.levels == before.row.levels && l.row.side == before.row.side by {
      WalkSoundTerms(before, l);
    }
    if i < |before.row.levels| {
      var so := before.row.levels[i];
      if so.index <= already {
        WalkKeepsSound(before, l, t, mark, already, i + 1);
      } else if Breached(l.row.side, mark, so.fillPrice) {
        var qty := RoundDown(so.qty, t.precision.qtyStep);
        if TooSmall(qty, mark, t.precision) {
          SkipLevel(before, l, so.index);
          WalkKeepsSound(before, l.(row := l.row.(sosFilled := so.index)), t, mark, already, i + 1);
        } else if t.place(so.index).Some? {
          var row := SoRow(so.index, qty, FillPriceOf(t.place(so.index).value, mark));
          var e := Execution(so.index, mark);
          Triggered(before.row, e, i);
          AppendSoRow(before, l, row, e);
          WalkKeepsSound(before, Live(l.row.(sosFilled := so.index, orders := l.row.orders + [row]), l.executed + [e]),
                         t, mark, already, i + 1);
        }
      }
    }
  }

  lemma WalkSoundTerms(before: Live, l: Live)
    requires WalkSound(before, l)
    ensures l.row.levels == before.row.levels && l.row.side == before.row.side
  {}

  lemma Triggered(r: BasketRow, e: Execution, i: nat)
    requires i < |r.levels| && r.levels[i].index == e.index && Breached(r.side, e.mark, r.levels[i].fillPrice)
    ensures PastTrigger(r, e)
  {}

  lemma WalkStart(l: Live)
    requires SoRowsOrdered(l.row)
    ensures WalkSound(l, l)
  {
    assert l.executed[|l.executed|..] == [];
    assert ExecutedIndices([]) == [];
    assert SoIndices(l.row.orders) + [] == SoIndices(l.row.orders);
  }

  /** The safety-order step of a tick keeps the rows ordered and logs exactly what it records. */
  lemma VirtualSosSound(l: Live, t: Tick)
    requires SoRowsOrdered(l.row) && IndicesIncrease(l.row.levels)
    ensures var after := AfterVirtualSos(l, t);
            && SoRowsOrdered(after.row)
            && |l.executed| <= |after.executed| && after.executed[..|l.executed|] == l.executed
            && SoIndices(after.row.orders) == SoIndices(l.row.orders) + ExecutedIndices(after.executed[|l.executed|..])
            && (forall k :: |l.executed| <= k < |after.executed| ==> PastTrigger(l.row, after.executed[k]))
            && after.row == l.row.(sosFilled := after.row.sosFilled, orders := after.row.orders,
                                   avgEntry := after.row.avgEntry, qty := after.row.qty, tpPrice := after.row.tpPrice)
  {
    hide Walk, Recalculated, PastTrigger, SoRowsOrdered, SoIndices, OnlyTpTouched;
    WalkStart(l);
    if WalksLadder(l.row, t) {
      var mark := MarkPrice(t).value;
      WalkKeepsSound(l, l, t, mark, l.row.sosFilled, 0);
      var walked := Walk(l, t, mark, l.row.sosFilled, 0);
      RecalculatedFrame(walked.row, t, t.soTp);
      SoIndicesFrame(walked.row.orders, Recalculated(walked.row, t, t.soTp).orders);
      SoRowsFrame(walked.row, Recalculated(walked.row, t, t.soTp));
    }
  }

  // ---------- The order loop ----------

  ghost predicate NoSoPending(orders: seq<Order>) {
    forall i :: 0 <= i < |orders| && !orders[i].role.TP? ==> !IsPending(orders[i])
  }

  lemma {:induction false} PendingMeans(orders: seq<Order>, n: nat)
    requires n <= |orders|
    ensures forall i :: 0 <= i < |Pending(orders, n)| ==> IsPending(orders[Pending(orders, n)[i]])
  {
    if n > 0 {
      PendingMeans(orders, n - 1);
    }
  }

  lemma {:induction false} CancelOthersTouchesTps(orders: seq<Order>, pending: seq<nat>, keep: nat, n: nat)
    requires n <= |pending| && forall i :: 0 <= i < |pending| ==> pending[i] < |orders|
    requires forall i :: 0 <= i < |pending| ==> orders[pending[i]].role.TP?
    ensures OnlyTpTouched(orders, CancelOthers(orders, pending, keep, n))
    ensures |CancelOthers(orders, pending, keep, n)| == |orders|
  {
    if n > 0 {
      CancelOthersTouchesTps(orders, pending, keep, n - 1);
    }
  }

  /** The exchange answered the query of a take-profit row with FILLED, or with a reply that carries
      no status, which the code reads as FILLED. */
  ghost predicate TpAnsweredFilled(orders: seq<Order>, t: Tick) {
    exists j: nat :: j < |orders| && orders[j].role.TP? && orders[j].exchangeId.Some?
                     && t.query(j).Some? && t.query(j).value.readable
                     && (t.query(j).value.status.None? || t.query(j).value.status == Some(FILLED))
  }

  /** Same identity columns in the rows that existed before. */
  ghost predicate SameIds(before: seq<Order>, after: seq<Order>) {
    && |before| <= |after|
    && forall i :: 0 <= i < |before| ==> after[i].role == before[i].role && after[i].exchangeId == before[i].exchangeId
  }

  /** The loop over take-profit rows only touches such rows and closes only on a FILLED answer. */
  lemma {:induction false} OrderLoopSound(r0: BasketRow, r: BasketRow, t: Tick, openIds: set<int>,
                                          pending: seq<nat>, i: nat)
    requires i <= |pending| && forall k :: 0 <= k < |pending| ==> pending[k] < |r.orders|
    requires forall k :: 0 <= k < |pending| ==> r.orders[pending[k]].role.TP?
    requires forall k :: i <= k < |pending| ==> !r.orders[pending[k]].status.FILLED?
    requires forall k, m :: 0 <= k < m < |pending| ==> pending[k] != pending[m]
    requires SameIds(r0.orders, r.orders) && |r0.orders| == |r.orders|
    ensures var after := OrderLoop(r, t, openIds, pending, i);
            && OnlyTpTouched(r.orders, after.orders) && |after.orders| == |r.orders|
            && SameIds(r0.orders, after.orders)
            && after.sosFilled == r.sosFilled
            && (|| after == r.(orders := after.orders)
                || (&& after == r.(orders := after.orders, status := CLOSED, exitReason := Some(TP_FILLED),
                                   finalized := r.finalized + 1)
                    && TpAnsweredFilled(r0.orders, t)))
    decreases |pending| - i
  {
    hide Recalculated;
    if i < |pending| {
      var j := pending[i];
      var o := r.orders[j];
      if Gone(o, openIds) {
        var status := Queried(o, t.query(j));
        var seen := r.(orders := r.orders[j := o.(status := status)]);
        if status.FILLED? {
          CancelOthersTouchesTps(seen.orders, pending, j, |pending|);
          CancelOthersKeepsIds(seen.orders, pending, j, |pending|);
          OnlyTpTouchedTransitive(r.orders, seen.orders, CancelOthers(seen.orders, pending, j, |pending|));
          assert r0.orders[j].role.TP?;
        } else {
          OrderLoopSound(r0, seen, t, openIds, pending, i + 1);
          OnlyTpTouchedTransitive(r.orders, seen.orders, OrderLoop(seen, t, openIds, pending, i + 1).orders);
        }
      } else {
        OrderLoopSound(r0, r, t, openIds, pending, i + 1);
      }
    }
  }

  lemma {:induction false} CancelOthersKeepsIds(orders: seq<Order>, pending: seq<nat>, keep: nat, n: nat)
    requires n <= |pending| && forall i :: 0 <= i < |pending| ==> pending[i] < |orders|
    ensures SameIds(orders, CancelOthers(orders, pending, keep, n))
  {
    if n > 0 {
      CancelOthersKeepsIds(orders, pending, keep, n - 1);
    }
  }

  lemma {:induction false} PendingIncreases(orders: seq<Order>, n: nat)
    requires n <= |orders|
    ensures forall k, m :: 0 <= k < m < |Pending(orders, n)| ==> Pending(orders, n)[k] < Pending(orders, n)[m]
  {
    if n > 0 {
      PendingIncreases(orders, n - 1);
    }
  }

  lemma AfterOrdersSound(r: BasketRow, t: Tick, openIds: set<int>)
    requires NoSoPending(r.orders)
    ensures var after := AfterOrders(r, t, openIds);
            && OnlyTpTouched(r.orders, after.orders) && after.sosFilled == r.sosFilled
            && (|| after == r.(orders := after.orders)
                || (&& after == r.(orders := after.orders, status := CLOSED, exitReason := Some(TP_FILLED),
                                   finalized := r.finalized + 1)
                    && TpAnsweredFilled(r.orders, t)))
  {
    var pending := Pending(r.orders, |r.orders|);
    PendingMeans(r.orders, |r.orders|);
    PendingIncreases(r.orders, |r.orders|);
    OrderLoopSound(r, r, t, openIds, pending, 0);
  }

  // ---------- One tick ----------

  /** Rows of a basket without pre-placed (legacy) safety orders: base orders are filled, safety
      orders are ordered market fills. */
  ghost predicate Regular(r: BasketRow) {
    && SoRowsOrdered(r) && IndicesIncrease(r.levels)
    && BaseOrdersSettled(r.orders)
  }

  ghost predicate BaseOrdersSettled(orders: seq<Order>) {
    forall i :: 0 <= i < |orders| && orders[i].role.BO? ==> !IsPending(orders[i])
  }

  lemma RegularHasNoSoPending(r: BasketRow)
    requires Regular(r)
    ensures NoSoPending(r.orders)
  {}

  lemma RegularFrame(before: BasketRow, after: BasketRow)
    requires Regular(before) && OnlyTpTouched(before.orders, after.orders)
    requires after.sosFilled == before.sosFilled && after.levels == before.levels
    ensures Regular(after)
  {
    SoRowsFrame(before, after);
    BaseOrdersFrame(before.orders, after.orders);
  }

  lemma AfterSosRegular(l: Live, t: Tick)
    requires Regular(l.row)
    ensures Regular(AfterVirtualSos(l, t).row)
  {
    VirtualSosSound(l, t);
    VirtualSosKeepBaseOrders(l, t);
    hide AfterVirtualSos;
  }

  lemma {:induction false} WalkKeepsBaseOrders(l: Live, t: Tick, mark: real, already: int, i: nat)
    requires i <= |l.row.levels|
    requires BaseOrdersSettled(l.row.orders)
    ensures BaseOrdersSettled(Walk(l, t, mark, already, i).row.orders)
    decreases |l.row.levels| - i
  {
    hide RoundDown, Notional, Breached;
    if i < |l.row.levels| {
      var so := l.row.levels[i];
      if so.index <= already {
        WalkKeepsBaseOrders(l, t, mark, already, i + 1);
      } else if Breached(l.row.side, mark, so.fillPrice) {
        var qty := RoundDown(so.qty, t.precision.qtyStep);
        if TooSmall(qty, mark, t.precision) {
          WalkKeepsBaseOrders(l.(row := l.row.(sosFilled := so.index)), t, mark, already, i + 1);
        } else if t.place(so.index).Some? {
          var row := SoRow(so.index, qty, FillPriceOf(t.place(so.index).value, mark));
          assert row.role.SO?;
          WalkKeepsBaseOrders(Live(l.row.(sosFilled := so.index, orders := l.row.orders + [row]),
                                   l.executed + [Execution(so.index, mark)]),
                              t, mark, already, i + 1);
        }
      }
    }
  }

  lemma VirtualSosKeepBaseOrders(l: Live, t: Tick)
    requires BaseOrdersSettled(l.row.orders)
    ensures BaseOrdersSettled(AfterVirtualSos(l, t).row.orders)
  {
    hide Walk, Recalculated, BaseOrdersSettled, OnlyTpTouched;
    if WalksLadder(l.row, t) {
      var walked := Walk(l, t, MarkPrice(t).value, l.row.sosFilled, 0);
      WalkKeepsBaseOrders(l, t, MarkPrice(t).value, l.row.sosFilled, 0);
      RecalculatedFrame(walked.row, t, t.soTp);
      BaseOrdersFrame(walked.row.orders, Recalculated(walked.row, t, t.soTp).orders);
    }
  }

  lemma BaseOrdersFrame(before: seq<Order>, after: seq<Order>)
    requires BaseOrdersSettled(before) && OnlyTpTouched(before, after)
    ensures BaseOrdersSettled(after)
  {
    forall i | 0 <= i < |after| && after[i].role.BO?
      ensures i < |before| && after[i] == before[i]
    {
    }
  }

  lemma CancelLiveTouchesTps(orders: seq<Order>)
    requires NoSoPending(orders)
    ensures OnlyTpTouched(orders, CancelLive(orders))
  {}

  lemma ForceClosedFrame(r: BasketRow, t: Tick)
    requires Regular(r)
    ensures Regular(ForceClosedRow(r, t))
  {
    hide RoundDown;
    RegularHasNoSoPending(r);
    CancelLiveTouchesTps(r.orders);
    RegularFrame(r, ForceClosedRow(r, t));
  }

  lemma WatchdogFrame(r: BasketRow, t: Tick)
    requires Regular(r)
    ensures Regular(WatchdogClosed(r, t))
  {
    RegularHasNoSoPending(r);
    var marked := if TpReportedFilled(r, t) then r.orders[t.tpRow.value := r.orders[t.tpRow.value].(status := FILLED)]
            else r.orders;
    assert OnlyTpTouched(r.orders, marked);
    CancelLiveTouchesTps(marked);
    OnlyTpTouchedTransitive(r.orders, marked, CancelLive(marked));
    RegularFrame(r, WatchdogClosed(r, t));
  }

  lemma SafetyNetFrame(r: BasketRow, t: Tick)
    requires Regular(r)
    ensures Regular(AfterSafetyNet(r, t)) && OnlyTpTouched(r.orders, AfterSafetyNet(r, t).orders)
  {
    hide Recalculated;
    RecalculatedFrame(r, t, t.safetyTp);
    RegularFrame(r, AfterSafetyNet(r, t));
  }

  lemma RiskFrame(r: BasketRow, t: Tick)
    requires Regular(r)
    ensures Regular(AfterRisk(r, t)) && OnlyTpTouched(r.orders, AfterRisk(r, t).orders)
  {
    hide Evaluate, RoundDown;
    RegularHasNoSoPending(r);
    CancelLiveTouchesTps(r.orders);
    RegularFrame(r, AfterRisk(r, t));
  }

  /** The tail of a tick after the safety orders, when it runs to its commit. */
  function Tail(r: BasketRow, t: Tick, openIds: set<int>): BasketRow {
    AfterRisk(AfterSafetyNet(AfterOrders(r, t, openIds), t), t)
  }

  lemma TailFrame(r: BasketRow, t: Tick, openIds: set<int>)
    requires Regular(r)
    ensures Regular(AfterOrders(r, t, openIds)) && OnlyTpTouched(r.orders, AfterOrders(r, t, openIds).orders)
    ensures Regular(Tail(r, t, openIds)) && OnlyTpTouched(r.orders, Tail(r, t, openIds).orders)
  {
    hide AfterOrders, AfterSafetyNet, AfterRisk, Regular, OnlyTpTouched;
    RegularHasNoSoPending(r);
    AfterOrdersSound(r, t, openIds);
    var ordered := AfterOrders(r, t, openIds);
    RegularFrame(r, ordered);
    SafetyNetFrame(ordered, t);
    var netted := AfterSafetyNet(ordered, t);
    RiskFrame(netted, t);
    OnlyTpTouchedTransitive(r.orders, ordered.orders, netted.orders);
    OnlyTpTouchedTransitive(r.orders, netted.orders, AfterRisk(netted, t).orders);
  }

  /** Every tick keeps the basket regular: whatever the caches, replies and failures, safety-order
      rows stay strictly ordered filled market orders. */
  lemma TickKeepsRegular(l: Live, t: Tick)
    requires Regular(l.row)
    ensures Regular(Monitored(l, t).row)
  {
    hide Regular, AfterVirtualSos, AfterOrders, AfterSafetyNet, AfterRisk, WatchdogClosed, GoneConfirmed;
    AfterSosRegular(l, t);
    WatchdogFrame(l.row, t);
    var openIds := OpenIds(t);
    if openIds.Some? {
      TailFrame(AfterVirtualSos(l, t).row, t, openIds.value);
    }
  }

  // ---------- Exchange and database agree exactly when firing ticks are durable ----------

  /** The database records exactly the safety orders the exchange executed. */
  ghost predicate Agree(l: Live) {
    SoIndices(l.row.orders) == ExecutedIndices(l.executed)
  }

  /** The tick gets as far as the safety orders. */
  predicate Trades(l: Live, t: Tick) {
    !(Watched(l.row, t) && (Positions(t).None? || GoneConfirmed(t)))
  }

  /** Level k is the first one from i on, past the count, that is large enough to send; the mark price has breached
      it and every level before it, and the exchange takes the order. */
  predicate FiresAt(r: BasketRow, t: Tick, mark: real, already: int, i: nat, k: nat) {
    && i <= k < |r.levels|
    && r.levels[k].index > already && Breached(r.side, mark, r.levels[k].fillPrice)
    && !Unsendable(r.levels[k], mark, t.precision) && t.place(r.levels[k].index).Some?
    && forall j :: i <= j < k && r.levels[j].index > already ==>
         Breached(r.side, mark, r.levels[j].fillPrice) && Unsendable(r.levels[j], mark, t.precision)
  }

  predicate Unsendable(so: Level, mark: real, p: Precision) {
    TooSmall(RoundDown(so.qty, p.qtyStep), mark, p)
  }

  predicate SomeFires(r: BasketRow, t: Tick, mark: real, already: int, i: nat) {
    exists k: nat :: k < |r.levels| && FiresAt(r, t, mark, already, i, k)
  }

  /** The tick sends a safety order, read off its inputs and the row before it. */
  predicate Fires(l: Live, t: Tick) {
    Trades(l, t) && WalksLadder(l.row, t) && SomeFires(l.row, t, MarkPrice(t).value, l.row.sosFilled, 0)
  }

  lemma {:induction false} WalkOnlySends(l: Live, t: Tick, mark: real, already: int, i: nat)
    requires i <= |l.row.levels|
    ensures |Walk(l, t, mark, already, i).executed| >= |l.executed|
    decreases |l.row.levels| - i
  {
    hide RoundDown, Notional, Breached;
    if i < |l.row.levels| {
      var so := l.row.levels[i];
      if so.index <= already {
        WalkOnlySends(l, t, mark, already, i + 1);
      } else if Breached(l.row.side, mark, so.fillPrice) {
        var qty := RoundDown(so.qty, t.precision.qtyStep);
        if TooSmall(qty, mark, t.precision) {
          WalkOnlySends(l.(row := l.row.(sosFilled := so.index)), t, mark, already, i + 1);
        } else if t.place(so.index).Some? {
          var row := SoRow(so.index, qty, FillPriceOf(t.place(so.index).value, mark));
          WalkOnlySends(Live(l.row.(sosFilled := so.index, orders := l.row.orders + [row]),
                             l.executed + [Execution(so.index, mark)]),
                        t, mark, already, i + 1);
        }
      }
    }
  }

  /** A level that is passed over does not decide whether a later one fires. */
  lemma PassedOver(r: BasketRow, t: Tick, mark: real, already: int, i: nat)
    requires i < |r.levels|
    requires r.levels[i].index <= already
             || (Breached(r.side, mark, r.levels[i].fillPrice) && Unsendable(r.levels[i], mark, t.precision))
    ensures SomeFires(r, t, mark, already, i) <==> SomeFires(r, t, mark, already, i + 1)
  {
    hide Breached, Unsendable;
    if SomeFires(r, t, mark, already, i) {
      var k: nat :| k < |r.levels| && FiresAt(r, t, mark, already, i, k);
      assert FiresAt(r, t, mark, already, i + 1, k);
    }
    if SomeFires(r, t, mark, already, i + 1) {
      var k: nat :| k < |r.levels| && FiresAt(r, t, mark, already, i + 1, k);
      assert FiresAt(r, t, mark, already, i, k);
    }
  }

  lemma {:induction false} WalkSendsExactly(l: Live, t: Tick, mark: real, already: int, i: nat)
    requires i <= |l.row.levels|
    ensures Walk(l, t, mark, already, i).executed != l.executed <==> SomeFires(l.row, t, mark, already, i)
    decreases |l.row.levels| - i
  {
    hide RoundDown, Notional, Breached, TooSmall;
    var r := l.row;
    if i < |r.levels| {
      var so := r.levels[i];
      if so.index <= already {
        PassedOver(r, t, mark, already, i);
        WalkSendsExactly(l, t, mark, already, i + 1);
      } else if !Breached(r.side, mark, so.fillPrice) {
        NothingBehind(r, t, mark, already, i);
      } else if Unsendable(so, mark, t.precision) {
        PassedOver(r, t, mark, already, i);
        var skipped := l.(row := r.(sosFilled := so.index));
        WalkSendsExactly(skipped, t, mark, already, i + 1);
        SameLevelsFire(r, skipped.row, t, mark, already, i + 1);
      } else if t.place(so.index).None? {
        NothingBehind(r, t, mark, already, i);
      } else {
        assert FiresAt(r, t, mark, already, i, i);
        var row := SoRow(so.index, RoundDown(so.qty, t.precision.qtyStep), FillPriceOf(t.place(so.index).value, mark));
        WalkOnlySends(Live(r.(sosFilled := so.index, orders := r.orders + [row]),
                l.executed + [Execution(so.index, mark)]),
                      t, mark, already, i + 1);
      }
    }
  }

  lemma NothingBehind(r: BasketRow, t: Tick, mark: real, already: int, i: nat)
    requires i < |r.levels| && r.levels[i].index > already
    requires !Breached(r.side, mark, r.levels[i].fillPrice)
             || (!Unsendable(r.levels[i], mark, t.precision) && t.place(r.levels[i].index).None?)
    ensures !SomeFires(r, t, mark, already, i)
  {
    hide Breached, Unsendable;
  }

  lemma SameLevelsFire(r: BasketRow, other: BasketRow, t: Tick, mark: real, already: int, i: nat)
    requires other.levels == r.levels && other.side == r.side
    ensures SomeFires(r, t, mark, already, i) <==> SomeFires(other, t, mark, already, i)
  {
    hide Breached, Unsendable;
    if SomeFires(r, t, mark, already, i) {
      var k: nat :| k < |r.levels| && FiresAt(r, t, mark, already, i, k);
      assert FiresAt(other, t, mark, already, i, k);
    }
    if SomeFires(other, t, mark, already, i) {
      var k: nat :| k < |r.levels| && FiresAt(other, t, mark, already, i, k);
      assert FiresAt(r, t, mark, already, i, k);
    }
  }

  /** The tick sends a safety order exactly when it trades, walks the ladder, and the first sendable level past the
      count is breached, with all before it, and taken. */
  lemma FiresMeans(l: Live, t: Tick)
    ensures Trades(l, t) && AfterVirtualSos(l, t).executed != l.executed <==> Fires(l, t)
  {
    hide Walk, Recalculated, SomeFires, Trades;
    if WalksLadder(l.row, t) {
      WalkSendsExactly(l, t, MarkPrice(t).value, l.row.sosFilled, 0);
    }
  }

  /** The row's status once its query has been answered. */
  function StatusAfter(o: Order, reply: Option<Detail>, openIds: set<int>): OrderStatus {
    if IsPending(o) && Gone(o, openIds) then Queried(o, reply) else o.status
  }

  /** A pending take-profit row the exchange answers FILLED. */
  predicate AnsweredDone(o: Order, reply: Option<Detail>, openIds: set<int>) {
    o.role.TP? && IsPending(o) && StatusAfter(o, reply, openIds).FILLED?
  }

  predicate SomeDone(orders: seq<Order>, t: Tick, openIds: set<int>) {
    exists j: nat :: j < |orders| && AnsweredDone(orders[j], t.query(j), openIds)
  }

  /** A take-profit row that is live once its query has been answered. */
  predicate StaysLive(o: Order, reply: Option<Detail>, openIds: set<int>) {
    o.role.TP? && (StatusAfter(o, reply, openIds).NEW? || StatusAfter(o, reply, openIds).PARTIALLY_FILLED?)
  }

  predicate TwoStayLive(orders: seq<Order>, t: Tick, openIds: set<int>) {
    exists i: nat, j: nat ::
            i < j < |orders| && StaysLive(orders[i], t.query(i), openIds) && StaysLive(orders[j], t.query(j), openIds)
  }

  /** The rows of a tick reach the database: a later basket of the same session commits them, or the open orders
      are readable and the answers about the take-profit rows as the safety-order step leaves them do not keep two
      of them live in an open basket. */
  predicate Durable(l: Live, t: Tick) {
    || t.siblingCommits
    || (OpenIds(t).Some? && !AnswersRaise(AfterVirtualSos(l, t).row, t, OpenIds(t).value))
  }

  predicate AnswersRaise(r: BasketRow, t: Tick, openIds: set<int>) {
    r.status.OPEN? && !SomeDone(r.orders, t, openIds) && TwoStayLive(r.orders, t, openIds)
  }

  lemma ExecutedSplit(l: Live, after: Live)
    requires |l.executed| <= |after.executed| && after.executed[..|l.executed|] == l.executed
    ensures ExecutedIndices(after.executed) == ExecutedIndices(l.executed) +
            ExecutedIndices(after.executed[|l.executed|..])
  {
    assert after.executed == l.executed + after.executed[|l.executed|..];
  }

  lemma WatchdogKeepsSoIndices(r: BasketRow, t: Tick)
    requires Regular(r)
    ensures SoIndices(WatchdogClosed(r, t).orders) == SoIndices(r.orders)
  {
    RegularHasNoSoPending(r);
    var marked := if TpReportedFilled(r, t) then r.orders[t.tpRow.value := r.orders[t.tpRow.value].(status := FILLED)]
            else r.orders;
    assert OnlyTpTouched(r.orders, marked);
    CancelLiveTouchesTps(marked);
    OnlyTpTouchedTransitive(r.orders, marked, CancelLive(marked));
    SoIndicesFrame(r.orders, CancelLive(marked));
  }

  /** What the order loop leaves of the rows when it closes nothing. */
  function Answered(orders: seq<Order>, t: Tick, openIds: set<int>): seq<Order> {
    seq(|orders|, i requires 0 <= i < |orders| => orders[i].(status := StatusAfter(orders[i], t.query(i), openIds)))
  }

  /** The rows not yet looked at are those of the start; the others carry their answers. */
  ghost predicate PartlyAnswered(r0: BasketRow, r: BasketRow, t: Tick, openIds: set<int>, pending: seq<nat>, i: nat)
    requires i <= |pending|
  {
    && |r.orders| == |r0.orders| && r == r0.(orders := r.orders)
    && forall j: nat :: j < |r0.orders| ==>
         r.orders[j] == if j in pending[i..] then r0.orders[j]
                        else r0.orders[j].(status := StatusAfter(r0.orders[j], t.query(j), openIds))
  }

  lemma PartlySteps(r0: BasketRow, r: BasketRow, t: Tick, openIds: set<int>, pending: seq<nat>, i: nat)
    requires i < |pending| && PartlyAnswered(r0, r, t, openIds, pending, i) && pending[i] < |r0.orders|
    requires forall k, m :: 0 <= k < m < |pending| ==> pending[k] != pending[m]
    ensures PartlyAnswered(r0, Seen(r, pending[i], StatusAfter(r0.orders[pending[i]], t.query(pending[i]), openIds)),
                           t, openIds, pending, i + 1)
    ensures r.orders[pending[i]] == r0.orders[pending[i]]
  {
    hide StatusAfter;
    assert pending[i..] == [pending[i]] + pending[i + 1..];
    assert pending[i] !in pending[i + 1..];
  }

  /** Without pending safety orders the loop closes the basket exactly when some pending take-profit is answered
      FILLED, and otherwise only writes the answers down. */
  lemma {:induction false} OrderLoopAnswers(r0: BasketRow, r: BasketRow, t: Tick, openIds: set<int>,
                                            pending: seq<nat>, i: nat)
    requires i <= |pending| && PartlyAnswered(r0, r, t, openIds, pending, i) && !r0.status.CLOSED?
    requires forall k :: 0 <= k < |pending| ==>
            pending[k] < |r0.orders| && IsPending(r0.orders[pending[k]]) && r0.orders[pending[k]].role.TP?
    requires forall k, m :: 0 <= k < m < |pending| ==> pending[k] != pending[m]
    ensures var after := OrderLoop(r, t, openIds, pending, i);
            if exists k :: i <= k < |pending| && AnsweredDone(r0.orders[pending[k]], t.query(pending[k]), openIds)
            then after.status.CLOSED?
            else after == r0.(orders := Answered(r0.orders, t, openIds))
    decreases |pending| - i
  {
    hide Recalculated, CancelOthers, Queried;
    if i == |pending| {
      assert r.orders == Answered(r0.orders, t, openIds);
    } else {
      var j := pending[i];
      var status := StatusAfter(r0.orders[j], t.query(j), openIds);
      PartlySteps(r0, r, t, openIds, pending, i);
      if !Gone(r0.orders[j], openIds) {
        assert Seen(r, j, status) == r by {
          assert r.orders[j := r.orders[j].(status := status)] == r.orders;
        }
      }
      if !AnsweredDone(r0.orders[j], t.query(j), openIds) {
        OrderLoopAnswers(r0, Seen(r, j, status), t, openIds, pending, i + 1);
      }
    }
  }

  /** At its start the loop has answered for no pending row, and a row that is not pending keeps its status. */
  lemma NothingAnswered(r: BasketRow, t: Tick, openIds: set<int>, pending: seq<nat>)
    requires pending == Pending(r.orders, |r.orders|)
    ensures PartlyAnswered(r, r, t, openIds, pending, 0)
  {
    PendingComplete(r.orders, |r.orders|);
    assert pending[0..] == pending;
  }

  lemma DoneIsPending(o: Order, reply: Option<Detail>, openIds: set<int>)
    requires AnsweredDone(o, reply, openIds)
    ensures IsPending(o)
  {}

  lemma AfterOrdersAnswers(r: BasketRow, t: Tick, openIds: set<int>)
    requires NoSoPending(r.orders) && !r.status.CLOSED?
    ensures if SomeDone(r.orders, t, openIds) then AfterOrders(r, t, openIds).status.CLOSED?
            else AfterOrders(r, t, openIds) == r.(orders := Answered(r.orders, t, openIds))
  {
    hide OrderLoop, Queried, StatusAfter, AnsweredDone, Answered;
    var pending := Pending(r.orders, |r.orders|);
    NothingAnswered(r, t, openIds, pending);
    PendingMeans(r.orders, |r.orders|);
    PendingComplete(r.orders, |r.orders|);
    PendingIncreases(r.orders, |r.orders|);
    OrderLoopAnswers(r, r, t, openIds, pending, 0);
    if SomeDone(r.orders, t, openIds) {
      var j: nat :| j < |r.orders| && AnsweredDone(r.orders[j], t.query(j), openIds);
      DoneIsPending(r.orders[j], t.query(j), openIds);
      var k :| 0 <= k < |pending| && pending[k] == j;
      assert AnsweredDone(r.orders[pending[k]], t.query(pending[k]), openIds);
    }
  }

  /** Two live take-profit rows, without counting. */
  predicate TwoLive(orders: seq<Order>, n: nat)
    requires n <= |orders|
  {
    exists i: nat, j: nat :: i < j < n && IsLiveTp(orders[i]) && IsLiveTp(orders[j])
  }

  lemma {:induction false} LiveTpsComplete(orders: seq<Order>, n: nat)
    requires n <= |orders|
    ensures forall i: nat :: i < n && IsLiveTp(orders[i]) ==> i in LiveTps(orders, n)
    ensures forall k, m :: 0 <= k < m < |LiveTps(orders, n)| ==> LiveTps(orders, n)[k] < LiveTps(orders, n)[m]
  {
    if n > 0 {
      LiveTpsComplete(orders, n - 1);
    }
  }

  lemma LiveTpsCount(orders: seq<Order>)
    ensures |LiveTps(orders, |orders|)| > 1 <==> TwoLive(orders, |orders|)
  {
    var live := LiveTps(orders, |orders|);
    LiveTpsComplete(orders, |orders|);
    LiveTpsAreTps(orders, |orders|);
    hide LiveTps, IsLiveTp;
    if |live| > 1 {
      assert IsLiveTp(orders[live[0]]) && IsLiveTp(orders[live[1]]) && live[0] < live[1];
    }
    if TwoLive(orders, |orders|) {
      var i: nat, j: nat :| i < j < |orders| && IsLiveTp(orders[i]) && IsLiveTp(orders[j]);
      assert i in live && j in live;
    }
  }

  /** The safety net of a tick raises exactly when the basket is still open, no take-profit was answered FILLED, and
      two take-profit rows are live by the answers: two that were live, or an UNKNOWN one answered NEW beside one. */
  lemma SafetyNetRaisesExactly(r: BasketRow, t: Tick, openIds: set<int>)
    requires NoSoPending(r.orders)
    ensures SafetyNetRaises(AfterOrders(r, t, openIds)) <==> AnswersRaise(r, t, openIds)
  {
    hide AfterOrders, StatusAfter, LiveTps, SomeDone;
    AfterOrdersLife(r, t, openIds);
    if r.status.OPEN? {
      AfterOrdersAnswers(r, t, openIds);
      if !SomeDone(r.orders, t, openIds) {
        var after := Answered(r.orders, t, openIds);
        LiveTpsCount(after);
        LiveByAnswers(r.orders, t, openIds);
      }
    }
  }

  lemma LiveByAnswers(orders: seq<Order>, t: Tick, openIds: set<int>)
    ensures TwoLive(Answered(orders, t, openIds), |orders|) <==> TwoStayLive(orders, t, openIds)
  {
    hide StatusAfter;
    var after := Answered(orders, t, openIds);
    assert forall i: nat :: i < |orders| ==> (IsLiveTp(after[i]) <==> StaysLive(orders[i], t.query(i), openIds));
    if TwoLive(after, |orders|) {
      var i: nat, j: nat :| i < j < |orders| && IsLiveTp(after[i]) && IsLiveTp(after[j]);
      assert StaysLive(orders[i], t.query(i), openIds) && StaysLive(orders[j], t.query(j), openIds);
    }
    if TwoStayLive(orders, t, openIds) {
      var i: nat, j: nat :| i < j < |orders| && StaysLive(orders[i], t.query(i), openIds) &&
              StaysLive(orders[j], t.query(j), openIds);
      assert IsLiveTp(after[i]) && IsLiveTp(after[j]);
    }
  }

  /** After a tick the database still records exactly what the exchange executed if and only if the
      tick fired nothing or was durable.  A tick that fires and then fails to read the open orders
      loses the record of orders it has executed. */
  lemma TickAgreesExactlyWhenDurable(l: Live, t: Tick)
    requires Regular(l.row) && Agree(l)
    ensures Agree(Monitored(l, t)) <==> (!Fires(l, t) || Durable(l, t))
  {
    hide Regular, AfterVirtualSos, AfterOrders, AfterSafetyNet, AfterRisk, WatchdogClosed, GoneConfirmed, SoIndices,
         ExecutedIndices, OnlyTpTouched, SoRowsOrdered, Fires, AnswersRaise, SafetyNetRaises, PastTrigger;
    assert SoRowsOrdered(l.row) && IndicesIncrease(l.row.levels) by {
      RegularParts(l.row);
    }
    VirtualSosSound(l, t);
    WatchdogKeepsSoIndices(l.row, t);
    var after := AfterVirtualSos(l, t);
    ExecutedSplit(l, after);
    ExecutedLengths(l.executed);
    ExecutedLengths(after.executed);
    FiresMeans(l, t);
    if Trades(l, t) && OpenIds(t).Some? {
      AfterSosRegular(l, t);
      RegularHasNoSoPending(after.row);
      SafetyNetRaisesExactly(after.row, t, OpenIds(t).value);
      TailFrame(after.row, t, OpenIds(t).value);
      SoIndicesFrame(after.row.orders, AfterOrders(after.row, t, OpenIds(t).value).orders);
      SoIndicesFrame(after.row.orders, Tail(after.row, t, OpenIds(t).value).orders);
    }
  }

  lemma RegularParts(r: BasketRow)
    requires Regular(r)
    ensures SoRowsOrdered(r) && IndicesIncrease(r.levels)
  {}

  lemma ExecutedLengths(executed: seq<Execution>)
    ensures |ExecutedIndices(executed)| == |executed|
  {}

  ghost predicate Increasing(s: seq<int>) {
    forall i, j :: 0 <= i < j < |s| ==> s[i] < s[j]
  }

  lemma {:induction false} SoIndicesIncrease(r: BasketRow, n: nat, s: seq<int>)
    requires SoRowsOrdered(r) && n <= |r.orders| && s == SoIndices(r.orders[..n])
    ensures Increasing(s)
    ensures forall x :: x in s ==> exists k :: 0 <= k < n && r.orders[k].role == SO(x)
  {
    if n > 0 {
      assert r.orders[..n][..n - 1] == r.orders[..n - 1];
      var before, last := SoIndices(r.orders[..n - 1]), r.orders[n - 1].role;
      SoIndicesIncrease(r, n - 1, before);
      assert s == before + if last.SO? then [last.index] else [];
      forall x | x in before
        ensures last.SO? ==> x < last.index
      {
        var k :| 0 <= k < n - 1 && r.orders[k].role == SO(x);
        assert last.SO? ==> r.orders[k].role.index < r.orders[n - 1].role.index;
      }
      if last.SO? {
        assert r.orders[n - 1].role == SO(last.index);
        assert forall i :: 0 <= i < |before| ==> s[i] in before;
      }
    }
  }

  /** While the two agree, executed indices strictly increase: each safety order was sent at most
      once. */
  lemma AgreementMeansAtMostOnce(l: Live)
    requires Regular(l.row) && Agree(l)
    ensures forall i, j :: 0 <= i < j < |l.executed| ==> l.executed[i].index < l.executed[j].index
  {
    var x := SoIndices(l.row.orders);
    assert l.row.orders[..|l.row.orders|] == l.row.orders;
    SoIndicesIncrease(l.row, |l.row.orders|, x);
    assert |x| == |l.executed|;
    forall i, j | 0 <= i < j < |l.executed|
      ensures l.executed[i].index < l.executed[j].index
    {
      assert x[i] == l.executed[i].index && x[j] == l.executed[j].index;
    }
  }

  // ---------- Any basket, legacy safety orders included ----------

  /** Rows keep their place and their identity columns, and only take-profit rows are added. */
  ghost predicate SameColumns(before: seq<Order>, after: seq<Order>) {
    && |before| <= |after|
    && (forall i :: 0 <= i < |before| ==>
          && after[i].role == before[i].role && after[i].orderType == before[i].orderType
          && after[i].exchangeId == before[i].exchangeId)
    && (forall i :: |before| <= i < |after| ==> after[i].role.TP?)
  }

  lemma SameColumnsTransitive(a: seq<Order>, b: seq<Order>, c: seq<Order>)
    requires SameColumns(a, b) && SameColumns(b, c)
    ensures SameColumns(a, c)
  {
    forall i | |a| <= i < |c|
      ensures c[i].role.TP?
    {
      if i < |b| {
        assert c[i].role == b[i].role;
      }
    }
  }

  lemma RecalculatedColumns(r: BasketRow, t: Tick, reply: Option<Option<int>>)
    ensures var after := Recalculated(r, t, reply);
            && SameColumns(r.orders, after.orders)
            && (forall i :: 0 <= i < |r.orders| ==> (after.orders[i].status.FILLED? ==> r.orders[i].status.FILLED?))
  {
    hide RoundDown, CalculateTpPrice, Notional, EntryQty, EntryCost, HasEntryFill, LiveTps;
  }

  /** The columns of a basket that only the closing routines write. */
  ghost predicate SameLife(before: BasketRow, after: BasketRow) {
    && after.status == before.status && after.exitReason == before.exitReason && after.finalized == before.finalized
    && after.tpRetry == before.tpRetry && after.levels == before.levels && after.side == before.side
  }

  /** The loop has rows pending[i..] still to look at, none of them filled. */
  ghost predicate ToDo(r: BasketRow, pending: seq<nat>, i: nat) {
    && (forall k :: i <= k < |pending| ==> pending[k] < |r.orders| && !r.orders[pending[k]].status.FILLED?)
    && (forall k, m :: 0 <= k < m < |pending| ==> pending[k] != pending[m])
  }

  function Seen(r: BasketRow, j: nat, status: OrderStatus): BasketRow
    requires j < |r.orders|
  {
    r.(orders := r.orders[j := r.orders[j].(status := status)])
  }

  lemma SeenSteps(r: BasketRow, pending: seq<nat>, i: nat, status: OrderStatus)
    requires ToDo(r, pending, i) && i < |pending| && pending[i] < |r.orders|
    ensures var seen := Seen(r, pending[i], status);
            SameColumns(r.orders, seen.orders) && SameLife(r, seen) && ToDo(seen, pending, i + 1) &&
                    ToDo(r, pending, i + 1)
  {}

  lemma CountedSteps(seen: BasketRow, t: Tick, pending: seq<nat>, i: nat, reply: Option<Option<int>>)
    requires ToDo(seen, pending, i)
    ensures var next := Recalculated(seen.(sosFilled := seen.sosFilled + 1), t, reply);
            SameColumns(seen.orders, next.orders) && SameLife(seen, next) && ToDo(next, pending, i)
  {
    hide Recalculated;
    var counted := seen.(sosFilled := seen.sosFilled + 1);
    RecalculatedColumns(counted, t, reply);
    RecalculatedFrame(counted, t, reply);
  }

  lemma AnsweredFilled(orders: seq<Order>, before: seq<Order>, t: Tick, j: nat)
    requires j < |before| && SameColumns(before, orders) && orders[j].role.TP? && !orders[j].status.FILLED?
    requires Queried(orders[j], t.query(j)).FILLED?
    ensures TpAnsweredFilled(before, t)
  {
    assert before[j].role.TP?;
  }

  lemma SameLifeTransitive(a: BasketRow, b: BasketRow, c: BasketRow)
    requires SameLife(a, b)
    ensures SameLife(b, c) ==> SameLife(a, c)
    ensures SameLife(TpClosed(b), c) ==> SameLife(TpClosed(a), c)
  {}

  function TpClosed(r: BasketRow): BasketRow {
    r.(status := CLOSED, exitReason := Some(TP_FILLED), finalized := r.finalized + 1)
  }

  /** The order loop on any basket: it ends with the life of the basket untouched, or with TP_FILLED on the
      exchange's word about one of its take-profit rows. */
  lemma {:induction false} OrderLoopLife(r0: BasketRow, r: BasketRow, t: Tick, openIds: set<int>,
                                         pending: seq<nat>, i: nat)
    requires i <= |pending| && forall k :: 0 <= k < |pending| ==> pending[k] < |r0.orders| <= |r.orders|
    requires ToDo(r, pending, i) && SameColumns(r0.orders, r.orders)
    ensures var after := OrderLoop(r, t, openIds, pending, i);
            && SameColumns(r0.orders, after.orders)
            && (SameLife(r, after) || (SameLife(TpClosed(r), after) && TpAnsweredFilled(r0.orders, t)))
    decreases |pending| - i
  {
    hide Recalculated, SameColumns, SameLife, ToDo, TpAnsweredFilled, CancelOthers, Queried, Gone;
    if i == |pending| {
      assert SameLife(r, r) by { SameLifeReflexive(r); }
    } else {
      var j := pending[i];
      var o := r.orders[j];
      if Gone(o, openIds) {
        var status := Queried(o, t.query(j));
        var seen := Seen(r, j, status);
        SeenSteps(r, pending, i, status);
        SameColumnsTransitive(r0.orders, r.orders, seen.orders);
        if o.role.TP? && status.FILLED? {
          CancelOthersColumns(seen.orders, pending, j, |pending|);
          SameColumnsTransitive(r0.orders, seen.orders, CancelOthers(seen.orders, pending, j, |pending|));
          NotFilledYet(r, pending, i);
          AnsweredFilled(r.orders, r0.orders, t, j);
          ClosedLife(r, seen, CancelOthers(seen.orders, pending, j, |pending|));
        } else if o.role.SO? && status.FILLED? {
          var next := Recalculated(seen.(sosFilled := seen.sosFilled + 1), t, t.newTp(j));
          CountedSteps(seen, t, pending, i + 1, t.newTp(j));
          SameColumnsTransitive(r0.orders, seen.orders, next.orders);
          SameColumnsLonger(r0.orders, next.orders);
          OrderLoopLife(r0, next, t, openIds, pending, i + 1);
          SameLifeTransitive(r, seen, next);
          SameLifeTransitive(r, next, OrderLoop(next, t, openIds, pending, i + 1));
        } else {
          OrderLoopLife(r0, seen, t, openIds, pending, i + 1);
          SameLifeTransitive(r, seen, OrderLoop(seen, t, openIds, pending, i + 1));
        }
      } else {
        SeenSteps(r, pending, i, NEW);
        OrderLoopLife(r0, r, t, openIds, pending, i + 1);
      }
    }
  }

  lemma SameLifeReflexive(r: BasketRow)
    ensures SameLife(r, r)
  {}

  lemma SameColumnsLonger(before: seq<Order>, after: seq<Order>)
    requires SameColumns(before, after)
    ensures |before| <= |after|
  {}

  lemma NotFilledYet(r: BasketRow, pending: seq<nat>, i: nat)
    requires ToDo(r, pending, i) && i < |pending| && pending[i] < |r.orders|
    ensures !r.orders[pending[i]].status.FILLED?
  {}

  lemma ClosedLife(r: BasketRow, seen: BasketRow, orders: seq<Order>)
    requires SameLife(r, seen)
    ensures SameLife(TpClosed(r), Finalized(seen.(status := CLOSED, exitReason := Some(TP_FILLED), orders := orders)))
  {}

  lemma {:induction false} CancelOthersColumns(orders: seq<Order>, pending: seq<nat>, keep: nat, n: nat)
    requires n <= |pending| && forall i :: 0 <= i < |pending| ==> pending[i] < |orders|
    ensures SameColumns(orders, CancelOthers(orders, pending, keep, n))
  {
    if n > 0 {
      CancelOthersColumns(orders, pending, keep, n - 1);
    }
  }

  lemma AfterOrdersLife(r: BasketRow, t: Tick, openIds: set<int>)
    ensures var after := AfterOrders(r, t, openIds);
            && SameColumns(r.orders, after.orders)
            && (SameLife(r, after) || (SameLife(TpClosed(r), after) && TpAnsweredFilled(r.orders, t)))
  {
    var pending := Pending(r.orders, |r.orders|);
    PendingMeans(r.orders, |r.orders|);
    PendingIncreases(r.orders, |r.orders|);
    OrderLoopLife(r, r, t, openIds, pending, 0);
  }

  lemma {:induction false} WalkLife(l: Live, t: Tick, mark: real, already: int, i: nat)
    requires i <= |l.row.levels|
    ensures var after := Walk(l, t, mark, already, i).row;
            after == l.row.(sosFilled := after.sosFilled, orders := after.orders)
    decreases |l.row.levels| - i
  {
    hide RoundDown, Notional, Breached;
    if i < |l.row.levels| {
      var so := l.row.levels[i];
      if so.index <= already {
        WalkLife(l, t, mark, already, i + 1);
      } else if Breached(l.row.side, mark, so.fillPrice) {
        var qty := RoundDown(so.qty, t.precision.qtyStep);
        if TooSmall(qty, mark, t.precision) {
          WalkLife(l.(row := l.row.(sosFilled := so.index)), t, mark, already, i + 1);
        } else if t.place(so.index).Some? {
          var row := SoRow(so.index, qty, FillPriceOf(t.place(so.index).value, mark));
          WalkLife(Live(l.row.(sosFilled := so.index, orders := l.row.orders + [row]),
                        l.executed + [Execution(so.index, mark)]),
                   t, mark, already, i + 1);
        }
      }
    }
  }

  lemma VirtualSosLife(l: Live, t: Tick)
    ensures SameLife(l.row, AfterVirtualSos(l, t).row)
    ensures HasLegacySo(l.row.orders) ==> AfterVirtualSos(l, t) == l
  {
    hide Walk, Recalculated;
    if WalksLadder(l.row, t) {
      WalkLife(l, t, MarkPrice(t).value, l.row.sosFilled, 0);
      RecalculatedFrame(Walk(l, t, MarkPrice(t).value, l.row.sosFilled, 0).row, t, t.soTp);
    }
  }

  // ---------- Closing ----------

  /** Why a tick may give a basket an exit reason it did not have. */
  ghost predicate CloseJustified(l: Live, t: Tick, reason: CloseReason) {
    match reason
    case MANUAL_CLOSE => Watched(l.row, t) && GoneConfirmed(t)
    case LIQUIDATION => Watched(l.row, t) && GoneConfirmed(t)
    case ADL => Watched(l.row, t) && GoneConfirmed(t)
    case TP_FILLED => (Watched(l.row, t) && GoneConfirmed(t) && TpReportedFilled(l.row, t))
                      || TpAnsweredFilled(AfterVirtualSos(l, t).row.orders, t)
    case RISK_STOP => t.risk.Some? && t.risk.value.config.enabled
    case AGE_LIMIT => false
    case RECONCILED => false
  }

  /** A confirmed loss means that both reads of the tick listed no position but empty ones. */
  lemma GoneMeansFlat(t: Tick)
    ensures GoneConfirmed(t) <==>
            && Positions(t).Some? && t.confirmPositions.Some?
            && (forall i :: 0 <= i < |Positions(t).value| ==> Positions(t).value[i].amount == 0.0)
            && (forall i :: 0 <= i < |t.confirmPositions.value| ==> t.confirmPositions.value[i].amount == 0.0)
  {
    if Positions(t).Some? { FlatMeansAllZero(Positions(t).value); }
    if t.confirmPositions.Some? { FlatMeansAllZero(t.confirmPositions.value); }
  }

  lemma {:induction false} FlatMeansAllZero(positions: seq<Pos>)
    ensures FirstAmount(positions) == 0.0 <==> forall i :: 0 <= i < |positions| ==> positions[i].amount == 0.0
  {
    if positions != [] {
      FlatMeansAllZero(positions[1..]);
      assert forall i :: 0 < i < |positions| ==> positions[i] == positions[1..][i - 1];
    }
  }

  ghost predicate FirstForcedIsAdl(orders: seq<Recent>) {
    exists i :: 0 <= i < |orders| && orders[i].AdlOrder? && forall j :: 0 <= j < i ==> orders[j].PlainOrder?
  }

  /** The recorded reason is that of the first recent order that is not a plain one. */
  lemma {:induction false} ReasonIsFirstForced(orders: seq<Recent>)
    ensures ReasonFromOrders(orders) == MANUAL_CLOSE <==> forall i :: 0 <= i < |orders| ==> orders[i].PlainOrder?
    ensures ReasonFromOrders(orders) == ADL <==>
            FirstForcedIsAdl(orders)
  {
    if orders != [] {
      var rest := orders[1..];
      ReasonIsFirstForced(rest);
      if orders[0].PlainOrder? {
        assert forall i :: 0 < i < |orders| ==> orders[i] == rest[i - 1];
        if ReasonFromOrders(rest) == ADL {
          var i :| 0 <= i < |rest| && rest[i].AdlOrder? && forall j :: 0 <= j < i ==> rest[j].PlainOrder?;
          assert orders[i + 1].AdlOrder?;
        }
      }
    }
  }

  lemma ReasonIsExternal(orders: seq<Recent>)
    ensures ReasonFromOrders(orders) in {MANUAL_CLOSE, LIQUIDATION, ADL}
  {}

  /** Whatever the caches hold: a tick records MANUAL_CLOSE, LIQUIDATION or ADL only for a basket at
      least 120 seconds old after two reads of the same tick, the second a REST call, found no
      position; TP_FILLED only on the exchange's word about a take-profit row of this basket;
      RISK_STOP only with the risk controller on.  That covers every tick that changes the exit reason or
      closes the basket, under an earlier mark too.  A failing query closes nothing. */
  lemma TickClosesOnlyWithCause(l: Live, t: Tick)
    requires Monitored(l, t).row.exitReason != l.row.exitReason
             || (Monitored(l, t).row.status.CLOSED? && !l.row.status.CLOSED?)
    ensures Monitored(l, t).row.exitReason.Some? && CloseJustified(l, t, Monitored(l, t).row.exitReason.value)
  {
    hide AfterOrders, AfterSafetyNet, GoneConfirmed, TpAnsweredFilled, SameColumns, AfterVirtualSos, ReasonFromOrders,
         WatchdogOrders, Recalculated, ForceClosedRow;
    if Trades(l, t) {
      VirtualSosLife(l, t);
      var after := AfterVirtualSos(l, t);
      if OpenIds(t).Some? {
        AfterOrdersLife(after.row, t, OpenIds(t).value);
        var ordered := AfterOrders(after.row, t, OpenIds(t).value);
        SafetyNetKeepsReason(ordered, t);
        RiskReason(AfterSafetyNet(ordered, t), t);
      }
    } else if t.recentOrders.Some? {
      ReasonIsExternal(t.recentOrders.value);
    }
  }

  lemma SafetyNetKeepsReason(r: BasketRow, t: Tick)
    ensures AfterSafetyNet(r, t).exitReason == r.exitReason && AfterSafetyNet(r, t).status == r.status
    ensures AfterSafetyNet(r, t).finalized == r.finalized
    ensures r.tpRetry == 0 ==> AfterSafetyNet(r, t).tpRetry == 0
  {
    hide Recalculated;
    RecalculatedFrame(r, t, t.safetyTp);
  }

  lemma RiskReason(r: BasketRow, t: Tick)
    ensures AfterRisk(r, t).exitReason != r.exitReason || AfterRisk(r, t).status != r.status ==>
              AfterRisk(r, t).exitReason == Some(RISK_STOP) && t.risk.Some? && t.risk.value.config.enabled
  {
    hide MarginRatio, LossLimitHit, RoundDown, CancelLive;
  }

  /** The watchdog is not only cautious.  For a basket past its first two minutes whose two position reads list
      nothing but empty positions, the tick closes it, runs the closing routine once, sends nothing, leaves no
      live row, and names the cause: TP_FILLED exactly on the exchange's word, ADL exactly when the first recent
      order that is not plain is one, MANUAL_CLOSE exactly when all of them are plain or unreadable. */
  lemma FlatPositionCloses(l: Live, t: Tick)
    requires Watched(l.row, t) && Positions(t).Some? && t.confirmPositions.Some?
    requires forall i :: 0 <= i < |Positions(t).value| ==> Positions(t).value[i].amount == 0.0
    requires forall i :: 0 <= i < |t.confirmPositions.value| ==> t.confirmPositions.value[i].amount == 0.0
    ensures var after := Monitored(l, t);
            && after.executed == l.executed && after.row.status.CLOSED? && after.row.finalized == l.row.finalized + 1
            && NoLiveRows(after.row.orders)
    ensures var reason, told := Monitored(l, t).row.exitReason, TpReportedFilled(l.row, t);
            && (reason == Some(TP_FILLED) <==> told)
            && (reason == Some(ADL) <==> !told && t.recentOrders.Some? && FirstForcedIsAdl(t.recentOrders.value))
            && (reason == Some(MANUAL_CLOSE) <==>
                !told && (t.recentOrders.None? || forall i :: 0 <= i < |t.recentOrders.value| ==>
                        t.recentOrders.value[i].PlainOrder?))
  {
    hide CancelLive, WatchdogOrders, NoLiveRows, ReasonFromOrders, FirstAmount, TpReportedFilled, GoneConfirmed;
    GoneMeansFlat(t);
    WatchdogLeavesNone(l.row, t);
    if t.recentOrders.Some? {
      ReasonIsFirstForced(t.recentOrders.value);
      ReasonIsExternal(t.recentOrders.value);
    }
  }

  // ---------- Any interleaving of the closers ----------

  datatype Event = MonitorTick(t: Tick) | AgeTick(t: Tick, tooOld: bool) | Reconcile(positionOpen: bool)

  predicate Selected(r: BasketRow) {
    r.status.OPENING? || r.status.OPEN? || r.status.CLOSING?
  }

  /** The age check lists OPENING and OPEN baskets only; a forced close that fails is not committed. */
  function AgeClosed(l: Live, t: Tick): Live {
    var closed := ForceClosedRow(l.row, t);
    if closed.status.CLOSED? then l.(row := closed) else Aborted(l.(row := closed), l.row, t)
  }

  function Apply(l: Live, e: Event): Live {
    match e
    case MonitorTick(t) => if Selected(l.row) then Monitored(l, t) else l
    case AgeTick(t, tooOld) => if tooOld && (l.row.status.OPENING? || l.row.status.OPEN?) then AgeClosed(l, t) else l
    case Reconcile(positionOpen) =>
      if !positionOpen && (l.row.status.OPENING? || l.row.status.OPEN?)
      then l.(row := Finalized(l.row.(status := CLOSED, exitReason := Some(RECONCILED))))
      else l
  }

  function RunEvents(l: Live, events: seq<Event>): Live {
    if events == [] then l else Apply(RunEvents(l, events[..|events| - 1]), events[|events| - 1])
  }

  /** The closing routine ran for closed baskets only, and once; the retry counter never moved. */
  ghost predicate ClosedOnce(r: BasketRow) {
    && r.finalized == (if r.status.CLOSED? then 1 else 0)
    && r.tpRetry == 0
  }

  lemma RiskClosesOnce(r: BasketRow, t: Tick)
    requires ClosedOnce(r)
    ensures ClosedOnce(AfterRisk(r, t))
  {
    hide Evaluate, RoundDown, CancelLive;
  }

  lemma TickClosesOnce(l: Live, t: Tick)
    requires ClosedOnce(l.row) && Selected(l.row)
    ensures ClosedOnce(Monitored(l, t).row)
  {
    hide AfterOrders, AfterSafetyNet, AfterRisk, GoneConfirmed, TpAnsweredFilled, SameColumns, WatchdogReason,
         WatchdogOrders, AfterVirtualSos;
    VirtualSosLife(l, t);
    var after := AfterVirtualSos(l, t);
    if OpenIds(t).Some? {
      AfterOrdersLife(after.row, t, OpenIds(t).value);
      var ordered := AfterOrders(after.row, t, OpenIds(t).value);
      SafetyNetKeepsReason(ordered, t);
      RiskClosesOnce(AfterSafetyNet(ordered, t), t);
    }
  }

  lemma ApplyClosesOnce(l: Live, e: Event)
    requires ClosedOnce(l.row)
    ensures ClosedOnce(Apply(l, e).row)
    ensures l.row.status.CLOSED? ==> Apply(l, e) == l
  {
    hide Monitored, RoundDown, CancelLive;
    if e.MonitorTick? && Selected(l.row) {
      TickClosesOnce(l, e.t);
    }
  }

  lemma ApplyKeepsRegular(l: Live, e: Event)
    requires Regular(l.row)
    ensures Regular(Apply(l, e).row)
  {
    hide Monitored, RoundDown, CancelLive, Regular;
    match e
    case MonitorTick(t) => TickKeepsRegular(l, t);
    case AgeTick(t, _) => ForceClosedFrame(l.row, t);
    case Reconcile(_) => ReconcileFrame(l.row);
  }

  lemma ReconcileFrame(r: BasketRow)
    requires Regular(r)
    ensures Regular(Finalized(r.(status := CLOSED, exitReason := Some(RECONCILED))))
  {}

  /** Over any interleaving of monitor ticks, age closes and reconciliations a basket enters the
      closing routine at most once, exactly when it is closed; and the take-profit retry counter never
      leaves zero, so its limit of three never binds. */
  lemma {:induction false} RunsCloseOnce(l: Live, events: seq<Event>)
    requires ClosedOnce(l.row)
    ensures ClosedOnce(RunEvents(l, events).row)
  {
    hide Apply, ClosedOnce;
    if events != [] {
      RunsCloseOnce(l, events[..|events| - 1]);
      ApplyClosesOnce(RunEvents(l, events[..|events| - 1]), events[|events| - 1]);
    }
  }

  /** Over any run the safety-order rows stay strictly ordered filled market orders, at most one per index
      and none numbered beyond sos_filled. */
  lemma {:induction false} RunsStayRegular(l: Live, events: seq<Event>)
    requires Regular(l.row)
    ensures Regular(RunEvents(l, events).row)
  {
    hide Apply, Regular;
    if events != [] {
      RunsStayRegular(l, events[..|events| - 1]);
      ApplyKeepsRegular(RunEvents(l, events[..|events| - 1]), events[|events| - 1]);
    }
  }

  /** A closed basket stays as it is. */
  lemma {:induction false} ClosedIsFinal(l: Live, before: seq<Event>, after: seq<Event>)
    requires ClosedOnce(l.row) && RunEvents(l, before).row.status.CLOSED?
    ensures RunEvents(l, before + after) == RunEvents(l, before)
  {
    hide Apply, ClosedOnce;
    if after == [] {
      assert before + after == before;
    } else {
      var n := |after| - 1;
      assert (before + after)[..|before + after| - 1] == before + after[..n];
      ClosedIsFinal(l, before, after[..n]);
      RunsCloseOnce(l, before);
      ApplyClosesOnce(RunEvents(l, before), after[n]);
    }
  }

  /** A basket opened with pre-placed safety orders: one row per index, some of them limit orders. */
  ghost predicate Legacy(r: BasketRow) {
    && HasLegacySo(r.orders)
    && (forall i, j :: 0 <= i < j < |r.orders| && r.orders[i].role.SO? && r.orders[j].role.SO? ==>
          r.orders[i].role.index != r.orders[j].role.index)
  }

  lemma LegacyFrame(before: BasketRow, after: BasketRow)
    requires Legacy(before) && SameColumns(before.orders, after.orders)
    ensures Legacy(after)
  {
    var k :| 0 <= k < |before.orders| && before.orders[k].role.SO? && before.orders[k].orderType.LIMIT?;
    assert after.orders[k].role.SO? && after.orders[k].orderType.LIMIT?;
    forall i | 0 <= i < |after.orders| && after.orders[i].role.SO?
      ensures i < |before.orders| && after.orders[i].role == before.orders[i].role
    {
    }
  }

  lemma CancelLiveColumns(orders: seq<Order>)
    ensures SameColumns(orders, CancelLive(orders))
  {}

  lemma WatchdogColumns(r: BasketRow, t: Tick)
    ensures SameColumns(r.orders, WatchdogClosed(r, t).orders)
  {
    var marked := if TpReportedFilled(r, t) then r.orders[t.tpRow.value := r.orders[t.tpRow.value].(status := FILLED)]
                  else r.orders;
    CancelLiveColumns(marked);
  }

  lemma TailColumns(r: BasketRow, t: Tick, openIds: set<int>)
    ensures SameColumns(r.orders, AfterOrders(r, t, openIds).orders)
    ensures SameColumns(r.orders, Tail(r, t, openIds).orders)
  {
    hide AfterOrders, Recalculated, SameColumns, CancelLive, Evaluate, RoundDown;
    AfterOrdersLife(r, t, openIds);
    var ordered := AfterOrders(r, t, openIds);
    RecalculatedColumns(ordered, t, t.safetyTp);
    var netted := AfterSafetyNet(ordered, t);
    CancelLiveColumns(netted.orders);
    SameColumnsTransitive(r.orders, ordered.orders, netted.orders) by {
      SameColumnsReflexive(ordered.orders);
    }
    SameColumnsTransitive(r.orders, netted.orders, Tail(r, t, openIds).orders) by {
      SameColumnsReflexive(netted.orders);
    }
  }

  lemma SameColumnsReflexive(orders: seq<Order>)
    ensures SameColumns(orders, orders)
  {}

  lemma ApplyKeepsLegacy(l: Live, e: Event)
    requires Legacy(l.row)
    ensures Legacy(Apply(l, e).row) && Apply(l, e).executed == l.executed
  {
    hide Legacy, SameColumns, CancelLive, RoundDown, AfterVirtualSos, AfterOrders, AfterSafetyNet, AfterRisk,
         WatchdogClosed, GoneConfirmed;
    LegacyHas(l.row);
    SameColumnsReflexive(l.row.orders);
    CancelLiveColumns(l.row.orders);
    if e.MonitorTick? {
      VirtualSosLife(l, e.t);
      WatchdogColumns(l.row, e.t);
      if OpenIds(e.t).Some? {
        TailColumns(l.row, e.t, OpenIds(e.t).value);
      }
    }
    LegacyFrame(l.row, Apply(l, e).row);
  }

  lemma LegacyHas(r: BasketRow)
    requires Legacy(r)
    ensures HasLegacySo(r.orders)
  {}

  /** A basket with pre-placed safety orders never gets virtual ones: over any run it keeps one row per
      index and the monitor sends nothing on its own. */
  lemma {:induction false} LegacyRunsAddNoSafetyOrders(l: Live, events: seq<Event>)
    requires Legacy(l.row)
    ensures Legacy(RunEvents(l, events).row) && RunEvents(l, events).executed == l.executed
  {
    hide Apply, Legacy;
    if events != [] {
      LegacyRunsAddNoSafetyOrders(l, events[..|events| - 1]);
      ApplyKeepsLegacy(RunEvents(l, events[..|events| - 1]), events[|events| - 1]);
    }
  }

  /** Every firing tick of the run was durable when it ran. */
  ghost predicate AllDurable(l: Live, events: seq<Event>) {
    forall n :: 0 <= n < |events| && events[n].MonitorTick? ==>
      var at := RunEvents(l, events[..n]);
      !Selected(at.row) || !Fires(at, events[n].t) || Durable(at, events[n].t)
  }

  /** In runs whose firing ticks are all durable, the exchange executes every safety order at most
      once, in ladder order, however many ticks fail elsewhere. */
  lemma {:induction false} DurableRunsExecuteOnce(l: Live, events: seq<Event>)
    requires Regular(l.row) && Agree(l) && AllDurable(l, events)
    ensures Agree(RunEvents(l, events))
    ensures var x := RunEvents(l, events).executed; forall i, j :: 0 <= i < j < |x| ==> x[i].index < x[j].index
  {
    hide Apply, Regular, Agree, Fires, Durable;
    if events != [] {
      var n := |events| - 1;
      assert AllDurable(l, events[..n]) by {
        forall m | 0 <= m < n && events[..n][m].MonitorTick?
          ensures var at := RunEvents(l, events[..n][..m]);
                  !Selected(at.row) || !Fires(at, events[..n][m].t) || Durable(at, events[..n][m].t)
        {
          assert events[..n][..m] == events[..m];
        }
      }
      DurableRunsExecuteOnce(l, events[..n]);
      var at := RunEvents(l, events[..n]);
      RunsStayRegular(l, events[..n]);
      ApplyAgrees(at, events[n]);
    }
    RunsStayRegular(l, events);
    AgreementMeansAtMostOnce(RunEvents(l, events));
  }

  lemma ApplyAgrees(l: Live, e: Event)
    requires Regular(l.row) && Agree(l)
    requires e.MonitorTick? && Selected(l.row) ==> !Fires(l, e.t) || Durable(l, e.t)
    ensures Agree(Apply(l, e))
  {
    hide Monitored, RoundDown, Regular, SoIndices, Fires, Durable, OnlyTpTouched;
    match e
    case MonitorTick(t) => TickAgreesExactlyWhenDurable(l, t);
    case AgeTick(t, _) =>
      RegularHasNoSoPending(l.row);
      CancelLiveTouchesTps(l.row.orders);
      SoIndicesFrame(l.row.orders, CancelLive(l.row.orders));
    case Reconcile(_) =>
  }

  /** No event changes the ladder or forgets an execution, and every new execution is past its trigger. */
  ghost predicate Extends(before: Live, after: Live) {
    && after.row.levels == before.row.levels && after.row.side == before.row.side
    && |before.executed| <= |after.executed| && after.executed[..|before.executed|] == before.executed
    && forall k :: |before.executed| <= k < |after.executed| ==> PastTrigger(before.row, after.executed[k])
  }

  lemma TailKeepsTerms(r: BasketRow, t: Tick, openIds: set<int>)
    requires Regular(r)
    ensures var after := AfterOrders(r, t, openIds); after.levels == r.levels && after.side == r.side
    ensures var after := Tail(r, t, openIds); after.levels == r.levels && after.side == r.side
  {
    hide AfterOrders, Recalculated, Regular, OnlyTpTouched, TpAnsweredFilled, Evaluate, RoundDown, CancelLive;
    RegularHasNoSoPending(r);
    AfterOrdersSound(r, t, openIds);
    var ordered := AfterOrders(r, t, openIds);
    RecalculatedFrame(ordered, t, t.safetyTp);
  }

  lemma TickExtends(l: Live, t: Tick)
    requires Regular(l.row)
    ensures Extends(l, Monitored(l, t))
  {
    hide Regular, AfterVirtualSos, AfterOrders, AfterSafetyNet, AfterRisk, GoneConfirmed, SoRowsOrdered, PastTrigger,
         SoIndices, WatchdogOrders, WatchdogReason;
    assert SoRowsOrdered(l.row) && IndicesIncrease(l.row.levels) by {
      RegularParts(l.row);
    }
    VirtualSosSound(l, t);
    AfterSosRegular(l, t);
    if OpenIds(t).Some? {
      TailKeepsTerms(AfterVirtualSos(l, t).row, t, OpenIds(t).value);
    }
  }

  lemma ApplyExtends(l: Live, e: Event)
    requires Regular(l.row)
    ensures Extends(l, Apply(l, e))
  {
    hide Monitored, RoundDown, CancelLive, Regular, PastTrigger;
    if e.MonitorTick? {
      TickExtends(l, e.t);
    }
  }

  lemma ExtendsTransitive(a: Live, b: Live, c: Live)
    requires Extends(a, b) && Extends(b, c)
    ensures Extends(a, c)
  {
    forall k | |a.executed| <= k < |c.executed|
      ensures PastTrigger(a.row, c.executed[k])
    {
      if k < |b.executed| {
        assert c.executed[k] == c.executed[..|b.executed|][k] == b.executed[k];
      } else {
        PastTriggerSameLadder(b.row, a.row, c.executed[k]);
      }
    }
    assert c.executed[..|a.executed|] == c.executed[..|b.executed|][..|a.executed|];
  }

  lemma PastTriggerSameLadder(r: BasketRow, other: BasketRow, e: Execution)
    requires PastTrigger(r, e) && r.levels == other.levels && r.side == other.side
    ensures PastTrigger(other, e)
  {
    var i :| 0 <= i < |r.levels| && r.levels[i].index == e.index && Breached(r.side, e.mark, r.levels[i].fillPrice);
    assert other.levels[i].index == e.index;
  }

  /** Over any run, failures and lost commits included: the log of executions only grows, the ladder never
      changes, and every safety order the exchange executed had the mark price past its trigger. */
  lemma {:induction false} RunsFirePastTriggers(l: Live, events: seq<Event>)
    requires Regular(l.row)
    ensures Extends(l, RunEvents(l, events))
  {
    hide Apply, Regular, Extends;
    if events == [] {
      assert Extends(l, l) by { ExtendsItself(l); }
    } else {
      var n := |events| - 1;
      RunsFirePastTriggers(l, events[..n]);
      RunsStayRegular(l, events[..n]);
      ApplyExtends(RunEvents(l, events[..n]), events[n]);
      ExtendsTransitive(l, RunEvents(l, events[..n]), RunEvents(l, events));
    }
  }

  lemma ExtendsItself(l: Live)
    ensures Extends(l, l)
  {}

  // ---------- Closing cancels what is live ----------

  ghost predicate NoLiveRows(orders: seq<Order>) {
    forall i :: 0 <= i < |orders| ==> !IsLive(orders[i])
  }

  lemma CancelLiveLeavesNone(orders: seq<Order>)
    ensures NoLiveRows(CancelLive(orders))
  {}

  lemma {:induction false} PendingComplete(orders: seq<Order>, n: nat)
    requires n <= |orders|
    ensures forall i: nat :: i < n && IsPending(orders[i]) ==> i in Pending(orders, n)
  {
    if n > 0 {
      PendingComplete(orders, n - 1);
    }
  }

  lemma {:induction false} CancelOthersCancels(orders: seq<Order>, pending: seq<nat>, keep: nat, n: nat)
    requires n <= |pending| && keep < |orders| && forall i :: 0 <= i < |pending| ==> pending[i] < |orders|
    ensures var out := CancelOthers(orders, pending, keep, n);
            && out[keep] == orders[keep]
            && (forall k :: 0 <= k < n && pending[k] != keep ==> out[pending[k]].status in {FILLED, CANCELED})
            && (forall i: nat :: i < |orders| && i !in pending[..n] ==> out[i] == orders[i])
  {
    if n > 0 {
      CancelOthersCancels(orders, pending, keep, n - 1);
      assert pending[..n] == pending[..n - 1] + [pending[n - 1]];
    }
  }

  /** None of the first n rows is live. */
  ghost predicate DeadUpTo(orders: seq<Order>, n: nat)
    requires n <= |orders|
  {
    forall j :: 0 <= j < n ==> !IsLive(orders[j])
  }

  lemma CancelOthersKills(orders: seq<Order>, pending: seq<nat>, keep: nat, n: nat)
    requires keep < n <= |orders| && orders[keep].status.FILLED?
    requires forall i :: 0 <= i < |pending| ==> pending[i] < |orders|
    requires forall i: nat :: i < n && IsLive(orders[i]) ==> i in pending
    ensures DeadUpTo(CancelOthers(orders, pending, keep, |pending|), n)
  {
    var out := CancelOthers(orders, pending, keep, |pending|);
    CancelOthersCancels(orders, pending, keep, |pending|);
    assert pending[..|pending|] == pending;
    forall i: nat | i < n
      ensures !IsLive(out[i])
    {
      if i in pending {
        var k :| 0 <= k < |pending| && pending[k] == i;
        assert pending[k] != keep ==> out[pending[k]].status in {FILLED, CANCELED};
      }
    }
  }

  /** The rows the loop started with: n of them, live ones all pending; and the safety orders still to look at
      are as they were. */
  ghost predicate Tracks(r0: BasketRow, r: BasketRow, pending: seq<nat>, i: nat) {
    && |r0.orders| <= |r.orders|
    && (forall k :: 0 <= k < |pending| ==> pending[k] < |r0.orders|)
    && (forall k, m :: 0 <= k < m < |pending| ==> pending[k] != pending[m])
    && (forall j: nat :: j < |r0.orders| && IsLive(r.orders[j]) ==> j in pending)
    && (forall k :: i <= k < |pending| && !r.orders[pending[k]].role.TP? ==>
           r.orders[pending[k]] == r0.orders[pending[k]])
    && (forall j :: 0 <= j < |r0.orders| ==> r.orders[j].role == r0.orders[j].role)
  }

  /** A pending safety-order row that is gone from the open list, answered FILLED, whose replacement take-profit was
      accepted. */
  predicate Replaces(orders: seq<Order>, t: Tick, openIds: set<int>) {
    exists j: nat :: j < |orders| && ReplacedAt(orders[j], t, openIds, j)
  }

  predicate ReplacedAt(o: Order, t: Tick, openIds: set<int>, j: nat) {
    o.role.SO? && IsPending(o) && Gone(o, openIds) && Queried(o, t.query(j)).FILLED? && t.newTp(j).Some?
  }

  lemma SeenTracks(r0: BasketRow, r: BasketRow, pending: seq<nat>, i: nat, status: OrderStatus)
    requires Tracks(r0, r, pending, i) && i < |pending|
    ensures Tracks(r0, Seen(r, pending[i], status), pending, i + 1) && Tracks(r0, r, pending, i + 1)
  {}

  lemma CountedTracks(r0: BasketRow, seen: BasketRow, t: Tick, pending: seq<nat>, i: nat, reply: Option<Option<int>>)
    requires Tracks(r0, seen, pending, i)
    ensures var next := Recalculated(seen.(sosFilled := seen.sosFilled + 1), t, reply);
            && Tracks(r0, next, pending, i) && next.status == seen.status
            && (reply.None? ==> |next.orders| == |seen.orders|)
  {
    var counted := seen.(sosFilled := seen.sosFilled + 1);
    RecalculatedFrame(counted, t, reply);
    RecalculatedRevivesNone(counted, t, reply);
    hide Recalculated;
  }

  lemma RecalculatedRevivesNone(r: BasketRow, t: Tick, reply: Option<Option<int>>)
    ensures var after := Recalculated(r, t, reply);
            && |r.orders| <= |after.orders|
            && (forall j :: 0 <= j < |r.orders| ==> (IsLive(after.orders[j]) ==> IsLive(r.orders[j])))
            && (reply.None? ==> |after.orders| == |r.orders|)
  {
    hide RoundDown, CalculateTpPrice, Notional, EntryQty, EntryCost;
  }

  /** When the loop closes a basket, whatever its orders, every row it started with is dead, and it has added rows
      only if some safety order was replaced. */
  lemma {:induction false} OrderLoopCloseKills(r0: BasketRow, r: BasketRow, t: Tick, openIds: set<int>,
                                               pending: seq<nat>, i: nat)
    requires i <= |pending| && Tracks(r0, r, pending, i) && !r.status.CLOSED?
    requires forall k :: 0 <= k < |pending| ==> IsPending(r0.orders[pending[k]])
    ensures var after := OrderLoop(r, t, openIds, pending, i);
            && |r0.orders| <= |after.orders|
            && (after.status.CLOSED? ==> DeadUpTo(after.orders, |r0.orders|))
            && (!Replaces(r0.orders, t, openIds) && |r.orders| == |r0.orders| ==> |after.orders| == |r0.orders|)
    decreases |pending| - i
  {
    hide Recalculated, CancelOthers, DeadUpTo, Queried, Gone;
    if i < |pending| {
      var j := pending[i];
      var o := r.orders[j];
      if Gone(o, openIds) {
        var status := Queried(o, t.query(j));
        var seen := Seen(r, j, status);
        SeenTracks(r0, r, pending, i, status);
        if o.role.TP? && status.FILLED? {
          CancelOthersKills(seen.orders, pending, j, |r0.orders|);
        } else if o.role.SO? && status.FILLED? {
          CountedTracks(r0, seen, t, pending, i + 1, t.newTp(j));
          if t.newTp(j).Some? {
            assert ReplacedAt(r0.orders[j], t, openIds, j);
          }
          OrderLoopCloseKills(r0, Recalculated(seen.(sosFilled := seen.sosFilled + 1), t, t.newTp(j)), t, openIds,
                  pending, i + 1);
        } else {
          OrderLoopCloseKills(r0, seen, t, openIds, pending, i + 1);
        }
      } else {
        SeenTracks(r0, r, pending, i, NEW);
        OrderLoopCloseKills(r0, r, t, openIds, pending, i + 1);
      }
    }
  }

  lemma AfterOrdersCloseKills(r: BasketRow, t: Tick, openIds: set<int>)
    requires !r.status.CLOSED? && AfterOrders(r, t, openIds).status.CLOSED?
    ensures var after := AfterOrders(r, t, openIds).orders;
            && |r.orders| <= |after| && DeadUpTo(after, |r.orders|)
            && (!Replaces(r.orders, t, openIds) ==> |after| == |r.orders|)
  {
    hide DeadUpTo;
    var pending := Pending(r.orders, |r.orders|);
    PendingMeans(r.orders, |r.orders|);
    PendingComplete(r.orders, |r.orders|);
    PendingIncreases(r.orders, |r.orders|);
    OrderLoopCloseKills(r, r, t, openIds, pending, 0);
  }

  /** The safety-order step leaves the rows it found in place; only take-profit rows change, and what it adds are
      take-profits and filled safety orders. */
  ghost predicate OnlyFillsAdded(before: seq<Order>, after: seq<Order>) {
    && |before| <= |after|
    && (forall i :: 0 <= i < |before| ==>
           after[i].role == before[i].role && (!before[i].role.TP? ==> after[i] == before[i]))
    && (forall i :: |before| <= i < |after| ==> after[i].role.TP? || after[i].status.FILLED?)
  }

  lemma {:induction false} WalkAddsFills(orders: seq<Order>, l: Live, t: Tick, mark: real, already: int, i: nat)
    requires i <= |l.row.levels| && OnlyFillsAdded(orders, l.row.orders)
    ensures OnlyFillsAdded(orders, Walk(l, t, mark, already, i).row.orders)
    decreases |l.row.levels| - i
  {
    hide RoundDown, Notional, Breached;
    if i < |l.row.levels| {
      var so := l.row.levels[i];
      if so.index <= already {
        WalkAddsFills(orders, l, t, mark, already, i + 1);
      } else if Breached(l.row.side, mark, so.fillPrice) {
        var qty := RoundDown(so.qty, t.precision.qtyStep);
        if TooSmall(qty, mark, t.precision) {
          WalkAddsFills(orders, l.(row := l.row.(sosFilled := so.index)), t, mark, already, i + 1);
        } else if t.place(so.index).Some? {
          var row := SoRow(so.index, qty, FillPriceOf(t.place(so.index).value, mark));
          WalkAddsFills(orders, Live(l.row.(sosFilled := so.index, orders := l.row.orders + [row]),
                                     l.executed + [Execution(so.index, mark)]),
                        t, mark, already, i + 1);
        }
      }
    }
  }

  lemma VirtualSosAddFills(l: Live, t: Tick)
    ensures OnlyFillsAdded(l.row.orders, AfterVirtualSos(l, t).row.orders)
  {
    hide Walk, Recalculated;
    if WalksLadder(l.row, t) {
      WalkAddsFills(l.row.orders, l, t, MarkPrice(t).value, l.row.sosFilled, 0);
      RecalculatedFrame(Walk(l, t, MarkPrice(t).value, l.row.sosFilled, 0).row, t, t.soTp);
    }
  }

  lemma ReplacesFrame(before: seq<Order>, after: seq<Order>, t: Tick, openIds: set<int>)
    requires OnlyFillsAdded(before, after) && Replaces(after, t, openIds)
    ensures Replaces(before, t, openIds)
  {
    var j: nat :| j < |after| && ReplacedAt(after[j], t, openIds, j);
    assert j < |before| && before[j] == after[j];
  }

  lemma RiskCloseLeavesNone(r: BasketRow, t: Tick)
    requires !r.status.CLOSED?
    ensures AfterRisk(r, t).status.CLOSED? ==> NoLiveRows(AfterRisk(r, t).orders)
  {
    hide Evaluate, RoundDown, CancelLive, NoLiveRows;
    CancelLiveLeavesNone(r.orders);
  }

  /** What the rows of a tick look like after it has closed a basket. */
  ghost predicate LiveOnlyReplacements(l: Live, t: Tick, after: seq<Order>) {
    && (forall j :: 0 <= j < |after| && IsLive(after[j]) ==> j >= |l.row.orders| && after[j].role.TP?)
    && ((OpenIds(t).Some? && Replaces(l.row.orders, t, OpenIds(t).value)) || NoLiveRows(after))
  }

  lemma NoLiveIsFine(l: Live, t: Tick, after: seq<Order>)
    requires NoLiveRows(after)
    ensures LiveOnlyReplacements(l, t, after)
  {}

  lemma DeadAndReplaced(l: Live, t: Tick, before: seq<Order>, after: seq<Order>)
    requires OnlyFillsAdded(l.row.orders, before) && OpenIds(t).Some? && SameColumns(before, after)
    requires DeadUpTo(after, |before|) && (!Replaces(before, t, OpenIds(t).value) ==> |after| == |before|)
    ensures LiveOnlyReplacements(l, t, after)
  {
    if Replaces(before, t, OpenIds(t).value) {
      ReplacesFrame(l.row.orders, before, t, OpenIds(t).value);
    }
  }

  lemma TickCloseLeavesNone(l: Live, t: Tick)
    requires Selected(l.row) && Monitored(l, t).row.status.CLOSED?
    ensures LiveOnlyReplacements(l, t, Monitored(l, t).row.orders)
  {
    hide AfterOrders, AfterRisk, AfterVirtualSos, AfterSafetyNet, GoneConfirmed, CancelLive, NoLiveRows, Recalculated,
         WatchdogReason, TpReportedFilled, TpAnsweredFilled, LiveOnlyReplacements, OnlyFillsAdded, SameColumns,
         DeadUpTo, Replaces;
    if Watched(l.row, t) && GoneConfirmed(t) {
      WatchdogLeavesNone(l.row, t);
      NoLiveIsFine(l, t, Monitored(l, t).row.orders);
    } else {
      VirtualSosLife(l, t);
      VirtualSosAddFills(l, t);
      var after := AfterVirtualSos(l, t).row;
      if OpenIds(t).Some? {
        var ordered := AfterOrders(after, t, OpenIds(t).value);
        AfterOrdersLife(after, t, OpenIds(t).value);
        SafetyNetKeepsReason(ordered, t);
        if ordered.status.CLOSED? {
          AfterOrdersCloseKills(after, t, OpenIds(t).value);
          ClosedPassesThrough(ordered, t);
          DeadAndReplaced(l, t, after.orders, ordered.orders);
        } else {
          RiskCloseLeavesNone(AfterSafetyNet(ordered, t), t);
          NoLiveIsFine(l, t, Monitored(l, t).row.orders);
        }
      }
    }
  }

  lemma WatchdogLeavesNone(r: BasketRow, t: Tick)
    ensures NoLiveRows(WatchdogClosed(r, t).orders)
  {
    hide CancelLive, NoLiveRows;
    CancelLiveLeavesNone(r.orders);
    if TpReportedFilled(r, t) {
      CancelLiveLeavesNone(r.orders[t.tpRow.value := r.orders[t.tpRow.value].(status := FILLED)]);
    }
  }

  lemma ClosedPassesThrough(r: BasketRow, t: Tick)
    requires r.status.CLOSED?
    ensures AfterRisk(AfterSafetyNet(r, t), t) == r
  {}

  /** Any basket, any closer.  An age close leaves no live order row.  A monitor tick leaves none either, by watchdog,
      order loop or risk stop, except take-profits it has itself placed for safety orders it found filled; without a
      pending safety order answered FILLED and replaced, none at all.  The reconciler leaves exactly what it found. */
  lemma CloseLeavesNoLiveRows(l: Live, e: Event)
    requires Selected(l.row) && Apply(l, e).row.status.CLOSED?
    ensures var after := Apply(l, e).row.orders;
            match e
            case MonitorTick(t) => LiveOnlyReplacements(l, t, after)
            case AgeTick(_, _) => NoLiveRows(after)
            case Reconcile(_) => after == l.row.orders
  {
    hide Monitored, CancelLive, NoLiveRows, RoundDown, LiveOnlyReplacements;
    match e
    case MonitorTick(t) => TickCloseLeavesNone(l, t);
    case AgeTick(t, _) => CancelLiveLeavesNone(l.row.orders);
    case Reconcile(_) =>
  }

  // ---------- What the code does not guarantee ----------

  /** A filled base order of one coin at 100. */
  const BASE_ROW := Order(Some(0), BO, MARKET, 1.0, 100.0, 100.0, FILLED)

  /** With pre-placed safety orders a tick that finds both a safety order and the take-profit filled closes
      the basket and leaves the take-profit it has just placed live. */
  lemma LegacyCloseLeavesLiveTp(r: BasketRow, t: Tick)
    requires LegacyTriple(r) && LegacyAnswers(t)
    ensures var after := AfterOrders(r, t, {});
            after.status.CLOSED? && |after.orders| == 4 && IsLiveTp(after.orders[3])
  {
    hide Recalculated, OrderLoop, LegacyTriple, LegacyAnswers, Queried, Gone;
    LegacyPending(r);
    LegacyReplaces(r, t);
    LegacyFirstAnswer(r, t);
    CountedStep(r, t, {}, [1, 2], 0);
    LegacySecond(Recalculated(Seen(r, 1, FILLED).(sosFilled := r.sosFilled + 1), t, t.newTp(1)), t);
  }

  lemma LegacyPending(r: BasketRow)
    requires LegacyTriple(r)
    ensures Pending(r.orders, |r.orders|) == [1, 2]
  {
    assert Pending(r.orders, 0) == [] && Pending(r.orders, 1) == [] && Pending(r.orders, 2) == [1];
  }

  lemma LegacyFirstAnswer(r: BasketRow, t: Tick)
    requires LegacyTriple(r) && LegacyAnswers(t)
    ensures |r.orders| == 3 && r.orders[1].role.SO? && Gone(r.orders[1], {})
    ensures Queried(r.orders[1], t.query(1)).FILLED?
  {
    assert r.orders[1].role == SO(1) && r.orders[1].exchangeId == Some(1);
  }

  /** One turn of the order loop at a safety order that is answered FILLED. */
  lemma CountedStep(r: BasketRow, t: Tick, openIds: set<int>, pending: seq<nat>, i: nat)
    requires i < |pending| && forall k :: 0 <= k < |pending| ==> pending[k] < |r.orders|
    requires var j := pending[i];
             r.orders[j].role.SO? && Gone(r.orders[j], openIds) && Queried(r.orders[j], t.query(j)).FILLED?
    ensures var j := pending[i];
            var next := Recalculated(Seen(r, j, FILLED).(sosFilled := r.sosFilled + 1), t, t.newTp(j));
            && |next.orders| >= |r.orders|
            && OrderLoop(r, t, openIds, pending, i) == OrderLoop(next, t, openIds, pending, i + 1)
  {
    hide Recalculated, CancelOthers, Queried, Gone;
    var j := pending[i];
    RecalculatedKeepsRows(Seen(r, j, FILLED).(sosFilled := r.sosFilled + 1), t, t.newTp(j));
  }

  lemma LegacySecond(next: BasketRow, t: Tick)
    requires |next.orders| == 4 && next.orders[2] == Order(Some(2), TP, LIMIT, 1.0, 110.0, 0.0, NEW)
    requires IsLiveTp(next.orders[3]) && LegacyAnswers(t)
    ensures var after := OrderLoop(next, t, {}, [1, 2], 1);
            after.status.CLOSED? && |after.orders| == 4 && IsLiveTp(after.orders[3])
  {
    hide Recalculated, CancelOthers;
    var seen := next.orders[2 := next.orders[2].(status := FILLED)];
    CancelOthersCancels(seen, [1, 2], 2, 2);
    assert 3 !in [1, 2][..2];
  }

  /** A base order, one pre-placed safety order and one take-profit, the last two live. */
  predicate LegacyTriple(r: BasketRow) {
    && r.status.OPEN? && r.side.LONG?
    && r.orders == [BASE_ROW, Order(Some(1), SO(1), LIMIT, 1.0, 90.0, 0.0, NEW),
           Order(Some(2), TP, LIMIT, 1.0, 110.0, 0.0, NEW)]
  }

  /** Both are reported filled, the cancel of the filled take-profit fails and the new one is accepted. */
  predicate LegacyAnswers(t: Tick) {
    && t.query(1) == Some(Detail(Some(FILLED), true)) && t.query(2) == Some(Detail(Some(FILLED), true))
    && !t.cancelOk(2) && t.newTp(1) == Some(Some(3))
  }

  lemma LegacyReplaces(r: BasketRow, t: Tick)
    requires LegacyTriple(r) && LegacyAnswers(t)
    ensures var next := Recalculated(Seen(r, 1, FILLED).(sosFilled := r.sosFilled + 1), t, t.newTp(1));
            && |next.orders| == 4 && next.orders[2] == Order(Some(2), TP, LIMIT, 1.0, 110.0, 0.0, NEW)
            && IsLiveTp(next.orders[3])
  {
    hide RoundDown, CalculateTpPrice, Notional;
    var filled := Seen(r, 1, FILLED).orders;
    assert IsEntryFill(filled[0]) && HasEntryFill(filled);
    assert EntryQty(filled, 0) == 0.0 && EntryQty(filled, 1) == 1.0 && EntryQty(filled, 2) == 2.0 &&
            EntryQty(filled, 3) == 2.0;
    assert LiveTps(filled, 0) == [] && LiveTps(filled, 1) == [] && LiveTps(filled, 2) == [] &&
            LiveTps(filled, 3) == [2];
  }

  /** An open LONG with one safety order of one coin at 90, whatever its other order rows, none of them a pre-placed
      safety order. */
  predicate OneRungOpen(l: Live) {
    && l.row.status.OPEN? && l.row.openedAt == Some(0.0) && l.row.side.LONG?
    && l.row.levels == [Level(1, 0.1, 0.1, 90.0, 9.0, 90.0, 1.0)]
    && l.row.sosFilled == 0 && !HasLegacySo(l.row.orders)
  }

  /** The mark price is 80, the exchange sells one coin there, and no list of open orders can be read. */
  predicate BlindTick(t: Tick) {
    && t.now == 0.0 && t.markPositions.None? && t.ticker == Some(80.0) && t.place(1) == Some(80.0)
    && t.precision == Precision(0.001, 0.001, 0.01, 5.0)
    && t.cachedOpen.None? && t.restOpen.None? && !t.siblingCommits
  }

  /** The same tick twice, with the mark price past the first level and no readable list of open
      orders: the exchange executes safety order 1 twice, the database knows of neither. */
  lemma UnreadableOpenOrdersExecuteTwice(l: Live, t: Tick)
    requires OneRungOpen(l) && l.executed == [] && BlindTick(t)
    ensures var twice := RunEvents(l, [MonitorTick(t), MonitorTick(t)]);
            && twice.executed == [Execution(1, 80.0), Execution(1, 80.0)]
            && twice.row == l.row
  {
    FiresAndForgets(l, t);
    var once := l.(executed := [Execution(1, 80.0)]);
    FiresAndForgets(once, t);
    var events := [MonitorTick(t), MonitorTick(t)];
    assert events[..1] == [MonitorTick(t)];
    assert [MonitorTick(t)][..0] == [];
    assert RunEvents(l, []) == l;
    assert RunEvents(l, [MonitorTick(t)]) == Apply(l, MonitorTick(t)) == once;
    hide Monitored;
  }

  lemma FiresAndForgets(l: Live, t: Tick)
    requires OneRungOpen(l) && BlindTick(t)
    ensures Monitored(l, t) == l.(executed := l.executed + [Execution(1, 80.0)])
  {
    hide Recalculated, RoundDown;
    var so := l.row.levels[0];
    assert WalksLadder(l.row, t);
    var row := SoRow(1, 1.0, 80.0);
    var walked := Live(l.row.(sosFilled := 1, orders := l.row.orders + [row]), l.executed + [Execution(1, 80.0)]);
    assert RoundDown(so.qty, 0.001) == 1.0 by {
      assert Multiple(1000, 0.001) == 1.0;
      RoundDownOfMultiple(1000, 0.001);
    }
    assert !TooSmall(1.0, 80.0, t.precision);
    assert Walk(walked, t, 80.0, 0, 1) == walked;
    assert Walk(l, t, 80.0, 0, 0) == walked;
  }

  /** A tick's risk check leaves an open basket that is already marked, its live orders canceled in the database,
      exactly when the controller wants it closed, there is something to sell, and the closing order is refused. */
  lemma RefusedRiskStopStaysOpen(r: BasketRow, t: Tick)
    requires r.status.OPEN? && r.exitReason.None?
    ensures AfterRisk(r, t).exitReason.Some? && AfterRisk(r, t).status.OPEN? <==>
            (&& r.sosFilled > 0 && t.risk.Some? && StopWanted(r, t.risk.value)
             && r.qty > 0.0 && RoundDown(r.qty, t.precision.qtyStep) > 0.0 && !t.closeOk)
    ensures AfterRisk(r, t).exitReason.Some? ==> NoLiveRows(AfterRisk(r, t).orders)
  {
    hide Evaluate, RoundDown, CancelLive, NoLiveRows;
    CancelLiveLeavesNone(r.orders);
  }

  /** The risk controller does not let the basket run on, the loss of this tick counted into the peak. */
  predicate StopWanted(r: BasketRow, inputs: RiskInputs) {
    var loss := if inputs.unrealized < 0.0 then -inputs.unrealized else 0.0;
    !Evaluate(r.sosFilled, inputs.unrealized, inputs.wallet, inputs.notional, inputs.symbol, inputs.config,
              Max(r.peakLoss, loss)).Keep?
  }

  /** Replacing the one live take-profit leaves two live rows behind exactly when its cancel failed. */
  lemma FailedCancelLeavesTwoLive(r: BasketRow, t: Tick, id: int, reply: Option<int>)
    requires HasEntryFill(r.orders) && EntryQty(r.orders, |r.orders|) > 0.0
    requires |LiveTps(r.orders, |r.orders|)| == 1
    requires r.orders[LiveTps(r.orders, |r.orders|)[0]].exchangeId == Some(id)
    ensures |LiveTps(Recalculated(r, t, Some(reply)).orders, |Recalculated(r, t, Some(reply)).orders|)| == 2
            <==> !t.cancelOk(id)
  {
    hide RoundDown, CalculateTpPrice, Notional, EntryQty, EntryCost;
    var live := LiveTps(r.orders, |r.orders|);
    LiveTpsAreTps(r.orders, |r.orders|);
    var after := Recalculated(r, t, Some(reply)).orders;
    var n := |r.orders|;
    assert |after| == n + 1 && IsLiveTp(after[n]);
    if t.cancelOk(id) {
      LiveTpsAfterCancel(r.orders, after[..n], live[0], n);
    } else {
      assert after[..n] == r.orders;
    }
    LiveTpsPrefix(after, n);
  }

  lemma {:induction false} LiveTpsPrefix(orders: seq<Order>, n: nat)
    requires n <= |orders|
    ensures LiveTps(orders, n) == LiveTps(orders[..n], n)
    decreases n
  {
    if n > 0 {
      LiveTpsPrefix(orders, n - 1);
      LiveTpsPrefix(orders[..n], n - 1);
      assert orders[..n][..n - 1] == orders[..n - 1];
    }
  }

  lemma {:induction false} LiveTpsAfterCancel(before: seq<Order>, after: seq<Order>, j: nat, n: nat)
    requires n <= |before| == |after| && j < |before|
    requires after == before[j := before[j].(status := CANCELED)] && IsLiveTp(before[j])
    ensures |LiveTps(after, n)| == |LiveTps(before, n)| - if j < n then 1 else 0
  {
    if n > 0 {
      LiveTpsAfterCancel(before, after, j, n - 1);
    }
  }
}
