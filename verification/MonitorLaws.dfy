/** The decisions of the live monitor in the terms of its inputs: prices, amounts, ages, statuses. */
module MonitorLaws {
  import opened Options
  import opened Rounding
  import opened Liquidation
  import opened GridLevels
  import opened LiveMonitor
  import opened MonitorFacts

  // ---------- The price a tick looks at ----------

  /** Position number i is the first of the cached ones that carries a positive mark price. */
  ghost predicate FirstPriced(positions: seq<Pos>, i: nat) {
    && i < |positions| && positions[i].mark > 0.0
    && forall j :: 0 <= j < i ==> positions[j].mark <= 0.0
  }

  lemma {:induction false} FirstMarkIs(positions: seq<Pos>)
    ensures forall i: nat :: FirstPriced(positions, i) ==> FirstMark(positions) == Some(positions[i].mark)
    ensures (forall j :: 0 <= j < |positions| ==> positions[j].mark <= 0.0) ==> FirstMark(positions) == None
  {
    if positions != [] && positions[0].mark <= 0.0 {
      FirstMarkIs(positions[1..]);
      forall i: nat | FirstPriced(positions, i)
        ensures FirstMark(positions) == Some(positions[i].mark)
      {
        assert FirstPriced(positions[1..], i - 1);
      }
    }
  }

  /** The first positive mark price among the cached positions comes before the ticker's, which is asked only when the
      cache has none. */
  lemma MarkPriceIs(t: Tick)
    ensures t.markPositions.Some? ==>
              forall i: nat :: FirstPriced(t.markPositions.value, i) ==>
                MarkPrice(t) == Some(t.markPositions.value[i].mark)
    ensures (t.markPositions.Some? ==>
               forall j :: 0 <= j < |t.markPositions.value| ==> t.markPositions.value[j].mark <= 0.0) ==>
              MarkPrice(t) == t.ticker
  {
    if t.markPositions.Some? {
      FirstMarkIs(t.markPositions.value);
    }
  }

  // ---------- The safety orders a tick sends ----------

  /** The mark price is at the level's price or beyond it. */
  predicate AtOrBeyond(side: Side, mark: real, level: Level) {
    if side.LONG? then mark <= level.fillPrice else level.fillPrice <= mark
  }

  /** The level's quantity, rounded down, and its value at the mark price reach the exchange's minimum. */
  predicate LargeEnough(level: Level, mark: real, p: Precision) {
    RoundDown(level.qty, p.qtyStep) >= p.minQty && mark * RoundDown(level.qty, p.qtyStep) >= p.minNotional
  }

  /** What is recorded for a level sent at this mark price: a filled market order for the rounded quantity at the price
      the exchange reports, or at the mark price when it reports zero. */
  predicate RecordOf(o: Order, level: Level, t: Tick, mark: real) {
    && t.place(level.index).Some? && o.exchangeId.None? && o.role == SO(level.index) && o.orderType.MARKET?
    && o.qty == RoundDown(level.qty, t.precision.qtyStep) && o.status.FILLED?
    && o.price == (if t.place(level.index).value == 0.0 then mark else t.place(level.index).value)
    && o.avgFillPrice == o.price
  }

  /** A row the safety-order step has added is such a record of a level past the count. */
  ghost predicate Recorded(r: BasketRow, t: Tick, mark: real, o: Order) {
    exists k :: 0 <= k < |r.levels| && r.levels[k].index > r.sosFilled && AtOrBeyond(r.side, mark, r.levels[k])
                && LargeEnough(r.levels[k], mark, t.precision) && RecordOf(o, r.levels[k], t, mark)
  }

  ghost predicate RecordsFrom(r: BasketRow, t: Tick, mark: real, l: Live) {
    && l.row.levels == r.levels && l.row.side == r.side && |r.orders| <= |l.row.orders|
    && l.row.orders[..|r.orders|] == r.orders
    && forall j :: |r.orders| <= j < |l.row.orders| ==> Recorded(r, t, mark, l.row.orders[j])
  }

  lemma {:induction false} WalkRecords(r: BasketRow, l: Live, t: Tick, mark: real, i: nat)
    requires i <= |l.row.levels| && RecordsFrom(r, t, mark, l)
    ensures RecordsFrom(r, t, mark, Walk(l, t, mark, r.sosFilled, i))
    decreases |l.row.levels| - i
  {
    hide RoundDown, Recorded;
    if i < |l.row.levels| {
      var so := l.row.levels[i];
      if so.index <= r.sosFilled {
        WalkRecords(r, l, t, mark, i + 1);
      } else if Breached(l.row.side, mark, so.fillPrice) {
        var qty := RoundDown(so.qty, t.precision.qtyStep);
        if TooSmall(qty, mark, t.precision) {
          WalkRecords(r, l.(row := l.row.(sosFilled := so.index)), t, mark, i + 1);
        } else if t.place(so.index).Some? {
          var row := SoRow(so.index, qty, FillPriceOf(t.place(so.index).value, mark));
          var next := Live(l.row.(sosFilled := so.index, orders := l.row.orders + [row]),
                           l.executed + [Execution(so.index, mark)]);
          IsRecorded(r, t, mark, i, row);
          assert next.row.orders[..|r.orders|] == l.row.orders[..|r.orders|];
          WalkRecords(r, next, t, mark, i + 1);
        }
      }
    }
  }

  lemma IsRecorded(r: BasketRow, t: Tick, mark: real, i: nat, row: Order)
    requires i < |r.levels| && r.levels[i].index > r.sosFilled && Breached(r.side, mark, r.levels[i].fillPrice)
    requires t.place(r.levels[i].index).Some?
    requires var qty := RoundDown(r.levels[i].qty, t.precision.qtyStep);
             && !TooSmall(qty, mark, t.precision)
             && row == SoRow(r.levels[i].index, qty, FillPriceOf(t.place(r.levels[i].index).value, mark))
    ensures Recorded(r, t, mark, row)
  {
    hide RoundDown;
  }

  /** Every safety-order row a tick adds records, with these amounts, a level past the count that was large enough and
      whose price the mark price had reached. */
  lemma NewRowsAreRecords(l: Live, t: Tick, j: nat)
    ensures var after := AfterVirtualSos(l, t).row.orders;
            |l.row.orders| <= j < |after| && after[j].role.SO? ==>
              MarkPrice(t).Some? && Recorded(l.row, t, MarkPrice(t).value, after[j])
  {
    hide Walk, Recalculated, Recorded, MarkPrice;
    if WalksLadder(l.row, t) {
      var mark := MarkPrice(t).value;
      WalkRecords(l.row, l, t, mark, 0);
      RecalculatedFrame(Walk(l, t, mark, l.row.sosFilled, 0).row, t, t.soTp);
    }
  }

  /** Level k is sent first: it is past the count, reached, large enough and taken by the exchange, and every level past
      the count before it is reached and too small. */
  predicate FirstSent(r: BasketRow, t: Tick, mark: real, k: nat) {
    && k < |r.levels| && r.levels[k].index > r.sosFilled && AtOrBeyond(r.side, mark, r.levels[k])
    && LargeEnough(r.levels[k], mark, t.precision) && t.place(r.levels[k].index).Some?
    && forall j :: 0 <= j < k && r.levels[j].index > r.sosFilled ==>
         AtOrBeyond(r.side, mark, r.levels[j]) && !LargeEnough(r.levels[j], mark, t.precision)
  }

  /** When exactly a tick sends safety orders: the watchdog lets it through, the basket is open with levels left and no
      pre-placed safety order, a price is known, and some level is sent first. */
  lemma SendsExactly(l: Live, t: Tick)
    ensures Fires(l, t) <==>
            && Trades(l, t) && l.row.status == OPEN && l.row.sosFilled < |l.row.levels|
            && (forall i :: 0 <= i < |l.row.orders| && l.row.orders[i].role.SO? ==> l.row.orders[i].orderType != LIMIT)
            && MarkPrice(t).Some?
            && exists k: nat :: FirstSent(l.row, t, MarkPrice(t).value, k)
  {
    hide MarkPrice, RoundDown, Trades;
    if MarkPrice(t).Some? {
      var mark := MarkPrice(t).value;
      forall k: nat | k < |l.row.levels|
        ensures FiresAt(l.row, t, mark, l.row.sosFilled, 0, k) <==> FirstSent(l.row, t, mark, k)
      {}
      hide FiresAt, FirstSent;
      if Fires(l, t) {
        var k: nat :| k < |l.row.levels| && FiresAt(l.row, t, mark, l.row.sosFilled, 0, k);
        assert FirstSent(l.row, t, mark, k);
      }
      if k: nat :| FirstSent(l.row, t, mark, k) {
        FirstSentIsLevel(l.row, t, mark, k);
        assert FiresAt(l.row, t, mark, l.row.sosFilled, 0, k);
      }
    }
  }

  lemma FirstSentIsLevel(r: BasketRow, t: Tick, mark: real, k: nat)
    requires FirstSent(r, t, mark, k)
    ensures k < |r.levels|
  {}

  // ---------- What a filled entry order is worth ----------

  /** Coins and cost of the filled orders other than take-profits; an order without a price counts at its average fill
      price. */
  function Coins(orders: seq<Order>): real {
    if orders == [] then 0.0
    else
      var o := orders[|orders| - 1];
      Coins(orders[..|orders| - 1]) + if o.status == FILLED && o.role != TP then o.qty else 0.0
  }

  function Spent(orders: seq<Order>): real {
    if orders == [] then 0.0
    else
      var o := orders[|orders| - 1];
      Spent(orders[..|orders| - 1])
      + if o.status != FILLED || o.role == TP then 0.0
        else (if o.price == 0.0 then o.avgFillPrice else o.price) * o.qty
  }

  lemma {:induction false} EntriesAre(orders: seq<Order>, n: nat)
    requires n <= |orders|
    ensures EntryQty(orders, n) == Coins(orders[..n]) && EntryCost(orders, n) == Spent(orders[..n])
  {
    if n > 0 {
      EntriesAre(orders, n - 1);
      assert orders[..n][..n - 1] == orders[..n - 1];
    }
  }

  /** A recalculation with coins and at most one live take-profit re-averages over exactly those. */
  lemma RecalculatedAverages(r: BasketRow, t: Tick, reply: Option<Option<int>>)
    requires Coins(r.orders) > 0.0
    requires exists i :: 0 <= i < |r.orders| && r.orders[i].status == FILLED && r.orders[i].role != TP
    ensures var after := Recalculated(r, t, reply);
            after.qty == Coins(r.orders) && after.avgEntry * Coins(r.orders) == Spent(r.orders)
  {
    hide Recalculated, EntryQty, EntryCost, Coins, Spent;
    EntriesAre(r.orders, |r.orders|);
    assert r.orders[..|r.orders|] == r.orders;
    assert HasEntryFill(r.orders) by {
      var i :| 0 <= i < |r.orders| && r.orders[i].status == FILLED && r.orders[i].role != TP;
      assert IsEntryFill(r.orders[i]);
    }
    RecalculatedIsAverage(r, t, reply);
  }

  // ---------- The take-profit after a safety order ----------

  lemma {:induction false} WalkKeepsTargets(l: Live, t: Tick, mark: real, already: int, i: nat)
    requires i <= |l.row.levels|
    ensures var after := Walk(l, t, mark, already, i);
            LiveTps(after.row.orders, |after.row.orders|) == LiveTps(l.row.orders, |l.row.orders|)
    ensures Walk(l, t, mark, already, i).executed == l.executed ==>
              Walk(l, t, mark, already, i).row.orders == l.row.orders
    decreases |l.row.levels| - i
  {
    hide RoundDown, Breached, TooSmall, LiveTps;
    if i < |l.row.levels| {
      var so := l.row.levels[i];
      if so.index <= already {
        WalkKeepsTargets(l, t, mark, already, i + 1);
      } else if Breached(l.row.side, mark, so.fillPrice) {
        var qty := RoundDown(so.qty, t.precision.qtyStep);
        if TooSmall(qty, mark, t.precision) {
          WalkKeepsTargets(l.(row := l.row.(sosFilled := so.index)), t, mark, already, i + 1);
        } else if t.place(so.index).Some? {
          var row := SoRow(so.index, qty, FillPriceOf(t.place(so.index).value, mark));
          var next := Live(l.row.(sosFilled := so.index, orders := l.row.orders + [row]),
                           l.executed + [Execution(so.index, mark)]);
          RowIsNoTarget(l.row.orders, row);
          WalkKeepsTargets(next, t, mark, already, i + 1);
          WalkOnlySends(next, t, mark, already, i + 1);
        }
      }
    }
  }

  lemma RowIsNoTarget(orders: seq<Order>, row: Order)
    requires row.role.SO?
    ensures LiveTps(orders + [row], |orders + [row]|) == LiveTps(orders, |orders|)
  {
    LiveTpsPrefix(orders + [row], |orders|);
    assert (orders + [row])[..|orders|] == orders;
  }

  /** A tick that sends nothing leaves all order rows, the average and the quantity as they are.  One that sends a
      safety order, with at most one live take-profit and its new one accepted, ends this step with coins and average
      over all filled orders, the new ones included, and as its last row a live take-profit for all of them: the reply's
      id, the rounded quantity, the rounded price at which the new average earns the target. */
  lemma SentMovesTarget(l: Live, t: Tick, id: Option<int>)
    requires Trades(l, t) && |LiveTps(l.row.orders, |l.row.orders|)| <= 1 && t.soTp == Some(id)
    ensures var after := AfterVirtualSos(l, t).row;
            if !Fires(l, t)
            then after.orders == l.row.orders && after.avgEntry == l.row.avgEntry && after.qty == l.row.qty
                 && after.tpPrice == l.row.tpPrice
            else after.orders != [] &&
                 var coins, spent, o := Coins(after.orders), Spent(after.orders), after.orders[|after.orders| - 1];
                 (coins > 0.0 ==>
                    && after.qty == coins && after.avgEntry == spent / coins && after.tpPrice == o.price
                    && o == Order(id, TP, LIMIT, RoundDown(coins, t.precision.qtyStep), o.price, 0.0, NEW)
                    && o.price == RoundDown(if l.row.side.LONG? then after.avgEntry + l.row.tpTarget / coins
                                            else after.avgEntry - l.row.tpTarget / coins, t.precision.tickSize))
  {
    hide Walk, MarkPrice, RoundDown, Fires, Trades, Coins, Spent;
    FiresMeans(l, t);
    if WalksLadder(l.row, t) {
      var mark := MarkPrice(t).value;
      WalkKeepsTargets(l, t, mark, l.row.sosFilled, 0);
      var walked := Walk(l, t, mark, l.row.sosFilled, 0);
      WalkKeepsTerms(l, t, mark, l.row.sosFilled, 0);
      if walked.executed != l.executed {
        SentHasRow(l, t, mark, l.row.sosFilled, 0);
        TargetAfter(walked.row, t, id);
      }
    }
  }

  lemma {:induction false} WalkKeepsTerms(l: Live, t: Tick, mark: real, already: int, i: nat)
    requires i <= |l.row.levels|
    ensures var after := Walk(l, t, mark, already, i).row;
            after == l.row.(sosFilled := after.sosFilled, orders := after.orders)
    decreases |l.row.levels| - i
  {
    hide RoundDown, Breached, TooSmall;
    if i < |l.row.levels| {
      var so := l.row.levels[i];
      if so.index <= already {
        WalkKeepsTerms(l, t, mark, already, i + 1);
      } else if Breached(l.row.side, mark, so.fillPrice) {
        var qty := RoundDown(so.qty, t.precision.qtyStep);
        if TooSmall(qty, mark, t.precision) {
          WalkKeepsTerms(l.(row := l.row.(sosFilled := so.index)), t, mark, already, i + 1);
        } else if t.place(so.index).Some? {
          var row := SoRow(so.index, qty, FillPriceOf(t.place(so.index).value, mark));
          WalkKeepsTerms(Live(l.row.(sosFilled := so.index, orders := l.row.orders + [row]),
                              l.executed + [Execution(so.index, mark)]),
                         t, mark, already, i + 1);
        }
      }
    }
  }

  ghost predicate HasFilledEntry(orders: seq<Order>) {
    exists i :: 0 <= i < |orders| && IsEntryFill(orders[i])
  }

  lemma {:induction false} EntryStays(l: Live, t: Tick, mark: real, already: int, i: nat)
    requires i <= |l.row.levels| && HasFilledEntry(l.row.orders)
    ensures HasFilledEntry(Walk(l, t, mark, already, i).row.orders)
    decreases |l.row.levels| - i
  {
    hide RoundDown, Breached, TooSmall;
    if i < |l.row.levels| {
      var so := l.row.levels[i];
      if so.index <= already {
        EntryStays(l, t, mark, already, i + 1);
      } else if Breached(l.row.side, mark, so.fillPrice) {
        var qty := RoundDown(so.qty, t.precision.qtyStep);
        if TooSmall(qty, mark, t.precision) {
          EntryStays(l.(row := l.row.(sosFilled := so.index)), t, mark, already, i + 1);
        } else if t.place(so.index).Some? {
          var row := SoRow(so.index, qty, FillPriceOf(t.place(so.index).value, mark));
          EntryAppended(l.row.orders, row);
          EntryStays(Live(l.row.(sosFilled := so.index, orders := l.row.orders + [row]),
                          l.executed + [Execution(so.index, mark)]),
                     t, mark, already, i + 1);
        }
      }
    }
  }

  lemma EntryAppended(orders: seq<Order>, row: Order)
    requires HasFilledEntry(orders) || IsEntryFill(row)
    ensures HasFilledEntry(orders + [row])
  {
    if HasFilledEntry(orders) {
      var i :| 0 <= i < |orders| && IsEntryFill(orders[i]);
      assert (orders + [row])[i] == orders[i];
    } else {
      assert (orders + [row])[|orders|] == row;
    }
  }

  lemma {:induction false} SentHasRow(l: Live, t: Tick, mark: real, already: int, i: nat)
    requires i <= |l.row.levels| && Walk(l, t, mark, already, i).executed != l.executed
    ensures HasFilledEntry(Walk(l, t, mark, already, i).row.orders)
    decreases |l.row.levels| - i
  {
    hide RoundDown, Breached, TooSmall, HasFilledEntry;
    if i < |l.row.levels| {
      var so := l.row.levels[i];
      if so.index <= already {
        SentHasRow(l, t, mark, already, i + 1);
      } else if Breached(l.row.side, mark, so.fillPrice) {
        var qty := RoundDown(so.qty, t.precision.qtyStep);
        if TooSmall(qty, mark, t.precision) {
          SentHasRow(l.(row := l.row.(sosFilled := so.index)), t, mark, already, i + 1);
        } else if t.place(so.index).Some? {
          var row := SoRow(so.index, qty, FillPriceOf(t.place(so.index).value, mark));
          EntryAppended(l.row.orders, row);
          EntryStays(Live(l.row.(sosFilled := so.index, orders := l.row.orders + [row]),
                          l.executed + [Execution(so.index, mark)]),
                     t, mark, already, i + 1);
        }
      }
    }
  }

  /** Coins and cost do not depend on take-profit rows. */
  lemma {:induction false} TargetsCostNothing(before: seq<Order>, after: seq<Order>)
    requires OnlyTpTouched(before, after)
    ensures Coins(after) == Coins(before) && Spent(after) == Spent(before)
    decreases |after|
  {
    if after != [] {
      var n := |after| - 1;
      if |before| == |after| {
        TargetsCostNothing(before[..n], after[..n]);
      } else {
        TargetsCostNothing(before, after[..n]);
      }
    }
  }

  lemma TargetAfter(r: BasketRow, t: Tick, id: Option<int>)
    requires HasFilledEntry(r.orders) && |LiveTps(r.orders, |r.orders|)| <= 1
    ensures var after := Recalculated(r, t, Some(id));
            after.orders != [] &&
            var coins, spent, o := Coins(after.orders), Spent(after.orders), after.orders[|after.orders| - 1];
            (coins > 0.0 ==>
               && after.qty == coins && after.avgEntry == spent / coins && after.tpPrice == o.price
               && o == Order(id, TP, LIMIT, RoundDown(coins, t.precision.qtyStep), o.price, 0.0, NEW)
               && o.price == RoundDown(if r.side.LONG? then after.avgEntry + r.tpTarget / coins
                                       else after.avgEntry - r.tpTarget / coins, t.precision.tickSize))
  {
    hide RoundDown, EntryQty, EntryCost, Coins, Spent, OnlyTpTouched;
    RecalculatedFrame(r, t, Some(id));
    TargetsCostNothing(r.orders, Recalculated(r, t, Some(id)).orders);
    EntriesAre(r.orders, |r.orders|);
    assert r.orders[..|r.orders|] == r.orders;
  }

  // ---------- What an order query makes of a row ----------

  /** A row without an exchange id keeps its status; an answer that cannot be read makes it UNKNOWN; an answer without a
      status counts as FILLED; any other is taken over. */
  lemma QueryAnswers(o: Order, reply: Option<Detail>)
    ensures var status := Queried(o, reply);
            && (o.exchangeId == None ==> status == o.status)
            && (o.exchangeId != None && (reply == None || !reply.value.readable) ==> status == UNKNOWN)
            && (o.exchangeId != None && reply == Some(Detail(None, true)) ==> status == FILLED)
            && (forall told :: o.exchangeId != None && reply == Some(Detail(Some(told), true)) ==> status == told)
  {}

  /** The order loop looks at rows that are NEW, PARTIALLY_FILLED or UNKNOWN and not in the list of open orders. */
  lemma LoopLooksAt(orders: seq<Order>, openIds: set<int>, j: nat)
    requires j < |orders|
    ensures j in Pending(orders, |orders|) <==> orders[j].status in {NEW, PARTIALLY_FILLED, UNKNOWN}
    ensures match orders[j].exchangeId
            case None => Gone(orders[j], openIds)
            case Some(id) => Gone(orders[j], openIds) <==> id !in openIds
  {
    PendingComplete(orders, |orders|);
    PendingMeans(orders, |orders|);
  }

  /** A row counts as a live take-profit while it is NEW or PARTIALLY_FILLED. */
  lemma LiveTargets(orders: seq<Order>, j: nat)
    requires j < |orders|
    ensures j in LiveTps(orders, |orders|) <==> orders[j].role == TP && orders[j].status in {NEW, PARTIALLY_FILLED}
  {
    LiveTpsAreTps(orders, |orders|);
    LiveTpsComplete(orders, |orders|);
  }

  lemma {:induction false} OthersCanceled(orders: seq<Order>, pending: seq<nat>, keep: nat, n: nat, j: nat)
    requires n <= |pending| && j < |orders| && forall i :: 0 <= i < |pending| ==> pending[i] < |orders|
    ensures CancelOthers(orders, pending, keep, n)[j]
            == if j in pending[..n] && j != keep && orders[j].status !in {FILLED, CANCELED}
               then orders[j].(status := CANCELED) else orders[j]
  {
    if n > 0 {
      OthersCanceled(orders, pending, keep, n - 1, j);
      assert pending[..n] == pending[..n - 1] + [pending[n - 1]];
    }
  }

  /** When the order loop comes to a take-profit answered FILLED, it closes the basket at it: the other rows pending at
      its start become CANCELED unless they are FILLED or CANCELED by then, and every other row stays. */
  lemma FilledTargetCloses(r: BasketRow, t: Tick, openIds: set<int>, pending: seq<nat>, i: nat)
    requires i < |pending| && forall k :: 0 <= k < |pending| ==> pending[k] < |r.orders|
    requires var o := r.orders[pending[i]];
             o.role == TP && Gone(o, openIds) && Queried(o, t.query(pending[i])) == FILLED
    ensures var after := OrderLoop(r, t, openIds, pending, i);
            && after == r.(status := CLOSED, exitReason := Some(TP_FILLED), finalized := r.finalized + 1,
                           orders := after.orders)
            && |after.orders| == |r.orders|
            && forall j: nat :: j < |r.orders| ==>
                 after.orders[j] == if j == pending[i] then r.orders[j].(status := FILLED)
                                    else if j in pending && r.orders[j].status !in {FILLED, CANCELED}
                                    then r.orders[j].(status := CANCELED) else r.orders[j]
  {
    hide Gone, Queried, CancelOthers;
    var seen := r.orders[pending[i] := r.orders[pending[i]].(status := FILLED)];
    assert pending[..|pending|] == pending;
    forall j: nat | j < |r.orders|
      ensures CancelOthers(seen, pending, pending[i], |pending|)[j]
              == if j in pending && j != pending[i] && seen[j].status !in {FILLED, CANCELED}
                 then seen[j].(status := CANCELED) else seen[j]
    {
      OthersCanceled(seen, pending, pending[i], |pending|, j);
    }
  }

  // ---------- The watchdog and the forced close ----------

  /** When exactly a tick ends at the watchdog with the basket closed: the basket is two minutes old or of unknown age,
      and both reads of the tick, the second one by REST, list no amount. */
  ghost predicate BothReadsFlat(t: Tick) {
    && (t.cachedPositions.Some? || t.restPositions.Some?) && t.confirmPositions.Some?
    && (forall i :: t.cachedPositions.Some? && 0 <= i < |t.cachedPositions.value| ==>
          t.cachedPositions.value[i].amount == 0.0)
    && (forall i :: t.cachedPositions.None? && 0 <= i < |t.restPositions.value| ==>
          t.restPositions.value[i].amount == 0.0)
    && (forall i :: 0 <= i < |t.confirmPositions.value| ==> t.confirmPositions.value[i].amount == 0.0)
  }

  lemma WatchdogExactly(l: Live, t: Tick)
    ensures Watched(l.row, t) <==> (l.row.openedAt == None || t.now - l.row.openedAt.value >= 120.0)
    ensures GoneConfirmed(t) <==> BothReadsFlat(t)
    ensures Watched(l.row, t) && t.cachedPositions == None && t.restPositions == None ==> Monitored(l, t) == l
  {
    GoneMeansFlat(t);
    if t.cachedPositions.Some? { FlatMeans(t.cachedPositions.value); }
    if t.restPositions.Some? { FlatMeans(t.restPositions.value); }
    if t.confirmPositions.Some? { FlatMeans(t.confirmPositions.value); }
    hide FirstAmount, AfterVirtualSos, AfterOrders, AfterRisk, AfterSafetyNet, WatchdogClosed;
  }

  lemma {:induction false} FlatMeans(positions: seq<Pos>)
    ensures FirstAmount(positions) == 0.0 <==> forall i :: 0 <= i < |positions| ==> positions[i].amount == 0.0
  {
    if positions != [] {
      FlatMeans(positions[1..]);
      assert forall i :: 1 <= i < |positions| ==> positions[i] == positions[1..][i - 1];
      assert forall i :: 0 <= i < |positions| - 1 ==> positions[1..][i] == positions[i + 1];
    }
  }

  /** The exchange reported the take-profit row the watchdog was given as filled. */
  predicate ToldFilled(r: BasketRow, t: Tick) {
    match t.tpRow
    case None => false
    case Some(j) =>
      j < |r.orders| && r.orders[j].role == TP && r.orders[j].exchangeId != None && t.tpQuery == Some(Some(FILLED))
  }

  /** What the watchdog closes a flat basket with: the take-profit row becomes FILLED if it was reported so, every other
      NEW or PARTIALLY_FILLED row CANCELED; the reason is TP_FILLED in that case and otherwise that of the first recent
      order that is not plain, or MANUAL_CLOSE. */
  lemma WatchdogCloseIs(l: Live, t: Tick)
    requires Watched(l.row, t) && BothReadsFlat(t)
    ensures var r, after := l.row, Monitored(l, t).row;
            && Monitored(l, t).executed == l.executed
            && after == r.(orders := after.orders, status := CLOSED, exitReason := after.exitReason,
                           finalized := r.finalized + 1)
            && |after.orders| == |r.orders|
            && (forall j: nat :: j < |r.orders| ==>
                  after.orders[j] == if ToldFilled(r, t) && t.tpRow == Some(j) then r.orders[j].(status := FILLED)
                                     else if r.orders[j].status in {NEW, PARTIALLY_FILLED}
                                     then r.orders[j].(status := CANCELED) else r.orders[j])
            && (ToldFilled(r, t) ==> after.exitReason == Some(TP_FILLED))
            && (!ToldFilled(r, t) ==>
                  if t.recentOrders.Some? then FirstForced(t.recentOrders.value, after.exitReason)
                  else after.exitReason == Some(MANUAL_CLOSE))
  {
    hide FirstAmount, ReasonFromOrders, FirstForced;
    WatchdogExactly(l, t);
    if t.recentOrders.Some? {
      ForcedReason(t.recentOrders.value);
    }
  }

  /** The reason is that of the first order that is not plain, or MANUAL_CLOSE without one. */
  ghost predicate FirstForced(orders: seq<Recent>, reason: Option<CloseReason>) {
    if forall i :: 0 <= i < |orders| ==> orders[i] == PlainOrder then reason == Some(MANUAL_CLOSE)
    else exists i :: 0 <= i < |orders| && (forall j :: 0 <= j < i ==> orders[j] == PlainOrder)
                     && orders[i] != PlainOrder
                     && reason == Some(if orders[i] == AdlOrder then ADL else LIQUIDATION)
  }

  lemma {:induction false} ForcedReason(orders: seq<Recent>)
    ensures FirstForced(orders, Some(ReasonFromOrders(orders)))
  {
    if orders != [] && orders[0] == PlainOrder {
      ForcedReason(orders[1..]);
      assert forall j :: 1 <= j < |orders| ==> orders[j] == orders[1..][j - 1];
      if forall i :: 0 <= i < |orders| - 1 ==> orders[1..][i] == PlainOrder {
      } else {
        var i :| 0 <= i < |orders| - 1 && (forall j :: 0 <= j < i ==> orders[1..][j] == PlainOrder)
                 && orders[1..][i] != PlainOrder
                 && ReasonFromOrders(orders[1..]) == if orders[1..][i] == AdlOrder then ADL else LIQUIDATION;
        assert orders[i + 1] == orders[1..][i];
      }
    }
  }

  /** Cached answers come before those of a REST call, for positions and for open orders. */
  lemma CacheComesFirst(t: Tick)
    ensures forall cached :: t.cachedPositions == Some(cached) ==> Positions(t) == Some(cached)
    ensures t.cachedPositions == None ==> Positions(t) == t.restPositions
    ensures forall cached :: t.cachedOpen == Some(cached) ==> OpenIds(t) == Some(cached)
    ensures t.cachedOpen == None ==> OpenIds(t) == t.restOpen
  {}

  /** A forced close cancels every NEW or PARTIALLY_FILLED row and leaves the others; it closes the basket, once and
      with this reason, unless there is a quantity to sell and the closing order is refused. */
  lemma ForcedCloseIs(r: BasketRow, t: Tick)
    ensures var after := ForceClosedRow(r, t);
            var refused := r.qty > 0.0 && RoundDown(r.qty, t.precision.qtyStep) > 0.0 && !t.closeOk;
            && |after.orders| == |r.orders|
            && (forall j :: 0 <= j < |r.orders| ==>
                  after.orders[j] == if r.orders[j].status in {NEW, PARTIALLY_FILLED}
                                     then r.orders[j].(status := CANCELED) else r.orders[j])
            && after == (if refused then r.(orders := after.orders)
                         else r.(orders := after.orders, status := CLOSED, exitReason := Some(AGE_LIMIT),
                                 finalized := r.finalized + 1))
  {
    hide RoundDown;
  }

  /** What the two other closers do.  The age check closes an OPENING or OPEN basket it finds too old as a forced close
      does; one whose closing order is refused keeps its committed rows, unless a later basket of the same session
      commits the canceled ones.  The reconciler closes such a basket once, by name, when the exchange lists no
      position, and leaves its orders.  Neither sends anything, and neither touches any other basket. */
  lemma OtherClosersAre(l: Live, t: Tick)
    ensures var r, forced := l.row, ForceClosedRow(l.row, t);
            && Apply(l, AgeTick(t, false)) == l && Apply(l, Reconcile(true)) == l
            && (r.status !in {OPENING, OPEN} ==> Apply(l, AgeTick(t, true)) == l && Apply(l, Reconcile(false)) == l)
            && (r.status in {OPENING, OPEN} ==>
                  && Apply(l, AgeTick(t, true))
                     == l.(row := if forced.status == CLOSED || t.siblingCommits then forced else r)
                  && Apply(l, Reconcile(false))
                     == l.(row := r.(status := CLOSED, exitReason := Some(RECONCILED), finalized := r.finalized + 1)))
            && (r.status !in {OPENING, OPEN, CLOSING} ==> Apply(l, MonitorTick(t)) == l)
            && (r.status in {OPENING, OPEN, CLOSING} ==> Apply(l, MonitorTick(t)) == Monitored(l, t))
  {
    hide ForceClosedRow, Monitored;
  }
}
