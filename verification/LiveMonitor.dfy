/** The live basket monitor of grid_bot.py: one tick of `_monitor_basket` with its position
    watchdog, virtual safety orders, order loop, take-profit safety net and risk stop, plus the two
    other closers (`_force_close_basket` on age, and reconciler.py).  Every answer of the cache and
    of the exchange is a free input of the tick.  `None` stands for a miss or a failing call. */
module LiveMonitor {
  import opened Options
  import opened RealArith
  import opened Rounding
  import opened Liquidation
  import opened RiskController
  import opened GridLevels

  datatype BasketStatus = OPENING | OPEN | CLOSING | CLOSED | ERROR
  datatype OrderStatus = NEW | PARTIALLY_FILLED | FILLED | CANCELED | UNKNOWN | OTHER
  datatype Role = BO | TP | SO(index: int)
  datatype OrderType = MARKET | LIMIT
  datatype CloseReason = TP_FILLED | MANUAL_CLOSE | LIQUIDATION | ADL | AGE_LIMIT | RISK_STOP | RECONCILED

  /** An order row of the database. */
  datatype Order = Order(exchangeId: Option<int>, role: Role, orderType: OrderType, qty: real, price: real,
                         avgFillPrice: real, status: OrderStatus)

  /** A basket row with its orders.  `finalized` counts how often the closing routine that deducts
      the fee was entered for it. */
  datatype BasketRow = BasketRow(
    status: BasketStatus,
    side: Side,
    openedAt: Option<real>,
    levels: seq<Level>,
    sosFilled: int,
    avgEntry: real,
    qty: real,
    tpTarget: real,
    tpPrice: real,
    exitReason: Option<CloseReason>,
    tpRetry: int,
    peakLoss: real,
    orders: seq<Order>,
    finalized: nat)

  /** A safety order the exchange executed, with the mark price that triggered it. */
  datatype Execution = Execution(index: int, mark: real)

  datatype Live = Live(row: BasketRow, executed: seq<Execution>)

  datatype Pos = Pos(amount: real, mark: real)
  datatype Recent = LiquidationOrder | AutocloseOrder | AdlOrder | PlainOrder
  datatype Precision = Precision(qtyStep: real, minQty: real, tickSize: real, minNotional: real)

  /** Answer to an order query.  The status key may be missing; an unreadable number fails the
      whole query. */
  datatype Detail = Detail(status: Option<OrderStatus>, readable: bool)

  datatype RiskInputs = RiskInputs(wallet: real, unrealized: real, notional: real, symbol: string, config: RiskConfig)

  datatype Tick = Tick(
    now: real,
    cachedPositions: Option<seq<Pos>>,
    restPositions: Option<seq<Pos>>,
    confirmPositions: Option<seq<Pos>>,
    tpRow: Option<nat>,
    tpQuery: Option<Option<OrderStatus>>,
    recentOrders: Option<seq<Recent>>,
    markPositions: Option<seq<Pos>>,
    ticker: Option<real>,
    precision: Precision,
    place: int -> Option<real>,
    cancelOk: int -> bool,
    newTp: nat -> Option<Option<int>>,
    safetyTp: Option<Option<int>>,
    soTp: Option<Option<int>>,
    cachedOpen: Option<set<int>>,
    restOpen: Option<set<int>>,
    query: nat -> Option<Detail>,
    risk: Option<RiskInputs>,
    closeOk: bool,
    siblingCommits: bool)

  // ---------- Orders ----------

  predicate IsLive(o: Order) {
    o.status.NEW? || o.status.PARTIALLY_FILLED?
  }

  predicate IsLiveTp(o: Order) {
    o.role.TP? && IsLive(o)
  }

  /** Row numbers of the live take-profit orders among the first n. */
  function LiveTps(orders: seq<Order>, n: nat): seq<nat>
    requires n <= |orders|
    ensures forall i :: 0 <= i < |LiveTps(orders, n)| ==> LiveTps(orders, n)[i] < n
  {
    if n == 0 then []
    else LiveTps(orders, n - 1) + if IsLiveTp(orders[n - 1]) then [n - 1] else []
  }

  predicate IsEntryFill(o: Order) {
    o.status.FILLED? && !o.role.TP?
  }

  /** `o.price or o.avg_fill_price or 0` */
  function PaidPrice(o: Order): real {
    if o.price != 0.0 then o.price else o.avgFillPrice
  }

  function EntryQty(orders: seq<Order>, n: nat): real
    requires n <= |orders|
  {
    if n == 0 then 0.0
    else EntryQty(orders, n - 1) + if IsEntryFill(orders[n - 1]) then orders[n - 1].qty else 0.0
  }

  function EntryCost(orders: seq<Order>, n: nat): real
    requires n <= |orders|
  {
    if n == 0 then 0.0
    else EntryCost(orders, n - 1)
         + if IsEntryFill(orders[n - 1]) then Notional(PaidPrice(orders[n - 1]), orders[n - 1].qty) else 0.0
  }

  predicate HasEntryFill(orders: seq<Order>) {
    exists i :: 0 <= i < |orders| && IsEntryFill(orders[i])
  }

  // ---------- _recalculate_tp_after_so ----------

  /** Re-average over the filled entry orders, cancel the live take-profit, place a new one.  Every
      exception ends the routine quietly, keeping what was assigned before it: two live take-profit
      rows raise before the cancel, a refused order raises before the new row.  A failed cancel only
      leaves the old row live. */
  function Recalculated(r: BasketRow, t: Tick, reply: Option<Option<int>>): BasketRow {
    var total := EntryQty(r.orders, |r.orders|);
    if !HasEntryFill(r.orders) || total <= 0.0 then r
    else
      var avg := EntryCost(r.orders, |r.orders|) / total;
      var averaged := r.(avgEntry := avg, qty := total);
      var live := LiveTps(r.orders, |r.orders|);
      if |live| > 1 then averaged
      else
        var canceled :=
          if |live| == 1 && r.orders[live[0]].exchangeId.Some? && t.cancelOk(r.orders[live[0]].exchangeId.value)
          then averaged.(orders := r.orders[live[0] := r.orders[live[0]].(status := CANCELED)])
          else averaged;
        if reply.None? then canceled
        else
          var tp := RoundDown(CalculateTpPrice(r.side, avg, total, r.tpTarget), t.precision.tickSize);
          canceled.(orders := canceled.orders
                              + [Order(reply.value, TP, LIMIT, RoundDown(total, t.precision.qtyStep), tp, 0.0, NEW)],
                    tpPrice := tp)
  }

  // ---------- _check_virtual_sos ----------

  function FirstMark(positions: seq<Pos>): Option<real> {
    if positions == [] then None
    else if positions[0].mark > 0.0 then Some(positions[0].mark)
    else FirstMark(positions[1..])
  }

  function MarkPrice(t: Tick): Option<real> {
    var cached := if t.markPositions.Some? then FirstMark(t.markPositions.value) else None;
    if cached.Some? then cached else t.ticker
  }

  predicate Breached(side: Side, mark: real, trigger: real) {
    if side.LONG? then mark <= trigger else mark >= trigger
  }

  predicate HasLegacySo(orders: seq<Order>) {
    exists i :: 0 <= i < |orders| && orders[i].role.SO? && orders[i].orderType.LIMIT?
  }

  predicate TooSmall(qty: real, mark: real, p: Precision) {
    qty < p.minQty || Notional(mark, qty) < p.minNotional
  }

  function SoRow(index: int, qty: real, price: real): Order {
    Order(None, SO(index), MARKET, qty, price, price, FILLED)
  }

  function FillPriceOf(reply: real, mark: real): real {
    if reply == 0.0 then mark else reply
  }

  /** The walk over the ladder from level i on; `already` is sos_filled as read before the loop. */
  function Walk(l: Live, t: Tick, mark: real, already: int, i: nat): Live
    requires i <= |l.row.levels|
    decreases |l.row.levels| - i
  {
    if i == |l.row.levels| then l
    else
      var so := l.row.levels[i];
      if so.index <= already then Walk(l, t, mark, already, i + 1)
      else if !Breached(l.row.side, mark, so.fillPrice) then l
      else
        var qty := RoundDown(so.qty, t.precision.qtyStep);
        if TooSmall(qty, mark, t.precision) then
          Walk(l.(row := l.row.(sosFilled := so.index)), t, mark, already, i + 1)
        else if t.place(so.index).None? then l
        else
          var row := SoRow(so.index, qty, FillPriceOf(t.place(so.index).value, mark));
          Walk(Live(l.row.(sosFilled := so.index, orders := l.row.orders + [row]),
                    l.executed + [Execution(so.index, mark)]),
               t, mark, already, i + 1)
  }

  predicate WalksLadder(r: BasketRow, t: Tick) {
    r.status.OPEN? && r.levels != [] && r.sosFilled < |r.levels| && !HasLegacySo(r.orders) && MarkPrice(t).Some?
  }

  function AfterVirtualSos(l: Live, t: Tick): Live {
    if !WalksLadder(l.row, t) then l
    else
      var walked := Walk(l, t, MarkPrice(t).value, l.row.sosFilled, 0);
      if walked.executed == l.executed then walked
      else walked.(row := Recalculated(walked.row, t, t.soTp))
  }

  // ---------- The order loop ----------

  predicate IsPending(o: Order) {
    IsLive(o) || o.status.UNKNOWN?
  }

  function Pending(orders: seq<Order>, n: nat): seq<nat>
    requires n <= |orders|
    ensures forall i :: 0 <= i < |Pending(orders, n)| ==> Pending(orders, n)[i] < n
  {
    if n == 0 then []
    else Pending(orders, n - 1) + if IsPending(orders[n - 1]) then [n - 1] else []
  }

  /** `_query_order_fill`: an order without an exchange id is left alone, a failing query makes the
      row UNKNOWN, and a reply without a status counts as FILLED. */
  function Queried(o: Order, reply: Option<Detail>): OrderStatus {
    if o.exchangeId.None? then o.status
    else if reply.None? || !reply.value.readable then UNKNOWN
    else if reply.value.status.None? then FILLED
    else reply.value.status.value
  }

  /** Cancels the other pending rows, those numbered by the first n entries. */
  function CancelOthers(orders: seq<Order>, pending: seq<nat>, keep: nat, n: nat): (out: seq<Order>)
    requires n <= |pending| && forall i :: 0 <= i < |pending| ==> pending[i] < |orders|
    ensures |out| == |orders|
  {
    if n == 0 then orders
    else
      var before := CancelOthers(orders, pending, keep, n - 1);
      var j := pending[n - 1];
      if j != keep && !before[j].status.FILLED? && !before[j].status.CANCELED?
      then before[j := before[j].(status := CANCELED)]
      else before
  }

  function Finalized(r: BasketRow): BasketRow {
    r.(finalized := r.finalized + 1)
  }

  predicate Gone(o: Order, openIds: set<int>) {
    o.exchangeId.None? || o.exchangeId.value !in openIds
  }

  /** The loop over the rows pending at its start, from position i on. */
  function OrderLoop(r: BasketRow, t: Tick, openIds: set<int>, pending: seq<nat>, i: nat): BasketRow
    requires i <= |pending| && forall k :: 0 <= k < |pending| ==> pending[k] < |r.orders|
    decreases |pending| - i
  {
    if i == |pending| then r
    else
      var j := pending[i];
      var o := r.orders[j];
      if !Gone(o, openIds) then OrderLoop(r, t, openIds, pending, i + 1)
      else
        var status := Queried(o, t.query(j));
        var seen := r.(orders := r.orders[j := o.(status := status)]);
        if o.role.TP? && status.FILLED? then
          Finalized(seen.(status := CLOSED, exitReason := Some(TP_FILLED),
                          orders := CancelOthers(seen.orders, pending, j, |pending|)))
        else if o.role.SO? && status.FILLED? then
          var counted := seen.(sosFilled := seen.sosFilled + 1);
          RecalculatedKeepsRows(counted, t, t.newTp(j));
          OrderLoop(Recalculated(counted, t, t.newTp(j)), t, openIds, pending, i + 1)
        else OrderLoop(seen, t, openIds, pending, i + 1)
  }

  lemma RecalculatedKeepsRows(r: BasketRow, t: Tick, reply: Option<Option<int>>)
    ensures |Recalculated(r, t, reply).orders| >= |r.orders|
  {}

  // ---------- _force_close_basket ----------

  function CancelLive(orders: seq<Order>): seq<Order> {
    seq(|orders|, i requires 0 <= i < |orders| => if IsLive(orders[i]) then orders[i].(status := CANCELED)
            else orders[i])
  }

  /** Cancels the live rows, then places the closing market order; when that order fails the routine
      gives up with the rows already canceled and the basket still open. */
  function ForceClosedRow(r: BasketRow, t: Tick): BasketRow {
    var canceled := r.(orders := CancelLive(r.orders));
    var qty := RoundDown(r.qty, t.precision.qtyStep);
    if r.qty > 0.0 && qty > 0.0 && !t.closeOk then canceled
    else Finalized(canceled.(status := CLOSED, exitReason := Some(AGE_LIMIT)))
  }

  // ---------- _monitor_basket ----------

  function FirstAmount(positions: seq<Pos>): real {
    if positions == [] then 0.0
    else if positions[0].amount != 0.0 then positions[0].amount
    else FirstAmount(positions[1..])
  }

  function Age(r: BasketRow, t: Tick): real {
    if r.openedAt.Some? then t.now - r.openedAt.value else 999.0
  }

  predicate Watched(r: BasketRow, t: Tick) {
    Age(r, t) >= 120.0
  }

  function Positions(t: Tick): Option<seq<Pos>> {
    if t.cachedPositions.Some? then t.cachedPositions else t.restPositions
  }

  /** The first read says flat and a separate REST read in the same tick says flat again. */
  predicate GoneConfirmed(t: Tick) {
    && Positions(t).Some? && FirstAmount(Positions(t).value) == 0.0
    && t.confirmPositions.Some? && FirstAmount(t.confirmPositions.value) == 0.0
  }

  function ReasonFromOrders(orders: seq<Recent>): CloseReason {
    if orders == [] then MANUAL_CLOSE
    else match orders[0]
      case LiquidationOrder => LIQUIDATION
      case AutocloseOrder => LIQUIDATION
      case AdlOrder => ADL
      case PlainOrder => ReasonFromOrders(orders[1..])
  }

  /** The take-profit row the watchdog looks at is whichever one the database returns first. */
  predicate LooksAtTp(r: BasketRow, t: Tick) {
    && t.tpRow.Some? && t.tpRow.value < |r.orders|
    && r.orders[t.tpRow.value].role.TP? && r.orders[t.tpRow.value].exchangeId.Some?
  }

  predicate TpReportedFilled(r: BasketRow, t: Tick) {
    LooksAtTp(r, t) && t.tpQuery == Some(Some(FILLED))
  }

  function WatchdogReason(r: BasketRow, t: Tick): CloseReason {
    if TpReportedFilled(r, t) then TP_FILLED
    else if t.recentOrders.Some? then ReasonFromOrders(t.recentOrders.value)
    else MANUAL_CLOSE
  }

  function WatchdogOrders(r: BasketRow, t: Tick): seq<Order> {
    if TpReportedFilled(r, t) then CancelLive(r.orders[t.tpRow.value := r.orders[t.tpRow.value].(status := FILLED)])
    else CancelLive(r.orders)
  }

  function WatchdogClosed(r: BasketRow, t: Tick): BasketRow {
    Finalized(r.(orders := WatchdogOrders(r, t), status := CLOSED, exitReason := Some(WatchdogReason(r, t))))
  }

  function OpenIds(t: Tick): Option<set<int>> {
    if t.cachedOpen.Some? then t.cachedOpen else t.restOpen
  }

  function AfterOrders(r: BasketRow, t: Tick, openIds: set<int>): BasketRow {
    OrderLoop(r, t, openIds, Pending(r.orders, |r.orders|), 0)
  }

  /** Two live take-profit rows make the safety net's query raise, which ends the tick. */
  predicate SafetyNetRaises(r: BasketRow) {
    r.status.OPEN? && |LiveTps(r.orders, |r.orders|)| > 1
  }

  function AfterSafetyNet(r: BasketRow, t: Tick): BasketRow {
    if r.status.OPEN? && LiveTps(r.orders, |r.orders|) == [] && r.tpRetry < 3
    then Recalculated(r, t, t.safetyTp).(tpRetry := 0)
    else r
  }

  function AfterRisk(r: BasketRow, t: Tick): BasketRow {
    if !r.status.OPEN? || r.sosFilled <= 0 || t.risk.None? then r
    else
      var inputs := t.risk.value;
      var loss := if inputs.unrealized < 0.0 then -inputs.unrealized else 0.0;
      var tracked := r.(peakLoss := Max(r.peakLoss, loss));
      if Evaluate(r.sosFilled, inputs.unrealized, inputs.wallet, inputs.notional, inputs.symbol, inputs.config,
                  tracked.peakLoss).Keep?
      then tracked
      else ForceClosedRow(tracked, t).(exitReason := Some(RISK_STOP))
  }

  /** What remains of a tick that ends in an exception: nothing was committed, so the rows fall back
      to `saved` unless a later basket of the same session commits; the exchange keeps its orders. */
  function Aborted(l: Live, saved: BasketRow, t: Tick): Live {
    if t.siblingCommits then l else l.(row := saved)
  }

  function Monitored(l: Live, t: Tick): Live {
    if Watched(l.row, t) && Positions(t).None? then l
    else if Watched(l.row, t) && GoneConfirmed(t) then l.(row := WatchdogClosed(l.row, t))
    else
      var filled := AfterVirtualSos(l, t);
      if OpenIds(t).None? then Aborted(filled, l.row, t)
      else
        var ordered := AfterOrders(filled.row, t, OpenIds(t).value);
        if SafetyNetRaises(ordered) then Aborted(filled.(row := ordered), l.row, t)
        else filled.(row := AfterRisk(AfterSafetyNet(ordered, t), t))
  }

  // ---------- The monitor in place ----------

  class LiveBasket {
    var status: BasketStatus
    const side: Side
    const openedAt: Option<real>
    const gridLevels: seq<Level>
    var sosFilled: int
    var avgEntry: real
    var qty: real
    const tpTarget: real
    var tpPrice: real
    var exitReason: Option<CloseReason>
    var tpRetry: int
    var peakLoss: real
    var orders: seq<Order>
    var finalized: nat
    var executed: seq<Execution>

    function Row(): BasketRow
      reads this
    {
      BasketRow(status, side, openedAt, gridLevels, sosFilled, avgEntry, qty, tpTarget, tpPrice, exitReason, tpRetry,
                peakLoss, orders, finalized)
    }

    function State(): Live
      reads this
    {
      Live(Row(), executed)
    }

    constructor (r: BasketRow)
      ensures State() == Live(r, [])
    {
      status, side, openedAt, gridLevels := r.status, r.side, r.openedAt, r.levels;
      sosFilled, avgEntry, qty, tpTarget, tpPrice := r.sosFilled, r.avgEntry, r.qty, r.tpTarget, r.tpPrice;
      exitReason, tpRetry, peakLoss, orders, finalized := r.exitReason, r.tpRetry, r.peakLoss, r.orders, r.finalized;
      executed := [];
    }

    /** Session rollback: the rows return to their committed values. */
    method Restore(saved: BasketRow)
      requires saved.side == side && saved.openedAt == openedAt && saved.levels == gridLevels &&
              saved.tpTarget == tpTarget
      modifies this
      ensures State() == Live(saved, old(executed))
    {
      status, sosFilled, avgEntry, qty, tpPrice := saved.status, saved.sosFilled, saved.avgEntry, saved.qty,
              saved.tpPrice;
      exitReason, tpRetry, peakLoss := saved.exitReason, saved.tpRetry, saved.peakLoss;
      orders, finalized := saved.orders, saved.finalized;
    }

    method RecalculateTpAfterSo(t: Tick, reply: Option<Option<int>>)
      modifies this
      ensures State() == old(State()).(row := Recalculated(old(Row()), t, reply))
    {
      hide RoundDown, CalculateTpPrice, Notional;
      var totalQty, totalCost, any := 0.0, 0.0, false;
      var i := 0;
      while i < |orders|
        invariant 0 <= i <= |orders|
        invariant totalQty == EntryQty(orders, i) && totalCost == EntryCost(orders, i)
        invariant any <==> exists k :: 0 <= k < i && IsEntryFill(orders[k])
      {
        if IsEntryFill(orders[i]) {
          totalQty := totalQty + orders[i].qty;
          totalCost := totalCost + Notional(PaidPrice(orders[i]), orders[i].qty);
          any := true;
        }
        i := i + 1;
      }
      if !any || totalQty <= 0.0 {
        return;
      }
      avgEntry := totalCost / totalQty;
      qty := totalQty;
      var newTp := RoundDown(CalculateTpPrice(side, avgEntry, totalQty, tpTarget), t.precision.tickSize);
      var live := LiveTps(orders, |orders|);
      if |live| > 1 {
        return;
      }
      if |live| == 1 && orders[live[0]].exchangeId.Some? {
        if t.cancelOk(orders[live[0]].exchangeId.value) {
          orders := orders[live[0] := orders[live[0]].(status := CANCELED)];
        }
      }
      if reply.Some? {
        orders := orders
                  + [Order(reply.value, TP, LIMIT, RoundDown(totalQty, t.precision.qtyStep), newTp, 0.0, NEW)];
        tpPrice := newTp;
      }
    }

    method CheckVirtualSos(t: Tick)
      modifies this
      ensures State() == AfterVirtualSos(old(State()), t)
    {
      hide RoundDown, Notional, Recalculated, Breached, MarkPrice;
      if !status.OPEN? || gridLevels == [] || sosFilled >= |gridLevels| || HasLegacySo(orders) {
        return;
      }
      var price := FindMark(t);
      if price.None? {
        return;
      }
      var mark := price.value;
      var already := sosFilled;
      var anyFired := false;
      var i := 0;
      ghost var before := State();
      ghost var goal := Walk(before, t, mark, already, 0);
      while i < |gridLevels|
        invariant 0 <= i <= |gridLevels|
        invariant State().row.levels == before.row.levels
        invariant Walk(State(), t, mark, already, i) == goal
        invariant |executed| >= |before.executed|
        invariant anyFired <==> executed != before.executed
      {
        var so := gridLevels[i];
        if so.index <= already {
          i := i + 1;
          continue;
        }
        if !Breached(side, mark, so.fillPrice) {
          break;
        }
        var soQty := RoundDown(so.qty, t.precision.qtyStep);
        if TooSmall(soQty, mark, t.precision) {
          sosFilled := so.index;
          i := i + 1;
          continue;
        }
        var reply := t.place(so.index);
        if reply.None? {
          break;
        }
        orders := orders + [SoRow(so.index, soQty, FillPriceOf(reply.value, mark))];
        executed := executed + [Execution(so.index, mark)];
        sosFilled := so.index;
        anyFired := true;
        i := i + 1;
      }
      assert State() == goal;
      if anyFired {
        RecalculateTpAfterSo(t, t.soTp);
      }
    }

    method MonitorOrders(t: Tick, openIds: set<int>)
      modifies this
      ensures State() == old(State()).(row := AfterOrders(old(Row()), t, openIds))
    {
      hide Recalculated, CancelOthers;
      var pending := Pending(orders, |orders|);
      ghost var goal := OrderLoop(Row(), t, openIds, pending, 0);
      var i := 0;
      while i < |pending|
        invariant 0 <= i <= |pending|
        invariant forall k :: 0 <= k < |pending| ==> pending[k] < |orders|
        invariant executed == old(executed)
        invariant OrderLoop(Row(), t, openIds, pending, i) == goal
      {
        var j := pending[i];
        if Gone(orders[j], openIds) {
          var o := orders[j];
          var newStatus := Queried(o, t.query(j));
          orders := orders[j := o.(status := newStatus)];
          if o.role.TP? && newStatus.FILLED? {
            status, exitReason := CLOSED, Some(TP_FILLED);
            CancelPending(pending, j);
            finalized := finalized + 1;
            break;
          } else if o.role.SO? && newStatus.FILLED? {
            sosFilled := sosFilled + 1;
            RecalculatedKeepsRows(Row(), t, t.newTp(j));
            RecalculateTpAfterSo(t, t.newTp(j));
          }
        }
        i := i + 1;
      }
    }

    method CancelPending(pending: seq<nat>, keep: nat)
      requires forall k :: 0 <= k < |pending| ==> pending[k] < |orders|
      modifies this`orders
      ensures orders == CancelOthers(old(orders), pending, keep, |pending|)
    {
      var k := 0;
      while k < |pending|
        invariant 0 <= k <= |pending|
        invariant |orders| == |old(orders)|
        invariant orders == CancelOthers(old(orders), pending, keep, k)
      {
        var j := pending[k];
        if j != keep && !orders[j].status.FILLED? && !orders[j].status.CANCELED? {
          orders := orders[j := orders[j].(status := CANCELED)];
        }
        k := k + 1;
      }
    }

    method CancelLiveOrders()
      modifies this`orders
      ensures orders == CancelLive(old(orders))
    {
      var k := 0;
      while k < |orders|
        invariant 0 <= k <= |orders| == |old(orders)|
        invariant forall m :: 0 <= m < k ==>
                    orders[m] == if IsLive(old(orders)[m]) then old(orders)[m].(status := CANCELED) else old(orders)[m]
        invariant forall m :: k <= m < |orders| ==> orders[m] == old(orders)[m]
      {
        if IsLive(orders[k]) {
          orders := orders[k := orders[k].(status := CANCELED)];
        }
        k := k + 1;
      }
    }

    method ForceClose(t: Tick)
      modifies this
      ensures State() == old(State()).(row := ForceClosedRow(old(Row()), t))
    {
      hide RoundDown, CancelLive;
      CancelLiveOrders();
      if qty > 0.0 {
        var closeQty := RoundDown(qty, t.precision.qtyStep);
        if closeQty > 0.0 && !t.closeOk {
          return;
        }
      }
      status, exitReason := CLOSED, Some(AGE_LIMIT);
      finalized := finalized + 1;
    }

    /** The first position amount that is not zero. */
    static method FindAmount(positions: seq<Pos>) returns (amount: real)
      ensures amount == FirstAmount(positions)
    {
      amount := 0.0;
      var i := 0;
      while i < |positions|
        invariant 0 <= i <= |positions|
        invariant FirstAmount(positions[i..]) == FirstAmount(positions)
      {
        if positions[i].amount != 0.0 {
          return positions[i].amount;
        }
        assert positions[i..][1..] == positions[i + 1..];
        i := i + 1;
      }
    }

    /** The first positive mark price among the cached positions, or the ticker's. */
    static method FindMark(t: Tick) returns (mark: Option<real>)
      ensures mark == MarkPrice(t)
    {
      if t.markPositions.Some? {
        var positions := t.markPositions.value;
        var i := 0;
        while i < |positions|
          invariant 0 <= i <= |positions|
          invariant FirstMark(positions[i..]) == FirstMark(positions)
        {
          if positions[i].mark > 0.0 {
            return Some(positions[i].mark);
          }
          assert positions[i..][1..] == positions[i + 1..];
          i := i + 1;
        }
      }
      return t.ticker;
    }

    /** The loop over recent forced orders that names the reason of a close. */
    static method FindReason(orders: seq<Recent>) returns (reason: CloseReason)
      ensures reason == ReasonFromOrders(orders)
    {
      var i := 0;
      while i < |orders|
        invariant 0 <= i <= |orders|
        invariant ReasonFromOrders(orders[i..]) == ReasonFromOrders(orders)
      {
        match orders[i] {
          case LiquidationOrder => return LIQUIDATION;
          case AutocloseOrder => return LIQUIDATION;
          case AdlOrder => return ADL;
          case PlainOrder =>
        }
        assert orders[i..][1..] == orders[i + 1..];
        i := i + 1;
      }
      return MANUAL_CLOSE;
    }

    method CloseGonePosition(t: Tick)
      modifies this
      ensures State() == old(State()).(row := WatchdogClosed(old(Row()), t))
    {
      hide CancelLive, ReasonFromOrders;
      var reason := MANUAL_CLOSE;
      if TpReportedFilled(Row(), t) {
        orders := orders[t.tpRow.value := orders[t.tpRow.value].(status := FILLED)];
        reason := TP_FILLED;
      } else if t.recentOrders.Some? {
        reason := FindReason(t.recentOrders.value);
      }
      CancelLiveOrders();
      status, exitReason := CLOSED, Some(reason);
      finalized := finalized + 1;
    }

    method CheckRisk(t: Tick)
      modifies this
      ensures State() == old(State()).(row := AfterRisk(old(Row()), t))
    {
      hide Evaluate, ForceClosedRow;
      if status.OPEN? && sosFilled > 0 && t.risk.Some? {
        var inputs := t.risk.value;
        var loss := if inputs.unrealized < 0.0 then -inputs.unrealized else 0.0;
        peakLoss := Max(peakLoss, loss);
        var verdict := Evaluate(sosFilled, inputs.unrealized, inputs.wallet, inputs.notional, inputs.symbol,
                                inputs.config, peakLoss);
        if !verdict.Keep? {
          ForceClose(t);
          exitReason := Some(RISK_STOP);
        }
      }
    }

    method Monitor(t: Tick)
      modifies this
      ensures State() == Monitored(old(State()), t)
    {
      hide AfterVirtualSos, AfterOrders, WatchdogClosed, AfterRisk, Recalculated, FirstAmount;
      var saved := Row();
      if Watched(saved, t) {
        var positions := Positions(t);
        if positions.None? {
          return;
        }
        var amount := FindAmount(positions.value);
        if amount == 0.0 && t.confirmPositions.Some? {
          var confirmed := FindAmount(t.confirmPositions.value);
          if confirmed == 0.0 {
            CloseGonePosition(t);
            return;
          }
        }
      }
      CheckVirtualSos(t);
      var openIds := OpenIds(t);
      if openIds.None? {
        if !t.siblingCommits { Restore(saved); }
        return;
      }
      MonitorOrders(t, openIds.value);
      if status.OPEN? {
        var live := LiveTps(orders, |orders|);
        if |live| > 1 {
          if !t.siblingCommits { Restore(saved); }
          return;
        }
        if live == [] && tpRetry < 3 {
          RecalculateTpAfterSo(t, t.safetyTp);
          tpRetry := 0;
        }
      }
      CheckRisk(t);
    }
  }
}
