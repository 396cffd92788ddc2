/** Exactly when the order loop closes a basket and leaves a take-profit live that it has itself just placed. */
module Replacements {
  import opened Options
  import opened Rounding
  import opened Liquidation
  import opened GridLevels
  import opened LiveMonitor
  import opened MonitorFacts

  /** What an order loop starts from, and the row it is going to close the basket at. */
  datatype Scene = Scene(row: BasketRow, t: Tick, openIds: set<int>, target: nat)

  /** The target is the only pending take-profit row, is gone from the open list and answered FILLED; every entry row
      has a positive quantity. */
  ghost predicate ClosesAtTarget(s: Scene) {
    && s.row.status.OPEN? && s.target < |s.row.orders| && s.row.orders[s.target].role.TP?
    && IsPending(s.row.orders[s.target]) && Gone(s.row.orders[s.target], s.openIds)
    && Queried(s.row.orders[s.target], s.t.query(s.target)).FILLED?
    && (forall j :: 0 <= j < |s.row.orders| && s.row.orders[j].role.TP? && IsPending(s.row.orders[j]) ==> j == s.target)
    && (forall j :: 0 <= j < |s.row.orders| && !s.row.orders[j].role.TP? ==> s.row.orders[j].qty > 0.0)
  }

  /** The exchange acknowledges the cancel of an order with this id. */
  predicate Cancelable(t: Tick, id: Option<int>) {
    id.Some? && t.cancelOk(id.value)
  }

  /** A pending safety order before the target that the loop finds filled. */
  predicate Counted(s: Scene, j: nat) {
    && j < s.target && j < |s.row.orders| && s.row.orders[j].role.SO? && IsPending(s.row.orders[j])
    && Gone(s.row.orders[j], s.openIds) && Queried(s.row.orders[j], s.t.query(j)).FILLED?
  }

  ghost predicate NoneFrom(s: Scene, j: nat) {
    forall k: nat :: j <= k ==> !Counted(s, k)
  }

  /** The target is live and its cancel is not acknowledged. */
  predicate TargetStays(s: Scene) {
    s.target < |s.row.orders| && IsLive(s.row.orders[s.target])
    && !Cancelable(s.t, s.row.orders[s.target].exchangeId)
  }

  /** The take-profit placed for safety order j stays live: nothing later cancels it. */
  ghost predicate StaysLive(s: Scene, j: nat) {
    && Counted(s, j) && s.t.newTp(j).Some?
    && (TargetStays(s) || !Cancelable(s.t, s.t.newTp(j).value) || NoneFrom(s, j + 1))
  }

  ghost predicate SomeStays(s: Scene, j: nat) {
    exists k: nat :: j <= k && StaysLive(s, k)
  }

  // ---------- The state of the loop ----------

  function Lives(orders: seq<Order>): (live: seq<nat>)
    ensures forall i :: 0 <= i < |live| ==> live[i] < |orders|
  {
    LiveTps(orders, |orders|)
  }

  predicate SameOrder(o: Order, p: Order) {
    o.role == p.role && o.exchangeId == p.exchangeId && o.qty == p.qty
  }

  /** Row q of the loop with the rows before number j behind it. */
  ghost predicate Midway(s: Scene, q: BasketRow, j: nat) {
    var n := |s.row.orders|;
    && s.target < n <= |q.orders| && q.status.OPEN?
    && (forall k :: 0 <= k < n ==> SameOrder(q.orders[k], s.row.orders[k]))
    && (forall k :: j <= k < n && k != s.target ==> q.orders[k] == s.row.orders[k])
    && (forall k :: n <= k < |q.orders| ==> q.orders[k].role.TP?)
    && (forall k :: 0 <= k < n && k != s.target ==> !IsLiveTp(q.orders[k]))
    && (q.orders[s.target].status == s.row.orders[s.target].status || q.orders[s.target].status.CANCELED?)
    && (TargetStays(s) ==> IsLive(q.orders[s.target]))
  }

  /** Whether a placed take-profit will be live at the end, as seen from row j. */
  ghost predicate WillStay(s: Scene, q: BasketRow, j: nat) {
    var live := Lives(q.orders);
    if |live| > 1 then true
    else if |live| == 1 && live[0] >= |s.row.orders|
    then !Cancelable(s.t, q.orders[live[0]].exchangeId) || NoneFrom(s, j) || SomeStays(s, j)
    else SomeStays(s, j)
  }

  ghost predicate PlacedLive(orders: seq<Order>, n: nat) {
    exists k :: n <= k < |orders| && IsLive(orders[k])
  }

  // ---------- One row ----------

  lemma PassUncounted(s: Scene, j: nat, next: nat)
    requires j <= next && forall k: nat :: j <= k < next ==> !Counted(s, k)
    ensures NoneFrom(s, j) <==> NoneFrom(s, next)
    ensures SomeStays(s, j) <==> SomeStays(s, next)
  {
    hide Counted;
    if SomeStays(s, j) {
      var k: nat :| j <= k && StaysLive(s, k);
      assert next <= k;
    }
    if SomeStays(s, next) {
      var k: nat :| next <= k && StaysLive(s, k);
      assert j <= k;
    }
  }

  lemma PassCounted(s: Scene, j: nat)
    requires Counted(s, j)
    ensures !NoneFrom(s, j)
    ensures SomeStays(s, j) <==> StaysLive(s, j) || SomeStays(s, j + 1)
  {
    hide Counted, StaysLive;
    if SomeStays(s, j) {
      var k: nat :| j <= k && StaysLive(s, k);
      assert k == j || j + 1 <= k;
    }
    if SomeStays(s, j + 1) {
      var k: nat :| j + 1 <= k && StaysLive(s, k);
      assert j <= k;
    }
  }

  lemma {:induction false} SameLives(before: seq<Order>, after: seq<Order>, n: nat)
    requires n <= |before| == |after|
    requires forall k :: 0 <= k < n ==> (IsLiveTp(after[k]) <==> IsLiveTp(before[k]))
    ensures LiveTps(after, n) == LiveTps(before, n)
  {
    if n > 0 {
      SameLives(before, after, n - 1);
    }
  }

  lemma {:induction false} EntriesWeigh(orders: seq<Order>, n: nat)
    requires n <= |orders| && forall k :: 0 <= k < |orders| && !orders[k].role.TP? ==> orders[k].qty > 0.0
    ensures EntryQty(orders, n) >= 0.0
    ensures (exists k :: 0 <= k < n && IsEntryFill(orders[k])) ==> EntryQty(orders, n) > 0.0
  {
    if n > 0 {
      EntriesWeigh(orders, n - 1);
    }
  }

  /** The row a recalculation cancels, if any: the only live take-profit, when its cancel is acknowledged. */
  function Canceled(orders: seq<Order>, t: Tick): Option<nat> {
    var live := Lives(orders);
    if |live| == 1 && Cancelable(t, orders[live[0]].exchangeId) then Some(live[0]) else None
  }

  function AfterCancel(orders: seq<Order>, t: Tick): seq<Order> {
    match Canceled(orders, t)
    case None => orders
    case Some(k) => if k < |orders| then orders[k := orders[k].(status := CANCELED)] else orders
  }

  lemma RecalculatedOrders(q: BasketRow, t: Tick, reply: Option<Option<int>>)
    requires HasEntryFill(q.orders) && EntryQty(q.orders, |q.orders|) > 0.0
    ensures var after := Recalculated(q, t, reply).orders;
            if |Lives(q.orders)| > 1 then after == q.orders
            else if reply.None? then after == AfterCancel(q.orders, t)
            else && |after| == |q.orders| + 1 && after[..|q.orders|] == AfterCancel(q.orders, t)
                 && IsLiveTp(after[|q.orders|]) && after[|q.orders|].exchangeId == reply.value
  {
    hide RoundDown, CalculateTpPrice, Notional, EntryQty, EntryCost;
    LiveTpsAreTps(q.orders, |q.orders|);
  }

  lemma LivesAfterCancel(orders: seq<Order>, t: Tick)
    ensures var after := AfterCancel(orders, t);
            && |after| == |orders| && Lives(after) == (if Canceled(orders, t).Some? then [] else Lives(orders))
            && forall k :: 0 <= k < |orders| ==>
                 SameOrder(after[k], orders[k]) && (Canceled(orders, t) != Some(k) ==> after[k] == orders[k])
  {
    var live := Lives(orders);
    LiveTpsAreTps(orders, |orders|);
    if Canceled(orders, t).Some? {
      LiveTpsAfterCancel(orders, AfterCancel(orders, t), live[0], |orders|);
    }
  }

  lemma LivesWithNew(orders: seq<Order>, after: seq<Order>)
    requires |after| == |orders| + 1 && after[..|orders|] == orders && IsLiveTp(after[|orders|])
    ensures Lives(after) == Lives(orders) + [|orders|]
  {
    LiveTpsPrefix(after, |orders|);
  }

  /** A pending row other than the target, not counted. */
  lemma UncountedRow(s: Scene, q: BasketRow, j: nat, status: OrderStatus)
    requires ClosesAtTarget(s) && Midway(s, q, j) && j < s.target && !s.row.orders[j].role.TP?
    ensures var seen := Seen(q, j, status);
            Midway(s, seen, j + 1) && Lives(seen.orders) == Lives(q.orders) && |seen.orders| == |q.orders|
            && forall k :: 0 <= k < |q.orders| ==> seen.orders[k].exchangeId == q.orders[k].exchangeId
  {
    hide Gone, Queried;
    SameLives(q.orders, Seen(q, j, status).orders, |q.orders|);
  }

  lemma CountedHasEntry(s: Scene, q: BasketRow, j: nat)
    requires ClosesAtTarget(s) && Midway(s, q, j) && Counted(s, j)
    ensures var counted := Seen(q, j, FILLED).(sosFilled := q.sosFilled + 1);
            HasEntryFill(counted.orders) && EntryQty(counted.orders, |counted.orders|) > 0.0
  {
    hide Gone, Queried;
    var orders := Seen(q, j, FILLED).orders;
    assert IsEntryFill(orders[j]);
    EntriesWeigh(orders, |orders|);
  }

  lemma CountedBounds(s: Scene, q: BasketRow, j: nat)
    requires Midway(s, q, j) && Counted(s, j)
    ensures j < s.target < |s.row.orders| <= |q.orders| && !s.row.orders[j].role.TP? && q.status.OPEN?
  {}

  /** Up to one live take-profit: it is canceled if that is acknowledged, and the new one is appended. */
  lemma CountedOnce(s: Scene, q: BasketRow, j: nat)
    requires ClosesAtTarget(s) && Midway(s, q, j) && Counted(s, j) && |Lives(q.orders)| <= 1
    ensures var next := Recalculated(Seen(q, j, FILLED).(sosFilled := q.sosFilled + 1), s.t, s.t.newTp(j));
            var canceled := Canceled(q.orders, s.t);
            && |next.orders| == |q.orders| + (if s.t.newTp(j).Some? then 1 else 0) && next.status.OPEN?
            && Lives(next.orders) == (if canceled.Some? then [] else Lives(q.orders))
                                     + (if s.t.newTp(j).Some? then [|q.orders|] else [])
            && (s.t.newTp(j).Some? ==>
                  IsLiveTp(next.orders[|q.orders|]) && next.orders[|q.orders|].exchangeId == s.t.newTp(j).value)
            && (forall k :: 0 <= k < |q.orders| ==> SameOrder(next.orders[k], q.orders[k]))
            && (forall k :: 0 <= k < |q.orders| && k != j && canceled != Some(k) ==> next.orders[k] == q.orders[k])
            && (forall k :: 0 <= k < |q.orders| && canceled == Some(k) ==> next.orders[k].status.CANCELED?)
  {
    hide Gone, Queried, Recalculated, EntryQty, LiveTps, Midway, ClosesAtTarget, Counted, HasEntryFill;
    CountedBounds(s, q, j);
    var counted := Seen(q, j, FILLED).(sosFilled := q.sosFilled + 1);
    UncountedRow(s, q, j, FILLED);
    CountedHasEntry(s, q, j);
    RecalculatedOrders(counted, s.t, s.t.newTp(j));
    RecalculatedFrame(counted, s.t, s.t.newTp(j));
    LivesAfterCancel(counted.orders, s.t);
    var next := Recalculated(counted, s.t, s.t.newTp(j));
    if s.t.newTp(j).Some? {
      LivesWithNew(AfterCancel(counted.orders, s.t), next.orders);
    }
  }

  lemma CountedMidway(s: Scene, q: BasketRow, j: nat)
    requires ClosesAtTarget(s) && Midway(s, q, j) && Counted(s, j)
    ensures Midway(s, Recalculated(Seen(q, j, FILLED).(sosFilled := q.sosFilled + 1), s.t, s.t.newTp(j)), j + 1)
  {
    hide Gone, Queried, Recalculated, EntryQty, LiveTps, HasEntryFill;
    var counted := Seen(q, j, FILLED).(sosFilled := q.sosFilled + 1);
    var next := Recalculated(counted, s.t, s.t.newTp(j));
    if |Lives(q.orders)| > 1 {
      UncountedRow(s, q, j, FILLED);
      CountedHasEntry(s, q, j);
      RecalculatedOrders(counted, s.t, s.t.newTp(j));
      RecalculatedFrame(counted, s.t, s.t.newTp(j));
    } else {
      CountedOnce(s, q, j);
      CanceledIsLive(q.orders, s.t);
    }
  }

  lemma CanceledIsLive(orders: seq<Order>, t: Tick)
    ensures Canceled(orders, t).Some? ==>
              var k := Canceled(orders, t).value;
              k < |orders| && IsLiveTp(orders[k]) && Cancelable(t, orders[k].exchangeId)
  {
    LiveTpsAreTps(orders, |orders|);
  }

  lemma LivesAre(orders: seq<Order>)
    ensures forall k: nat :: k in Lives(orders) <==> k < |orders| && IsLiveTp(orders[k])
    ensures forall k, m :: 0 <= k < m < |Lives(orders)| ==> Lives(orders)[k] < Lives(orders)[m]
  {
    LiveTpsAreTps(orders, |orders|);
    LiveTpsComplete(orders, |orders|);
  }

  /** Among the rows the loop started with, only the target can be a live take-profit. */
  lemma OldLiveIsTarget(s: Scene, q: BasketRow, j: nat)
    requires ClosesAtTarget(s) && Midway(s, q, j)
    ensures forall i :: 0 <= i < |Lives(q.orders)| && Lives(q.orders)[i] < |s.row.orders| ==>
              Lives(q.orders)[i] == s.target
    ensures TargetStays(s) ==> s.target in Lives(q.orders)
    ensures s.target in Lives(q.orders) ==>
              (TargetStays(s) <==> !Cancelable(s.t, q.orders[s.target].exchangeId))
  {
    LivesAre(q.orders);
    hide LiveTps, Lives, Cancelable, Gone, Queried;
    forall i | 0 <= i < |Lives(q.orders)| && Lives(q.orders)[i] < |s.row.orders|
      ensures Lives(q.orders)[i] == s.target
    {
      assert Lives(q.orders)[i] in Lives(q.orders);
    }
  }

  lemma CountedExpects(s: Scene, q: BasketRow, j: nat)
    requires ClosesAtTarget(s) && Midway(s, q, j) && Counted(s, j)
    ensures var next := Recalculated(Seen(q, j, FILLED).(sosFilled := q.sosFilled + 1), s.t, s.t.newTp(j));
            WillStay(s, next, j + 1) <==> WillStay(s, q, j)
  {
    hide Gone, Queried, Recalculated, EntryQty, LiveTps, HasEntryFill, NoneFrom, SomeStays, TargetStays, Counted, Lives,
         ClosesAtTarget, Midway, Cancelable;
    CountedBounds(s, q, j);
    var counted := Seen(q, j, FILLED).(sosFilled := q.sosFilled + 1);
    var next := Recalculated(counted, s.t, s.t.newTp(j));
    PassCounted(s, j);
    OldLiveIsTarget(s, q, j);
    if |Lives(q.orders)| > 1 {
      UncountedRow(s, q, j, FILLED);
      CountedHasEntry(s, q, j);
      RecalculatedOrders(counted, s.t, s.t.newTp(j));
    } else {
      CountedOnce(s, q, j);
    }
  }

  // ---------- The whole loop ----------

  /** The target is answered: the placed rows stay as they are. */
  lemma TargetClosed(s: Scene, q: BasketRow, pending: seq<nat>)
    requires ClosesAtTarget(s) && Midway(s, q, s.target)
    requires forall i :: 0 <= i < |pending| ==> pending[i] < |s.row.orders|
    ensures var out := CancelOthers(Seen(q, s.target, FILLED).orders, pending, s.target, |pending|);
            |out| == |q.orders| && forall k :: |s.row.orders| <= k < |q.orders| ==> out[k] == q.orders[k]
  {
    var seen := Seen(q, s.target, FILLED).orders;
    CancelOthersCancels(seen, pending, s.target, |pending|);
    assert pending[..|pending|] == pending;
    forall k | |s.row.orders| <= k < |q.orders|
      ensures k !in pending
    {}
  }

  lemma TargetAnswered(s: Scene, q: BasketRow)
    requires ClosesAtTarget(s) && Midway(s, q, s.target)
    ensures Gone(q.orders[s.target], s.openIds) && q.orders[s.target].role.TP?
    ensures Queried(q.orders[s.target], s.t.query(s.target)).FILLED?
  {}

  lemma AtTarget(s: Scene, q: BasketRow)
    requires ClosesAtTarget(s) && Midway(s, q, s.target)
    ensures PlacedLive(q.orders, |s.row.orders|) <==> WillStay(s, q, s.target)
  {
    hide Midway, ClosesAtTarget, LiveTps, Lives, Counted, NoneFrom, SomeStays, Cancelable, TargetStays;
    LivesAre(q.orders);
    OldLiveIsTarget(s, q, s.target);
    NoneAtTarget(s);
    PlacedAreTps(s, q);
    TargetIsOld(s);
    LiveBeyond(q.orders, Lives(q.orders), |s.row.orders|, s.target);
  }

  lemma TargetIsOld(s: Scene)
    requires ClosesAtTarget(s)
    ensures s.target < |s.row.orders|
  {}

  /** With one possible live row among the first n, some later row is live if and only if two rows are, or one later. */
  lemma LiveBeyond(orders: seq<Order>, live: seq<nat>, n: nat, target: nat)
    requires target < n && forall k :: n <= k < |orders| ==> orders[k].role.TP?
    requires forall k: nat :: k in live <==> k < |orders| && IsLiveTp(orders[k])
    requires forall x, y :: 0 <= x < y < |live| ==> live[x] < live[y]
    requires forall i :: 0 <= i < |live| && live[i] < n ==> live[i] == target
    ensures PlacedLive(orders, n) <==> |live| > 1 || (|live| == 1 && live[0] >= n)
  {
    if PlacedLive(orders, n) {
      var k :| n <= k < |orders| && IsLive(orders[k]);
      assert k in live;
    }
    if |live| > 1 {
      FirstTwoDiffer(live);
      assert live[1] in live && live[1] >= n;
      assert IsLive(orders[live[1]]);
    } else if |live| == 1 && live[0] >= n {
      assert live[0] in live;
      assert IsLive(orders[live[0]]);
    }
  }

  lemma NoneAtTarget(s: Scene)
    ensures NoneFrom(s, s.target) && !SomeStays(s, s.target)
  {
    hide Gone, Queried;
  }

  lemma PlacedAreTps(s: Scene, q: BasketRow)
    requires Midway(s, q, s.target)
    ensures forall k :: |s.row.orders| <= k < |q.orders| ==> q.orders[k].role.TP?
  {}

  /** One turn of the loop at a row before the target. */
  lemma BeforeTarget(s: Scene, q: BasketRow, pending: seq<nat>, i: nat) returns (next: BasketRow)
    requires ClosesAtTarget(s) && i < |pending| && Midway(s, q, pending[i]) && pending[i] < s.target
    requires forall k :: 0 <= k < |pending| ==> pending[k] < |s.row.orders|
    requires IsPending(s.row.orders[pending[i]])
    ensures |next.orders| >= |q.orders|
    ensures OrderLoop(q, s.t, s.openIds, pending, i) == OrderLoop(next, s.t, s.openIds, pending, i + 1)
    ensures Midway(s, next, pending[i] + 1)
    ensures WillStay(s, next, pending[i] + 1) <==> WillStay(s, q, pending[i])
  {
    hide Recalculated, CancelOthers, Gone, Queried, LiveTps, Lives, NoneFrom, SomeStays, Cancelable, TargetStays;
    var j := pending[i];
    var o := q.orders[j];
    assert !o.role.TP? && o == s.row.orders[j];
    if Counted(s, j) {
      next := Recalculated(Seen(q, j, FILLED).(sosFilled := q.sosFilled + 1), s.t, s.t.newTp(j));
      CountedMidway(s, q, j);
      CountedExpects(s, q, j);
      CountedStep(q, s.t, s.openIds, pending, i);
    } else {
      PassUncounted(s, j, j + 1);
      if Gone(o, s.openIds) {
        next := Seen(q, j, Queried(o, s.t.query(j)));
        UncountedRow(s, q, j, Queried(o, s.t.query(j)));
      } else {
        next := q;
      }
    }
  }

  lemma MidwayLater(s: Scene, q: BasketRow, j: nat, next: nat)
    requires Midway(s, q, j) && j <= next && forall k: nat :: j <= k < next ==> !Counted(s, k)
    ensures Midway(s, q, next) && (WillStay(s, q, j) <==> WillStay(s, q, next))
  {
    hide Counted, NoneFrom, SomeStays, Lives, Cancelable, TargetStays;
    PassUncounted(s, j, next);
  }

  lemma NotBefore(pending: seq<nat>, k: nat)
    requires forall x, y :: 0 <= x < y < |pending| ==> pending[x] < pending[y]
    requires pending != [] && k < pending[0]
    ensures k !in pending
  {
    forall m | 0 <= m < |pending|
      ensures pending[m] != k
    {
      assert pending[0] <= pending[m];
    }
  }

  lemma FirstTwoDiffer(live: seq<nat>)
    requires forall x, y :: 0 <= x < y < |live| ==> live[x] < live[y]
    ensures |live| > 1 ==> live[0] < live[1]
  {}

  lemma NotBetween(pending: seq<nat>, i: nat, k: nat)
    requires forall x, y :: 0 <= x < y < |pending| ==> pending[x] < pending[y]
    requires i + 1 < |pending| && pending[i] < k < pending[i + 1]
    ensures k !in pending
  {
    forall m | 0 <= m < |pending|
      ensures pending[m] != k
    {
      if m <= i {
        assert pending[m] <= pending[i];
      } else {
        assert pending[i + 1] <= pending[m];
      }
    }
  }

  /** Between two consecutive pending rows nothing is counted. */
  lemma NothingBetween(s: Scene, pending: seq<nat>, i: nat)
    requires ClosesAtTarget(s) && pending == Pending(s.row.orders, |s.row.orders|)
    requires i < |pending| && pending[i] < s.target
    ensures i + 1 < |pending| && pending[i] < pending[i + 1] <= s.target
    ensures forall k: nat :: pending[i] < k < pending[i + 1] ==> !Counted(s, k)
  {
    hide Gone, Queried, Pending;
    PendingComplete(s.row.orders, |s.row.orders|);
    PendingIncreases(s.row.orders, |s.row.orders|);
    var at :| 0 <= at < |pending| && pending[at] == s.target;
    assert i < at;
    if at != i + 1 {
      assert pending[i + 1] < pending[at];
    }
    forall k: nat | pending[i] < k < pending[i + 1]
      ensures !Counted(s, k)
    {
      NotBetween(pending, i, k);
    }
  }

  lemma {:induction false} LoopLeaves(s: Scene, q: BasketRow, pending: seq<nat>, i: nat)
    requires ClosesAtTarget(s) && pending == Pending(s.row.orders, |s.row.orders|)
    requires i < |pending| && pending[i] <= s.target && Midway(s, q, pending[i])
    requires forall k :: 0 <= k < |pending| ==> pending[k] < |s.row.orders| <= |q.orders|
    ensures var out := OrderLoop(q, s.t, s.openIds, pending, i);
            out.status.CLOSED? && (PlacedLive(out.orders, |s.row.orders|) <==> WillStay(s, q, pending[i]))
    decreases |pending| - i
  {
    hide Recalculated, CancelOthers, Gone, Queried, Pending, Midway, WillStay, Counted, ClosesAtTarget;
    var j := pending[i];
    if j == s.target {
      TargetAnswered(s, q);
      TargetClosed(s, q, pending);
      AtTarget(s, q);
    } else {
      PendingMeans(s.row.orders, |s.row.orders|);
      var next := BeforeTarget(s, q, pending, i);
      NothingBetween(s, pending, i);
      MidwayLater(s, next, j + 1, pending[i + 1]);
      LoopLeaves(s, next, pending, i + 1);
    }
  }

  lemma StartsMidway(s: Scene, pending: seq<nat>)
    requires ClosesAtTarget(s) && pending == Pending(s.row.orders, |s.row.orders|)
    ensures pending != [] && pending[0] <= s.target && Midway(s, s.row, pending[0])
    ensures WillStay(s, s.row, pending[0]) <==> SomeStays(s, 0)
  {
    hide Gone, Queried, Pending, LiveTps, Cancelable;
    var orders := s.row.orders;
    PendingComplete(orders, |orders|);
    PendingIncreases(orders, |orders|);
    var at :| 0 <= at < |pending| && pending[at] == s.target;
    assert at > 0 ==> pending[0] < pending[at];
    forall k: nat | k < pending[0]
      ensures !Counted(s, k)
    {
      NotBefore(pending, k);
    }
    assert Midway(s, s.row, pending[0]);
    PassUncounted(s, 0, pending[0]);
    StartLives(s, pending[0]);
    hide SomeStays, NoneFrom, Lives, Counted, Midway;
  }

  lemma StartLives(s: Scene, j: nat)
    requires ClosesAtTarget(s) && Midway(s, s.row, j)
    ensures |Lives(s.row.orders)| <= 1
  {
    OldLiveIsTarget(s, s.row, j);
    LivesAre(s.row.orders);
    hide Lives, ClosesAtTarget, Midway, TargetStays, Cancelable;
    FirstTwoDiffer(Lives(s.row.orders));
  }

  /** For every basket whose order loop closes it at its only pending take-profit: a live row is left if and only if the
      take-profit placed for some counted safety order stays live, because the old take-profit could not be canceled,
      the new one cannot be canceled, or nothing counted comes after it. */
  lemma CloseLeavesLiveExactly(s: Scene)
    ensures ClosesAtTarget(s) ==>
              var after := AfterOrders(s.row, s.t, s.openIds);
              && after.status.CLOSED?
              && (NoLiveRows(after.orders) <==> !exists j: nat :: StaysLive(s, j))
  {
    if ClosesAtTarget(s) {
      hide OrderLoop, Gone, Queried, Pending, Midway, WillStay, Counted, StaysLive;
      var orders := s.row.orders;
      var pending := Pending(orders, |orders|);
      StartsMidway(s, pending);
      PendingBounded(orders);
      LoopLeaves(s, s.row, pending, 0);
      var after := AfterOrders(s.row, s.t, s.openIds);
      AfterOrdersCloseKills(s.row, s.t, s.openIds);
      assert PlacedLive(after.orders, |orders|) <==> SomeStays(s, 0);
      assert NoLiveRows(after.orders) <==> !PlacedLive(after.orders, |orders|);
    }
  }

  lemma PendingBounded(orders: seq<Order>)
    ensures forall i :: 0 <= i < |Pending(orders, |orders|)| ==> Pending(orders, |orders|)[i] < |orders|
  {}

  /** The same for a whole tick of a basket with pre-placed safety orders that the watchdog lets through. */
  lemma LegacyTickLeavesLiveExactly(l: Live, t: Tick, target: nat)
    requires HasLegacySo(l.row.orders) && OpenIds(t).Some?
    requires !(Watched(l.row, t) && (Positions(t).None? || GoneConfirmed(t)))
    ensures var s := Scene(l.row, t, OpenIds(t).value, target);
            var after := Monitored(l, t).row;
            ClosesAtTarget(s) ==>
              && after.status.CLOSED?
              && (NoLiveRows(after.orders) <==> !exists j: nat :: StaysLive(s, j))
  {
    hide AfterOrders, ClosesAtTarget, StaysLive, NoLiveRows, AfterRisk, GoneConfirmed;
    var s := Scene(l.row, t, OpenIds(t).value, target);
    CloseLeavesLiveExactly(s);
    if ClosesAtTarget(s) {
      ClosedPassesThrough(AfterOrders(l.row, t, OpenIds(t).value), t);
    }
  }
}
