/** Plan changes and billing of subscription_service.py.  Times are seconds; plan prices are fixed
    over a run; the wallet and its rows are those of the ledger. */
module Subscriptions {
  import opened Options
  import opened Ledger

  type PlanId = string
  type Plans = map<PlanId, real>

  const FREE: PlanId := "free"
  const DAY := 86400
  const GRACE_PERIOD_DAYS := 3

  datatype Status = ACTIVE | GRACE_PERIOD | CANCELLED | EXPIRED

  datatype Sub = Sub(plan: PlanId, status: Status, periodStart: int, periodEnd: int, graceEnd: Option<int>,
                     cancelAtEnd: bool, cancelledAt: Option<int>)

  datatype Invoice = Invoice(plan: PlanId, amount: real, paid: bool, start: int, end: int, txn: Option<nat>)

  datatype World = World(sub: Sub, invoices: seq<Invoice>, book: Book)

  datatype SubscribeReply = NoSuchPlan | NoSuchUser | InsufficientBalance | Subscribed

  datatype RenewReply =
    | UserNotFound | ExtendedFree | CancelledByUser | Renewed | GracePeriodStarted | PaymentFailedAfterGrace
    | StillInGracePeriod

  // ---------- Operations ----------

  function Bill(w: World, user: nat, price: real): World
    requires user in w.book.users
  {
    w.(book := Apply(w.book, Charge(user, price)))
  }

  function SubscribeOutcome(w: World, plans: Plans, user: nat, plan: PlanId): SubscribeReply {
    if plan !in plans then NoSuchPlan
    else if user !in w.book.users then NoSuchUser
    else if plans[plan] > 0.0 && w.book.users[user].balance < plans[plan] then InsufficientBalance
    else Subscribed
  }

  function AfterSubscribe(w: World, plans: Plans, user: nat, plan: PlanId, now: int): World {
    if !SubscribeOutcome(w, plans, user, plan).Subscribed? then w
    else
      var price := plans[plan];
      var billed := if price > 0.0 then Bill(w, user, price) else w;
      var txn := if price > 0.0 then Some(|w.book.rows|) else None;
      billed.(sub := Sub(plan, ACTIVE, now, now + 30 * DAY, None, false, None),
              invoices := w.invoices + [Invoice(plan, price, true, now, now + 30 * DAY, txn)])
  }

  function AfterCancel(w: World, now: int): World {
    if w.sub.plan == FREE then w else w.(sub := w.sub.(cancelAtEnd := true, cancelledAt := Some(now)))
  }

  /** A missing plan and a plan that costs nothing are never billed. */
  predicate Unbilled(plans: Plans, plan: PlanId) {
    plan !in plans || plans[plan] == 0.0
  }

  function Downgraded(sub: Sub, now: int): Sub {
    sub.(plan := FREE, status := ACTIVE, periodStart := now, periodEnd := now + 36500 * DAY, graceEnd := None,
         cancelAtEnd := false)
  }

  function RenewOutcome(w: World, plans: Plans, user: nat, now: int): RenewReply {
    var sub := w.sub;
    if user !in w.book.users then UserNotFound
    else if Unbilled(plans, sub.plan) then ExtendedFree
    else if sub.cancelAtEnd then CancelledByUser
    else if w.book.users[user].balance >= plans[sub.plan] then Renewed
    else if sub.status != GRACE_PERIOD then GracePeriodStarted
    else if sub.graceEnd.Some? && now >= sub.graceEnd.value then PaymentFailedAfterGrace
    else StillInGracePeriod
  }

  function AfterRenew(w: World, plans: Plans, user: nat, now: int): World {
    var sub := w.sub;
    match RenewOutcome(w, plans, user, now)
    case UserNotFound => w
    case ExtendedFree => w.(sub := sub.(periodStart := now, periodEnd := now + 36500 * DAY))
    case CancelledByUser => w.(sub := Downgraded(sub, now))
    case Renewed =>
      var price := plans[sub.plan];
      Bill(w, user, price).(
        sub := sub.(status := ACTIVE, periodStart := now, periodEnd := now + 30 * DAY, graceEnd := None),
        invoices := w.invoices + [Invoice(sub.plan, price, true, now, now + 30 * DAY, Some(|w.book.rows|))])
    case GracePeriodStarted =>
      w.(sub := sub.(status := GRACE_PERIOD, graceEnd := Some(now + GRACE_PERIOD_DAYS * DAY)),
         invoices := w.invoices + [Invoice(sub.plan, plans[sub.plan], false, now, now + 30 * DAY, None)])
    case PaymentFailedAfterGrace => w.(sub := Downgraded(sub, now))
    case StillInGracePeriod => w
  }

  /** `get_user_plan`: None when even the free plan is missing. */
  function EffectivePlan(plans: Plans, sub: Sub, now: int): Option<PlanId> {
    var chosen :=
      if sub.status.GRACE_PERIOD? && sub.graceEnd.Some? && now < sub.graceEnd.value then sub.plan
      else if sub.status.CANCELLED? || sub.status.EXPIRED? || sub.status.GRACE_PERIOD? then FREE
      else sub.plan;
    if chosen in plans then Some(chosen) else if FREE in plans then Some(FREE) else None
  }

  // ---------- The subscription row in place ----------

  class UserSubscription {
    const user: nat
    var plan: PlanId
    var status: Status
    var periodStart: int
    var periodEnd: int
    var graceEnd: Option<int>
    var cancelAtEnd: bool
    var cancelledAt: Option<int>
    var invoices: seq<Invoice>

    function Row(): Sub
      reads this
    {
      Sub(plan, status, periodStart, periodEnd, graceEnd, cancelAtEnd, cancelledAt)
    }

    function State(ledger: FeeService): World
      reads this, ledger
    {
      World(Row(), invoices, ledger.State())
    }

    /** `_create_free_subscription` */
    constructor (owner: nat, now: int)
      ensures Row() == Sub(FREE, ACTIVE, now, now + 36500 * DAY, None, false, None)
      ensures invoices == [] && user == owner
    {
      user, plan, status := owner, FREE, ACTIVE;
      periodStart, periodEnd := now, now + 36500 * DAY;
      graceEnd, cancelAtEnd, cancelledAt, invoices := None, false, None, [];
    }

    method Subscribe(ledger: FeeService, plans: Plans, newPlan: PlanId, now: int) returns (reply: SubscribeReply)
      modifies this, ledger
      ensures reply == SubscribeOutcome(old(State(ledger)), plans, user, newPlan)
      ensures State(ledger) == AfterSubscribe(old(State(ledger)), plans, user, newPlan, now)
    {
      if newPlan !in plans {
        return NoSuchPlan;
      }
      if user !in ledger.users {
        return NoSuchUser;
      }
      var price := plans[newPlan];
      var txn: Option<nat> := None;
      if price > 0.0 {
        if ledger.users[user].balance < price {
          return InsufficientBalance;
        }
        var row := ledger.ChargeSubscription(user, price);
        txn := Some(row);
      }
      plan, status := newPlan, ACTIVE;
      periodStart, periodEnd := now, now + 30 * DAY;
      graceEnd, cancelAtEnd, cancelledAt := None, false, None;
      invoices := invoices + [Invoice(newPlan, price, true, now, now + 30 * DAY, txn)];
      return Subscribed;
    }

    method Cancel(ledger: FeeService, now: int) returns (ok: bool)
      modifies this
      ensures State(ledger) == AfterCancel(old(State(ledger)), now) && (ok <==> old(plan) != FREE)
    {
      ok := plan != FREE;
      if ok {
        cancelAtEnd, cancelledAt := true, Some(now);
      }
    }

    method DowngradeToFree(now: int)
      modifies this
      ensures Row() == Downgraded(old(Row()), now) && invoices == old(invoices)
    {
      plan, status := FREE, ACTIVE;
      periodStart, periodEnd := now, now + 36500 * DAY;
      graceEnd, cancelAtEnd := None, false;
    }

    method ProcessRenewal(ledger: FeeService, plans: Plans, now: int) returns (reply: RenewReply)
      modifies this, ledger
      ensures reply == RenewOutcome(old(State(ledger)), plans, user, now)
      ensures State(ledger) == AfterRenew(old(State(ledger)), plans, user, now)
    {
      if user !in ledger.users {
        return UserNotFound;
      }
      if plan !in plans || plans[plan] == 0.0 {
        periodStart, periodEnd := now, now + 36500 * DAY;
        return ExtendedFree;
      }
      if cancelAtEnd {
        DowngradeToFree(now);
        return CancelledByUser;
      }
      var price := plans[plan];
      if ledger.users[user].balance >= price {
        var row := ledger.ChargeSubscription(user, price);
        invoices := invoices + [Invoice(plan, price, true, now, now + 30 * DAY, Some(row))];
        status, periodStart, periodEnd, graceEnd := ACTIVE, now, now + 30 * DAY, None;
        return Renewed;
      }
      if status != GRACE_PERIOD {
        status, graceEnd := GRACE_PERIOD, Some(now + GRACE_PERIOD_DAYS * DAY);
        invoices := invoices + [Invoice(plan, price, false, now, now + 30 * DAY, None)];
        return GracePeriodStarted;
      }
      if graceEnd.Some? && now >= graceEnd.value {
        DowngradeToFree(now);
        return PaymentFailedAfterGrace;
      }
      return StillInGracePeriod;
    }
  }

  // ---------- The operations in dates and amounts ----------

  /** The wallet has paid the price: the balance is lower by it, and one charge row says so. */
  ghost predicate HasPaid(b: Book, after: Book, user: nat, price: real) {
    && user in b.users && after.users == b.users[user := b.users[user].(balance := b.users[user].balance - price)]
    && after.rows == b.rows + [Row(user, None, SUBSCRIPTION_CHARGE, -price, b.users[user].balance,
                                   b.users[user].balance - price)]
  }

  lemma BillPays(w: World, user: nat, price: real)
    requires user in w.book.users
    ensures HasPaid(w.book, Bill(w, user, price).book, user, price)
    ensures Bill(w, user, price) == w.(book := Bill(w, user, price).book)
  {
    var balance := w.book.users[user].balance;
    assert balance + -price == balance - price;
  }

  /** Subscribing is refused for a plan that is not on offer, an unknown user, and a positive price the balance does not
      cover.  Otherwise the plan is active for 30 days from now with every earlier cancellation and grace period gone, a
      positive price is paid, and a paid invoice for these 30 days names the charge row. */
  lemma SubscribeIs(w: World, plans: Plans, user: nat, plan: PlanId, now: int)
    ensures var reply, after := SubscribeOutcome(w, plans, user, plan), AfterSubscribe(w, plans, user, plan, now);
            && (reply == NoSuchPlan <==> plan !in plans)
            && (reply == NoSuchUser <==> plan in plans && user !in w.book.users)
            && (reply == InsufficientBalance <==>
                  && plan in plans && user in w.book.users
                  && 0.0 < plans[plan] && w.book.users[user].balance < plans[plan])
            && (reply != Subscribed ==> after == w)
            && (reply == Subscribed ==>
                  && after.sub.plan == plan && after.sub.status == ACTIVE
                  && after.sub.periodStart == now && after.sub.periodEnd == now + 2_592_000
                  && after.sub.graceEnd == None && !after.sub.cancelAtEnd && after.sub.cancelledAt == None
                  && (if plans[plan] > 0.0 then HasPaid(w.book, after.book, user, plans[plan])
                      else after.book == w.book)
                  && |after.invoices| == |w.invoices| + 1 && after.invoices[..|w.invoices|] == w.invoices
                  && var invoice := after.invoices[|w.invoices|];
                  && invoice.plan == plan && invoice.amount == plans[plan] && invoice.paid
                  && invoice.start == now && invoice.end == now + 2_592_000
                  && invoice.txn == (if plans[plan] > 0.0 then Some(|w.book.rows|) else None))
  {
    hide Bill, HasPaid;
    if plan in plans && user in w.book.users {
      BillPays(w, user, plans[plan]);
    }
  }

  /** Cancelling marks the subscription and its time and changes nothing else; the free plan cannot be cancelled. */
  lemma CancelIs(w: World, now: int)
    ensures var after := AfterCancel(w, now);
            if w.sub.plan == "free" then after == w
            else && after.book == w.book && after.invoices == w.invoices
                 && after.sub.cancelAtEnd && after.sub.cancelledAt == Some(now)
                 && after.sub.(cancelAtEnd := w.sub.cancelAtEnd, cancelledAt := w.sub.cancelledAt) == w.sub
  {}

  /** Back on the free plan, active for the next 36500 days, with no grace period and no cancellation pending. */
  predicate IsFreeFrom(before: Sub, after: Sub, now: int) {
    && after.plan == "free" && after.status == ACTIVE && after.periodStart == now
    && after.periodEnd == now + 3_153_600_000 && after.graceEnd == None && !after.cancelAtEnd
    && after.cancelledAt == before.cancelledAt
  }

  /** The answer of a renewal, case by case. */
  lemma RenewalAnswers(w: World, plans: Plans, user: nat, now: int)
    ensures var reply, sub := RenewOutcome(w, plans, user, now), w.sub;
            var due := user in w.book.users && sub.plan in plans && plans[sub.plan] != 0.0;
            var unpaid := due && !sub.cancelAtEnd && w.book.users[user].balance < plans[sub.plan];
            && (reply == UserNotFound <==> user !in w.book.users)
            && (reply == ExtendedFree <==> user in w.book.users && !due)
            && (reply == CancelledByUser <==> due && sub.cancelAtEnd)
            && (reply == Renewed <==> due && !sub.cancelAtEnd && !unpaid)
            && (reply == GracePeriodStarted <==> unpaid && sub.status != GRACE_PERIOD)
            && (reply == PaymentFailedAfterGrace <==>
                  unpaid && sub.status == GRACE_PERIOD && sub.graceEnd.Some? && sub.graceEnd.value <= now)
            && (reply == StillInGracePeriod <==>
                  unpaid && sub.status == GRACE_PERIOD && (sub.graceEnd == None || now < sub.graceEnd.value))
  {}

  /** What each of them does: only a free or missing plan is extended unbilled; a renewal is paid for and runs 30 days;
      the grace period runs three days from its unpaid invoice; the other two ends lead back to the free plan. */
  lemma RenewalIs(w: World, plans: Plans, user: nat, now: int)
    ensures var reply, after, sub := RenewOutcome(w, plans, user, now), AfterRenew(w, plans, user, now), w.sub;
            && (reply in {UserNotFound, StillInGracePeriod} ==> after == w)
            && (reply in {ExtendedFree, CancelledByUser, PaymentFailedAfterGrace, GracePeriodStarted} ==>
                  after.book == w.book)
            && (reply in {ExtendedFree, CancelledByUser, PaymentFailedAfterGrace} ==> after.invoices == w.invoices)
            && (reply == ExtendedFree ==>
                  after.sub == sub.(periodStart := now, periodEnd := now + 3_153_600_000))
            && (reply in {CancelledByUser, PaymentFailedAfterGrace} ==> IsFreeFrom(sub, after.sub, now))
            && (reply == Renewed ==>
                  && HasPaid(w.book, after.book, user, plans[sub.plan])
                  && after.sub == sub.(status := ACTIVE, periodStart := now, periodEnd := now + 2_592_000,
                                       graceEnd := None)
                  && after.invoices == w.invoices + [Invoice(sub.plan, plans[sub.plan], true, now, now + 2_592_000,
                                                             Some(|w.book.rows|))])
            && (reply == GracePeriodStarted ==>
                  && after.sub == sub.(status := GRACE_PERIOD, graceEnd := Some(now + 259_200))
                  && after.invoices == w.invoices + [Invoice(sub.plan, plans[sub.plan], false, now, now + 2_592_000,
                                                             None)])
  {
    hide Bill, HasPaid;
    if user in w.book.users && w.sub.plan in plans {
      BillPays(w, user, plans[w.sub.plan]);
    }
  }

  // ---------- Runs ----------

  datatype Event = Subscribe(plan: PlanId, now: int) | Cancel(now: int) | Renew(now: int) | Wallet(op: Op)

  function Step(w: World, plans: Plans, user: nat, e: Event): World {
    match e
    case Subscribe(plan, now) => AfterSubscribe(w, plans, user, plan, now)
    case Cancel(now) => AfterCancel(w, now)
    case Renew(now) => AfterRenew(w, plans, user, now)
    case Wallet(op) => w.(book := Apply(w.book, op))
  }

  function Run(w: World, plans: Plans, user: nat, events: seq<Event>): World {
    if events == [] then w else Step(Run(w, plans, user, events[..|events| - 1]), plans, user, events[|events| - 1])
  }

  /** Other wallet movements of the run are anything but subscription charges of this user. */
  ghost predicate Foreign(user: nat, events: seq<Event>) {
    forall i :: 0 <= i < |events| && events[i].Wallet? && events[i].op.Charge? ==> events[i].op.user != user
  }

  predicate IsCharge(r: Row, user: nat) {
    r.user == user && r.kind.SUBSCRIPTION_CHARGE?
  }

  /** Number and amount of the user's subscription-charge rows, in table order. */
  function ChargeRows(rows: seq<Row>, n: nat, user: nat): seq<(nat, real)>
    requires n <= |rows|
  {
    if n == 0 then []
    else ChargeRows(rows, n - 1, user)
         + if IsCharge(rows[n - 1], user) then [(n - 1, rows[n - 1].amount)] else []
  }

  predicate Billed(i: Invoice) {
    i.paid && i.amount != 0.0
  }

  predicate Linked(i: Invoice) {
    && (i.txn.Some? ==> Billed(i))
    && (Billed(i) && i.txn.None? ==> i.amount < 0.0)
  }

  /** The charge rows the linked invoices ask for: the row linked to, with the amount negated. */
  function RowsOwed(invoices: seq<Invoice>, n: nat): seq<(nat, real)>
    requires n <= |invoices|
  {
    if n == 0 then []
    else RowsOwed(invoices, n - 1)
         + if invoices[n - 1].txn.Some? then [(invoices[n - 1].txn.value, -invoices[n - 1].amount)] else []
  }

  /** Linked invoices and charge rows correspond one to one; linked are paid non-zero invoices only, and all
      of them unless the amount is negative; and no charge left a negative balance. */
  ghost predicate BillingMatches(w: World, user: nat) {
    && ChargeRows(w.book.rows, |w.book.rows|, user) == RowsOwed(w.invoices, |w.invoices|)
    && (forall i :: 0 <= i < |w.invoices| ==> Linked(w.invoices[i]))
    && (forall k :: 0 <= k < |w.book.rows| && IsCharge(w.book.rows[k], user) ==> w.book.rows[k].after >= 0.0)
  }

  lemma {:induction false} ChargeRowsOfPrefix(rows: seq<Row>, more: seq<Row>, n: nat, user: nat)
    requires n <= |rows|
    ensures ChargeRows(rows + more, n, user) == ChargeRows(rows, n, user)
  {
    if n > 0 {
      ChargeRowsOfPrefix(rows, more, n - 1, user);
    }
  }

  lemma {:induction false} RowsOwedOfPrefix(invoices: seq<Invoice>, more: seq<Invoice>, n: nat)
    requires n <= |invoices|
    ensures RowsOwed(invoices + more, n) == RowsOwed(invoices, n)
  {
    if n > 0 {
      RowsOwedOfPrefix(invoices, more, n - 1);
    }
  }

  /** Charge and invoice together. */
  lemma BillMatches(w: World, user: nat, price: real, i: Invoice, sub: Sub)
    requires BillingMatches(w, user) && user in w.book.users && 0.0 != price <= w.book.users[user].balance
    requires i.paid && i.amount == price && i.txn == Some(|w.book.rows|)
    ensures BillingMatches(Bill(w, user, price).(sub := sub, invoices := w.invoices + [i]), user)
  {
    var balance := w.book.users[user].balance;
    var row := Row(user, None, SUBSCRIPTION_CHARGE, -price, balance, balance + -price);
    assert Bill(w, user, price).book.rows == w.book.rows + [row];
    ChargeRowsOfPrefix(w.book.rows, [row], |w.book.rows|, user);
    RowsOwedOfPrefix(w.invoices, [i], |w.invoices|);
  }

  lemma UnbilledMatches(w: World, user: nat, i: Invoice, sub: Sub)
    requires BillingMatches(w, user) && (!Billed(i) || i.amount < 0.0) && i.txn.None?
    ensures BillingMatches(w.(sub := sub, invoices := w.invoices + [i]), user)
  {
    RowsOwedOfPrefix(w.invoices, [i], |w.invoices|);
  }

  /** Ledger operations add no charge rows of this user. */
  lemma WalletMatches(w: World, user: nat, op: Op)
    requires BillingMatches(w, user) && (op.Charge? ==> op.user != user)
    ensures BillingMatches(w.(book := Apply(w.book, op)), user)
    ensures ChargeRows(Apply(w.book, op).rows, |Apply(w.book, op).rows|, user) ==
            ChargeRows(w.book.rows, |w.book.rows|, user)
  {
    AppliedRows(w.book, op);
    var before, after := w.book.rows, Apply(w.book, op).rows;
    var more := after[|before|..];
    assert after == before + more;
    forall k | 0 <= k < |after| && after[k].user == user && after[k].kind.SUBSCRIPTION_CHARGE?
      ensures k < |before| && after[k] == before[k]
    {
    }
    NoNewCharges(before, more, |after|, user);
  }

  lemma AppliedRows(b: Book, op: Op)
    ensures var after := Apply(b, op).rows;
            && |b.rows| <= |after| && after[..|b.rows|] == b.rows
            && forall k :: |b.rows| <= k < |after| && after[k].kind.SUBSCRIPTION_CHARGE? ==>
                   op.Charge? && after[k].user == op.user
  {
    hide Percent, FeeRefused;
  }

  lemma {:induction false} NoNewCharges(rows: seq<Row>, more: seq<Row>, n: nat, user: nat)
    requires |rows| <= n <= |rows + more|
    requires forall k :: 0 <= k < |more| && more[k].user == user ==> !more[k].kind.SUBSCRIPTION_CHARGE?
    ensures ChargeRows(rows + more, n, user) == ChargeRows(rows, |rows|, user)
  {
    if n == |rows| {
      ChargeRowsOfPrefix(rows, more, n, user);
    } else {
      NoNewCharges(rows, more, n - 1, user);
      assert (rows + more)[n - 1] == more[n - 1 - |rows|];
    }
  }

  lemma StepMatches(w: World, plans: Plans, user: nat, e: Event)
    requires BillingMatches(w, user) && Foreign(user, [e])
    ensures BillingMatches(Step(w, plans, user, e), user)
  {
    hide BillingMatches, Apply;
    var sub := Step(w, plans, user, e).sub;
    match e
    case Subscribe(plan, now) =>
      if SubscribeOutcome(w, plans, user, plan).Subscribed? {
        var i := AfterSubscribe(w, plans, user, plan, now).invoices[|w.invoices|];
        if plans[plan] > 0.0 {
          BillMatches(w, user, plans[plan], i, sub);
        } else {
          UnbilledMatches(w, user, i, sub);
        }
      }
    case Cancel(now) => SubDoesNotMatter(w, user, sub);
    case Renew(now) =>
      match RenewOutcome(w, plans, user, now) {
        case Renewed =>
          var i := AfterRenew(w, plans, user, now).invoices[|w.invoices|];
          BillMatches(w, user, plans[w.sub.plan], i, sub);
        case GracePeriodStarted =>
          UnbilledMatches(w, user, AfterRenew(w, plans, user, now).invoices[|w.invoices|], sub);
        case _ => SubDoesNotMatter(w, user, sub);
      }
    case Wallet(op) =>
      assert [e][0] == e;
      WalletMatches(w, user, op);
  }

  lemma SubDoesNotMatter(w: World, user: nat, sub: Sub)
    requires BillingMatches(w, user)
    ensures BillingMatches(w.(sub := sub), user)
  {}

  /** Over any run, at whatever prices, invoices and the user's charge rows match: each charge row belongs to
      one paid non-zero invoice, in order and with the negated amount, every such invoice of a positive
      amount has its row, and no charge ever made the balance negative, whatever else moves the wallet. */
  lemma {:induction false} RunsBillExactly(w: World, plans: Plans, user: nat, events: seq<Event>)
    requires BillingMatches(w, user) && Foreign(user, events)
    ensures BillingMatches(Run(w, plans, user, events), user)
  {
    hide Step, BillingMatches;
    if events != [] {
      var n := |events| - 1;
      assert Foreign(user, events[..n]) && Foreign(user, [events[n]]) by {
        assert forall i :: 0 <= i < n ==> events[..n][i] == events[i];
      }
      RunsBillExactly(w, plans, user, events[..n]);
      StepMatches(Run(w, plans, user, events[..n]), plans, user, events[n]);
    }
  }

  /** The exception, exactly: a successful subscribe to a plan whose price is not zero is invoiced with a
      charge row if and only if the price is positive; a negative price is invoiced and never charged. */
  lemma NegativePriceIsNotCharged(w: World, plans: Plans, user: nat, plan: PlanId, now: int)
    requires SubscribeOutcome(w, plans, user, plan).Subscribed? && plans[plan] != 0.0
    ensures var after := AfterSubscribe(w, plans, user, plan, now);
            && |after.invoices| == |w.invoices| + 1 && Billed(after.invoices[|w.invoices|])
            && (after.invoices[|w.invoices|].txn.Some? <==> plans[plan] > 0.0)
            && (|ChargeRows(after.book.rows, |after.book.rows|, user)| > |ChargeRows(w.book.rows, |w.book.rows|, user)|
                <==> plans[plan] > 0.0)
  {
    var rows := w.book.rows;
    if plans[plan] > 0.0 {
      var more := AfterSubscribe(w, plans, user, plan, now).book.rows[|rows|];
      ChargeRowsOfPrefix(rows, [more], |rows|, user);
    }
  }

  // ---------- Grace episodes ----------

  /** A grace period and its end date come and go together, and while it lasts the latest invoice is
      the failed one that started it, three days before its end. */
  ghost predicate GraceRecorded(w: World, plans: Plans) {
    && (w.sub.status.GRACE_PERIOD? <==> w.sub.graceEnd.Some?)
    && (w.sub.status.GRACE_PERIOD? ==>
          && !Unbilled(plans, w.sub.plan)
          && w.invoices != []
          && var last := w.invoices[|w.invoices| - 1];
             !last.paid && w.sub.graceEnd == Some(last.start + GRACE_PERIOD_DAYS * DAY))
  }

  function FailedInvoices(invoices: seq<Invoice>, n: nat): nat
    requires n <= |invoices|
  {
    if n == 0 then 0 else FailedInvoices(invoices, n - 1) + if invoices[n - 1].paid then 0 else 1
  }

  /** How often a run enters the grace period. */
  function GraceEntries(w: World, plans: Plans, user: nat, events: seq<Event>): nat {
    if events == [] then 0
    else
      var n := |events| - 1;
      var before := Run(w, plans, user, events[..n]);
      GraceEntries(w, plans, user, events[..n])
      + if !before.sub.status.GRACE_PERIOD? && Step(before, plans, user, events[n]).sub.status.GRACE_PERIOD?
        then 1 else 0
  }

  lemma {:induction false} FailedOfPrefix(invoices: seq<Invoice>, more: seq<Invoice>, n: nat)
    requires n <= |invoices|
    ensures FailedInvoices(invoices + more, n) == FailedInvoices(invoices, n)
  {
    if n > 0 {
      FailedOfPrefix(invoices, more, n - 1);
    }
  }

  lemma StepGrace(w: World, plans: Plans, user: nat, e: Event)
    requires GraceRecorded(w, plans)
    ensures var after := Step(w, plans, user, e);
            && GraceRecorded(after, plans)
            && FailedInvoices(after.invoices, |after.invoices|)
               == FailedInvoices(w.invoices, |w.invoices|)
                  + if !w.sub.status.GRACE_PERIOD? && after.sub.status.GRACE_PERIOD? then 1 else 0
  {
    hide Apply;
    var after := Step(w, plans, user, e);
    if after.invoices != w.invoices {
      var i := after.invoices[|w.invoices|];
      assert after.invoices == w.invoices + [i];
      FailedOfPrefix(w.invoices, [i], |w.invoices|);
    }
  }

  /** Over any run: the status is grace_period exactly when a grace end is set, and there is exactly one
      failed invoice per grace episode. */
  lemma {:induction false} OneFailedInvoicePerGrace(w: World, plans: Plans, user: nat, events: seq<Event>)
    requires GraceRecorded(w, plans)
    ensures var after := Run(w, plans, user, events);
            && GraceRecorded(after, plans)
            && FailedInvoices(after.invoices, |after.invoices|)
               == FailedInvoices(w.invoices, |w.invoices|) + GraceEntries(w, plans, user, events)
  {
    hide Step, GraceRecorded;
    if events != [] {
      var n := |events| - 1;
      OneFailedInvoicePerGrace(w, plans, user, events[..n]);
      StepGrace(Run(w, plans, user, events[..n]), plans, user, events[n]);
    }
  }

  /** A run loses a paid plan to a renewal only by the user's own cancellation or at least three days
      after the failed invoice, with no payment in between (that invoice is still the latest). */
  lemma DowngradeWaitsThreeDays(w: World, plans: Plans, user: nat, events: seq<Event>, now: int)
    requires GraceRecorded(w, plans)
    ensures var at := Run(w, plans, user, events);
            AfterRenew(at, plans, user, now).sub.plan != at.sub.plan ==>
              || at.sub.cancelAtEnd
              || (&& at.invoices != []
                  && var failed := at.invoices[|at.invoices| - 1];
                     !failed.paid && now >= failed.start + 3 * DAY)
  {
    hide Apply;
    OneFailedInvoicePerGrace(w, plans, user, events);
  }

  /** For a user in grace who cannot pay, the plan in force is already the plan the renewal at
      that moment leaves: the paid one before the grace end, the free one from then on.  The one
      exception is a cancelled plan inside its grace period, which the renewal takes away at once. */
  lemma EffectivePlanForetellsRenewal(w: World, plans: Plans, user: nat, now: int)
    requires GraceRecorded(w, plans) && w.sub.status.GRACE_PERIOD? && FREE in plans && Unbilled(plans, FREE)
    requires user in w.book.users && w.book.users[user].balance < plans[w.sub.plan]
    ensures EffectivePlan(plans, w.sub, now) == Some(AfterRenew(w, plans, user, now).sub.plan)
            <==> !(w.sub.cancelAtEnd && now < w.sub.graceEnd.value)
  {}

  /** The plan a user has the use of, for every subscription: a grace period keeps its plan up to its end and no longer,
      a cancelled or expired subscription has the free plan, an active one its own; a plan that is not on offer falls
      back to the free one, and nothing is left only when that is not on offer either. */
  lemma EffectivePlanIs(plans: Plans, sub: Sub, now: int)
    ensures var got := EffectivePlan(plans, sub, now);
            && (got.None? <==> "free" !in plans && (sub.plan !in plans || !KeepsOwnPlan(sub, now)))
            && (got.Some? ==> got.value in plans && got.value in {sub.plan, "free"})
            && (sub.plan in plans && KeepsOwnPlan(sub, now) ==> got == Some(sub.plan))
            && (!KeepsOwnPlan(sub, now) && "free" in plans ==> got == Some("free"))
  {}

  predicate KeepsOwnPlan(sub: Sub, now: int) {
    match sub.status
    case ACTIVE => true
    case GRACE_PERIOD => sub.graceEnd.Some? && now < sub.graceEnd.value
    case CANCELLED => false
    case EXPIRED => false
  }

  // ---------- Cancellation ----------

  /** Nothing is due until the user subscribes again. */
  ghost predicate Quiet(w: World, plans: Plans) {
    w.sub.cancelAtEnd || Unbilled(plans, w.sub.plan)
  }

  ghost predicate NoSubscribe(events: seq<Event>) {
    forall i :: 0 <= i < |events| ==> !events[i].Subscribe?
  }

  lemma StepQuiet(w: World, plans: Plans, user: nat, e: Event)
    requires Unbilled(plans, FREE) && Quiet(w, plans) && BillingMatches(w, user) && Foreign(user, [e]) && !e.Subscribe?
    ensures var after := Step(w, plans, user, e);
            && Quiet(after, plans)
            && after.invoices == w.invoices
            && ChargeRows(after.book.rows, |after.book.rows|, user) == ChargeRows(w.book.rows, |w.book.rows|, user)
  {
    hide Apply, BillingMatches;
    if e.Wallet? {
      assert [e][0] == e;
      WalletMatches(w, user, e.op);
    }
  }

  /** After a successful cancel nothing is charged and nothing invoiced until the next subscribe, however
      many renewals, further cancels and wallet movements follow. */
  lemma {:induction false} NoChargeAfterCancel(w: World, plans: Plans, user: nat, events: seq<Event>)
    requires Unbilled(plans, FREE) && BillingMatches(w, user)
    requires w.sub.plan != FREE && NoSubscribe(events) && Foreign(user, events)
    requires events != [] && events[0].Cancel?
    ensures var after := Run(w, plans, user, events);
            && Quiet(after, plans)
            && after.invoices == w.invoices
            && ChargeRows(after.book.rows, |after.book.rows|, user) == ChargeRows(w.book.rows, |w.book.rows|, user)
  {
    hide Step, BillingMatches, Quiet;
    var n := |events| - 1;
    if n == 0 {
      assert events[..0] == [];
      assert Run(w, plans, user, []) == w;
      CancelIsQuiet(w, plans, user, events[0]);
    } else {
      assert Foreign(user, events[..n]) && NoSubscribe(events[..n]) && Foreign(user, [events[n]]) by {
        assert forall i :: 0 <= i < n ==> events[..n][i] == events[i];
      }
      NoChargeAfterCancel(w, plans, user, events[..n]);
      RunsBillExactly(w, plans, user, events[..n]);
      StepQuiet(Run(w, plans, user, events[..n]), plans, user, events[n]);
    }
  }

  lemma CancelIsQuiet(w: World, plans: Plans, user: nat, e: Event)
    requires e.Cancel? && w.sub.plan != FREE
    ensures Quiet(Step(w, plans, user, e), plans)
    ensures Step(w, plans, user, e).invoices == w.invoices && Step(w, plans, user, e).book == w.book
  {}

  /** The free plan must indeed cost nothing: were it billed, two renewals after a cancel would charge
      for it. */
  lemma BilledFreePlanCharges(w: World, plans: Plans, user: nat, now: int)
    requires FREE in plans && plans[FREE] > 0.0 && !Unbilled(plans, w.sub.plan) && w.sub.plan != FREE
    requires user in w.book.users && w.book.users[user].balance >= plans[FREE]
    ensures var after := Run(w, plans, user, [Cancel(now), Renew(now), Renew(now)]);
            after.book.rows == w.book.rows + [Row(user, None, SUBSCRIPTION_CHARGE, -plans[FREE],
                                                  w.book.users[user].balance, w.book.users[user].balance - plans[FREE])]
  {
    var events := [Cancel(now), Renew(now), Renew(now)];
    var cancelled := Step(w, plans, user, Cancel(now));
    var free := Step(cancelled, plans, user, Renew(now));
    assert free.sub.plan == FREE && free.book == w.book && !free.sub.cancelAtEnd;
    assert events[..2] == [Cancel(now), Renew(now)] && events[..2][..1] == [Cancel(now)] && events[..1][..0] == [];
    assert Run(w, plans, user, []) == w;
    assert Run(w, plans, user, [Cancel(now)]) == cancelled;
    assert Run(w, plans, user, [Cancel(now), Renew(now)]) == free;
  }
}
