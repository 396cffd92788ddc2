/** The fee ledger of fee_service.py: mutable user balances beside an append-only table of rows.
    Percentages and switches are read from settings on every call, so each operation takes its own. */
module Ledger {
  import opened Options

  datatype RowKind = FEE_DEDUCTION | AFFILIATE_COMMISSION | DEPOSIT | ADMIN_CREDIT | ADMIN_DEBIT | SUBSCRIPTION_CHARGE

  datatype Row = Row(user: nat, basket: Option<nat>, kind: RowKind, amount: real, before: real, after: real)

  datatype User = User(balance: real, affiliate: real, invitedBy: Option<nat>, commissionOverride: Option<real>)

  datatype Settings = Settings(feeEnabled: bool, feePct: real, affiliateEnabled: bool, defaultCommissionPct: real)

  datatype Book = Book(users: map<nat, User>, rows: seq<Row>)

  datatype Op =
    | Fee(user: nat, basket: Option<nat>, pnl: real, settings: Settings)
    | Deposit(user: nat, amount: real)
    | Adjust(user: nat, amount: real)
    | Charge(user: nat, price: real)

  const PNL_ABSOLUTE_CAP := 500.0

  function Percent(amount: real, pct: real): real {
    amount * pct / 100.0
  }

  predicate Implausible(users: map<nat, User>, user: nat, pnl: real) {
    user in users && (pnl > PNL_ABSOLUTE_CAP || (users[user].balance > 0.0 && pnl > users[user].balance * 0.5))
  }

  predicate HasFeeRow(rows: seq<Row>, basket: nat) {
    exists k :: 0 <= k < |rows| && rows[k].kind.FEE_DEDUCTION? && rows[k].basket == Some(basket)
  }

  /** Books `amount` on the main wallet. */
  function Posted(b: Book, user: nat, basket: Option<nat>, kind: RowKind, amount: real): Book
    requires user in b.users
  {
    var u := b.users[user];
    Book(b.users[user := u.(balance := u.balance + amount)],
         b.rows + [Row(user, basket, kind, amount, u.balance, u.balance + amount)])
  }

  /** `_credit_affiliate_commission`: the referrer's share goes to the separate affiliate wallet. */
  function Commissioned(b: Book, user: nat, basket: Option<nat>, fee: real, s: Settings): Book
    requires user in b.users
  {
    var referrer := b.users[user].invitedBy;
    if referrer.None? || !s.affiliateEnabled || referrer.value !in b.users then b
    else
      var r := b.users[referrer.value];
      var pct := if r.commissionOverride.Some? then r.commissionOverride.value else s.defaultCommissionPct;
      var share := Percent(if fee < 0.0 then -fee else fee, pct);
      if pct <= 0.0 || share <= 0.0 then b
      else
        Book(b.users[referrer.value := r.(affiliate := r.affiliate + share)],
             b.rows + [Row(referrer.value, basket, AFFILIATE_COMMISSION, share, r.affiliate, r.affiliate + share)])
  }

  predicate FeeRefused(b: Book, user: nat, basket: Option<nat>, pnl: real, s: Settings) {
    || !s.feeEnabled || pnl <= 0.0 || Implausible(b.users, user, pnl)
    || (basket.Some? && HasFeeRow(b.rows, basket.value))
    || Percent(pnl, s.feePct) <= 0.0 || user !in b.users
  }

  function Deducted(b: Book, user: nat, basket: Option<nat>, pnl: real, s: Settings): Book {
    if FeeRefused(b, user, basket, pnl, s) then b
    else
      var fee := Percent(pnl, s.feePct);
      Commissioned(Posted(b, user, basket, FEE_DEDUCTION, -fee), user, basket, fee, s)
  }

  function AdjustKind(amount: real): RowKind {
    if amount >= 0.0 then ADMIN_CREDIT else ADMIN_DEBIT
  }

  /** An unknown user makes deposits and adjustments raise before anything is written. */
  function Apply(b: Book, op: Op): Book {
    match op
    case Fee(user, basket, pnl, s) => Deducted(b, user, basket, pnl, s)
    case Deposit(user, amount) => if user in b.users then Posted(b, user, None, DEPOSIT, amount) else b
    case Adjust(user, amount) => if user in b.users then Posted(b, user, None, AdjustKind(amount), amount) else b
    case Charge(user, price) =>
      if user in b.users then Posted(b, user, None, SUBSCRIPTION_CHARGE, -price) else b
  }

  function RunOps(b: Book, ops: seq<Op>): Book {
    if ops == [] then b else Apply(RunOps(b, ops[..|ops| - 1]), ops[|ops| - 1])
  }

  // ---------- The service in place ----------

  class FeeService {
    var users: map<nat, User>
    var rows: seq<Row>

    function State(): Book
      reads this
    {
      Book(users, rows)
    }

    constructor (start: map<nat, User>)
      ensures State() == Book(start, [])
    {
      users, rows := start, [];
    }

    method HasFee(basket: nat) returns (found: bool)
      ensures found <==> HasFeeRow(rows, basket)
    {
      found := false;
      var k := 0;
      while k < |rows|
        invariant 0 <= k <= |rows|
        invariant found <==> exists j :: 0 <= j < k && rows[j].kind.FEE_DEDUCTION? && rows[j].basket == Some(basket)
      {
        if rows[k].kind.FEE_DEDUCTION? && rows[k].basket == Some(basket) {
          found := true;
        }
        k := k + 1;
      }
    }

    /** Returns the number of the fee row, or None when the fee was skipped. */
    method DeductFee(user: nat, basket: Option<nat>, pnl: real, s: Settings) returns (tx: Option<nat>)
      modifies this
      ensures State() == Deducted(old(State()), user, basket, pnl, s)
      ensures tx == if FeeRefused(old(State()), user, basket, pnl, s) then None else Some(|old(rows)|)
    {
      hide Percent;
      tx := None;
      if !s.feeEnabled || pnl <= 0.0 {
        return;
      }
      if user in users {
        var wallet := users[user].balance;
        if pnl > PNL_ABSOLUTE_CAP || (wallet > 0.0 && pnl > wallet * 0.5) {
          return;
        }
      }
      if basket.Some? {
        var existing := HasFee(basket.value);
        if existing {
          return;
        }
      }
      var fee := Percent(pnl, s.feePct);
      if fee <= 0.0 || user !in users {
        return;
      }
      var before := users[user].balance;
      var after := before - fee;
      users := users[user := users[user].(balance := after)];
      tx := Some(|rows|);
      rows := rows + [Row(user, basket, FEE_DEDUCTION, -fee, before, after)];
      CreditCommission(user, basket, fee, s);
    }

    method CreditCommission(user: nat, basket: Option<nat>, fee: real, s: Settings)
      requires user in users
      modifies this
      ensures State() == Commissioned(old(State()), user, basket, fee, s)
    {
      hide Percent;
      var referrer := users[user].invitedBy;
      if referrer.None? || !s.affiliateEnabled || referrer.value !in users {
        return;
      }
      var r := users[referrer.value];
      var pct := if r.commissionOverride.Some? then r.commissionOverride.value else s.defaultCommissionPct;
      if pct <= 0.0 {
        return;
      }
      var share := Percent(if fee < 0.0 then -fee else fee, pct);
      if share <= 0.0 {
        return;
      }
      var before := r.affiliate;
      var after := before + share;
      users := users[referrer.value := r.(affiliate := after)];
      rows := rows + [Row(referrer.value, basket, AFFILIATE_COMMISSION, share, before, after)];
    }

    /** Returns false where the source raises for an unknown user. */
    method CreditDeposit(user: nat, amount: real) returns (ok: bool)
      modifies this
      ensures State() == Apply(old(State()), Deposit(user, amount)) && (ok <==> user in old(users))
    {
      ok := user in users;
      if ok {
        var before := users[user].balance;
        users := users[user := users[user].(balance := before + amount)];
        rows := rows + [Row(user, None, DEPOSIT, amount, before, before + amount)];
      }
    }

    method AdminAdjust(user: nat, amount: real) returns (ok: bool)
      modifies this
      ensures State() == Apply(old(State()), Adjust(user, amount)) && (ok <==> user in old(users))
    {
      ok := user in users;
      if ok {
        var before := users[user].balance;
        users := users[user := users[user].(balance := before + amount)];
        var kind := if amount >= 0.0 then ADMIN_CREDIT else ADMIN_DEBIT;
        rows := rows + [Row(user, None, kind, amount, before, before + amount)];
      }
    }

    /** The wallet part of a subscription charge; returns the number of its row. */
    method ChargeSubscription(user: nat, price: real) returns (tx: nat)
      requires user in users
      modifies this
      ensures State() == Apply(old(State()), Charge(user, price)) && tx == |old(rows)|
    {
      var before := users[user].balance;
      users := users[user := users[user].(balance := before - price)];
      tx := |rows|;
      rows := rows + [Row(user, None, SUBSCRIPTION_CHARGE, -price, before, before - price)];
    }
  }

  // ---------- Replay and chaining ----------

  /** Each user has two wallets; commission rows live on the affiliate one. */
  datatype Wallet = Main | Affiliate

  function WalletOf(r: Row): Wallet {
    if r.kind.AFFILIATE_COMMISSION? then Affiliate else Main
  }

  function Held(users: map<nat, User>, user: nat, w: Wallet): real
    requires user in users
  {
    if w.Main? then users[user].balance else users[user].affiliate
  }

  /** What the first n rows leave in a wallet: the closing balance of its last row, or what it
      opened with. */
  function Closing(opening: map<nat, User>, rows: seq<Row>, n: nat, user: nat, w: Wallet): real
    requires n <= |rows| && user in opening
  {
    if n == 0 then Held(opening, user, w)
    else if rows[n - 1].user == user && WalletOf(rows[n - 1]) == w then rows[n - 1].after
    else Closing(opening, rows, n - 1, user, w)
  }

  function Total(rows: seq<Row>, n: nat, user: nat, w: Wallet): real
    requires n <= |rows|
  {
    if n == 0 then 0.0
    else Total(rows, n - 1, user, w)
         + if rows[n - 1].user == user && WalletOf(rows[n - 1]) == w then rows[n - 1].amount else 0.0
  }

  /** Row n opens where its wallet was left by the rows before it and closes by its own amount. */
  ghost predicate Chains(opening: map<nat, User>, rows: seq<Row>, n: nat)
    requires n < |rows|
  {
    && rows[n].user in opening
    && rows[n].before == Closing(opening, rows, n, rows[n].user, WalletOf(rows[n]))
    && rows[n].after == rows[n].before + rows[n].amount
  }

  /** The table explains the balances: all rows chain, and every wallet holds what its rows leave. */
  ghost predicate Explained(opening: map<nat, User>, b: Book) {
    && b.users.Keys == opening.Keys
    && (forall n :: 0 <= n < |b.rows| ==> Chains(opening, b.rows, n))
    && (forall user, w :: user in opening ==> Held(b.users, user, w) == Closing(opening, b.rows, |b.rows|, user, w))
  }

  lemma {:induction false} ClosingOfPrefix(opening: map<nat, User>, rows: seq<Row>, more: seq<Row>, n: nat, user: nat,
                                           w: Wallet)
    requires n <= |rows| && user in opening
    ensures Closing(opening, rows + more, n, user, w) == Closing(opening, rows, n, user, w)
  {
    if n > 0 {
      ClosingOfPrefix(opening, rows, more, n - 1, user, w);
    }
  }

  /** Appending one well-opened row to a single wallet keeps the table explanatory. */
  lemma RowExplained(opening: map<nat, User>, b: Book, r: Row, after: map<nat, User>)
    requires Explained(opening, b) && r.user in opening
    requires r.before == Held(b.users, r.user, WalletOf(r)) && r.after == r.before + r.amount
    requires after.Keys == b.users.Keys && Held(after, r.user, WalletOf(r)) == r.after
    requires forall user, w :: user in opening && !(user == r.user && w == WalletOf(r)) ==>
               Held(after, user, w) == Held(b.users, user, w)
    ensures Explained(opening, Book(after, b.rows + [r]))
  {
    hide Held, WalletOf;
    var rows := b.rows + [r];
    forall n | 0 <= n < |rows|
      ensures Chains(opening, rows, n)
    {
      if n < |b.rows| {
        assert Chains(opening, b.rows, n);
        ClosingOfPrefix(opening, b.rows, [r], n, rows[n].user, WalletOf(rows[n]));
      } else {
        ClosingOfPrefix(opening, b.rows, [r], n, r.user, WalletOf(r));
      }
    }
    forall user, w | user in opening
      ensures Held(after, user, w) == Closing(opening, rows, |rows|, user, w)
    {
      ClosingOfPrefix(opening, b.rows, [r], |b.rows|, user, w);
    }
  }

  lemma PostedExplained(opening: map<nat, User>, b: Book, user: nat, basket: Option<nat>, kind: RowKind, amount: real)
    requires Explained(opening, b) && user in b.users && !kind.AFFILIATE_COMMISSION?
    ensures Explained(opening, Posted(b, user, basket, kind, amount))
  {
    var after := Posted(b, user, basket, kind, amount);
    RowExplained(opening, b, after.rows[|b.rows|], after.users);
  }

  lemma CommissionExplained(opening: map<nat, User>, b: Book, user: nat, basket: Option<nat>, fee: real, s: Settings)
    requires Explained(opening, b) && user in b.users
    ensures Explained(opening, Commissioned(b, user, basket, fee, s))
  {
    hide Percent;
    var after := Commissioned(b, user, basket, fee, s);
    if after != b {
      RowExplained(opening, b, after.rows[|b.rows|], after.users);
    }
  }

  lemma ApplyExplained(opening: map<nat, User>, b: Book, op: Op)
    requires Explained(opening, b)
    ensures Explained(opening, Apply(b, op))
  {
    hide Explained, Commissioned, Percent, FeeRefused;
    assert b.users.Keys == opening.Keys by { KeysKept(opening, b); }
    match op
    case Fee(user, basket, pnl, s) =>
      if !FeeRefused(b, user, basket, pnl, s) {
        assert user in b.users by { NotRefused(b, user, basket, pnl, s); }
        var fee := Percent(pnl, s.feePct);
        PostedExplained(opening, b, user, basket, FEE_DEDUCTION, -fee);
        CommissionExplained(opening, Posted(b, user, basket, FEE_DEDUCTION, -fee), user, basket, fee, s);
      }
    case Deposit(user, amount) => if user in b.users { PostedExplained(opening, b, user, None, DEPOSIT, amount); }
    case Adjust(user, amount) =>
      if user in b.users { PostedExplained(opening, b, user, None, AdjustKind(amount), amount); }
    case Charge(user, price) =>
      if user in b.users { PostedExplained(opening, b, user, None, SUBSCRIPTION_CHARGE, -price); }
  }

  lemma KeysKept(opening: map<nat, User>, b: Book)
    requires Explained(opening, b)
    ensures b.users.Keys == opening.Keys
  {}

  lemma NotRefused(b: Book, user: nat, basket: Option<nat>, pnl: real, s: Settings)
    requires !FeeRefused(b, user, basket, pnl, s)
    ensures user in b.users && pnl > 0.0 && Percent(pnl, s.feePct) > 0.0 && !Implausible(b.users, user, pnl)
  {}

  /** Over any interleaving of fees, commissions, deposits, adjustments and subscription charges the
      rows of every wallet chain and end at its balance. */
  lemma {:induction false} LedgerChains(opening: map<nat, User>, b: Book, ops: seq<Op>)
    requires Explained(opening, b)
    ensures Explained(opening, RunOps(b, ops))
  {
    hide Apply, Explained;
    if ops != [] {
      LedgerChains(opening, b, ops[..|ops| - 1]);
      ApplyExplained(opening, RunOps(b, ops[..|ops| - 1]), ops[|ops| - 1]);
    }
  }

  lemma {:induction false} ClosingIsTotal(opening: map<nat, User>, rows: seq<Row>, n: nat, user: nat, w: Wallet)
    requires n <= |rows| && user in opening && forall k :: 0 <= k < |rows| ==> Chains(opening, rows, k)
    ensures Closing(opening, rows, n, user, w) == Held(opening, user, w) + Total(rows, n, user, w)
  {
    if n > 0 {
      ClosingIsTotal(opening, rows, n - 1, user, w);
      assert Chains(opening, rows, n - 1);
    }
  }

  /** Replay: after any run from an empty table each balance is its start plus the sum of its rows;
      the main wallet counts everything but commissions, the affiliate wallet only commissions. */
  lemma LedgerReplays(opening: map<nat, User>, ops: seq<Op>, user: nat)
    requires user in opening
    ensures var b := RunOps(Book(opening, []), ops);
            && user in b.users
            && b.users[user].balance == opening[user].balance + Total(b.rows, |b.rows|, user, Main)
            && b.users[user].affiliate == opening[user].affiliate + Total(b.rows, |b.rows|, user, Affiliate)
  {
    hide Apply;
    var b := RunOps(Book(opening, []), ops);
    LedgerChains(opening, Book(opening, []), ops);
    ClosingIsTotal(opening, b.rows, |b.rows|, user, Main);
    ClosingIsTotal(opening, b.rows, |b.rows|, user, Affiliate);
    assert Held(b.users, user, Main) == Closing(opening, b.rows, |b.rows|, user, Main);
    assert Held(b.users, user, Affiliate) == Closing(opening, b.rows, |b.rows|, user, Affiliate);
  }

  // ---------- One fee per basket, and commissions that follow their fee ----------

  ghost predicate OneFeePerBasket(rows: seq<Row>) {
    forall i, j :: (0 <= i < j < |rows| && rows[i].kind.FEE_DEDUCTION? && rows[j].kind.FEE_DEDUCTION?
                    && rows[i].basket.Some?)
      ==> rows[i].basket != rows[j].basket
  }

  /** Every commission row stands right behind the fee row it is a share of. */
  ghost predicate CommissionsFollow(b: Book) {
    forall k :: 0 <= k < |b.rows| && b.rows[k].kind.AFFILIATE_COMMISSION? ==>
      && k > 0 && b.rows[k - 1].kind.FEE_DEDUCTION? && b.rows[k - 1].basket == b.rows[k].basket
      && b.rows[k - 1].user in b.users && b.users[b.rows[k - 1].user].invitedBy == Some(b.rows[k].user)
      && b.rows[k].amount > 0.0 && b.rows[k - 1].amount < 0.0
  }

  lemma PostedKeepsFees(b: Book, user: nat, basket: Option<nat>, kind: RowKind, amount: real)
    requires OneFeePerBasket(b.rows) && CommissionsFollow(b) && user in b.users && !kind.AFFILIATE_COMMISSION?
    requires kind.FEE_DEDUCTION? && basket.Some? ==> !HasFeeRow(b.rows, basket.value)
    ensures OneFeePerBasket(Posted(b, user, basket, kind, amount).rows)
    ensures CommissionsFollow(Posted(b, user, basket, kind, amount))
  {
    var posted := Posted(b, user, basket, kind, amount);
    PostedKeepsOneFee(b.rows, posted.rows[|b.rows|]);
    PostedKeepsCommissions(b, posted.users, posted.rows[|b.rows|]);
    hide OneFeePerBasket, CommissionsFollow, HasFeeRow;
  }

  lemma PostedKeepsCommissions(b: Book, users: map<nat, User>, row: Row)
    requires CommissionsFollow(b) && !row.kind.AFFILIATE_COMMISSION?
    requires forall u :: u in b.users ==> u in users && users[u].invitedBy == b.users[u].invitedBy
    ensures CommissionsFollow(Book(users, b.rows + [row]))
  {
    assert forall k :: 0 <= k < |b.rows| ==> (b.rows + [row])[k] == b.rows[k];
  }

  lemma PostedKeepsOneFee(before: seq<Row>, row: Row)
    requires OneFeePerBasket(before)
    requires row.kind.FEE_DEDUCTION? && row.basket.Some? ==> !HasFeeRow(before, row.basket.value)
    ensures OneFeePerBasket(before + [row])
  {
    var rows := before + [row];
    forall i, j | 0 <= i < j < |rows| && rows[i].kind.FEE_DEDUCTION? && rows[j].kind.FEE_DEDUCTION?
                  && rows[i].basket.Some?
      ensures rows[i].basket != rows[j].basket
    {
      assert rows[i] == before[i];
      if j < |before| {
        assert rows[j] == before[j];
      }
    }
  }

  lemma CommissionKeepsFees(b: Book, user: nat, basket: Option<nat>, fee: real, s: Settings)
    requires OneFeePerBasket(b.rows) && CommissionsFollow(b) && user in b.users
    requires b.rows != [] && var last := b.rows[|b.rows| - 1];
               last.kind.FEE_DEDUCTION? && last.user == user && last.basket == basket && last.amount < 0.0
    ensures OneFeePerBasket(Commissioned(b, user, basket, fee, s).rows)
    ensures CommissionsFollow(Commissioned(b, user, basket, fee, s))
  {
    hide Percent, OneFeePerBasket, CommissionsFollow;
    var after := Commissioned(b, user, basket, fee, s);
    if after != b {
      var share := after.rows[|b.rows|];
      assert after.rows == b.rows + [share] && share.amount > 0.0;
      ShareKeepsFees(b, after.users, share);
    }
  }

  lemma ShareKeepsFees(b: Book, users: map<nat, User>, share: Row)
    requires OneFeePerBasket(b.rows) && CommissionsFollow(b)
    requires forall u :: u in b.users ==> u in users && users[u].invitedBy == b.users[u].invitedBy
    requires share.kind.AFFILIATE_COMMISSION? && share.amount > 0.0
    requires b.rows != [] && var last := b.rows[|b.rows| - 1];
               && last.kind.FEE_DEDUCTION? && last.amount < 0.0 && last.basket == share.basket
               && last.user in b.users && b.users[last.user].invitedBy == Some(share.user)
    ensures OneFeePerBasket(b.rows + [share]) && CommissionsFollow(Book(users, b.rows + [share]))
  {
    var rows := b.rows + [share];
    assert forall k :: 0 <= k < |b.rows| ==> rows[k] == b.rows[k];
    assert OneFeePerBasket(rows) by {
      hide CommissionsFollow;
    }
    forall k | 0 <= k < |rows| && rows[k].kind.AFFILIATE_COMMISSION?
      ensures && k > 0 && rows[k - 1].kind.FEE_DEDUCTION? && rows[k - 1].basket == rows[k].basket
              && rows[k - 1].user in users && users[rows[k - 1].user].invitedBy == Some(rows[k].user)
              && rows[k].amount > 0.0 && rows[k - 1].amount < 0.0
    {
      if k < |b.rows| {
        assert rows[k] == b.rows[k] && rows[k - 1] == b.rows[k - 1];
      } else {
        assert rows[k] == share;
      }
    }
    assert CommissionsFollow(Book(users, rows)) by {
      hide OneFeePerBasket;
    }
  }

  lemma ApplyKeepsFees(b: Book, op: Op)
    requires OneFeePerBasket(b.rows) && CommissionsFollow(b)
    ensures OneFeePerBasket(Apply(b, op).rows) && CommissionsFollow(Apply(b, op))
  {
    hide Percent, OneFeePerBasket, CommissionsFollow, HasFeeRow, Commissioned;
    match op
    case Fee(user, basket, pnl, s) =>
      if !FeeRefused(b, user, basket, pnl, s) {
        var fee := Percent(pnl, s.feePct);
        PostedKeepsFees(b, user, basket, FEE_DEDUCTION, -fee);
        CommissionKeepsFees(Posted(b, user, basket, FEE_DEDUCTION, -fee), user, basket, fee, s);
      }
    case Deposit(user, amount) => if user in b.users { PostedKeepsFees(b, user, None, DEPOSIT, amount); }
    case Adjust(user, amount) => if user in b.users { PostedKeepsFees(b, user, None, AdjustKind(amount), amount); }
    case Charge(user, price) => if user in b.users { PostedKeepsFees(b, user, None, SUBSCRIPTION_CHARGE, -price); }
  }

  /** Whoever closes a basket, monitor, forced close or reconciler, and however often: at most one
      fee row per basket, although commission rows carry the same basket id. */
  lemma {:induction false} OneFeeOverRuns(b: Book, ops: seq<Op>)
    requires OneFeePerBasket(b.rows) && CommissionsFollow(b)
    ensures OneFeePerBasket(RunOps(b, ops).rows) && CommissionsFollow(RunOps(b, ops))
  {
    hide Apply, OneFeePerBasket, CommissionsFollow;
    if ops != [] {
      OneFeeOverRuns(b, ops[..|ops| - 1]);
      ApplyKeepsFees(RunOps(b, ops[..|ops| - 1]), ops[|ops| - 1]);
    }
  }

  /** Deducting again with the same arguments changes nothing exactly when the call names a basket, or is refused in
      the first place, or leaves a balance that is positive and less than twice the profit: a call without a basket id
      escapes the duplicate check. */
  lemma RepeatedFee(b: Book, user: nat, basket: Option<nat>, pnl: real, s: Settings)
    ensures var once := Deducted(b, user, basket, pnl, s);
            Deducted(once, user, basket, pnl, s) == once <==>
            (basket.Some? || FeeRefused(b, user, basket, pnl, s)
             || 0.0 < b.users[user].balance - Percent(pnl, s.feePct) < 2.0 * pnl)
  {
    hide Percent;
    var once := Deducted(b, user, basket, pnl, s);
    var twice := Deducted(once, user, basket, pnl, s);
    if !FeeRefused(b, user, basket, pnl, s) {
      var fee := once.rows[|b.rows|];
      assert fee.kind.FEE_DEDUCTION? && fee.basket == basket;
      assert |once.rows| > |b.rows|;
      if !FeeRefused(once, user, basket, pnl, s) {
        assert |twice.rows| > |once.rows|;
      }
    }
  }

  /** The row kind and the amount a deposit, an adjustment or a subscription charge is booked with. */
  function BookedAs(op: Op): (RowKind, real)
    requires !op.Fee?
  {
    match op
    case Deposit(_, amount) => (DEPOSIT, amount)
    case Adjust(_, amount) => (if amount < 0.0 then ADMIN_DEBIT else ADMIN_CREDIT, amount)
    case Charge(_, price) => (SUBSCRIPTION_CHARGE, -price)
  }

  /** Each of them is refused for an unknown user, and otherwise moves that user's balance by the amount and appends one
      row that says so. */
  lemma BookingIs(b: Book, op: Op)
    requires !op.Fee?
    ensures var after, (kind, amount) := Apply(b, op), BookedAs(op);
            if op.user !in b.users then after == b
            else && after.users.Keys == b.users.Keys
                 && after.users[op.user] == b.users[op.user].(balance := b.users[op.user].balance + amount)
                 && (forall other :: other in b.users && other != op.user ==> after.users[other] == b.users[other])
                 && after.rows == b.rows + [Row(op.user, None, kind, amount, b.users[op.user].balance,
                                                b.users[op.user].balance + amount)]
  {}

  /** What a deduction does, in amounts: the percentage of the profit comes off the balance, its row says so, and the
      other balances stay. */
  lemma FeeTaken(b: Book, user: nat, basket: Option<nat>, pnl: real, s: Settings)
    ensures var after := Apply(b, Fee(user, basket, pnl, s));
            var taken := && s.feeEnabled && user in b.users && 0.0 < pnl <= 500.0 && pnl * s.feePct > 0.0
                         && (b.users[user].balance > 0.0 ==> 2.0 * pnl <= b.users[user].balance)
                         && (basket.Some? ==> forall k :: 0 <= k < |b.rows| && b.rows[k].kind.FEE_DEDUCTION? ==>
                               b.rows[k].basket != basket);
            if !taken then after == b
            else && user in after.users && |after.rows| > |b.rows| && after.rows[..|b.rows|] == b.rows
                 && var row := after.rows[|b.rows|];
                 && row.user == user && row.basket == basket && row.kind.FEE_DEDUCTION?
                 && 100.0 * row.amount == -(pnl * s.feePct)
                 && row.before == b.users[user].balance && row.after == after.users[user].balance
                 && after.users[user].balance == b.users[user].balance + row.amount
                 && forall other :: other in b.users && other != user ==>
                      other in after.users && after.users[other].balance == b.users[other].balance
  {
    if !FeeRefused(b, user, basket, pnl, s) {
      assert Deducted(b, user, basket, pnl, s).rows[..|b.rows|] == b.rows;
    }
  }

  /** The commission that goes with it: exactly when the user was invited by somebody known, commissions are on, and the
      referrer's own percentage, or the default without one, is positive; it is that percentage of the fee. */
  lemma CommissionPaid(b: Book, user: nat, basket: Option<nat>, pnl: real, s: Settings)
    requires !FeeRefused(b, user, basket, pnl, s)
    ensures var after, referrer := Apply(b, Fee(user, basket, pnl, s)), b.users[user].invitedBy;
            var paid := s.affiliateEnabled && referrer.Some? && referrer.value in b.users &&
                        CommissionRate(b.users[referrer.value], s) > 0.0;
            if !paid then |after.rows| == |b.rows| + 1
                          && forall u :: u in b.users ==> after.users[u].affiliate == b.users[u].affiliate
            else && |after.rows| == |b.rows| + 2 && referrer.value in after.users
                 && var row := after.rows[|b.rows| + 1];
                 && row.user == referrer.value && row.basket == basket && row.kind.AFFILIATE_COMMISSION?
                 && 10_000.0 * row.amount == pnl * s.feePct * CommissionRate(b.users[referrer.value], s)
                 && after.users[referrer.value].affiliate == b.users[referrer.value].affiliate + row.amount
                 && forall u :: u in b.users && u != referrer.value ==> after.users[u].affiliate == b.users[u].affiliate
  {
    var fee := Percent(pnl, s.feePct);
    var referrer := b.users[user].invitedBy;
    if referrer.Some? && referrer.value in b.users {
      ShareOf(fee, CommissionRate(b.users[referrer.value], s));
    }
  }

  function CommissionRate(referrer: User, s: Settings): real {
    match referrer.commissionOverride
    case Some(own) => own
    case None => s.defaultCommissionPct
  }

  lemma ShareOf(fee: real, pct: real)
    requires fee > 0.0
    ensures Percent(fee, pct) > 0.0 <==> pct > 0.0
  {
    assert fee * pct > 0.0 <==> pct > 0.0;
  }

  // ---------- Fees cannot drain a positive wallet ----------

  function PowerOfTwo(k: nat): (p: real)
    ensures p > 0.0
  {
    if k == 0 then 1.0 else 2.0 * PowerOfTwo(k - 1)
  }

  function FeeRows(rows: seq<Row>, n: nat, user: nat): nat
    requires n <= |rows|
  {
    if n == 0 then 0
    else FeeRows(rows, n - 1, user) + if rows[n - 1].user == user && rows[n - 1].kind.FEE_DEDUCTION? then 1 else 0
  }

  lemma {:induction false} FeeRowsOfPrefix(rows: seq<Row>, more: seq<Row>, n: nat, user: nat)
    requires n <= |rows|
    ensures FeeRows(rows + more, n, user) == FeeRows(rows, n, user)
  {
    if n > 0 {
      FeeRowsOfPrefix(rows, more, n - 1, user);
    }
  }

  lemma PercentBounds(pnl: real, pct: real)
    requires pnl > 0.0 && 0.0 <= pct <= 100.0
    ensures 0.0 <= Percent(pnl, pct) <= pnl
    ensures pnl <= PNL_ABSOLUTE_CAP ==> Percent(pnl, pct) <= Percent(PNL_ABSOLUTE_CAP, pct)
  {
    assert pnl * pct <= pnl * 100.0;
    if pnl <= PNL_ABSOLUTE_CAP {
      assert pnl * pct <= PNL_ABSOLUTE_CAP * pct;
    }
  }

  /** One deduction at a percentage in [0, 100] costs at most that share of 500, leaves at least half
      of a positive balance, adds at most one fee row of the user and touches no other main wallet. */
  lemma FeeLeavesHalf(b: Book, user: nat, basket: Option<nat>, pnl: real, s: Settings, other: nat)
    requires 0.0 <= s.feePct <= 100.0 && other in b.users
    ensures var after := Deducted(b, user, basket, pnl, s);
            && other in after.users
            && (other != user ==> after.users[other].balance == b.users[other].balance)
            && b.users[other].balance - after.users[other].balance <= Percent(PNL_ABSOLUTE_CAP, s.feePct)
            && (b.users[other].balance > 0.0 ==> after.users[other].balance >= b.users[other].balance / 2.0)
  {
    hide Percent, HasFeeRow;
    if !FeeRefused(b, user, basket, pnl, s) {
      PercentBounds(pnl, s.feePct);
    } else {
      PercentBounds(PNL_ABSOLUTE_CAP, s.feePct);
    }
    PercentBounds(PNL_ABSOLUTE_CAP, s.feePct);
  }

  lemma FeeCounts(b: Book, user: nat, basket: Option<nat>, pnl: real, s: Settings, other: nat)
    ensures var after := Deducted(b, user, basket, pnl, s);
            FeeRows(after.rows, |after.rows|, other)
            == FeeRows(b.rows, |b.rows|, other)
               + if other == user && !FeeRefused(b, user, basket, pnl, s) then 1 else 0
  {
    hide Percent, FeeRefused;
    if !FeeRefused(b, user, basket, pnl, s) {
      assert user in b.users by { NotRefused(b, user, basket, pnl, s); }
      var posted := Posted(b, user, basket, FEE_DEDUCTION, -Percent(pnl, s.feePct));
      FeeRowsOfPrefix(b.rows, posted.rows[|b.rows|..], |b.rows|, other);
      assert posted.rows == b.rows + posted.rows[|b.rows|..];
      var after := Deducted(b, user, basket, pnl, s);
      if after.rows != posted.rows {
        FeeRowsOfPrefix(posted.rows, [after.rows[|posted.rows|]], |posted.rows|, other);
        assert after.rows == posted.rows + [after.rows[|posted.rows|]];
      }
    }
  }

  ghost predicate FeesAndDeposits(ops: seq<Op>) {
    forall i :: 0 <= i < |ops| ==>
      (ops[i].Fee? && 0.0 <= ops[i].settings.feePct <= 100.0) || (ops[i].Deposit? && ops[i].amount >= 0.0)
  }

  lemma HalfAgain(balance: real, start: real, k: nat, next: real)
    requires balance >= start / PowerOfTwo(k) && next >= balance / 2.0
    ensures next >= start / PowerOfTwo(k + 1)
  {
    var p := PowerOfTwo(k);
    var q := start / p;
    assert start == q * p;
    assert start / (2.0 * p) == q / 2.0 by {
      assert (q / 2.0) * (2.0 * p) == q * p;
    }
  }

  /** Fee runs cannot drain a wallet: after any run of deductions (at percentages in [0, 100], for any
      users and baskets) and deposits, a balance that was positive is at least its start divided by two
      to the number of its fees, hence still positive. */
  lemma {:induction false} FeesCannotDrain(opening: map<nat, User>, ops: seq<Op>, user: nat)
    requires user in opening && opening[user].balance > 0.0 && FeesAndDeposits(ops)
    ensures var b := RunOps(Book(opening, []), ops);
            && user in b.users
            && b.users[user].balance >= opening[user].balance / PowerOfTwo(FeeRows(b.rows, |b.rows|, user)) > 0.0
  {
    hide PowerOfTwo, Deducted;
    var start := opening[user].balance;
    if ops == [] {
      assert PowerOfTwo(0) == 1.0 by { PowerOfTwoBase(); }
    } else {
      var n := |ops| - 1;
      FeesCannotDrain(opening, ops[..n], user);
      var b := RunOps(Book(opening, []), ops[..n]);
      var k := FeeRows(b.rows, |b.rows|, user);
      match ops[n]
      case Fee(u, basket, pnl, s) =>
        FeeLeavesHalf(b, u, basket, pnl, s, user);
        FeeCounts(b, u, basket, pnl, s, user);
        var after := Deducted(b, u, basket, pnl, s);
        if user == u && !FeeRefused(b, u, basket, pnl, s) {
          HalfAgain(b.users[user].balance, start, k, after.users[user].balance);
          PositiveShare(start, k + 1);
        } else if user == u {
          RefusedKeeps(b, u, basket, pnl, s);
        }
      case Deposit(u, amount) =>
        if u in b.users {
          FeeRowsOfPrefix(b.rows, [Row(u, None, DEPOSIT, amount, b.users[u].balance, b.users[u].balance + amount)],
                          |b.rows|, user);
        }
    }
  }

  lemma PowerOfTwoBase()
    ensures PowerOfTwo(0) == 1.0
  {}

  lemma PositiveShare(start: real, k: nat)
    requires start > 0.0
    ensures start / PowerOfTwo(k) > 0.0
  {}

  lemma RefusedKeeps(b: Book, user: nat, basket: Option<nat>, pnl: real, s: Settings)
    requires FeeRefused(b, user, basket, pnl, s)
    ensures Deducted(b, user, basket, pnl, s) == b
  {}
}
