/** Single-flight token refresh of frontend/lib/api.ts, in the browser.  Between two `await`s the code runs
    without interruption, so a step is the handling of one 401 or of one refresh reply.  Requests are
    numbered; each enters `handleUnauthorized` once. */
module TokenRefresh {
  type Id = nat

  /** A refresh reply: ok, not ok, or a thrown value, which is an Error or something else. */
  datatype Reply = OkReply | NotOk | Thrown(isError: bool)

  /** How a request leaves `handleUnauthorized`: sent again, rejected as expired, or with the error of the
      refresh call itself. */
  datatype Outcome = Retried | SessionExpired | NetworkError

  datatype Settlement = Settlement(id: Id, outcome: Outcome)

  /** The two fields of the client, the refresh calls in flight (by the request that made them), and what
      the rest of the world has seen. */
  datatype Client = Client(refreshing: bool, pending: seq<Id>, inFlight: seq<Id>, settled: seq<Settlement>,
                           expiredEvents: nat)

  datatype Step = Unauthorized(id: Id) | RefreshReply(leader: Id, reply: Reply)

  function WaiterOutcome(reply: Reply): Outcome {
    if reply.OkReply? then Retried else SessionExpired
  }

  function LeaderOutcome(reply: Reply): Outcome {
    match reply
    case OkReply => Retried
    case NotOk => SessionExpired
    case Thrown(isError) => if isError then NetworkError else SessionExpired
  }

  function SettleAll(ids: seq<Id>, outcome: Outcome): seq<Settlement> {
    if ids == [] then [] else SettleAll(ids[..|ids| - 1], outcome) + [Settlement(ids[|ids| - 1], outcome)]
  }

  function Without(inFlight: seq<Id>, leader: Id): seq<Id> {
    if inFlight == [] then []
    else if inFlight[0] == leader then inFlight[1..]
    else [inFlight[0]] + Without(inFlight[1..], leader)
  }

  function Next(c: Client, s: Step): Client {
    match s
    case Unauthorized(id) =>
      if c.refreshing then c.(pending := c.pending + [id])
      else c.(refreshing := true, inFlight := c.inFlight + [id])
    case RefreshReply(leader, reply) =>
      c.(refreshing := false, pending := [], inFlight := Without(c.inFlight, leader),
         settled := c.settled + SettleAll(c.pending, WaiterOutcome(reply)) + [Settlement(leader, LeaderOutcome(reply))],
         expiredEvents := c.expiredEvents + if reply.NotOk? then 1 else 0)
  }

  class ApiClient {
    var isRefreshing: bool
    var pendingRequests: seq<Id>
    var inFlight: seq<Id>
    var settled: seq<Settlement>
    var expiredEvents: nat

    function State(): Client
      reads this
    {
      Client(isRefreshing, pendingRequests, inFlight, settled, expiredEvents)
    }

    constructor ()
      ensures State() == Fresh()
    {
      isRefreshing, pendingRequests, inFlight, settled, expiredEvents := false, [], [], [], 0;
    }

    /** A 401 on a non-auth endpoint. */
    method HandleUnauthorized(id: Id)
      modifies this
      ensures State() == Next(old(State()), Unauthorized(id))
    {
      if isRefreshing {
        pendingRequests := pendingRequests + [id];
        return;
      }
      isRefreshing := true;
      inFlight := inFlight + [id];
    }

    /** The `forEach` over the queue. */
    method SettlePending(outcome: Outcome)
      modifies this`settled, this`pendingRequests
      ensures settled == old(settled) + SettleAll(old(pendingRequests), outcome) && pendingRequests == []
    {
      var i := 0;
      while i < |pendingRequests|
        invariant 0 <= i <= |pendingRequests| && pendingRequests == old(pendingRequests)
        invariant settled == old(settled) + SettleAll(pendingRequests[..i], outcome)
      {
        assert pendingRequests[..i + 1][..i] == pendingRequests[..i];
        settled := settled + [Settlement(pendingRequests[i], outcome)];
        i := i + 1;
      }
      assert pendingRequests[..|pendingRequests|] == pendingRequests;
      pendingRequests := [];
    }

    /** The rest of `handleUnauthorized` of request `leader`, once its refresh call has come back. */
    method FinishRefresh(leader: Id, reply: Reply)
      modifies this
      ensures State() == Next(old(State()), RefreshReply(leader, reply))
    {
      inFlight := Without(inFlight, leader);
      if reply.OkReply? {
        isRefreshing := false;
        SettlePending(Retried);
        settled := settled + [Settlement(leader, Retried)];
        return;
      }
      if reply.NotOk? {
        expiredEvents := expiredEvents + 1;
      }
      isRefreshing := false;
      SettlePending(SessionExpired);
      if reply.Thrown? && reply.isError {
        settled := settled + [Settlement(leader, NetworkError)];
      } else {
        settled := settled + [Settlement(leader, SessionExpired)];
      }
    }
  }

  // ---------- Interleavings ----------

  function Fresh(): Client {
    Client(false, [], [], [], 0)
  }

  function Run(trace: seq<Step>): Client {
    if trace == [] then Fresh() else Next(Run(trace[..|trace| - 1]), trace[|trace| - 1])
  }

  /** A reply arrives only for a refresh that is in flight. */
  predicate Possible(trace: seq<Step>) {
    trace == [] ||
    var n := |trace| - 1;
    Possible(trace[..n]) && (trace[n].RefreshReply? ==> trace[n].leader in Run(trace[..n]).inFlight)
  }

  /** Single flight: at most one refresh is under way, the flag says so, and while it is down nobody
      waits. */
  ghost predicate SingleFlight(c: Client) {
    && |c.inFlight| == (if c.refreshing then 1 else 0)
    && (!c.refreshing ==> c.pending == [])
  }

  lemma {:induction false} RefreshIsSingleFlight(trace: seq<Step>)
    requires Possible(trace)
    ensures SingleFlight(Run(trace))
  {
    if trace != [] {
      RefreshIsSingleFlight(trace[..|trace| - 1]);
    }
  }

  // ---------- Every request is settled once ----------

  function Arrived(trace: seq<Step>): seq<Id> {
    if trace == [] then []
    else
      var n := |trace| - 1;
      Arrived(trace[..n]) + if trace[n].Unauthorized? then [trace[n].id] else []
  }

  function SettledIds(settled: seq<Settlement>): seq<Id> {
    if settled == [] then [] else SettledIds(settled[..|settled| - 1]) + [settled[|settled| - 1].id]
  }

  lemma {:induction false} SettledAppend(a: seq<Settlement>, b: seq<Settlement>)
    ensures SettledIds(a + b) == SettledIds(a) + SettledIds(b)
  {
    if b == [] {
      assert a + b == a;
    } else {
      var n := |b| - 1;
      SettledAppend(a, b[..n]);
      assert (a + b)[..|a + b| - 1] == a + b[..n];
    }
  }

  lemma {:induction false} SettleAllIds(ids: seq<Id>, outcome: Outcome)
    ensures SettledIds(SettleAll(ids, outcome)) == ids && |SettleAll(ids, outcome)| == |ids|
  {
    if ids != [] {
      var n := |ids| - 1;
      SettleAllIds(ids[..n], outcome);
      var all := SettleAll(ids, outcome);
      assert all[..n] == SettleAll(ids[..n], outcome);
      assert ids == ids[..n] + [ids[n]];
    }
  }

  ghost predicate Conserved(arrived: seq<Id>, c: Client) {
    multiset(arrived) == multiset(SettledIds(c.settled)) + multiset(c.pending) + multiset(c.inFlight)
  }

  lemma ArrivalConserves(arrived: seq<Id>, c: Client, id: Id)
    requires Conserved(arrived, c)
    ensures Conserved(arrived + [id], Next(c, Unauthorized(id)))
  {
    hide SettledIds;
  }

  lemma ReplyConserves(arrived: seq<Id>, c: Client, leader: Id, reply: Reply)
    requires Conserved(arrived, c) && SingleFlight(c) && leader in c.inFlight
    ensures Conserved(arrived, Next(c, RefreshReply(leader, reply)))
  {
    hide SettledIds, SettleAll;
    ReplySettlesGroup(c, leader, reply);
    assert c.inFlight == [leader];
    assert Without([leader], leader) == [];
  }

  /** Nothing is lost and nothing is settled twice: in every interleaving the requests that met a 401 are,
      counted with multiplicity, those settled, those waiting and the one refreshing. */
  lemma {:induction false} RequestsAreConserved(trace: seq<Step>)
    requires Possible(trace)
    ensures var c := Run(trace);
            multiset(Arrived(trace)) == multiset(SettledIds(c.settled)) + multiset(c.pending) + multiset(c.inFlight)
  {
    hide Next, SingleFlight, SettledIds;
    if trace == [] {
      assert SettledIds([]) == [] by { NothingSettled(); }
    } else {
      var n := |trace| - 1;
      RequestsAreConserved(trace[..n]);
      RefreshIsSingleFlight(trace[..n]);
      match trace[n]
      case Unauthorized(id) => ArrivalConserves(Arrived(trace[..n]), Run(trace[..n]), id);
      case RefreshReply(leader, reply) =>
        ReplyConserves(Arrived(trace[..n]), Run(trace[..n]), leader, reply);
        assert Arrived(trace) == Arrived(trace[..n]) + [] == Arrived(trace[..n]);
    }
  }

  lemma NothingSettled()
    ensures SettledIds([]) == []
  {}

  lemma ReplySettlesGroup(before: Client, leader: Id, reply: Reply)
    ensures SettledIds(Next(before, RefreshReply(leader, reply)).settled) == SettledIds(before.settled) +
            before.pending + [leader]
  {
    var waiters := SettleAll(before.pending, WaiterOutcome(reply));
    var last := [Settlement(leader, LeaderOutcome(reply))];
    SettleAllIds(before.pending, WaiterOutcome(reply));
    SettledAppend(before.settled, waiters);
    SettledAppend(before.settled + waiters, last);
    assert last[..0] == [] && SettledIds([]) == [] && SettledIds(last) == [leader];
  }

  /** Hence, when no refresh is under way, the settled requests are exactly those that met a 401, each
      settled once, so each is retried at most once. */
  lemma QuietMeansAllSettled(trace: seq<Step>)
    requires Possible(trace) && !Run(trace).refreshing
    ensures multiset(SettledIds(Run(trace).settled)) == multiset(Arrived(trace))
  {
    RequestsAreConserved(trace);
    RefreshIsSingleFlight(trace);
    var c := Run(trace);
    assert c.pending == [] && c.inFlight == [];
  }

  // ---------- The outcomes read off the trace ----------

  /** The 401s since the last refresh reply: the first of them leads, the others wait. */
  function Since(trace: seq<Step>): seq<Id> {
    if trace == [] || trace[|trace| - 1].RefreshReply? then []
    else Since(trace[..|trace| - 1]) + [trace[|trace| - 1].id]
  }

  /** One refresh round. */
  function Round(ids: seq<Id>, reply: Reply): seq<Settlement>
    requires ids != []
  {
    SettleAll(ids[1..], WaiterOutcome(reply)) + [Settlement(ids[0], LeaderOutcome(reply))]
  }

  /** What a round does to each of its requests: those that waited are sent again on an ok reply and rejected as expired
      on any other; so is the one that made the refresh call, unless that call threw an Error, which it then gets. */
  lemma RoundOutcomes(ids: seq<Id>, reply: Reply)
    requires ids != []
    ensures var round := Round(ids, reply);
            && |round| == |ids|
            && (forall k :: 0 <= k < |ids| - 1 ==>
                  round[k] == Settlement(ids[k + 1], if reply == OkReply then Retried else SessionExpired))
            && round[|ids| - 1] == Settlement(ids[0], if reply == OkReply then Retried
                                                      else if reply == Thrown(true) then NetworkError
                                                      else SessionExpired)
  {
    SettleAllEach(ids[1..], WaiterOutcome(reply));
  }

  lemma {:induction false} SettleAllEach(ids: seq<Id>, outcome: Outcome)
    ensures |SettleAll(ids, outcome)| == |ids|
    ensures forall k :: 0 <= k < |ids| ==> SettleAll(ids, outcome)[k] == Settlement(ids[k], outcome)
  {
    if ids != [] {
      SettleAllEach(ids[..|ids| - 1], outcome);
    }
  }

  /** All rounds of a trace, looking only at the order of 401s and replies. */
  function Rounds(trace: seq<Step>): seq<Settlement> {
    if trace == [] then []
    else
      var n := |trace| - 1;
      if trace[n].RefreshReply? && Since(trace[..n]) != []
      then Rounds(trace[..n]) + Round(Since(trace[..n]), trace[n].reply)
      else Rounds(trace[..n])
  }

  function ExpiredReplies(trace: seq<Step>): nat {
    if trace == [] then 0
    else
      var n := |trace| - 1;
      ExpiredReplies(trace[..n]) + if trace[n].RefreshReply? && trace[n].reply.NotOk? then 1 else 0
  }

  /** The protocol does what its trace says: the open group is the leader followed by the queue; each reply
      settles its whole group, all waiters alike (retried on an ok reply, expired otherwise) and the
      leader with them, except that a refresh that throws an Error hands that error to the leader alone;
      and the session-expired events are exactly the replies that were not ok. */
  lemma {:induction false} OutcomesFollowReplies(trace: seq<Step>)
    requires Possible(trace)
    ensures var c := Run(trace);
            && Since(trace) == c.inFlight + c.pending
            && c.settled == Rounds(trace)
            && c.expiredEvents == ExpiredReplies(trace)
  {
    if trace != [] {
      var n := |trace| - 1;
      var before := Run(trace[..n]);
      OutcomesFollowReplies(trace[..n]);
      RefreshIsSingleFlight(trace[..n]);
      match trace[n]
      case Unauthorized(id) =>
        assert before.inFlight + (before.pending + [id]) == before.inFlight + before.pending + [id];
      case RefreshReply(leader, reply) =>
        assert before.inFlight == [leader];
        assert Since(trace[..n]) == [leader] + before.pending;
        assert Since(trace[..n])[1..] == before.pending;
        var waiters := SettleAll(before.pending, WaiterOutcome(reply));
        var last := [Settlement(leader, LeaderOutcome(reply))];
        assert before.settled + (waiters + last) == before.settled + waiters + last;
    }
  }

  /** A trace of n requests that meet a 401 before the one reply costs a single refresh call and gives
      every one of them the same retry. */
  lemma {:induction false} OneRefreshServesAll(ids: seq<Id>, leader: Id)
    requires ids != [] && leader == ids[0]
    ensures var trace := Unauthorizeds(ids) + [RefreshReply(leader, OkReply)];
            && Possible(trace)
            && Run(trace) == Client(false, [], [], Round(ids, OkReply), 0)
            && |Run(trace).settled| == |ids| && forall k :: 0 <= k < |ids| ==> Run(trace).settled[k].outcome == Retried
  {
    var burst := Unauthorizeds(ids);
    var trace := burst + [RefreshReply(leader, OkReply)];
    BurstQueues(ids);
    assert trace[..|trace| - 1] == burst;
    assert [] + SettleAll(ids[1..], Retried) == SettleAll(ids[1..], Retried);
    RoundOutcomes(ids, OkReply);
  }

  function Unauthorizeds(ids: seq<Id>): seq<Step> {
    if ids == [] then [] else Unauthorizeds(ids[..|ids| - 1]) + [Unauthorized(ids[|ids| - 1])]
  }

  lemma {:induction false} BurstQueues(ids: seq<Id>)
    ensures Possible(Unauthorizeds(ids))
    ensures Run(Unauthorizeds(ids)) == if ids == [] then Fresh() else Client(true, ids[1..], [ids[0]], [], 0)
  {
    if ids != [] {
      var n := |ids| - 1;
      var burst := Unauthorizeds(ids);
      BurstQueues(ids[..n]);
      assert burst[..|burst| - 1] == Unauthorizeds(ids[..n]);
      if n > 0 {
        assert ids[..n][1..] + [ids[n]] == ids[1..];
      }
    }
  }
}
