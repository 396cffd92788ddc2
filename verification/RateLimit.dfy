/** The sliding-window limiter of rate_limit.py.  A sorted set whose members are the times themselves is
    a set of times; a key that has outlived its expiry no longer exists. */
module RateLimit {
  import opened Options

  datatype Entry = Entry(scores: set<real>, expiresAt: real)

  function Live(e: Option<Entry>, now: real): set<real> {
    if e.Some? && now < e.value.expiresAt then e.value.scores else {}
  }

  /** `zremrangebyscore(key, 0, now - window)` */
  function Trimmed(scores: set<real>, now: real, window: real): set<real> {
    set s | s in scores && !(0.0 <= s <= now - window)
  }

  /** Admission looks at the attempts still on record, and records this one either way. */
  predicate Admits(e: Option<Entry>, now: real, max: int, window: real) {
    |Trimmed(Live(e, now), now, window)| < max
  }

  function Recorded(e: Option<Entry>, now: real, window: real): Entry {
    Entry(Trimmed(Live(e, now), now, window) + {now}, now + window)
  }

  function Lookup(store: map<string, Entry>, key: string): Option<Entry> {
    if key in store then Some(store[key]) else None
  }

  class RateLimiter {
    const maxRequests: int
    const window: real
    var store: map<string, Entry>

    constructor (maxRequests: int, window: real)
      ensures this.maxRequests == maxRequests && this.window == window && store == map[]
    {
      this.maxRequests, this.window, store := maxRequests, window, map[];
    }

    method Check(key: string, now: real) returns (allowed: bool)
      modifies this
      ensures allowed == Admits(Lookup(old(store), key), now, maxRequests, window)
      ensures store == old(store)[key := Recorded(Lookup(old(store), key), now, window)]
    {
      var scores := Live(Lookup(store, key), now);
      scores := set s | s in scores && !(0.0 <= s <= now - window);
      var count := |scores|;
      scores := scores + {now};
      store := store[key := Entry(scores, now + window)];
      allowed := count < maxRequests;
    }
  }

  // ---------- Runs on one key ----------

  function After(times: seq<real>, window: real): Option<Entry> {
    if times == [] then None
    else Some(Recorded(After(times[..|times| - 1], window), times[|times| - 1], window))
  }

  predicate Allowed(times: seq<real>, i: nat, max: int, window: real)
    requires i < |times|
  {
    Admits(After(times[..i], window), times[i], max, window)
  }

  // ---------- Many keys ----------

  /** A call for a key at a time. */
  datatype Call = Call(key: string, now: real)

  /** The store after these calls. */
  function StoreAfter(calls: seq<Call>, window: real): map<string, Entry> {
    if calls == [] then map[]
    else
      var before, c := StoreAfter(calls[..|calls| - 1], window), calls[|calls| - 1];
      before[c.key := Recorded(Lookup(before, c.key), c.now, window)]
  }

  function TimesOf(calls: seq<Call>, key: string): seq<real> {
    if calls == [] then []
    else
      var c := calls[|calls| - 1];
      TimesOf(calls[..|calls| - 1], key) + if c.key == key then [c.now] else []
  }

  /** What the store holds for a key is what that key's own calls alone have left: no call counts against another key.
      */
  lemma {:induction false} KeysAreIndependent(calls: seq<Call>, key: string, window: real)
    ensures Lookup(StoreAfter(calls, window), key) == After(TimesOf(calls, key), window)
    ensures key in StoreAfter(calls, window) <==> TimesOf(calls, key) != []
  {
    hide Recorded;
    if calls != [] {
      var n := |calls| - 1;
      KeysAreIndependent(calls[..n], key, window);
      var times, more := TimesOf(calls[..n], key), TimesOf(calls, key);
      if calls[n].key == key {
        assert more[..|more| - 1] == times && more[|more| - 1] == calls[n].now;
      } else {
        assert more == times + [] == times;
      }
    }
  }

  // ---------- Clocks ----------

  ghost predicate Clock(times: seq<real>) {
    && (forall i :: 0 <= i < |times| ==> times[i] >= 0.0)
    && (forall i, j :: 0 <= i <= j < |times| ==> times[i] <= times[j])
  }

  ghost predicate Strict(times: seq<real>) {
    Clock(times) && forall i, j :: 0 <= i < j < |times| ==> times[i] < times[j]
  }

  /** The times of all earlier attempts, denied ones included, less than a window before `now`. */
  function Recent(times: seq<real>, now: real, window: real): set<real> {
    set i | 0 <= i < |times| && times[i] > now - window :: times[i]
  }

  lemma {:induction false} RecordMeans(times: seq<real>, window: real)
    requires Clock(times) && window >= 0.0 && times != []
    ensures var last := times[|times| - 1];
            After(times, window) == Some(Entry(Recent(times[..|times| - 1], last, window) + {last}, last + window))
    decreases |times|, 0
  {
    var n := |times| - 1;
    LiveIsRecent(times[..n], times[n], window);
  }

  /** What a check finds on record is exactly the attempts of the last window: trimming and key expiry
      lose none of them, and expiry removes nothing trimming would not. */
  lemma {:induction false} LiveIsRecent(times: seq<real>, now: real, window: real)
    requires Clock(times) && window >= 0.0 && forall i :: 0 <= i < |times| ==> times[i] <= now
    ensures Trimmed(Live(After(times, window), now), now, window) == Recent(times, now, window)
    decreases |times|, 1
  {
    if times != [] {
      var n := |times| - 1;
      var last := times[n];
      RecordMeans(times, window);
      var scores := Recent(times[..n], last, window) + {last};
      forall s
        ensures s in Trimmed(Live(After(times, window), now), now, window) <==> s in Recent(times, now, window)
      {
        if s in Recent(times, now, window) {
          var i :| 0 <= i < |times| && times[i] > now - window && times[i] == s;
          if i < n {
            assert times[..n][i] == s;
          }
        }
        if s in scores && s != last {
          var i :| 0 <= i < n && times[..n][i] == s;
          assert times[i] == s;
        }
      }
    }
  }

  /** The key's expiry is invisible: a store that never expired keys would decide and record the same. */
  lemma ExpiryIsInvisible(times: seq<real>, now: real, window: real)
    requires Clock(times) && window >= 0.0 && times != [] && times[|times| - 1] <= now
    ensures Trimmed(Live(After(times, window), now), now, window)
            == Trimmed(After(times, window).value.scores, now, window)
  {
    RecordMeans(times, window);
    var n := |times| - 1;
    forall s | s in After(times, window).value.scores
      ensures 0.0 <= s <= times[n]
    {
      if s != times[n] {
        var i :| 0 <= i < n && times[..n][i] == s;
        assert times[i] == s;
      }
    }
  }

  /** Decisions in terms of the trace: a check is allowed exactly when fewer than max_requests distinct
      earlier attempts lie in its window. */
  lemma AllowedMeans(times: seq<real>, i: nat, max: int, window: real)
    requires Clock(times) && window >= 0.0 && i < |times|
    ensures Allowed(times, i, max, window) <==> |Recent(times[..i], times[i], window)| < max
  {
    LiveIsRecent(times[..i], times[i], window);
  }

  // ---------- The bound ----------

  function AllowedInside(times: seq<real>, n: nat, inside: real -> bool, max: int, window: real): nat
    requires n <= |times|
  {
    if n == 0 then 0
    else AllowedInside(times, n - 1, inside, max, window)
         + if inside(times[n - 1]) && Allowed(times, n - 1, max, window) then 1 else 0
  }

  function AttemptsInside(times: seq<real>, inside: real -> bool): set<real> {
    set i | 0 <= i < |times| && inside(times[i]) :: times[i]
  }

  /** No two instants of the set are a window or more apart. */
  ghost predicate Short(inside: real -> bool, window: real) {
    forall x, y :: inside(x) && inside(y) ==> y - x < window
  }

  lemma AttemptsExtend(times: seq<real>, n: nat, inside: real -> bool)
    requires n < |times|
    ensures AttemptsInside(times[..n + 1], inside)
            == AttemptsInside(times[..n], inside) + if inside(times[n]) then {times[n]} else {}
  {
    var before, after := AttemptsInside(times[..n], inside), AttemptsInside(times[..n + 1], inside);
    var more := if inside(times[n]) then {times[n]} else {};
    forall s | s in after
      ensures s in before || s in more
    {
      var i :| 0 <= i < n + 1 && inside(times[..n + 1][i]) && times[..n + 1][i] == s;
      assert i < n ==> times[..n][i] == s;
    }
    forall s | s in before
      ensures s in after
    {
      var i :| 0 <= i < n && inside(times[..n][i]) && times[..n][i] == s;
      assert times[..n + 1][i] == s;
    }
    assert times[..n + 1][n] == times[n];
  }

  lemma NewestIsNew(times: seq<real>, n: nat, inside: real -> bool)
    requires Strict(times) && n < |times|
    ensures times[n] !in AttemptsInside(times[..n], inside)
  {
    assert forall i :: 0 <= i < n ==> times[..n][i] < times[n];
  }

  lemma AttemptGrows(times: seq<real>, n: nat, inside: real -> bool)
    requires Strict(times) && n < |times|
    ensures var before, after := AttemptsInside(times[..n], inside), AttemptsInside(times[..n + 1], inside);
            |after| == |before| + if inside(times[n]) then 1 else 0
  {
    AttemptsExtend(times, n, inside);
    NewestIsNew(times, n, inside);
    hide AttemptsInside, Strict;
  }

  lemma SubsetCount(a: set<real>, b: set<real>)
    requires a <= b
    ensures |a| <= |b|
  {
    assert b == a + (b - a);
  }

  lemma {:induction false} AllowedAreAttempts(times: seq<real>, n: nat, inside: real -> bool, max: int, window: real)
    requires Strict(times) && n <= |times|
    ensures AllowedInside(times, n, inside, max, window) <= |AttemptsInside(times[..n], inside)|
  {
    if n > 0 {
      AllowedAreAttempts(times, n - 1, inside, max, window);
      AttemptGrows(times, n - 1, inside);
    }
  }

  /** The sliding-window bound: with strictly increasing check times, any stretch of time shorter than the
      window holds at most max_requests allowed calls, however many denied calls are interleaved. */
  lemma {:induction false} WindowBound(times: seq<real>, n: nat, inside: real -> bool, max: int, window: real)
    requires Strict(times) && n <= |times| && max >= 0 && window >= 0.0 && Short(inside, window)
    ensures AllowedInside(times, n, inside, max, window) <= max
  {
    if n > 0 {
      var i := n - 1;
      WindowBound(times, i, inside, max, window);
      if inside(times[i]) && Allowed(times, i, max, window) {
        AllowedMeans(times, i, max, window);
        AllowedAreAttempts(times, i, inside, max, window);
        var attempts, recent := AttemptsInside(times[..i], inside), Recent(times[..i], times[i], window);
        forall s | s in attempts
          ensures s in recent
        {
          var j :| 0 <= j < i && inside(times[..i][j]) && times[..i][j] == s;
          assert times[i] - s < window;
        }
        SubsetCount(attempts, recent);
      }
    }
  }

  /** In particular every half-open interval of one window, open on either side. */
  lemma HalfOpenBound(times: seq<real>, from: real, max: int, window: real)
    requires Strict(times) && max >= 0 && window >= 0.0
    ensures AllowedInside(times, |times|, x => from <= x < from + window, max, window) <= max
    ensures AllowedInside(times, |times|, x => from < x <= from + window, max, window) <= max
  {
    WindowBound(times, |times|, x => from <= x < from + window, max, window);
    WindowBound(times, |times|, x => from < x <= from + window, max, window);
  }

  // ---------- Equal timestamps ----------

  function Same(time: real, n: nat): seq<real> {
    seq(n, _ => time)
  }

  /** Calls at one and the same instant share a single member of the sorted set, so on a fresh key all of
      them are allowed as soon as max_requests is at least 2: the bound needs distinct times. */
  lemma {:induction false} SameInstantEscapes(time: real, n: nat, max: int, window: real)
    requires time >= 0.0 && window > 0.0 && n >= 2
    ensures (forall i :: 0 <= i < n ==> Allowed(Same(time, n), i, max, window)) <==> max >= 2
  {
    var times := Same(time, n);
    forall i | 0 <= i < n
      ensures Allowed(times, i, max, window) <==> (if i == 0 then 0 else 1) < max
    {
      AllowedMeans(times, i, max, window);
      var recent := Recent(times[..i], times[i], window);
      if i == 0 {
        assert recent == {};
      } else {
        assert times[..i][0] == time && time in recent;
        assert recent == {time};
      }
    }
    assert Allowed(times, 1, max, window) <==> 1 < max;
  }

  /** With max_requests of at most 1 the bound survives equal timestamps. */
  lemma {:induction false} SingleRequestBound(times: seq<real>, n: nat, inside: real -> bool, max: int, window: real)
    requires Clock(times) && n <= |times| && 0 <= max <= 1 && window >= 0.0 && Short(inside, window)
    ensures AllowedInside(times, n, inside, max, window) <= max
    ensures AllowedInside(times, n, inside, max, window) > 0 ==> exists i :: 0 <= i < n && inside(times[i])
  {
    if n > 0 {
      var i := n - 1;
      SingleRequestBound(times, i, inside, max, window);
      if inside(times[i]) && Allowed(times, i, max, window) {
        AllowedMeans(times, i, max, window);
        if AllowedInside(times, i, inside, max, window) > 0 {
          var j :| 0 <= j < i && inside(times[j]);
          EarlierIsRecent(times, i, j, inside, window);
        }
      }
    }
  }

  lemma EarlierIsRecent(times: seq<real>, i: nat, j: nat, inside: real -> bool, window: real)
    requires j < i < |times| && inside(times[i]) && inside(times[j]) && Short(inside, window)
    ensures |Recent(times[..i], times[i], window)| >= 1
  {
    assert times[i] - times[j] < window;
    assert times[..i][j] in Recent(times[..i], times[i], window);
    SubsetCount({times[j]}, Recent(times[..i], times[i], window));
  }
}
