/** The month-chunk cache of market_data_service.py.  Months are numbered from January 1970 (number 0);
    times are milliseconds since then, UTC. */
module MonthCache {
  import opened Options
  import opened MarketData

  const DAY_MS := 86400000

  predicate Leap(year: nat) {
    year % 4 == 0 && (year % 100 != 0 || year % 400 == 0)
  }

  function DaysInMonth(m: nat): (days: nat)
    ensures 28 <= days <= 31
  {
    var month := m % 12;
    if month == 1 then (if Leap(1970 + m / 12) then 29 else 28)
    else if month in {3, 5, 8, 10} then 30
    else 31
  }

  function DaysBefore(m: nat): nat {
    if m == 0 then 0 else DaysBefore(m - 1) + DaysInMonth(m - 1)
  }

  /** Midnight of the first day of month m. */
  function MonthStart(m: nat): nat {
    DaysBefore(m) * DAY_MS
  }

  /** The month a time lies in: `replace(day=1, ...)`. */
  function MonthOf(time: nat): (m: nat)
    ensures MonthStart(m) <= time < MonthStart(m + 1)
  {
    FindMonth(time, 0)
  }

  function FindMonth(time: nat, from: nat): (m: nat)
    requires MonthStart(from) <= time
    ensures MonthStart(m) <= time < MonthStart(m + 1)
    decreases time - MonthStart(from)
  {
    if time < MonthStart(from + 1) then from else FindMonth(time, from + 1)
  }

  lemma {:induction false} MonthsIncrease(a: nat, b: nat)
    requires a < b
    ensures MonthStart(a) < MonthStart(b)
  {
    if a < b - 1 {
      MonthsIncrease(a, b - 1);
    }
  }

  lemma MonthOfIs(time: nat, m: nat)
    requires MonthStart(m) <= time < MonthStart(m + 1)
    ensures MonthOf(time) == m
  {
    hide MonthStart;
    var found := MonthOf(time);
    if found < m {
      LaterMonthStarts(found + 1, m);
    } else if m < found {
      LaterMonthStarts(m + 1, found);
    }
  }

  lemma LaterMonthStarts(a: nat, b: nat)
    requires a <= b
    ensures MonthStart(a) <= MonthStart(b)
  {
    if a < b { MonthsIncrease(a, b); }
  }

  /** The calendar agrees with the usual leap-year count: year 1970 + y begins 365 y days plus one per
      leap year since 1970. */
  lemma {:induction false} YearStarts(y: nat)
    ensures DaysBefore(12 * y) == 365 * y + (y + 1) / 4 - (y + 69) / 100 + (y + 369) / 400
  {
    hide DaysBefore, DaysInMonth, Leap;
    if y == 0 {
      assert DaysBefore(0) == 0 by { NoDays(); }
    } else {
      YearStarts(y - 1);
      YearLength(y - 1);
      Step4(y - 1);
      Step100(y - 1);
      Step400(y - 1);
      LeapCount(1970 + (y - 1));
      assert 12 * (y - 1) + 12 == 12 * y;
    }
  }

  /** The length of a month in days, by its name and the Gregorian leap years. */
  function CalendarLength(year: nat, month: nat): nat {
    match month
    case 2 => if year % 400 == 0 || (year % 4 == 0 && year % 100 != 0) then 29 else 28
    case 4 => 30
    case 6 => 30
    case 9 => 30
    case 11 => 30
    case _ => 31
  }

  lemma CalendarLengthIs(m: nat)
    ensures DaysInMonth(m) == CalendarLength(1970 + m / 12, m % 12 + 1)
  {
    var year := 1970 + m / 12;
    assert year % 400 == 0 ==> year % 4 == 0;
  }

  /** Month starts in milliseconds: January of each year by the Gregorian leap-year count, and each month as long as the
      calendar says. */
  lemma MonthStartsAre(y: nat, m: nat)
    ensures MonthStart(12 * y) == 86_400_000 * (365 * y + (y + 1) / 4 - (y + 69) / 100 + (y + 369) / 400)
    ensures MonthStart(m + 1) == MonthStart(m) + 86_400_000 * CalendarLength(1970 + m / 12, m % 12 + 1)
  {
    YearStarts(y);
    CalendarLengthIs(m);
    NextMonth(m);
    hide DaysBefore, DaysInMonth, CalendarLength;
  }

  lemma NextMonth(m: nat)
    ensures MonthStart(m + 1) == MonthStart(m) + 86_400_000 * DaysInMonth(m)
  {
    hide DaysInMonth;
    var before, days := DaysBefore(m), DaysInMonth(m);
    assert DaysBefore(m + 1) == before + days;
    assert (before + days) * DAY_MS == before * DAY_MS + days * DAY_MS;
  }

  lemma NoDays()
    ensures DaysBefore(0) == 0
  {}

  lemma Step4(y: nat)
    ensures (y + 2) / 4 == (y + 1) / 4 + if (1970 + y) % 4 == 0 then 1 else 0
  {}

  lemma Step100(y: nat)
    ensures (y + 70) / 100 == (y + 69) / 100 + if (1970 + y) % 100 == 0 then 1 else 0
  {}

  lemma Step400(y: nat)
    ensures (y + 370) / 400 == (y + 369) / 400 + if (1970 + y) % 400 == 0 then 1 else 0
  {}

  lemma Multiple400(year: nat)
    requires year % 400 == 0
    ensures year % 100 == 0
  {
    var p := 4 * (year / 400);
    assert year == 100 * p;
  }

  lemma Multiple100(year: nat)
    requires year % 100 == 0
    ensures year % 4 == 0
  {
    var p := 25 * (year / 100);
    assert year == 4 * p;
  }

  lemma LeapCount(year: nat)
    ensures (if year % 4 == 0 then 1 else 0) - (if year % 100 == 0 then 1 else 0) + (if year % 400 == 0 then 1 else 0)
            == if Leap(year) then 1 else 0
  {
    if year % 400 == 0 {
      Multiple400(year);
    }
    if year % 100 == 0 {
      Multiple100(year);
    }
  }

  lemma DaysStep(m: nat)
    ensures DaysBefore(m + 1) == DaysBefore(m) + DaysInMonth(m)
  {}

  lemma YearLength(y: nat)
    ensures DaysBefore(12 * y + 12) == DaysBefore(12 * y) + if Leap(1970 + y) then 366 else 365
  {
    hide DaysBefore, DaysInMonth, Leap;
    var m := 12 * y;
    MonthLengths(y);
    DaysStep(m); DaysStep(m + 1); DaysStep(m + 2); DaysStep(m + 3); DaysStep(m + 4); DaysStep(m + 5);
    DaysStep(m + 6); DaysStep(m + 7); DaysStep(m + 8); DaysStep(m + 9); DaysStep(m + 10); DaysStep(m + 11);
  }

  lemma MonthLengths(y: nat)
    ensures var m := 12 * y;
            && DaysInMonth(m) == 31 && DaysInMonth(m + 1) == (if Leap(1970 + y) then 29 else 28)
            && DaysInMonth(m + 2) == 31 && DaysInMonth(m + 3) == 30 && DaysInMonth(m + 4) == 31
            && DaysInMonth(m + 5) == 30 && DaysInMonth(m + 6) == 31 && DaysInMonth(m + 7) == 31
            && DaysInMonth(m + 8) == 30 && DaysInMonth(m + 9) == 31 && DaysInMonth(m + 10) == 30
            && DaysInMonth(m + 11) == 31
  {
    hide Leap;
    assert (12 * y + 1) / 12 == y;
  }

  // ---------- _get_month_range ----------

  /** The months from m on that have begun by `end`. */
  function MonthsUntil(m: nat, end: nat): seq<nat>
    decreases end + 1 - MonthStart(m)
  {
    if MonthStart(m) > end then [] else [m] + MonthsUntil(m + 1, end)
  }

  method GetMonthRange(start: nat, end: nat) returns (months: seq<nat>)
    ensures months == MonthsUntil(MonthOf(start), end)
  {
    months := [];
    var current := MonthOf(start);
    ghost var goal := MonthsUntil(current, end);
    while MonthStart(current) <= end
      invariant months + MonthsUntil(current, end) == goal
      decreases end + 1 - MonthStart(current)
    {
      months := months + [current];
      current := current + 1;
    }
    assert months + [] == months;
  }

  lemma {:induction false} MonthsUntilCounts(m: nat, end: nat)
    ensures forall i :: 0 <= i < |MonthsUntil(m, end)| ==> MonthsUntil(m, end)[i] == m + i
    ensures MonthStart(m + |MonthsUntil(m, end)|) > end
    ensures forall k :: m <= k < m + |MonthsUntil(m, end)| ==> MonthStart(k) <= end
    decreases end + 1 - MonthStart(m)
  {
    hide MonthStart;
    if MonthStart(m) <= end {
      assert MonthStart(m) < MonthStart(m + 1) by { MonthsIncrease(m, m + 1); }
      MonthsUntilCounts(m + 1, end);
    }
  }

  /** For start <= end the range lists exactly the consecutive months from the one of `start` to the one
      of `end`, each once. */
  lemma MonthRangeIsConsecutive(start: nat, end: nat)
    requires start <= end
    ensures var months := MonthsUntil(MonthOf(start), end);
            && |months| == MonthOf(end) - MonthOf(start) + 1
            && forall i :: 0 <= i < |months| ==> months[i] == MonthOf(start) + i
  {
    hide MonthStart;
    var first, last := MonthOf(start), MonthOf(end);
    MonthsUntilCounts(first, end);
    var n := |MonthsUntil(first, end)|;
    if first > last {
      LaterMonthStarts(last + 1, first);
    } else if first + n <= last {
      LaterMonthStarts(first + n, last);
    }
  }

  // ---------- get_cached_klines ----------

  type Cache = map<nat, seq<Kline>>

  function Chunks(cache: Cache, months: seq<nat>): seq<Kline>
    requires forall m :: m in months ==> m in cache
  {
    if months == [] then [] else cache[months[0]] + Chunks(cache, months[1..])
  }

  function Filtered(s: seq<Kline>, start: int, end: int): seq<Kline> {
    Window(s, start, end)
  }

  predicate AllCached(cache: Cache, months: seq<nat>) {
    forall m :: m in months ==> m in cache
  }

  /** None when a needed month is missing or nothing lies in the range. */
  function CachedKlines(cache: Cache, start: nat, end: nat): Option<seq<Kline>> {
    var months := MonthsUntil(MonthOf(start), end);
    if !AllCached(cache, months) then None
    else
      var inRange := Filtered(Chunks(cache, months), start, end);
      if inRange == [] then None else Some(Compact(inRange))
  }

  method FilterRange(all: seq<Kline>, start: int, end: int) returns (kept: seq<Kline>)
    ensures kept == Filtered(all, start, end)
  {
    kept := [];
    var i := 0;
    while i < |all|
      invariant 0 <= i <= |all|
      invariant kept + Filtered(all[i..], start, end) == Filtered(all, start, end)
    {
      assert all[i..][1..] == all[i + 1..];
      if Within(all[i], start, end) {
        kept := kept + [all[i]];
      }
      i := i + 1;
    }
    assert kept + [] == kept;
  }

  // ---------- Cache against direct fetch ----------

  /** The chunk holds its whole month of the exchange's record, and nothing foreign. */
  ghost predicate FullMonth(h: seq<Kline>, chunk: seq<Kline>, m: nat) {
    && (forall c :: c in h && MonthStart(m) <= c.openTime < MonthStart(m + 1) ==> c in chunk)
    && (forall c :: c in chunk ==> c in h)
  }

  lemma {:induction false} ChunksMembers(cache: Cache, months: seq<nat>)
    requires AllCached(cache, months)
    ensures forall c :: c in Chunks(cache, months) <==> exists m :: m in months && c in cache[m]
  {
    if months != [] {
      ChunksMembers(cache, months[1..]);
      assert months == [months[0]] + months[1..];
      forall c
        ensures c in Chunks(cache, months) <==> exists m :: m in months && c in cache[m]
      {
        if c in cache[months[0]] {
          assert months[0] in months;
        }
        if c in Chunks(cache, months[1..]) {
          var m :| m in months[1..] && c in cache[m];
          assert m in months;
        }
      }
    }
  }

  lemma OneCandlePerTime(h: seq<Kline>, s: seq<Kline>, c: Kline)
    requires History(h) && forall d :: d in s ==> d in h
    ensures IsFirst(s, c) <==> c in s
  {
    if c in s {
      FirstAt(s, c);
      var i :| 0 <= i < |s| && s[i] == c && c !in s[..i];
      forall j | 0 <= j < i
        ensures s[..i][j].openTime != c.openTime
      {
        assert s[..i][j] in s && s[..i][j] in s[..i];
        if s[..i][j].openTime == c.openTime {
          SameTimeSameCandle(h, s[..i][j], c);
        }
      }
    }
  }

  lemma {:induction false} FirstAt(s: seq<Kline>, c: Kline)
    requires c in s
    ensures exists i :: 0 <= i < |s| && s[i] == c && c !in s[..i]
  {
    var n := |s| - 1;
    if c in s[..n] {
      FirstAt(s[..n], c);
      var i :| 0 <= i < n && s[..n][i] == c && c !in s[..n][..i];
      assert s[..n][..i] == s[..i] && s[i] == c;
    } else {
      assert s == s[..n] + [s[n]];
      assert s[n] == c;
    }
  }

  lemma SameTimeSameCandle(h: seq<Kline>, a: Kline, b: Kline)
    requires History(h) && a in h && b in h && a.openTime == b.openTime
    ensures a == b
  {
    HistoryIncreases(h);
  }

  lemma MonthListed(start: nat, end: nat, time: nat)
    requires start <= time <= end
    ensures MonthOf(time) in MonthsUntil(MonthOf(start), end)
  {
    hide MonthStart, MonthsUntil;
    MonthRangeIsConsecutive(start, end);
    var months := MonthsUntil(MonthOf(start), end);
    var m := MonthOf(time);
    if m < MonthOf(start) {
      LaterMonthStarts(m + 1, MonthOf(start));
    } else if m > MonthOf(end) {
      LaterMonthStarts(MonthOf(end) + 1, m);
    } else {
      assert months[m - MonthOf(start)] == m;
    }
  }

  ghost predicate AllFull(h: seq<Kline>, cache: Cache, months: seq<nat>) {
    AllCached(cache, months) && forall m :: m in months ==> FullMonth(h, cache[m], m)
  }

  lemma ChunksHoldRange(h: seq<Kline>, cache: Cache, start: nat, end: nat)
    requires History(h) && AllFull(h, cache, MonthsUntil(MonthOf(start), end))
    ensures var all := Chunks(cache, MonthsUntil(MonthOf(start), end));
            && (forall c :: c in all ==> c in h)
            && (forall c :: c in h && Within(c, start, end) ==> c in all)
  {
    hide MonthStart, MonthsUntil, MonthOf, History, Chunks;
    var months := MonthsUntil(MonthOf(start), end);
    ChunksMembers(cache, months);
    forall c | c in h && Within(c, start, end)
      ensures c in Chunks(cache, months)
    {
      MonthListed(start, end, c.openTime);
      var m := MonthOf(c.openTime);
      assert c in cache[m];
    }
  }

  /** With full chunks for every needed month, the cache returns exactly the candles that open in
      [start, end], strictly increasing, although the candle at a month boundary may sit in two chunks;
      and a miss exactly when there are none. */
  lemma CachedIsWindow(h: seq<Kline>, cache: Cache, start: nat, end: nat)
    requires History(h) && AllFull(h, cache, MonthsUntil(MonthOf(start), end))
    ensures var w := Window(h, start, end);
            CachedKlines(cache, start, end) == if w == [] then None else Some(w)
  {
    hide MonthsUntil, MonthOf, Compact, Window, Chunks, FullMonth, History;
    var all := Chunks(cache, MonthsUntil(MonthOf(start), end));
    var inRange, w := Filtered(all, start, end), Window(h, start, end);
    ChunksHoldRange(h, cache, start, end);
    WindowWithin(all, start, end);
    WindowWithin(h, start, end);
    WindowIsHistory(h, start, end);
    HistoryIncreases(w);
    CompactIsSortedFirsts(inRange);
    forall c
      ensures IsFirst(inRange, c) <==> c in w
    {
      OneCandlePerTime(h, inRange, c);
    }
    IncreasingUnique(Compact(inRange), w);
    SomeMember(inRange);
    SomeMember(w);
  }

  /** Cached read and direct fetch return the same list, except for the end candle the direct fetch may
      lose: they are equal exactly when it loses none. */
  lemma CacheAgreesWithFetch(h: seq<Kline>, cache: Cache, start: nat, end: nat, limit: nat, net: nat -> seq<Attempt>)
    requires History(h) && AllFull(h, cache, MonthsUntil(MonthOf(start), end))
    requires limit > 0 && forall i: nat :: Delivers(net(i))
    requires Window(h, start, end) != []
    ensures CachedKlines(cache, start, end).Some? && Paged(h, start, end, limit, net, 0).Ok?
    ensures var cached, fetched := CachedKlines(cache, start, end).value, Paged(h, start, end, limit, net, 0).value;
            && cached != []
            && (cached == Compact(fetched) <==> !LosesEndCandle(Window(h, start, end), start, end, limit))
            && (LosesEndCandle(Window(h, start, end), start, end, limit) ==> Compact(fetched) == cached[..|cached| - 1])
  {
    hide *;
    var w := Window(h, start, end);
    CachedIsWindow(h, cache, start, end);
    PagedIsWindow(h, start, end, limit, net, 0);
    WindowIsHistory(h, start, end);
    HistoryIncreases(w);
    FetchedMembers(w, start, end, limit);
    CompactOfIncreasing(Fetched(w, start, end, limit));
    FetchedIs(w, start, end, limit);
  }

  lemma FetchedIs(w: seq<Kline>, start: int, end: int, limit: nat)
    requires limit > 0 && w != []
    ensures Fetched(w, start, end, limit) == if LosesEndCandle(w, start, end, limit) then w[..|w| - 1] else w
  {}

  // ---------- Filling the cache ----------

  /** The chunk `download_klines_month` stores for month m at time `now`: up to the next month's first
      instant or the present, whichever comes first. */
  function MonthEnd(m: nat, now: nat): nat {
    if MonthStart(m + 1) <= now then MonthStart(m + 1) else now
  }

  function Downloaded(h: seq<Kline>, m: nat, now: nat, limit: nat, net: nat -> seq<Attempt>): Result<seq<Kline>>
    requires History(h)
  {
    if MonthStart(m) >= now then Ok([])
    else
      match Paged(h, MonthStart(m), MonthEnd(m, now), limit, net, 0)
      case Failed => Failed
      case Ok(all) => Ok(Compact(all))
  }

  /** The exchange has nothing of the month after `now`, and a candle at `now`, if any, was not lost. */
  ghost predicate NothingToCome(h: seq<Kline>, m: nat, now: nat, limit: nat)
    requires limit > 0
  {
    && (forall c :: c in h && c.openTime < MonthStart(m + 1) ==> c.openTime <= now)
    && !LosesEndCandle(Window(h, MonthStart(m), now), MonthStart(m), now, limit)
  }

  /** What a download stores never reaches past the first instant of the next month, nor past the present. */
  lemma DownloadStaysInMonth(h: seq<Kline>, m: nat, now: nat, limit: nat, net: nat -> seq<Attempt>)
    requires History(h) && limit > 0 && forall i: nat :: Delivers(net(i))
    ensures var r := Downloaded(h, m, now, limit, net);
            r.Ok? && forall c :: c in r.value ==>
                       c in h && MonthStart(m) <= c.openTime <= MonthStart(m + 1) && c.openTime <= now
  {
    hide MonthStart, Window, Paged, Compact, Delivers, History;
    if MonthStart(m) < now {
      PagedFetchIsComplete(h, MonthStart(m), MonthEnd(m, now), limit, net);
    }
  }

  /** A month downloaded after it ended is full; one downloaded while current is full exactly when the
      exchange has no candle of it after `now` and the candle at `now`, if any, was not lost. */
  lemma DownloadedIsFullExactly(h: seq<Kline>, m: nat, now: nat, limit: nat, net: nat -> seq<Attempt>)
    requires History(h) && limit > 0 && (forall i: nat :: Delivers(net(i))) && MonthStart(m) < now
    ensures var r := Downloaded(h, m, now, limit, net);
            && r.Ok?
            && (FullMonth(h, r.value, m) <==>
                  MonthStart(m + 1) <= now || NothingToCome(h, m, now, limit))
  {
    hide MonthStart, Window, Paged, Compact, Delivers, History;
    var start, end := MonthStart(m), MonthEnd(m, now);
    PagedFetchIsComplete(h, start, end, limit, net);
    var chunk := Downloaded(h, m, now, limit, net).value;
    if LosesEndCandle(Window(h, start, now), start, now, limit) {
      LostIsInHistory(h, start, now, limit);
    }
  }

  lemma LostIsInHistory(h: seq<Kline>, start: int, end: int, limit: nat)
    requires limit > 0 && LosesEndCandle(Window(h, start, end), start, end, limit)
    ensures exists c :: c in h && c.openTime == end && start <= end
  {
    var w := Window(h, start, end);
    WindowWithin(h, start, end);
    assert w[|w| - 1] in w;
  }

  /** A range whose months were each downloaded after they ended is read back completely: the cached read
      returns exactly the exchange's candles of [start, end]. */
  lemma DownloadedCacheIsComplete(h: seq<Kline>, cache: Cache, start: nat, end: nat, limit: nat, at: nat -> nat,
                                  net: (nat, nat) -> seq<Attempt>)
    requires History(h) && limit > 0 && forall m: nat, k: nat :: Delivers(net(m, k))
    requires forall m :: m in MonthsUntil(MonthOf(start), end) ==>
               && m in cache && MonthStart(m + 1) <= at(m)
               && Downloaded(h, m, at(m), limit, (k: nat) => net(m, k)) == Ok(cache[m])
    ensures var w := Window(h, start, end);
            CachedKlines(cache, start, end) == if w == [] then None else Some(w)
  {
    hide MonthsUntil, MonthOf, MonthStart, Downloaded, FullMonth, Window, CachedKlines, History, Delivers;
    var months := MonthsUntil(MonthOf(start), end);
    forall m | m in months
      ensures FullMonth(h, cache[m], m)
    {
      MonthsIncrease(m, m + 1);
      DownloadedIsFullExactly(h, m, at(m), limit, (k: nat) => net(m, k));
    }
    CachedIsWindow(h, cache, start, end);
  }

  /** `download_full_range` for one month: months that were cached when the call began are skipped,
      except the current one; an empty or failed download writes nothing. */
  function Refreshed(h: seq<Kline>, cache: Cache, known: set<nat>, m: nat, now: nat, limit: nat,
                     net: nat -> seq<Attempt>): Cache
    requires History(h)
  {
    if m in known && m != MonthOf(now) then cache
    else
      var r := Downloaded(h, m, now, limit, net);
      if r.Failed? || r.value == [] then cache else cache[m := r.value]
  }

  function RefreshedAll(h: seq<Kline>, cache: Cache, months: seq<nat>, now: nat, limit: nat,
                        net: (nat, nat) -> seq<Attempt>): Cache
    requires History(h)
  {
    if months == [] then cache
    else
      var n := |months| - 1;
      Refreshed(h, RefreshedAll(h, cache, months[..n], now, limit, net), cache.Keys, months[n], now, limit,
                (k: nat) => net(months[n], k))
  }

  // ---------- The cache in place ----------

  class KlineCache {
    var chunks: Cache

    constructor ()
      ensures chunks == map[]
    {
      chunks := map[];
    }

    method GetCachedKlines(start: nat, end: nat) returns (r: Option<seq<Kline>>)
      ensures r == CachedKlines(chunks, start, end)
    {
      hide MonthsUntil, Compact, MonthOf, Window;
      var months := GetMonthRange(start, end);
      if !AllCached(chunks, months) {
        return None;
      }
      var all: seq<Kline> := [];
      var i := 0;
      while i < |months|
        invariant 0 <= i <= |months|
        invariant all + Chunks(chunks, months[i..]) == Chunks(chunks, months)
      {
        all := all + chunks[months[i]];
        assert months[i..][1..] == months[i + 1..];
        i := i + 1;
      }
      assert all + [] == all;
      var kept := FilterRange(all, start, end);
      if kept == [] {
        return None;
      }
      var compact := CompactKlines(kept);
      return Some(compact);
    }

    /** `download_klines_month`: fetch, compact, overwrite or add the row; an empty download and a failing
        one write nothing. */
    method DownloadMonth(h: seq<Kline>, m: nat, now: nat, limit: nat, net: nat -> seq<Attempt>) returns (ok: bool)
      requires History(h)
      modifies this
      ensures var r := Downloaded(h, m, now, limit, net);
              && (ok <==> r.Ok?)
              && chunks == if r.Ok? && r.value != [] then old(chunks)[m := r.value] else old(chunks)
    {
      hide MonthStart, Paged, MonthEnd;
      if MonthStart(m) >= now {
        return true;
      }
      var fetched := DownloadKlines(h, MonthStart(m), MonthEnd(m, now), limit, net);
      if fetched.Failed? {
        return false;
      }
      var compact := CompactKlines(fetched.value);
      if compact != [] {
        chunks := chunks[m := compact];
      }
      return true;
    }

    /** `download_full_range`: errors of single months are collected, not raised. */
    method DownloadFullRange(h: seq<Kline>, months: seq<nat>, now: nat, limit: nat, net: (nat, nat) -> seq<Attempt>)
      requires History(h)
      modifies this
      ensures chunks == RefreshedAll(h, old(chunks), months, now, limit, net)
    {
      hide MonthOf, Downloaded, History;
      var known := chunks.Keys;
      var i := 0;
      while i < |months|
        invariant 0 <= i <= |months| && known == old(chunks).Keys
        invariant chunks == RefreshedAll(h, old(chunks), months[..i], now, limit, net)
      {
        var m := months[i];
        assert months[..i + 1][..i] == months[..i];
        if m !in known || m == MonthOf(now) {
          var ok := DownloadMonth(h, m, now, limit, (k: nat) => net(m, k));
        }
        i := i + 1;
      }
      assert months[..|months|] == months;
    }
  }

  /** Once the month has passed its chunk is never downloaded again: what a download during the month
      left out stays out. */
  lemma {:induction false} PastChunkStays(h: seq<Kline>, cache: Cache, months: seq<nat>, now: nat, limit: nat,
                                          net: (nat, nat) -> seq<Attempt>, m: nat)
    requires History(h) && m in cache && m != MonthOf(now)
    ensures var after := RefreshedAll(h, cache, months, now, limit, net); m in after && after[m] == cache[m]
  {
    hide MonthOf, Downloaded;
    if months != [] {
      PastChunkStays(h, cache, months[..|months| - 1], now, limit, net, m);
    }
  }

  /** When two chunks disagree about the candle at a month boundary, the read takes the earlier chunk's
      version: a boundary candle that was still forming when the earlier month was downloaded is what a
      later read returns. */
  lemma EarlierChunkWins(early: seq<Kline>, late: seq<Kline>, forming: Kline, final: Kline)
    requires forming in early && final in late && forming.openTime == final.openTime
    requires IsFirst(early, forming) && forming != final
    ensures forming in Compact(early + late) && final !in Compact(early + late)
  {
    CompactIsSortedFirsts(early + late);
    var s := early + late;
    var i :| 0 <= i < |early| && early[i] == forming && !HasTime(early[..i], forming.openTime);
    assert s[..i] == early[..i] && s[i] == forming;
    assert IsFirst(s, forming);
    forall j | 0 <= j < i
      ensures s[j] != final
    {
      assert s[j] == early[..i][j];
    }
    forall j | 0 <= j < |s| && s[j] == final
      ensures HasTime(s[..j], final.openTime)
    {
      assert s[..j][i].openTime == final.openTime;
    }
  }

  // ---------- Any sequence of downloads ----------

  /** One call of `download_full_range`: the months it asks for, its clock and the network it meets. */
  datatype Call = Call(months: seq<nat>, now: nat, net: (nat, nat) -> seq<Attempt>)

  function RunCalls(h: seq<Kline>, calls: seq<Call>, limit: nat): Cache
    requires History(h)
  {
    if calls == [] then map[]
    else
      var c := calls[|calls| - 1];
      RefreshedAll(h, RunCalls(h, calls[..|calls| - 1], limit), c.months, c.now, limit, c.net)
  }

  ghost predicate AllDeliver(calls: seq<Call>) {
    forall i, m: nat, k: nat :: 0 <= i < |calls| ==> Delivers(calls[i].net(m, k))
  }

  /** What the call's download of month m brings. */
  function Brought(h: seq<Kline>, c: Call, m: nat, limit: nat): Result<seq<Kline>>
    requires History(h)
  {
    Downloaded(h, m, c.now, limit, (k: nat) => c.net(m, k))
  }

  /** The call asks for month m and there is something of it to bring. */
  predicate Serves(h: seq<Kline>, c: Call, m: nat, limit: nat)
    requires History(h)
  {
    m in c.months && Brought(h, c, m, limit).Ok? && Brought(h, c, m, limit).value != []
  }

  /** It does so while the month is running. */
  predicate ServesDuring(h: seq<Kline>, c: Call, m: nat, limit: nat)
    requires History(h)
  {
    Serves(h, c, m, limit) && MonthOf(c.now) == m
  }

  /** One call replaces the chunk of month m when it serves it and the month was missing or is running, and leaves it
      alone otherwise. */
  lemma {:induction false} CallRefreshes(h: seq<Kline>, cache: Cache, c: Call, months: seq<nat>, m: nat, limit: nat)
    requires History(h) && Brought(h, c, m, limit).Ok?
    ensures var after, r := RefreshedAll(h, cache, months, c.now, limit, c.net), Brought(h, c, m, limit);
            if m in months && r.value != [] && (m !in cache || MonthOf(c.now) == m)
            then m in after && after[m] == r.value
            else (m in after <==> m in cache) && (m in after ==> after[m] == cache[m])
  {
    hide MonthOf, Downloaded, History;
    if months != [] {
      var n := |months| - 1;
      CallRefreshes(h, cache, c, months[..n], m, limit);
      assert months == months[..n] + [months[n]];
    }
  }

  lemma DeliveredBrings(h: seq<Kline>, c: Call, m: nat, limit: nat)
    requires History(h) && limit > 0 && forall k: nat :: Delivers(c.net(m, k))
    ensures Brought(h, c, m, limit).Ok?
  {
    hide Paged, Compact, Delivers, History, MonthStart, Window;
    if MonthStart(m) < c.now {
      DownloadedIsFullExactly(h, m, c.now, limit, (k: nat) => c.net(m, k));
    }
  }

  lemma RunningMonthEndsLater(m: nat, now: nat)
    requires MonthStart(m) < now
    ensures MonthOf(now) == m <==> now < MonthStart(m + 1)
  {
    hide MonthStart;
    if now < MonthStart(m + 1) {
      MonthOfIs(now, m);
    }
  }

  /** Call number i is the one month m was last taken from. */
  ghost predicate TakenFrom(h: seq<Kline>, calls: seq<Call>, i: nat, m: nat, limit: nat)
    requires History(h)
  {
    && i < |calls| && Serves(h, calls[i], m, limit)
    && (forall j :: 0 <= j < |calls| && ServesDuring(h, calls[j], m, limit) ==>
          j <= i && ServesDuring(h, calls[i], m, limit))
  }

  ghost predicate ServedBySome(h: seq<Kline>, calls: seq<Call>, m: nat, limit: nat)
    requires History(h)
  {
    exists i :: 0 <= i < |calls| && Serves(h, calls[i], m, limit)
  }

  lemma ServedGrows(h: seq<Kline>, calls: seq<Call>, m: nat, limit: nat)
    requires History(h) && calls != []
    ensures ServedBySome(h, calls, m, limit) <==>
            ServedBySome(h, calls[..|calls| - 1], m, limit) || Serves(h, calls[|calls| - 1], m, limit)
  {
    hide Serves, History;
    var n := |calls| - 1;
    assert forall i :: 0 <= i < n ==> calls[..n][i] == calls[i];
    if ServedBySome(h, calls, m, limit) {
      var i :| 0 <= i < |calls| && Serves(h, calls[i], m, limit);
      assert i < n ==> Serves(h, calls[..n][i], m, limit);
    }
    if ServedBySome(h, calls[..n], m, limit) {
      var i :| 0 <= i < n && Serves(h, calls[..n][i], m, limit);
      assert Serves(h, calls[i], m, limit);
    }
  }

  lemma TakesNow(h: seq<Kline>, calls: seq<Call>, m: nat, limit: nat)
    requires History(h) && calls != [] && Serves(h, calls[|calls| - 1], m, limit)
    requires MonthOf(calls[|calls| - 1].now) == m || !ServedBySome(h, calls[..|calls| - 1], m, limit)
    ensures TakenFrom(h, calls, |calls| - 1, m, limit)
  {
    hide Brought, History, MonthOf;
    var n := |calls| - 1;
    forall j | 0 <= j < |calls| && ServesDuring(h, calls[j], m, limit)
      ensures j <= n && ServesDuring(h, calls[n], m, limit)
    {
      if j < n {
        assert calls[..n][j] == calls[j];
      }
    }
  }

  lemma TakesAsBefore(h: seq<Kline>, calls: seq<Call>, i: nat, m: nat, limit: nat)
    requires History(h) && calls != [] && TakenFrom(h, calls[..|calls| - 1], i, m, limit)
    requires !ServesDuring(h, calls[|calls| - 1], m, limit)
    ensures TakenFrom(h, calls, i, m, limit) && calls[..|calls| - 1][i] == calls[i]
  {
    hide Serves, ServesDuring, History;
    var n := |calls| - 1;
    forall j | 0 <= j < |calls| && ServesDuring(h, calls[j], m, limit)
      ensures j <= i && ServesDuring(h, calls[i], m, limit)
    {
      assert calls[..n][j] == calls[j] && calls[..n][i] == calls[i];
    }
  }

  lemma {:induction false} RunTakes(h: seq<Kline>, calls: seq<Call>, limit: nat, m: nat)
    requires History(h) && limit > 0 && AllDeliver(calls)
    ensures var cache := RunCalls(h, calls, limit);
            && (m in cache <==> ServedBySome(h, calls, m, limit))
            && (m in cache ==>
                  exists i :: 0 <= i < |calls| && TakenFrom(h, calls, i, m, limit)
                              && Brought(h, calls[i], m, limit) == Ok(cache[m]))
  {
    hide Brought, RefreshedAll, MonthOf, Delivers, History, TakenFrom, ServedBySome;
    if calls == [] {
      assert !ServedBySome(h, [], m, limit) by { NoneServed(h, m, limit); }
    } else {
      var n := |calls| - 1;
      var before, c := calls[..n], calls[n];
      RunTakes(h, before, limit, m);
      var held := RunCalls(h, before, limit);
      DeliveredBrings(h, c, m, limit);
      CallRefreshes(h, held, c, c.months, m, limit);
      ServedGrows(h, calls, m, limit);
      if Serves(h, c, m, limit) && (m !in held || MonthOf(c.now) == m) {
        TakesNow(h, calls, m, limit);
      } else if m in held {
        var i :| 0 <= i < |before| && TakenFrom(h, before, i, m, limit)
                 && Brought(h, before[i], m, limit) == Ok(held[m]);
        TakesAsBefore(h, calls, i, m, limit);
      }
    }
  }

  lemma NoneServed(h: seq<Kline>, m: nat, limit: nat)
    requires History(h)
    ensures !ServedBySome(h, [], m, limit)
  {}

  /** The last call that served month m while it was running, if any, came when nothing more was to come. */
  ghost predicate LastServedComplete(h: seq<Kline>, calls: seq<Call>, m: nat, limit: nat)
    requires History(h) && limit > 0
  {
    forall i :: 0 <= i < |calls| && ServesDuring(h, calls[i], m, limit)
                && (forall j :: i < j < |calls| ==> !ServesDuring(h, calls[j], m, limit)) ==>
                  NothingToCome(h, m, calls[i].now, limit)
  }

  /** Over any sequence of full-range downloads from the empty cache, whose requests are delivered: a month is cached if
      and only if some call served it, and its chunk is full if and only if the last call that served it while the
      month was running, if any, came when nothing more was to come. */
  lemma FullMonthsExactly(h: seq<Kline>, calls: seq<Call>, limit: nat, m: nat)
    requires History(h) && limit > 0 && AllDeliver(calls)
    ensures var cache := RunCalls(h, calls, limit);
            && (m in cache <==> ServedBySome(h, calls, m, limit))
            && (m in cache ==> (FullMonth(h, cache[m], m) <==> LastServedComplete(h, calls, m, limit)))
  {
    hide RunCalls, Downloaded, MonthOf, MonthStart, FullMonth, Delivers, History, NothingToCome, ServedBySome;
    RunTakes(h, calls, limit, m);
    var cache := RunCalls(h, calls, limit);
    if m in cache {
      var i :| 0 <= i < |calls| && TakenFrom(h, calls, i, m, limit)
               && Brought(h, calls[i], m, limit) == Ok(cache[m]);
      FullWhenTaken(h, calls[i], m, limit);
    }
  }

  lemma FullWhenTaken(h: seq<Kline>, c: Call, m: nat, limit: nat)
    requires History(h) && limit > 0 && (forall k: nat :: Delivers(c.net(m, k))) && Serves(h, c, m, limit)
    ensures FullMonth(h, Brought(h, c, m, limit).value, m) <==>
            (ServesDuring(h, c, m, limit) ==> NothingToCome(h, m, c.now, limit))
  {
    hide MonthOf, MonthStart, FullMonth, Delivers, History, Paged, Compact, LosesEndCandle, Window;
    DownloadedIsFullExactly(h, m, c.now, limit, (k: nat) => c.net(m, k));
    RunningMonthEndsLater(m, c.now);
  }

  /** So a range all of whose months have been served, none of them last while it had more to come, reads back as
      exactly the exchange's candles. */
  lemma DownloadedRangeReadsBack(h: seq<Kline>, calls: seq<Call>, limit: nat, start: nat, end: nat)
    requires History(h) && limit > 0 && AllDeliver(calls)
    requires forall m :: m in MonthsUntil(MonthOf(start), end) ==>
               && ServedBySome(h, calls, m, limit)
               && LastServedComplete(h, calls, m, limit)
    ensures var w := Window(h, start, end);
            CachedKlines(RunCalls(h, calls, limit), start, end) == if w == [] then None else Some(w)
  {
    hide RunCalls, ServedBySome, LastServedComplete, MonthsUntil, MonthOf, FullMonth, History, Delivers, CachedKlines,
         Window;
    var cache := RunCalls(h, calls, limit);
    forall m | m in MonthsUntil(MonthOf(start), end)
      ensures m in cache && FullMonth(h, cache[m], m)
    {
      FullMonthsExactly(h, calls, limit, m);
    }
    CachedIsWindow(h, cache, start, end);
  }
}
