/** Paging, duplicate removal and sorting of klines (market_data_service.py, and the same loop in
    backtest_engine.py).  Times are integral milliseconds. */
module MarketData {

  datatype Kline = Kline(openTime: int, closeTime: int, open: real, high: real, low: real, close: real, volume: real)

  /** The exchange's record: candles in time order that do not overlap. */
  ghost predicate History(h: seq<Kline>) {
    && (forall i :: 0 <= i < |h| ==> h[i].openTime <= h[i].closeTime)
    && (forall i, j :: 0 <= i < j < |h| ==> h[i].closeTime < h[j].openTime)
  }

  predicate Within(c: Kline, start: int, end: int) {
    start <= c.openTime <= end
  }

  /** All candles that open in [start, end]. */
  function Window(h: seq<Kline>, start: int, end: int): seq<Kline> {
    if h == [] then []
    else (if Within(h[0], start, end) then [h[0]] else []) + Window(h[1..], start, end)
  }

  /** What a reliable exchange answers: the first `limit` candles of the window. */
  function Page(h: seq<Kline>, start: int, end: int, limit: nat): seq<Kline> {
    var w := Window(h, start, end);
    if |w| <= limit then w else w[..limit]
  }

  // ---------- _fetch_with_retry ----------

  datatype Attempt = Served | RateLimited | HttpError | Unreachable

  datatype Result<+T> = Ok(value: T) | Failed

  /** One request with retries: attempts[i] is what try number i meets.  An HTTP error raises at once, a
      connection error raises only on the last try, and being rate-limited never raises: when the tries
      run out the answer is an empty list. */
  function Fetch(attempts: seq<Attempt>, page: seq<Kline>): Result<seq<Kline>> {
    if attempts == [] then Ok([])
    else match attempts[0]
      case Served => Ok(page)
      case RateLimited => Fetch(attempts[1..], page)
      case HttpError => Failed
      case Unreachable => if |attempts| == 1 then Failed else Fetch(attempts[1..], page)
  }

  method FetchWithRetry(attempts: seq<Attempt>, page: seq<Kline>) returns (r: Result<seq<Kline>>)
    ensures r == Fetch(attempts, page)
  {
    var i := 0;
    while i < |attempts|
      invariant 0 <= i <= |attempts|
      invariant Fetch(attempts[i..], page) == Fetch(attempts, page)
    {
      match attempts[i] {
        case Served => return Ok(page);
        case RateLimited =>
        case HttpError => return Failed;
        case Unreachable =>
          if i == |attempts| - 1 {
            return Failed;
          }
      }
      assert attempts[i..][1..] == attempts[i + 1..];
      i := i + 1;
    }
    r := Ok([]);
  }

  predicate Transient(a: Attempt) {
    a.RateLimited? || a.Unreachable?
  }

  /** Every try met a passing problem and the last one was rate-limited. */
  ghost predicate Starved(attempts: seq<Attempt>) {
    && (forall i :: 0 <= i < |attempts| ==> Transient(attempts[i]))
    && (attempts == [] || attempts[|attempts| - 1].RateLimited?)
  }

  /** A request for a non-empty page quietly answers with nothing exactly when it is starved; otherwise
      the answer is the page or an error. */
  lemma {:induction false} FetchLosesThePageWhenStarved(attempts: seq<Attempt>, page: seq<Kline>)
    requires page != []
    ensures Fetch(attempts, page) == Ok([]) <==> Starved(attempts)
    ensures Fetch(attempts, page) in {Ok([]), Ok(page), Failed}
  {
    if attempts != [] {
      FetchLosesThePageWhenStarved(attempts[1..], page);
      if Transient(attempts[0]) {
        assert attempts == [attempts[0]] + attempts[1..];
        assert Starved(attempts) ==> Starved(attempts[1..]) by {
          if Starved(attempts) && |attempts| > 1 {
            assert attempts[1..][|attempts| - 2] == attempts[|attempts| - 1];
          }
        }
        if Starved(attempts[1..]) && (|attempts| > 1 || attempts[0].RateLimited?) {
          forall i | 0 <= i < |attempts|
            ensures Transient(attempts[i])
          {
            if i > 0 { assert attempts[i] == attempts[1..][i - 1]; }
          }
          assert Starved(attempts);
        }
      }
    }
  }

  // ---------- The paging loop ----------

  function Prepend(front: seq<Kline>, r: Result<seq<Kline>>): Result<seq<Kline>> {
    match r
    case Failed => Failed
    case Ok(rest) => Ok(front + rest)
  }

  /** The loop from `cur` on, with `net(k)` what the tries for page k meet. */
  function Paged(h: seq<Kline>, cur: int, end: int, limit: nat, net: nat -> seq<Attempt>, k: nat): Result<seq<Kline>>
    requires History(h)
    decreases end - cur
  {
    if cur >= end then Ok([])
    else
      var got := Fetch(net(k), Page(h, cur, end, limit));
      if got.Failed? then Failed
      else if got.value == [] then Ok([])
      else
        PageAdvances(h, cur, end, limit, net(k));
        var next := got.value[|got.value| - 1].closeTime + 1;
        if |got.value| < limit then got
        else Prepend(got.value, Paged(h, next, end, limit, net, k + 1))
  }

  lemma {:induction false} WindowWithin(h: seq<Kline>, start: int, end: int)
    ensures forall c :: c in Window(h, start, end) <==> c in h && Within(c, start, end)
    ensures |Window(h, start, end)| <= |h|
  {
    if h != [] {
      WindowWithin(h[1..], start, end);
      assert h == [h[0]] + h[1..];
    }
  }

  lemma {:induction false} FetchIsPageOrNothing(attempts: seq<Attempt>, page: seq<Kline>)
    ensures var got := Fetch(attempts, page); got.Failed? || got.value == [] || got.value == page
  {
    if attempts != [] {
      FetchIsPageOrNothing(attempts[1..], page);
    }
  }

  /** Every answered page moves the loop forward, which is why it terminates. */
  lemma PageAdvances(h: seq<Kline>, cur: int, end: int, limit: nat, attempts: seq<Attempt>)
    requires History(h)
    ensures var got := Fetch(attempts, Page(h, cur, end, limit));
            got.Ok? && got.value != [] ==> got.value[|got.value| - 1].closeTime >= cur
  {
    var page := Page(h, cur, end, limit);
    FetchIsPageOrNothing(attempts, page);
    WindowWithin(h, cur, end);
    if page != [] {
      assert page[|page| - 1] in Window(h, cur, end);
    }
  }

  lemma PrependTwice(a: seq<Kline>, b: seq<Kline>, r: Result<seq<Kline>>)
    ensures Prepend(a, Prepend(b, r)) == Prepend(a + b, r)
    ensures Prepend([], r) == r && Prepend(a, Ok([])) == Ok(a)
  {
    assert a + [] == a;
    if r.Ok? {
      assert a + (b + r.value) == a + b + r.value;
      assert [] + r.value == r.value;
    }
  }

  method DownloadKlines(h: seq<Kline>, start: int, end: int, limit: nat, net: nat -> seq<Attempt>)
    returns (r: Result<seq<Kline>>)
    requires History(h)
    ensures r == Paged(h, start, end, limit, net, 0)
  {
    hide Page, Fetch;
    var all: seq<Kline> := [];
    var cur, k := start, 0;
    ghost var goal := Paged(h, start, end, limit, net, 0);
    PrependTwice([], [], goal);
    while cur < end
      invariant Prepend(all, Paged(h, cur, end, limit, net, k)) == goal
      decreases end - cur
    {
      var got := FetchWithRetry(net(k), Page(h, cur, end, limit));
      PageAdvances(h, cur, end, limit, net(k));
      if got.Failed? {
        return Failed;
      }
      if got.value == [] {
        break;
      }
      PrependTwice(all, got.value, Paged(h, got.value[|got.value| - 1].closeTime + 1, end, limit, net, k + 1));
      all := all + got.value;
      cur := got.value[|got.value| - 1].closeTime + 1;
      k := k + 1;
      if |got.value| < limit {
        return Ok(all);
      }
    }
    PrependTwice(all, [], goal);
    r := Ok(all);
  }

  // ---------- Completeness ----------

  ghost predicate Increasing(s: seq<Kline>) {
    forall i, j :: 0 <= i < j < |s| ==> s[i].openTime < s[j].openTime
  }

  lemma HistoryTail(h: seq<Kline>)
    requires History(h) && h != []
    ensures History(h[1..])
  {}

  lemma {:induction false} WindowIsHistory(h: seq<Kline>, start: int, end: int)
    requires History(h)
    ensures History(Window(h, start, end))
  {
    if h != [] {
      HistoryTail(h);
      WindowIsHistory(h[1..], start, end);
      WindowWithin(h[1..], start, end);
      var w, rest := Window(h, start, end), Window(h[1..], start, end);
      forall j | 0 <= j < |rest|
        ensures h[0].closeTime < rest[j].openTime
      {
        assert rest[j] in h[1..];
      }
      forall i, j | 0 <= i < j < |w|
        ensures w[i].closeTime < w[j].openTime
      {
        if |w| > |rest| {
          assert w[j] == rest[j - 1] && (i > 0 ==> w[i] == rest[i - 1]);
        }
      }
    }
  }

  /** A strictly increasing list is determined by its elements. */
  lemma {:induction false} IncreasingUnique(a: seq<Kline>, b: seq<Kline>)
    requires Increasing(a) && Increasing(b) && forall c :: c in a <==> c in b
    ensures a == b
  {
    if a == [] {
      SomeMember(b);
    } else {
      assert a[0] in a && a[0] in b;
      var j :| 0 <= j < |b| && b[j] == a[0];
      assert b[0] in b;
      var i :| 0 <= i < |a| && a[i] == b[0];
      assert i == 0 && j == 0;
      forall c
        ensures c in a[1..] <==> c in b[1..]
      {
        TailMembers(a, c);
        TailMembers(b, c);
      }
      IncreasingUnique(a[1..], b[1..]);
    }
  }

  lemma SomeMember(b: seq<Kline>)
    ensures b == [] || exists c :: c in b
  {
    if b != [] {
      assert b[0] in b;
    }
  }

  lemma TailMembers(a: seq<Kline>, c: Kline)
    requires Increasing(a) && a != []
    ensures c in a[1..] <==> c in a && c != a[0]
  {
    if c in a && c != a[0] {
      var i :| 0 <= i < |a| && a[i] == c;
      assert a[1..][i - 1] == c;
    }
  }

  lemma HistoryIncreases(h: seq<Kline>)
    requires History(h)
    ensures Increasing(h)
  {
    forall i, j | 0 <= i < j < |h|
      ensures h[i].openTime < h[j].openTime
    {
      assert h[i].closeTime < h[j].openTime;
    }
  }

  lemma SuffixMembers(w: seq<Kline>, n: nat)
    requires History(w) && 0 < n <= |w|
    ensures forall c :: c in w[n..] <==> c in w && c.openTime > w[n - 1].closeTime
  {
    assert forall i :: 0 <= i < n ==> w[i].openTime <= w[i].closeTime <= w[n - 1].closeTime by {
      forall i | 0 <= i < n - 1
        ensures w[i].closeTime <= w[n - 1].closeTime
      {
        assert w[i].closeTime < w[n - 1].openTime;
      }
    }
    forall c | c in w && c.openTime > w[n - 1].closeTime
      ensures c in w[n..]
    {
      var i :| 0 <= i < |w| && w[i] == c;
      assert w[n..][i - n] == c;
    }
    forall c | c in w[n..]
      ensures c in w && c.openTime > w[n - 1].closeTime
    {
      var j :| 0 <= j < |w| - n && w[n..][j] == c;
      assert w[n - 1].closeTime < w[n + j].openTime;
    }
  }

  /** A window is a stretch of the history: what follows its first n candles is the window that starts
      right after the n-th closes. */
  lemma WindowResumes(h: seq<Kline>, start: int, end: int, n: nat)
    requires History(h) && 0 < n <= |Window(h, start, end)|
    ensures Window(h, Window(h, start, end)[n - 1].closeTime + 1, end) == Window(h, start, end)[n..]
  {
    var w := Window(h, start, end);
    var next := w[n - 1].closeTime + 1;
    var later := Window(h, next, end);
    WindowIsHistory(h, start, end);
    WindowIsHistory(h, next, end);
    WindowWithin(h, start, end);
    WindowWithin(h, next, end);
    SuffixMembers(w, n);
    assert w[n - 1] in w && w[n - 1].openTime <= w[n - 1].closeTime;
    HistoryIncreases(w);
    HistoryIncreases(later);
    hide Window, History;
    IncreasingUnique(later, w[n..]);
  }

  /** Some try is served and only passing problems come before it. */
  predicate Delivers(attempts: seq<Attempt>) {
    attempts != [] && (attempts[0].Served? || (Transient(attempts[0]) && Delivers(attempts[1..])))
  }

  /** Those are exactly the requests that answer with their page. */
  lemma {:induction false} DeliversMeans(attempts: seq<Attempt>, page: seq<Kline>)
    requires page != []
    ensures Fetch(attempts, page) == Ok(page) <==> Delivers(attempts)
  {
    if attempts != [] {
      DeliversMeans(attempts[1..], page);
    }
  }

  /** n candles fill whole pages. */
  predicate FillsPages(n: nat, limit: nat)
    requires limit > 0
  {
    n == 0 || (n >= limit && FillsPages(n - limit, limit))
  }

  lemma {:induction false} FillsPagesMeans(n: nat, limit: nat)
    requires limit > 0
    ensures FillsPages(n, limit) <==> n % limit == 0
  {
    if n >= limit {
      FillsPagesMeans(n - limit, limit);
      SameRemainder(n, limit);
    }
  }

  lemma SameRemainder(n: nat, limit: nat)
    requires n >= limit > 0
    ensures (n - limit) % limit == n % limit
  {
    var q, r := n / limit, n % limit;
    var p, t := (n - limit) / limit, (n - limit) % limit;
    assert n == q * limit + r && n - limit == p * limit + t;
    RemainderUnique(q, r, p + 1, t, limit);
  }

  lemma RemainderUnique(q: int, r: int, p: int, t: int, d: int)
    requires q * d + r == p * d + t && 0 <= r < d && 0 <= t < d
    ensures r == t
  {
    if q > p {
      ApartByDivisor(q, p, d);
    } else if q < p {
      ApartByDivisor(p, q, d);
    }
  }

  lemma ApartByDivisor(q: int, p: int, d: int)
    requires q > p && d > 0
    ensures q * d >= p * d + d
  {
    var gap := q - p - 1;
    assert (p + 1 + gap) * d == p * d + d + gap * d;
    assert gap * d >= 0;
  }

  /** The candle that opens exactly at the end of the range is lost when the loop stops right before it:
      the range is empty, or the earlier candles fill whole pages and the last of them closes one
      millisecond before the end. */
  ghost predicate LosesEndCandle(w: seq<Kline>, start: int, end: int, limit: nat)
    requires limit > 0
  {
    && w != [] && w[|w| - 1].openTime == end
    && (start == end || (|w| > 1 && FillsPages(|w| - 1, limit) && w[|w| - 2].closeTime + 1 == end))
  }

  lemma PagedFullPage(h: seq<Kline>, start: int, end: int, limit: nat, net: nat -> seq<Attempt>, k: nat)
    requires History(h) && start < end && 0 < limit <= |Window(h, start, end)|
    ensures var w := Window(h, start, end);
            && w[limit - 1].closeTime >= start
            && (Delivers(net(k)) ==> Paged(h, start, end, limit, net, k)
                                      == Prepend(w[..limit],
                                              Paged(h, w[limit - 1].closeTime + 1, end, limit, net, k + 1)))
  {
    hide Window, History, Fetch, Delivers, Page;
    var page := Page(h, start, end, limit);
    FullPageIs(h, start, end, limit);
    ServedFetch([Served], page);
    PageAdvances(h, start, end, limit, [Served]);
    if Delivers(net(k)) {
      ServedFetch(net(k), page);
      PageAdvances(h, start, end, limit, net(k));
    }
  }

  lemma FullPageIs(h: seq<Kline>, start: int, end: int, limit: nat)
    ensures |Window(h, start, end)| >= limit ==> Page(h, start, end, limit) == Window(h, start, end)[..limit]
  {
    hide Window;
    var w := Window(h, start, end);
    if |w| == limit {
      assert w[..limit] == w;
    }
  }

  lemma {:induction false} ServedFetch(attempts: seq<Attempt>, page: seq<Kline>)
    ensures Delivers([Served])
    ensures Delivers(attempts) ==> Fetch(attempts, page) == Ok(page)
  {
    if attempts != [] {
      ServedFetch(attempts[1..], page);
    }
  }

  lemma PagedLastPage(h: seq<Kline>, start: int, end: int, limit: nat, net: nat -> seq<Attempt>, k: nat)
    requires History(h) && start < end && |Window(h, start, end)| < limit && Delivers(net(k))
    ensures Paged(h, start, end, limit, net, k) == Ok(Fetched(Window(h, start, end), start, end, limit))
  {
    hide History, Window;
    ServedFetch(net(k), Page(h, start, end, limit));
    PageAdvances(h, start, end, limit, net(k));
    NotFilled(Window(h, start, end), limit);
  }

  /** What the fetch of a range with window w returns. */
  ghost function Fetched(w: seq<Kline>, start: int, end: int, limit: nat): seq<Kline>
    requires limit > 0
  {
    if LosesEndCandle(w, start, end, limit) then w[..|w| - 1] else w
  }

  lemma FetchedSplits(w: seq<Kline>, start: int, end: int, limit: nat)
    requires History(w) && start < end && 0 < limit <= |w| && forall c :: c in w ==> Within(c, start, end)
    ensures w[..limit] + Fetched(w[limit..], w[limit - 1].closeTime + 1, end, limit) == Fetched(w, start, end, limit)
  {
    LossCarriesOver(w, start, end, limit);
    var rest, next := w[limit..], w[limit - 1].closeTime + 1;
    assert w == w[..limit] + rest;
    if LosesEndCandle(rest, next, end, limit) {
      assert w[..|w| - 1] == w[..limit] + rest[..|rest| - 1];
    }
  }

  /** Completeness of the paged fetch when every page arrives, at once or after retries: it returns the whole
      window [start, end] in one piece, except that the candle opening exactly at `end` is missing in
      precisely the case above. */
  lemma {:induction false} PagedIsWindow(h: seq<Kline>, start: int, end: int, limit: nat,
                                         net: nat -> seq<Attempt>, k: nat)
    requires History(h) && limit > 0 && forall i: nat :: Delivers(net(i))
    ensures Paged(h, start, end, limit, net, k) == Ok(Fetched(Window(h, start, end), start, end, limit))
    decreases end - start
  {
    hide *;
    var w := Window(h, start, end);
    WindowWithin(h, start, end);
    WindowIsHistory(h, start, end);
    if start >= end {
      PagedEmptyRange(h, start, end, limit, net, k);
    } else if |w| < limit {
      PagedLastPage(h, start, end, limit, net, k);
    } else {
      PagedFullPage(h, start, end, limit, net, k);
      WindowResumes(h, start, end, limit);
      PagedIsWindow(h, w[limit - 1].closeTime + 1, end, limit, net, k + 1);
      FetchedSplits(w, start, end, limit);
      PrependOk(w[..limit], Fetched(w[limit..], w[limit - 1].closeTime + 1, end, limit));
    }
  }

  lemma PrependOk(a: seq<Kline>, b: seq<Kline>)
    ensures Prepend(a, Ok(b)) == Ok(a + b)
  {}

  lemma PagedEmptyRange(h: seq<Kline>, start: int, end: int, limit: nat, net: nat -> seq<Attempt>, k: nat)
    requires History(h) && limit > 0 && start >= end
    ensures Paged(h, start, end, limit, net, k) == Ok(Fetched(Window(h, start, end), start, end, limit))
  {
    hide Window, History;
    var w := Window(h, start, end);
    WindowWithin(h, start, end);
    WindowIsHistory(h, start, end);
    AtMostEndCandle(w, start, end);
  }

  lemma AtMostEndCandle(w: seq<Kline>, start: int, end: int)
    requires History(w) && start >= end && forall c :: c in w ==> Within(c, start, end)
    ensures |w| <= 1 && (w != [] ==> start == end && w[0].openTime == end)
  {
    if |w| > 1 {
      TwoCandlesSpread(w, start, end);
    } else if |w| == 1 {
      assert w[0] in w;
    }
  }

  lemma TwoCandlesSpread(w: seq<Kline>, start: int, end: int)
    requires History(w) && |w| > 1 && forall c :: c in w ==> Within(c, start, end)
    ensures start < end
  {
    assert w[0] in w && w[1] in w;
  }

  lemma NotFilled(w: seq<Kline>, limit: nat)
    requires |w| < limit
    ensures |w| > 1 ==> !FillsPages(|w| - 1, limit)
  {}

  /** Whether the end candle is lost is the same question after a full page. */
  lemma LossCarriesOver(w: seq<Kline>, start: int, end: int, limit: nat)
    requires History(w) && start < end && 0 < limit <= |w| && forall c :: c in w ==> Within(c, start, end)
    ensures LosesEndCandle(w, start, end, limit) <==> LosesEndCandle(w[limit..], w[limit - 1].closeTime + 1, end, limit)
  {
    var rest := w[limit..];
    if rest == [] {
      assert |w| == limit;
      NotFilled(w[1..], limit);
      assert limit > 1 ==> !FillsPages(limit - 1, limit);
    } else {
      assert rest[|rest| - 1] == w[|w| - 1];
      if |rest| > 1 {
        assert rest[|rest| - 2] == w[|w| - 2];
        assert w[limit - 1].closeTime < w[limit].openTime <= w[limit].closeTime < w[|w| - 1].openTime;
        assert FillsPages(|w| - 1, limit) == FillsPages(|rest| - 1, limit);
      } else {
        assert |w| - 2 == limit - 1 && FillsPages(limit, limit);
      }
    }
  }

  /** The four ways one turn of the loop can go, whatever the network does. */
  lemma PagedTurn(h: seq<Kline>, start: int, end: int, limit: nat, net: nat -> seq<Attempt>, k: nat)
    requires History(h) && limit > 0 && start < end
    ensures var w := Window(h, start, end);
            var r := Paged(h, start, end, limit, net, k);
            || r.Failed? || r == Ok([])
            || (|w| < limit && r == Ok(w))
            || (|w| >= limit && r == Prepend(w[..limit], Paged(h, w[limit - 1].closeTime + 1, end, limit, net, k + 1)))
  {
    hide Window, History, Fetch;
    FetchIsPageOrNothing(net(k), Page(h, start, end, limit));
    PageAdvances(h, start, end, limit, net(k));
    FullPageIs(h, start, end, limit);
  }

  /** Whatever the network does, a download that returns returns a prefix of the window. */
  lemma {:induction false} PagedIsPrefix(h: seq<Kline>, start: int, end: int, limit: nat,
                                         net: nat -> seq<Attempt>, k: nat)
    requires History(h) && limit > 0
    ensures var r := Paged(h, start, end, limit, net, k); r.Ok? ==> r.value <= Window(h, start, end)
    decreases end - start
  {
    var w := Window(h, start, end);
    if start >= end {
      hide Window, History;
    } else {
      hide *;
      PagedTurn(h, start, end, limit, net, k);
      if |w| >= limit {
        PagedFullPage(h, start, end, limit, net, k);
        WindowResumes(h, start, end, limit);
        var rest := Paged(h, w[limit - 1].closeTime + 1, end, limit, net, k + 1);
        PagedIsPrefix(h, w[limit - 1].closeTime + 1, end, limit, net, k + 1);
        if rest.Ok? {
          PrependOk(w[..limit], rest.value);
        } else {
          assert Prepend(w[..limit], rest).Failed? by { PrependFailed(w[..limit]); }
        }
        assert w == w[..limit] + w[limit..];
      }
    }
  }

  lemma PrependFailed(a: seq<Kline>)
    ensures Prepend(a, Failed).Failed?
  {}

  /** A starved first page of a non-empty range makes the download report success with no candles. */
  lemma StarvedDownloadIsEmpty(h: seq<Kline>, start: int, end: int, limit: nat, net: nat -> seq<Attempt>)
    requires History(h) && limit > 0 && start < end && Window(h, start, end) != []
    ensures Paged(h, start, end, limit, net, 0) == Ok([]) <==> Starved(net(0))
  {
    var page := Page(h, start, end, limit);
    FetchLosesThePageWhenStarved(net(0), page);
    var got := Fetch(net(0), page);
    if got == Ok(page) {
      assert page != [];
    }
  }

  // ---------- Duplicate removal and sorting ----------

  predicate HasTime(s: seq<Kline>, time: int) {
    exists i :: 0 <= i < |s| && s[i].openTime == time
  }

  /** Keeps the first candle of every open time. */
  function Dedup(s: seq<Kline>): seq<Kline> {
    if s == [] then []
    else
      var n := |s| - 1;
      Dedup(s[..n]) + if HasTime(s[..n], s[n].openTime) then [] else [s[n]]
  }

  function Insert(c: Kline, sorted: seq<Kline>): seq<Kline> {
    if sorted == [] then [c]
    else if c.openTime < sorted[0].openTime then [c] + sorted
    else [sorted[0]] + Insert(c, sorted[1..])
  }

  /** `sort(key=open_time)`, which is stable. */
  function SortByTime(s: seq<Kline>): seq<Kline> {
    if s == [] then [] else Insert(s[|s| - 1], SortByTime(s[..|s| - 1]))
  }

  function Compact(s: seq<Kline>): seq<Kline> {
    SortByTime(Dedup(s))
  }

  method CompactKlines(all: seq<Kline>) returns (compact: seq<Kline>)
    ensures compact == Compact(all)
  {
    compact := [];
    var seen: set<int> := {};
    var i := 0;
    while i < |all|
      invariant 0 <= i <= |all|
      invariant compact == Dedup(all[..i])
      invariant forall time :: time in seen <==> HasTime(all[..i], time)
    {
      var c := all[i];
      assert all[..i + 1][..i] == all[..i];
      SeenGrows(all, i);
      if c.openTime !in seen {
        seen := seen + {c.openTime};
        compact := compact + [c];
      }
      i := i + 1;
    }
    assert all[..|all|] == all;
    compact := SortByTime(compact);
  }

  lemma SeenGrows(all: seq<Kline>, i: nat)
    requires i < |all|
    ensures forall time :: HasTime(all[..i + 1], time) <==> HasTime(all[..i], time) || time == all[i].openTime
  {
    forall time
      ensures HasTime(all[..i + 1], time) <==> HasTime(all[..i], time) || time == all[i].openTime
    {
      if HasTime(all[..i], time) {
        var j :| 0 <= j < i && all[..i][j].openTime == time;
        assert all[..i + 1][j].openTime == time;
      }
      if HasTime(all[..i + 1], time) {
        var j :| 0 <= j < i + 1 && all[..i + 1][j].openTime == time;
        if j < i { assert all[..i][j].openTime == time; }
      }
      assert all[..i + 1][i].openTime == all[i].openTime;
    }
  }

  /** c is the first candle of s with its open time. */
  ghost predicate IsFirst(s: seq<Kline>, c: Kline) {
    exists i :: 0 <= i < |s| && s[i] == c && !HasTime(s[..i], c.openTime)
  }

  ghost predicate DistinctTimes(s: seq<Kline>) {
    forall i, j :: 0 <= i < j < |s| ==> s[i].openTime != s[j].openTime
  }

  lemma FirstGrows(s: seq<Kline>, n: nat, c: Kline)
    requires n < |s|
    ensures IsFirst(s[..n + 1], c) <==> IsFirst(s[..n], c) || (c == s[n] && !HasTime(s[..n], c.openTime))
  {
    if IsFirst(s[..n + 1], c) {
      var i :| 0 <= i < n + 1 && s[..n + 1][i] == c && !HasTime(s[..n + 1][..i], c.openTime);
      assert s[..n + 1][..i] == s[..i];
      if i < n {
        assert s[..n][..i] == s[..i] && s[..n][i] == c;
      }
    }
    if IsFirst(s[..n], c) {
      var i :| 0 <= i < n && s[..n][i] == c && !HasTime(s[..n][..i], c.openTime);
      assert s[..n + 1][..i] == s[..n][..i] && s[..n + 1][i] == c;
    }
    if c == s[n] && !HasTime(s[..n], c.openTime) {
      assert s[..n + 1][..n] == s[..n] && s[..n + 1][n] == c;
    }
  }

  lemma {:induction false} DedupKeepsFirsts(s: seq<Kline>)
    ensures DistinctTimes(Dedup(s))
    ensures forall c :: c in Dedup(s) <==> IsFirst(s, c)
  {
    if s != [] {
      var n := |s| - 1;
      DedupKeepsFirsts(s[..n]);
      assert s[..n + 1] == s;
      forall c
        ensures c in Dedup(s) <==> IsFirst(s, c)
      {
        FirstGrows(s, n, c);
      }
      forall i | 0 <= i < |Dedup(s[..n])|
        ensures !HasTime(s[..n], s[n].openTime) ==> Dedup(s[..n])[i].openTime != s[n].openTime
      {
        assert Dedup(s[..n])[i] in Dedup(s[..n]);
        var j :| 0 <= j < n && s[..n][j] == Dedup(s[..n])[i];
      }
    }
  }

  lemma {:induction false} InsertSorts(c: Kline, sorted: seq<Kline>)
    requires Increasing(sorted) && forall d :: d in sorted ==> d.openTime != c.openTime
    ensures Increasing(Insert(c, sorted))
    ensures forall d :: d in Insert(c, sorted) <==> d == c || d in sorted
  {
    if sorted != [] && c.openTime >= sorted[0].openTime {
      var rest := sorted[1..];
      assert sorted == [sorted[0]] + rest;
      InsertSorts(c, rest);
      var out := Insert(c, rest);
      forall j | 0 <= j < |out|
        ensures sorted[0].openTime < out[j].openTime
      {
        assert out[j] in out;
        assert sorted[0] in sorted;
      }
    }
  }

  lemma {:induction false} SortSorts(s: seq<Kline>)
    requires DistinctTimes(s)
    ensures Increasing(SortByTime(s))
    ensures forall c :: c in SortByTime(s) <==> c in s
  {
    if s != [] {
      var n := |s| - 1;
      SortSorts(s[..n]);
      assert s == s[..n] + [s[n]];
      InsertSorts(s[n], SortByTime(s[..n]));
    }
  }

  /** For every list, however unordered and repetitive: the compact form is strictly increasing and holds
      exactly the first candle of each open time. */
  lemma CompactIsSortedFirsts(s: seq<Kline>)
    ensures Increasing(Compact(s))
    ensures forall c :: c in Compact(s) <==> IsFirst(s, c)
  {
    DedupKeepsFirsts(s);
    SortSorts(Dedup(s));
  }

  lemma {:induction false} CompactOfIncreasing(s: seq<Kline>)
    requires Increasing(s)
    ensures Compact(s) == s
  {
    hide Compact, IsFirst, Increasing;
    CompactIsSortedFirsts(s);
    forall c
      ensures IsFirst(s, c) <==> c in s
    {
      IncreasingFirsts(s, c);
    }
    IncreasingUnique(Compact(s), s);
  }

  lemma IncreasingFirsts(s: seq<Kline>, c: Kline)
    requires Increasing(s)
    ensures IsFirst(s, c) <==> c in s
  {
    if c in s {
      var i :| 0 <= i < |s| && s[i] == c;
      assert forall j :: 0 <= j < i ==> s[..i][j].openTime < c.openTime;
    }
  }

  /** Fetch, remove duplicates and sort: with every page delivered, the stored list is strictly increasing,
      holds every candle that opens in [start, end) and nothing outside [start, end], and holds the
      candle that opens at `end` unless that is the one the loop loses. */
  lemma PagedFetchIsComplete(h: seq<Kline>, start: int, end: int, limit: nat, net: nat -> seq<Attempt>)
    requires History(h) && limit > 0 && forall i: nat :: Delivers(net(i))
    ensures var w := Window(h, start, end);
            var r := Paged(h, start, end, limit, net, 0);
            && r.Ok? && Increasing(Compact(r.value))
            && (forall c :: c in Compact(r.value) ==> c in h && Within(c, start, end))
            && (forall c :: c in h && start <= c.openTime < end ==> c in Compact(r.value))
            && (forall c :: c in h && start <= c.openTime == end ==>
                  (c in Compact(r.value) <==> !LosesEndCandle(w, start, end, limit)))
  {
    hide *;
    var w := Window(h, start, end);
    PagedIsWindow(h, start, end, limit, net, 0);
    WindowWithin(h, start, end);
    WindowIsHistory(h, start, end);
    HistoryIncreases(w);
    FetchedMembers(w, start, end, limit);
    CompactOfIncreasing(Fetched(w, start, end, limit));
    assert forall c :: Within(c, start, end) <==> start <= c.openTime <= end by { WithinMeans(start, end); }
  }

  lemma WithinMeans(start: int, end: int)
    ensures forall c :: Within(c, start, end) <==> start <= c.openTime <= end
  {}

  lemma FetchedMembers(w: seq<Kline>, start: int, end: int, limit: nat)
    requires Increasing(w) && limit > 0
    ensures Increasing(Fetched(w, start, end, limit))
    ensures forall c :: c in Fetched(w, start, end, limit) <==>
                        c in w && (c.openTime != end || !LosesEndCandle(w, start, end, limit))
  {
    hide FillsPages;
    if LosesEndCandle(w, start, end, limit) {
      WithoutLast(w, end);
    }
  }

  lemma WithoutLast(w: seq<Kline>, end: int)
    requires Increasing(w) && w != [] && w[|w| - 1].openTime == end
    ensures forall c :: c in w[..|w| - 1] <==> c in w && c.openTime != end
  {
    var n := |w| - 1;
    forall c | c in w && c.openTime != end
      ensures c in w[..n]
    {
      var i :| 0 <= i < |w| && w[i] == c;
      assert w[..n][i] == c;
    }
  }
}
