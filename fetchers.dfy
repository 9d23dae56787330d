/** The two page fetchers: an HTTP client that retries with exponential
    backoff, and a headless browser that renders the page. */
module Fetchers {
  import opened Json
  import opened Utils

  // ---------------------------------------------------------------------
  // HTTP fetcher

  /** What one `client.get(url)` did: answered with a status and a body, or
      raised. `jitter` is the value `backoff_delay` draws if it is called
      after this attempt. */
  datatype Attempt =
    | Answered(status: int, body: string, jitter: nat)
    | Failed(e: Exc, jitter: nat)

  /** Statuses after which the fetcher backs off and asks again. */
  const RetryStatuses: set<int> := {403, 429, 500, 502, 503}

  /** Statuses accepted as a page, after the settle-down pause. */
  predicate Success(status: int) {
    status == 200 || status == 201
  }

  /** An attempt that ends the loop: any answer whose status is not retried. */
  predicate Decisive(a: Attempt) {
    a.Answered? && a.status !in RetryStatuses
  }

  /** Raised when every attempt was retried and none of them raised. */
  const NoException := Exc("Fetch failed without exception")

  /** Every drawn jitter lies in the range `random.randint` draws from for
      that attempt's delay with the default 250 ms base and 3500 ms cap. */
  predicate JitterBounded(attempts: seq<Attempt>) {
    forall i | 0 <= i < |attempts| :: attempts[i].jitter <= JitterCap(PreJitter(i, 250, 3500))
  }

  /** The backoff after attempt `i`, in milliseconds. */
  function Delay(attempts: seq<Attempt>, i: nat): (ms: nat)
    requires i < |attempts| && JitterBounded(attempts)
    ensures 250 <= ms <= 4550
  {
    MulMonotone(250, 1, Pow2(i));
    BackoffDelay(i, 250, 3500, attempts[i].jitter)
  }

  /** The backoffs after attempts `i` up to (not including) `k`. */
  function Backoffs(attempts: seq<Attempt>, i: nat, k: nat): (ms: seq<nat>)
    requires i <= k <= |attempts| && JitterBounded(attempts)
    ensures |ms| == k - i
    ensures forall j | 0 <= j < |ms| :: ms[j] == Delay(attempts, i + j)
    decreases k - i
  {
    if i == k then [] else [Delay(attempts, i)] + Backoffs(attempts, i + 1, k)
  }

  /** `range(max_retries)` is empty for a negative count. */
  function Tries(maxRetries: int): nat {
    if maxRetries < 0 then 0 else maxRetries
  }

  datatype FetchOutcome = Fetched(status: int, body: string) | FetchRaised(e: Exc)

  /** A fetch: its outcome, how many GETs it sent and the pauses it took, in
      milliseconds and in order. */
  datatype FetchRun = FetchRun(outcome: FetchOutcome, gets: nat, sleepsMs: seq<int>)

  function Latest(earlier: Option<Exc>, later: Option<Exc>): Option<Exc> {
    if later.Some? then later else earlier
  }

  function FailureOf(a: Attempt): Option<Exc> {
    if a.Failed? then Some(a.e) else None
  }

  /** The exception of the most recent failed attempt of `s`. */
  function LastFailure(s: seq<Attempt>): Option<Exc> {
    if s == [] then None else Latest(FailureOf(s[0]), LastFailure(s[1..]))
  }

  /** The fetch from attempt `i` on, of `n` attempts, with `last` the
      exception kept from the attempts before `i`. */
  function RunFrom(attempts: seq<Attempt>, n: nat, maxWaitMs: int, i: nat, last: Option<Exc>): FetchRun
    requires i <= n <= |attempts| && JitterBounded(attempts)
    decreases n - i
  {
    if i == n then FetchRun(FetchRaised(last.GetOr(NoException)), 0, [])
    else
      match attempts[i]
      case Answered(status, body, _) =>
        if Success(status) then FetchRun(Fetched(status, body), 1, [maxWaitMs])
        else if status in RetryStatuses then
          var rest := RunFrom(attempts, n, maxWaitMs, i + 1, last);
          FetchRun(rest.outcome, rest.gets + 1, [Delay(attempts, i)] + rest.sleepsMs)
        else FetchRun(Fetched(status, body), 1, [])
      case Failed(e, _) =>
        var rest := RunFrom(attempts, n, maxWaitMs, i + 1, Some(e));
        FetchRun(rest.outcome, rest.gets + 1, [Delay(attempts, i)] + rest.sleepsMs)
  }

  /** `fetch` by a fetcher built with `max_retries` and `max_wait_ms`, where
      `attempts[i]` is what its i-th GET did. */
  function FetchSpec(attempts: seq<Attempt>, maxRetries: int, maxWaitMs: int): FetchRun
    requires Tries(maxRetries) <= |attempts| && JitterBounded(attempts)
  {
    RunFrom(attempts, Tries(maxRetries), maxWaitMs, 0, None)
  }

  /** A run of `gets` GETs and `sleeps` pauses followed by `rest`. */
  function Join(gets: nat, sleeps: seq<int>, rest: FetchRun): FetchRun {
    FetchRun(rest.outcome, gets + rest.gets, sleeps + rest.sleepsMs)
  }

  class HttpFetcher {
    const maxRetries: int
    const maxWaitMs: int

    constructor (maxRetries: int, maxWaitMs: int)
      ensures this.maxRetries == maxRetries && this.maxWaitMs == maxWaitMs
    {
      this.maxRetries := maxRetries;
      this.maxWaitMs := maxWaitMs;
    }

    /** `fetch`: `attempts[i]` is what the i-th `client.get(url)` does. */
    method Fetch(attempts: seq<Attempt>) returns (run: FetchRun)
      requires Tries(maxRetries) <= |attempts| && JitterBounded(attempts)
      ensures run == FetchSpec(attempts, maxRetries, maxWaitMs)
    {
      var n := Tries(maxRetries);
      var last: Option<Exc> := None;
      var gets := 0;
      var sleeps: seq<int> := [];
      var i := 0;
      while i < n
        invariant i <= n && gets == i
        invariant FetchSpec(attempts, maxRetries, maxWaitMs) == Join(gets, sleeps, RunFrom(attempts, n, maxWaitMs, i, last))
      {
        gets := gets + 1;
        var a := attempts[i];
        if a.Answered? {
          if Success(a.status) {
            sleeps := sleeps + [maxWaitMs];
            return FetchRun(Fetched(a.status, a.body), gets, sleeps);
          }
          if a.status !in RetryStatuses {
            assert sleeps + [] == sleeps;
            return FetchRun(Fetched(a.status, a.body), gets, sleeps);
          }
        } else {
          last := Some(a.e);
        }
        ghost var tail := RunFrom(attempts, n, maxWaitMs, i + 1, last);
        assert sleeps + ([Delay(attempts, i)] + tail.sleepsMs) == (sleeps + [Delay(attempts, i)]) + tail.sleepsMs;
        sleeps := sleeps + [BackoffDelay(i, 250, 3500, a.jitter)];
        i := i + 1;
      }
      assert sleeps + [] == sleeps;
      run := FetchRun(FetchRaised(if last.Some? then last.value else NoException), gets, sleeps);
    }
  }

  lemma {:induction false} RunFromDecided(attempts: seq<Attempt>, n: nat, maxWaitMs: int, i: nat,
                                          last: Option<Exc>, k: nat)
    requires i <= k < n <= |attempts| && JitterBounded(attempts)
    requires Decisive(attempts[k]) && forall j | i <= j < k :: !Decisive(attempts[j])
    ensures var run := RunFrom(attempts, n, maxWaitMs, i, last);
      run.outcome == Fetched(attempts[k].status, attempts[k].body)
      && run.gets == k - i + 1
      && run.sleepsMs == Backoffs(attempts, i, k) + (if Success(attempts[k].status) then [maxWaitMs] else [])
    decreases k - i
  {
    if i < k {
      RunFromDecided(attempts, n, maxWaitMs, i + 1, Latest(last, FailureOf(attempts[i])), k);
    }
  }

  lemma {:induction false} RunFromExhausted(attempts: seq<Attempt>, n: nat, maxWaitMs: int, i: nat,
                                            last: Option<Exc>)
    requires i <= n <= |attempts| && JitterBounded(attempts)
    requires forall j | i <= j < n :: !Decisive(attempts[j])
    ensures var run := RunFrom(attempts, n, maxWaitMs, i, last);
      run.outcome == FetchRaised(Latest(last, LastFailure(attempts[i..n])).GetOr(NoException))
      && run.gets == n - i
      && run.sleepsMs == Backoffs(attempts, i, n)
    decreases n - i
  {
    if i < n {
      assert attempts[i..n][0] == attempts[i] && attempts[i..n][1..] == attempts[i + 1..n];
      RunFromExhausted(attempts, n, maxWaitMs, i + 1, Latest(last, FailureOf(attempts[i])));
    } else {
      assert attempts[i..n] == [];
    }
  }

  /** The fetch returns the first answer whose status is not retried: after
      backing off once per earlier attempt, and after the settle-down pause
      when the status is 200 or 201. */
  lemma FetchReturnsFirstDecisive(attempts: seq<Attempt>, maxRetries: int, maxWaitMs: int, k: nat)
    requires Tries(maxRetries) <= |attempts| && JitterBounded(attempts)
    requires k < Tries(maxRetries) && Decisive(attempts[k])
    requires forall j | 0 <= j < k :: !Decisive(attempts[j])
    ensures var run := FetchSpec(attempts, maxRetries, maxWaitMs);
      run.outcome == Fetched(attempts[k].status, attempts[k].body)
      && run.gets == k + 1
      && run.sleepsMs == Backoffs(attempts, 0, k) + (if Success(attempts[k].status) then [maxWaitMs] else [])
  {
    RunFromDecided(attempts, Tries(maxRetries), maxWaitMs, 0, None, k);
  }

  /** When every attempt was retried, the fetch raises the exception of the
      most recent attempt that raised, and "Fetch failed without exception"
      when none did, after using up all its attempts. */
  lemma FetchRaisesWhenAllRetried(attempts: seq<Attempt>, maxRetries: int, maxWaitMs: int)
    requires Tries(maxRetries) <= |attempts| && JitterBounded(attempts)
    requires forall j | 0 <= j < Tries(maxRetries) :: !Decisive(attempts[j])
    ensures var run := FetchSpec(attempts, maxRetries, maxWaitMs);
      run.outcome == FetchRaised(LastFailure(attempts[..Tries(maxRetries)]).GetOr(NoException))
      && run.gets == Tries(maxRetries)
      && run.sleepsMs == Backoffs(attempts, 0, Tries(maxRetries))
  {
    RunFromExhausted(attempts, Tries(maxRetries), maxWaitMs, 0, None);
    assert attempts[0..Tries(maxRetries)] == attempts[..Tries(maxRetries)];
  }

  /** `LastFailure` is the exception of the latest attempt that raised. */
  lemma {:induction false} LastFailureLatest(s: seq<Attempt>)
    ensures LastFailure(s).None? <==> forall k | 0 <= k < |s| :: !s[k].Failed?
    ensures LastFailure(s).Some? ==>
      exists k | 0 <= k < |s| :: s[k] == Failed(LastFailure(s).value, s[k].jitter)
        && forall j | k < j < |s| :: !s[j].Failed?
  {
    if s != [] {
      LastFailureLatest(s[1..]);
      assert forall k | 1 <= k < |s| :: s[k] == s[1..][k - 1];
      if LastFailure(s[1..]).Some? {
        var k' :| 0 <= k' < |s[1..]| && s[1..][k'] == Failed(LastFailure(s[1..]).value, s[1..][k'].jitter)
          && forall j | k' < j < |s[1..]| :: !s[1..][j].Failed?;
        assert s[k' + 1] == Failed(LastFailure(s).value, s[k' + 1].jitter);
      } else if s[0].Failed? {
        assert s[0] == Failed(LastFailure(s).value, s[0].jitter);
      }
    }
  }

  /** Whatever the attempts do, the fetcher sends at most one GET per retry,
      never returns a status it retries, and every pause it takes is the
      settle-down pause or a backoff between 250 ms and 4550 ms. */
  lemma {:induction false} RunFromBounds(attempts: seq<Attempt>, n: nat, maxWaitMs: int, i: nat,
                                         last: Option<Exc>)
    requires i <= n <= |attempts| && JitterBounded(attempts)
    ensures var run := RunFrom(attempts, n, maxWaitMs, i, last);
      run.gets <= n - i
      && (run.outcome.Fetched? ==> run.outcome.status !in RetryStatuses)
      && |run.sleepsMs| <= run.gets
      && forall j | 0 <= j < |run.sleepsMs| :: run.sleepsMs[j] == maxWaitMs || 250 <= run.sleepsMs[j] <= 4550
    decreases n - i
  {
    if i < n {
      RunFromBounds(attempts, n, maxWaitMs, i + 1, Latest(last, FailureOf(attempts[i])));
      if attempts[i].Failed? {
        assert Latest(last, FailureOf(attempts[i])) == Some(attempts[i].e);
      }
    }
  }

  lemma FetchBounds(attempts: seq<Attempt>, maxRetries: int, maxWaitMs: int)
    requires Tries(maxRetries) <= |attempts| && JitterBounded(attempts)
    ensures var run := FetchSpec(attempts, maxRetries, maxWaitMs);
      run.gets <= Tries(maxRetries)
      && (run.outcome.Fetched? ==> run.outcome.status !in RetryStatuses)
      && |run.sleepsMs| <= run.gets
      && forall j | 0 <= j < |run.sleepsMs| :: run.sleepsMs[j] == maxWaitMs || 250 <= run.sleepsMs[j] <= 4550
  {
    RunFromBounds(attempts, Tries(maxRetries), maxWaitMs, 0, None);
  }

  // ---------------------------------------------------------------------
  // Browser fetcher

  /** A running Chrome session. */
  datatype Driver = Driver(session: nat)

  /** What building the driver did: started a session, or raised. */
  datatype Launch = Launched(driver: Driver) | LaunchFailed(e: Exc)

  /** What loading the url in the session did: a page whose source is
      `pageSource` (`None` when the session reports none), or a raise. */
  datatype Navigation = Loaded(pageSource: Option<string>) | NavigationFailed(e: Exc)

  /** What `driver.quit()` did. */
  datatype Quit = QuitOk | QuitFailed(e: Exc)

  datatype Page = Page(status: int, html: string)

  /** The driver held after `_ensure_driver`, given the one held before. */
  function DriverAfter(before: Option<Driver>, launch: Launch): (after: Option<Driver>)
    ensures before.Some? ==> after == before
    ensures before.None? ==> (after.Some? <==> launch.Launched?)
  {
    if before.Some? then before
    else if launch.Launched? then Some(launch.driver)
    else None
  }

  /** Once a driver is held, ensuring one again keeps it, whatever a launch
      would do. */
  lemma EnsureDriverIdempotent(before: Option<Driver>, first: Launch, second: Launch)
    ensures DriverAfter(before, first).Some? ==>
      DriverAfter(DriverAfter(before, first), second) == DriverAfter(before, first)
  {
  }

  /** `fetch_sync` from a fetcher holding `before`: status 200 and the page
      source, or `""` when there is none; a failed launch or load raises. */
  function SyncFetch(before: Option<Driver>, launch: Launch, nav: Navigation): (r: Result<Page>)
    ensures r.Err? <==> DriverAfter(before, launch).None? || nav.NavigationFailed?
    ensures r.Ok? ==> r.value.status == 200 && r.value.html == nav.pageSource.GetOr("")
  {
    if before.None? && launch.LaunchFailed? then Err(launch.e)
    else
      match nav
      case NavigationFailed(e) => Err(e)
      case Loaded(src) => Ok(Page(200, src.GetOr("")))
  }

  /** What `close` lets escape: the failure of quitting a held driver. */
  function CloseRaise(before: Option<Driver>, quit: Quit): (escaped: Option<Exc>)
    ensures escaped.Some? <==> before.Some? && quit.QuitFailed?
  {
    if before.Some? && quit.QuitFailed? then Some(quit.e) else None
  }

  class BrowserFetcher {
    const maxWaitMs: int
    var driver: Option<Driver>

    constructor (maxWaitMs: int)
      ensures this.maxWaitMs == maxWaitMs && driver == None
    {
      this.maxWaitMs := maxWaitMs;
      driver := None;
    }

    /** The wait for `document.readyState == "complete"`, in whole seconds:
        at least one, else the whole seconds in `max_wait_ms`. */
    function ReadyTimeout(): (s: int)
      ensures s >= 1
      ensures maxWaitMs >= 1000 ==> s * 1000 <= maxWaitMs < (s + 1) * 1000
      ensures maxWaitMs < 2000 ==> s == 1
    {
      var secs := maxWaitMs / 1000;
      if secs < 1 then 1 else secs
    }

    /** The wait for the `body` element: the readiness wait, capped at five
        seconds. */
    function BodyTimeout(): (s: int)
      ensures 1 <= s <= 5 && s <= ReadyTimeout()
      ensures ReadyTimeout() <= 5 ==> s == ReadyTimeout()
      ensures s == 5 || s == ReadyTimeout()
    {
      if ReadyTimeout() < 5 then ReadyTimeout() else 5
    }

    /** `_ensure_driver`: build a driver only when none is held. */
    method EnsureDriver(launch: Launch) returns (r: Result<Driver>)
      modifies this
      ensures driver == DriverAfter(old(driver), launch)
      ensures r.Ok? <==> driver.Some?
      ensures r.Ok? ==> r.value == driver.value
      ensures r.Err? ==> r == Err(launch.e)
    {
      if driver.None? {
        match launch
        case LaunchFailed(e) => return Err(e);
        case Launched(d) => driver := Some(d);
      }
      return Ok(driver.value);
    }

    /** `fetch_sync`: make sure a driver is running, load the url, wait (both
        waits swallow what they raise, so they leave no trace) and return the
        page source. */
    method FetchSync(launch: Launch, nav: Navigation) returns (r: Result<Page>)
      modifies this
      ensures driver == DriverAfter(old(driver), launch)
      ensures r == SyncFetch(old(driver), launch, nav)
    {
      var d :- EnsureDriver(launch);
      match nav
      case NavigationFailed(e) => return Err(e);
      case Loaded(src) =>
        var html := if src.Some? then src.value else "";
        return Ok(Page(200, html));
    }

    /** `close`: quit a held driver and drop it even when quitting raises; the
        raise escapes. */
    method Close(quit: Quit) returns (escaped: Option<Exc>)
      modifies this
      ensures driver == None
      ensures escaped == CloseRaise(old(driver), quit)
    {
      escaped := None;
      if driver.Some? {
        match quit
        case QuitFailed(e) => escaped := Some(e);
        case QuitOk =>
      }
      driver := None;
    }
  }
}
