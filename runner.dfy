/** `scrape_url`: the pipeline for one url. The robots.txt gate comes first,
    then an HTTP fetch, then, if that gives no result, a headless browser.
    Each fetched page goes through the site adapters and the parser. */
module Runner {
  import opened Json
  import opened Text
  import opened Utils
  import opened Parsers
  import opened SiteAdapters
  import opened Fetchers

  /** Everything outside the process that `scrape_url` consults:
      - `env` is the process environment;
      - `urlsplit` is the url splitter;
      - `robots` maps a robots.txt address to the response a GET of it gets;
      - `isAllowed` is the robots.txt parser's verdict;
      - `attempts` are the HTTP fetcher's successive GETs of the page;
      - `launch`, `navigation` and `quit` are what the browser session does;
      - `lib` holds the parsing libraries. */
  datatype World = World(
    env: map<string, string>,
    urlsplit: string -> Result<UrlParts>,
    robots: string -> RobotsResponse,
    isAllowed: (RobotsParser, string, string) -> Lookup,
    attempts: seq<Attempt>,
    launch: Launch,
    navigation: Navigation,
    quit: Quit,
    lib: Libraries)

  /** The runner builds its HTTP fetcher with three retries. */
  const HttpRetries := 3

  /** The world describes at least the three GETs the HTTP fetcher may send,
      with jitters `random.randint` can draw. */
  predicate Ready(w: World) {
    HttpRetries <= |w.attempts| && JitterBounded(w.attempts)
  }

  /** What `scrape_url` hands back: the items and the error log, or the
      exception that escapes it. */
  datatype ScrapeResult = Finished(items: seq<Entity>, errors: seq<string>) | Escaped(e: Exc)

  const RobotsFailed := "robots.txt check failed: "
  const HttpFailed := "http fetch error: "
  const BrowserFailed := "browser fetch error: "
  const Blocked := "Blocked by robots.txt: "

  /** The robots.txt address of the url's origin, or the splitter's raise. */
  function RobotsAddress(url: string, w: World): (r: Result<string>)
    ensures r.Err? <==> w.urlsplit(url).Err?
  {
    var parts :- w.urlsplit(url);
    Ok(RobotsTxtUrl(parts.scheme + "://" + parts.netloc))
  }

  datatype RobotsCheck = Denied | Proceed(errors: seq<string>)

  /** The robots.txt gate: only an explicit "no" stops the run; a url the
      splitter rejects is logged and the run goes on. */
  function RobotsPhase(url: string, respectRobots: bool, w: World): (c: RobotsCheck)
    ensures !respectRobots ==> c == Proceed([])
    ensures c.Proceed? ==> |c.errors| <= 1
    ensures c.Proceed? && c.errors != [] ==>
      StartsWith(c.errors[0], RobotsFailed) && w.urlsplit(url).Err?
    ensures respectRobots && w.urlsplit(url).Err? ==>
      c == Proceed([RobotsFailed + w.urlsplit(url).error.message])
    ensures c.Denied? <==>
      respectRobots && w.urlsplit(url).Ok?
      && !AllowedByRobots(FetchRobotsTxt(w.robots(RobotsAddress(url, w).value)), url, w.isAllowed)
  {
    if !respectRobots then Proceed([])
    else
      match RobotsAddress(url, w)
      case Err(e) =>
        assert (RobotsFailed + e.message)[..|RobotsFailed|] == RobotsFailed;
        Proceed([RobotsFailed + e.message])
      case Ok(address) =>
        if AllowedByRobots(FetchRobotsTxt(w.robots(address)), url, w.isAllowed) then Proceed([]) else Denied
  }

  /** A fetched page through the adapters and the parser. */
  function Processed(url: string, html: string, w: World): Result<seq<Entity>> {
    var page :- Adapted(Registry, url, html, w.urlsplit);
    Parse(page, url, w.lib)
  }

  datatype HttpStep = Served(items: seq<Entity>) | Unserved(error: Option<string>)

  /** The HTTP stage: a non-empty page with status 200 is parsed and ends the
      run; any raise, in the fetch or after it, is logged; anything else
      (201, another status, an empty page) passes on silently. */
  function HttpPhase(url: string, maxWaitMs: int, w: World): (r: HttpStep)
    requires Ready(w)
    ensures r.Served? ==>
      var o := FetchSpec(w.attempts, HttpRetries, maxWaitMs).outcome;
      o.Fetched? && o.status == 200 && o.body != "" && Processed(url, o.body, w) == Ok(r.items)
    ensures r.Unserved? && r.error.Some? ==> StartsWith(r.error.value, HttpFailed)
    ensures var o := FetchSpec(w.attempts, HttpRetries, maxWaitMs).outcome;
      o.FetchRaised? ==> r == Unserved(Some(HttpFailed + o.e.message))
    ensures var o := FetchSpec(w.attempts, HttpRetries, maxWaitMs).outcome;
      o.Fetched? && o.status == 200 && o.body != "" ==>
        (Processed(url, o.body, w).Ok? ==> r == Served(Processed(url, o.body, w).value))
        && (Processed(url, o.body, w).Err? ==>
              r == Unserved(Some(HttpFailed + Processed(url, o.body, w).error.message)))
    ensures r == Unserved(None) <==>
      var o := FetchSpec(w.attempts, HttpRetries, maxWaitMs).outcome;
      o.Fetched? && !(o.status == 200 && o.body != "")
  {
    match FetchSpec(w.attempts, HttpRetries, maxWaitMs).outcome
    case FetchRaised(e) => Logging(HttpFailed, e)
    case Fetched(status, html) =>
      if status == 200 && html != "" then
        match Processed(url, html, w)
        case Ok(items) => Served(items)
        case Err(e) => Logging(HttpFailed, e)
      else Unserved(None)
  }

  function Logging(prefix: string, e: Exc): (r: HttpStep)
    ensures r == Unserved(Some(prefix + e.message)) && StartsWith(r.error.value, prefix)
  {
    var m := prefix + e.message;
    assert m[..|prefix|] == prefix;
    Unserved(Some(m))
  }

  predicate BrowserEnabled(useBrowser: bool, w: World) {
    useBrowser && !EnvSet(w.env, "DISABLE_BROWSER")
  }

  /** The browser stage, reached with `errors` logged so far: a fresh browser
      fetcher loads and parses the page, any raise is logged, and the driver
      is closed in every case; a failure to quit it escapes. */
  function BrowserPhase(url: string, useBrowser: bool, w: World, errors: seq<string>): (r: ScrapeResult)
    ensures r.Finished? ==>
      r.errors == errors
      || (|r.errors| == |errors| + 1 && r.errors[..|errors|] == errors
          && StartsWith(r.errors[|errors|], BrowserFailed))
    ensures !BrowserEnabled(useBrowser, w) ==> r == Finished([], errors)
    ensures BrowserEnabled(useBrowser, w) && w.launch.LaunchFailed? ==>
      r == Finished([], errors + [BrowserFailed + w.launch.e.message])
    ensures BrowserEnabled(useBrowser, w) && w.launch.Launched? && w.quit.QuitFailed? ==>
      r == Escaped(w.quit.e)
    ensures BrowserEnabled(useBrowser, w) && w.launch.Launched? && w.quit.QuitOk? ==>
      match w.navigation
      case NavigationFailed(e) => r == Finished([], errors + [BrowserFailed + e.message])
      case Loaded(src) =>
        var parsed := Processed(url, src.GetOr(""), w);
        (parsed.Ok? ==> r == Finished(parsed.value, errors))
        && (parsed.Err? ==> r == Finished([], errors + [BrowserFailed + parsed.error.message]))
  {
    if !BrowserEnabled(useBrowser, w) then Finished([], errors)
    else
      var parsed :=
        match SyncFetch(None, w.launch, w.navigation)
        case Err(e) => Err(e)
        case Ok(page) => Processed(url, page.html, w);
      var result :=
        match parsed
        case Ok(items) => Finished(items, errors)
        case Err(e) =>
          assert (BrowserFailed + e.message)[..|BrowserFailed|] == BrowserFailed;
          assert (errors + [BrowserFailed + e.message])[..|errors|] == errors;
          Finished([], errors + [BrowserFailed + e.message]);
      match CloseRaise(DriverAfter(None, w.launch), w.quit)
      case Some(e) => Escaped(e)
      case None => result
  }

  function Logged(error: Option<string>): seq<string> {
    if error.Some? then [error.value] else []
  }

  /** `scrape_url(url, use_browser, max_wait_ms, respect_robots)`. */
  function Scrape(url: string, useBrowser: bool, maxWaitMs: int, respectRobots: bool, w: World): ScrapeResult
    requires Ready(w)
  {
    match RobotsPhase(url, respectRobots, w)
    case Denied => Finished([], [Blocked + url])
    case Proceed(errors) =>
      match HttpPhase(url, maxWaitMs, w)
      case Served(items) => Finished(items, errors)
      case Unserved(error) => BrowserPhase(url, useBrowser, w, errors + Logged(error))
  }

  /** Adapters then parser on a fetched page. */
  method Process(url: string, html: string, w: World) returns (r: Result<seq<Entity>>)
    ensures r == Processed(url, html, w)
  {
    var page :- ApplyAdapters(url, html, w.urlsplit);
    r := ParseEntity(page, url, w.lib);
  }

  method ScrapeUrl(url: string, useBrowser: bool, maxWaitMs: int, respectRobots: bool, w: World)
    returns (res: ScrapeResult)
    requires Ready(w)
    ensures res == Scrape(url, useBrowser, maxWaitMs, respectRobots, w)
  {
    var errors: seq<string> := [];
    if respectRobots {
      match w.urlsplit(url)
      case Err(e) =>
        errors := errors + [RobotsFailed + e.message];
      case Ok(parts) =>
        var rp := FetchRobotsTxt(w.robots(RobotsTxtUrl(parts.scheme + "://" + parts.netloc)));
        if !AllowedByRobots(rp, url, w.isAllowed) {
          return Finished([], [Blocked + url]);
        }
    }
    assert RobotsPhase(url, respectRobots, w) == Proceed(errors);

    var http := new HttpFetcher(HttpRetries, maxWaitMs);
    var run := http.Fetch(w.attempts);
    match run.outcome {
      case FetchRaised(e) =>
        errors := errors + [HttpFailed + e.message];
      case Fetched(status, html) =>
        if status == 200 && html != "" {
          var parsed := Process(url, html, w);
          match parsed {
            case Ok(items) => return Finished(items, errors);
            case Err(e) => errors := errors + [HttpFailed + e.message];
          }
        }
    }
    ghost var step := HttpPhase(url, maxWaitMs, w);
    assert step.Unserved? && errors == RobotsPhase(url, respectRobots, w).errors + Logged(step.error);

    if BrowserEnabled(useBrowser, w) {
      var bf := new BrowserFetcher(maxWaitMs);
      var fetched := bf.FetchSync(w.launch, w.navigation);
      var parsed: Result<seq<Entity>>;
      if fetched.Ok? {
        parsed := Process(url, fetched.value.html, w);
      } else {
        parsed := Err(fetched.error);
      }
      var result: ScrapeResult;
      if parsed.Ok? {
        result := Finished(parsed.value, errors);
      } else {
        result := Finished([], errors + [BrowserFailed + parsed.error.message]);
      }
      var escaped := bf.Close(w.quit);
      if escaped.Some? {
        return Escaped(escaped.value);
      }
      return result;
    }
    return Finished([], errors);
  }
  // ---------------------------------------------------------------------
  // Properties of a run

  /** A denial from robots.txt ends the run with only the denial logged,
      whatever the fetchers would have done. */
  lemma DeniedIsFinal(url: string, useBrowser: bool, maxWaitMs: int, w: World)
    requires Ready(w) && w.urlsplit(url).Ok?
    requires !AllowedByRobots(FetchRobotsTxt(w.robots(RobotsAddress(url, w).value)), url, w.isAllowed)
    ensures Scrape(url, useBrowser, maxWaitMs, true, w) == Finished([], [Blocked + url])
  {
  }

  /** Without `respect_robots` no robots.txt is consulted: the robots
      responses and verdicts play no part in the run. */
  lemma RobotsIgnoredWhenNotRespected(url: string, useBrowser: bool, maxWaitMs: int, w: World,
                                      robots: string -> RobotsResponse,
                                      isAllowed: (RobotsParser, string, string) -> Lookup)
    requires Ready(w)
    ensures Scrape(url, useBrowser, maxWaitMs, false, w)
      == Scrape(url, useBrowser, maxWaitMs, false, w.(robots := robots, isAllowed := isAllowed))
  {
    var w' := w.(robots := robots, isAllowed := isAllowed);
    forall html ensures Processed(url, html, w) == Processed(url, html, w') {
    }
    assert HttpPhase(url, maxWaitMs, w) == HttpPhase(url, maxWaitMs, w');
  }

  /** Which stage logged a message: 0 robots.txt, 1 HTTP, 2 browser. */
  function Rank(msg: string): nat {
    if StartsWith(msg, RobotsFailed) then 0
    else if StartsWith(msg, HttpFailed) then 1
    else if StartsWith(msg, BrowserFailed) then 2
    else 3
  }

  lemma RankPrefix(p: string, m: string)
    requires p == RobotsFailed || p == HttpFailed || p == BrowserFailed
    requires StartsWith(m, p)
    ensures Rank(m) == if p == RobotsFailed then 0 else if p == HttpFailed then 1 else 2
  {
    assert m[0] == m[..|p|][0] == p[0];
  }

  /** The stages log at most one message each, in the order they run. */
  predicate PhaseOrdered(errors: seq<string>) {
    (forall k | 0 <= k < |errors| :: Rank(errors[k]) < 3)
    && forall i, j | 0 <= i < j < |errors| :: Rank(errors[i]) < Rank(errors[j])
  }

  /** A log made of at most one robots.txt message, then at most one HTTP
      message, then at most one browser message is in stage order. */
  lemma LogOrdered(robots: seq<string>, error: Option<string>, log: seq<string>)
    requires |robots| <= 1 && (robots != [] ==> StartsWith(robots[0], RobotsFailed))
    requires error.Some? ==> StartsWith(error.value, HttpFailed)
    requires var before := robots + Logged(error);
      log == before
      || (|log| == |before| + 1 && log[..|before|] == before && StartsWith(log[|before|], BrowserFailed))
    ensures PhaseOrdered(log)
  {
    var before := robots + Logged(error);
    if robots != [] {
      RankPrefix(RobotsFailed, robots[0]);
    }
    if error.Some? {
      RankPrefix(HttpFailed, error.value);
      assert before[|before| - 1] == error.value;
    }
    assert PhaseOrdered(before);
    if log != before {
      RankPrefix(BrowserFailed, log[|before|]);
      assert forall k | 0 <= k < |before| :: log[k] == before[k];
    }
  }

  /** Every error log a run finishes with is either the robots.txt denial
      alone or one message per failed stage, in stage order. */
  lemma ErrorsInPhaseOrder(url: string, useBrowser: bool, maxWaitMs: int, respectRobots: bool, w: World)
    requires Ready(w)
    ensures var res := Scrape(url, useBrowser, maxWaitMs, respectRobots, w);
      res.Finished? ==> res.errors == [Blocked + url] || PhaseOrdered(res.errors)
  {
    var robots := RobotsPhase(url, respectRobots, w);
    if robots.Proceed? {
      var step := HttpPhase(url, maxWaitMs, w);
      if step.Served? {
        LogOrdered(robots.errors, None, robots.errors);
        assert robots.errors + [] == robots.errors;
      } else {
        var res := BrowserPhase(url, useBrowser, w, robots.errors + Logged(step.error));
        if res.Finished? {
          LogOrdered(robots.errors, step.error, res.errors);
        }
      }
    }
  }

  /** Only a failure to quit the browser escapes `scrape_url`, and it does
      whenever a browser session was started. */
  lemma EscapesOnlyOnQuitFailure(url: string, useBrowser: bool, maxWaitMs: int, respectRobots: bool, w: World)
    requires Ready(w)
    ensures var res := Scrape(url, useBrowser, maxWaitMs, respectRobots, w);
      res.Escaped? <==>
        RobotsPhase(url, respectRobots, w).Proceed? && HttpPhase(url, maxWaitMs, w).Unserved?
        && BrowserEnabled(useBrowser, w) && w.launch.Launched? && w.quit.QuitFailed?
    ensures var res := Scrape(url, useBrowser, maxWaitMs, respectRobots, w);
      res.Escaped? ==> res.e == w.quit.e
  {
  }

  /** With the browser switched off (by the caller or by `DISABLE_BROWSER`)
      the browser session plays no part, nothing escapes and a run the HTTP
      stage does not serve finishes without items. */
  lemma BrowserOffIgnoresBrowser(url: string, useBrowser: bool, maxWaitMs: int, respectRobots: bool, w: World,
                                 launch: Launch, navigation: Navigation, quit: Quit)
    requires Ready(w) && !BrowserEnabled(useBrowser, w)
    ensures Scrape(url, useBrowser, maxWaitMs, respectRobots, w)
      == Scrape(url, useBrowser, maxWaitMs, respectRobots, w.(launch := launch, navigation := navigation, quit := quit))
    ensures Scrape(url, useBrowser, maxWaitMs, respectRobots, w).Finished?
    ensures HttpPhase(url, maxWaitMs, w).Unserved? ==>
      Scrape(url, useBrowser, maxWaitMs, respectRobots, w).items == []
  {
  }

  /** The attempt the HTTP fetcher settles on, the first whose status is not
      retried, answering 200 with a page that parses ends the run with the
      parsed items and only what the robots.txt gate logged, however many
      retried statuses and raises came before it. */
  lemma HttpSuccess(url: string, useBrowser: bool, maxWaitMs: int, respectRobots: bool, w: World, k: nat)
    requires Ready(w) && RobotsPhase(url, respectRobots, w).Proceed?
    requires k < HttpRetries && forall j | 0 <= j < k :: !Decisive(w.attempts[j])
    requires w.attempts[k].Answered? && w.attempts[k].status == 200 && w.attempts[k].body != ""
    requires Processed(url, w.attempts[k].body, w).Ok?
    ensures Scrape(url, useBrowser, maxWaitMs, respectRobots, w)
      == Finished(Processed(url, w.attempts[k].body, w).value, RobotsPhase(url, respectRobots, w).errors)
  {
    FetchReturnsFirstDecisive(w.attempts, HttpRetries, maxWaitMs, k);
  }

  /** A page the fetcher settles on with status 201 is not parsed by the HTTP
      stage: the run moves on to the browser without logging anything. */
  lemma CreatedFallsThrough(url: string, useBrowser: bool, maxWaitMs: int, respectRobots: bool, w: World, k: nat)
    requires Ready(w) && RobotsPhase(url, respectRobots, w).Proceed?
    requires k < HttpRetries && forall j | 0 <= j < k :: !Decisive(w.attempts[j])
    requires w.attempts[k].Answered? && w.attempts[k].status == 201
    ensures Scrape(url, useBrowser, maxWaitMs, respectRobots, w)
      == BrowserPhase(url, useBrowser, w, RobotsPhase(url, respectRobots, w).errors)
  {
    FetchReturnsFirstDecisive(w.attempts, HttpRetries, maxWaitMs, k);
    assert RobotsPhase(url, respectRobots, w).errors + [] == RobotsPhase(url, respectRobots, w).errors;
  }

  /** When the HTTP stage does not serve the run, a browser session that
      launches, loads a page that parses and quits cleanly ends the run with
      the page's items and the errors logged so far. */
  lemma BrowserServes(url: string, useBrowser: bool, maxWaitMs: int, respectRobots: bool, w: World)
    requires Ready(w) && RobotsPhase(url, respectRobots, w).Proceed? && HttpPhase(url, maxWaitMs, w).Unserved?
    requires BrowserEnabled(useBrowser, w) && w.launch.Launched? && w.quit.QuitOk?
    requires w.navigation.Loaded? && Processed(url, w.navigation.pageSource.GetOr(""), w).Ok?
    ensures Scrape(url, useBrowser, maxWaitMs, respectRobots, w)
      == Finished(Processed(url, w.navigation.pageSource.GetOr(""), w).value,
                  RobotsPhase(url, respectRobots, w).errors + Logged(HttpPhase(url, maxWaitMs, w).error))
  {
  }

  /** A browser session that launches but fails to load the page, and quits
      cleanly, ends the run without items and with one "browser fetch error"
      carrying the load's exception after the errors logged so far. */
  lemma BrowserLoadFailureLogged(url: string, useBrowser: bool, maxWaitMs: int, respectRobots: bool, w: World)
    requires Ready(w) && RobotsPhase(url, respectRobots, w).Proceed? && HttpPhase(url, maxWaitMs, w).Unserved?
    requires BrowserEnabled(useBrowser, w) && w.launch.Launched? && w.quit.QuitOk?
    requires w.navigation.NavigationFailed?
    ensures Scrape(url, useBrowser, maxWaitMs, respectRobots, w)
      == Finished([], RobotsPhase(url, respectRobots, w).errors + Logged(HttpPhase(url, maxWaitMs, w).error)
                      + [BrowserFailed + w.navigation.e.message])
  {
  }

  /** Three answers in a row with a retried status, and no raise among them,
      make the HTTP stage log "Fetch failed without exception". */
  lemma AllRetriedLogsNoException(url: string, maxWaitMs: int, w: World)
    requires Ready(w)
    requires forall j | 0 <= j < HttpRetries :: w.attempts[j].Answered? && w.attempts[j].status in RetryStatuses
    ensures HttpPhase(url, maxWaitMs, w) == Unserved(Some(HttpFailed + "Fetch failed without exception"))
  {
    FetchRaisesWhenAllRetried(w.attempts, HttpRetries, maxWaitMs);
    LastFailureLatest(w.attempts[..HttpRetries]);
  }
}
