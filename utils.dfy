/** The policy helpers of the scraper: request headers, proxy settings, the
    robots.txt gate, certified-mail detection and retry backoff. */
module Utils {
  import opened Json
  import opened Text

  // ---------------------------------------------------------------------
  // Request headers

  const AcceptValue := "text/html,application/xhtml+xml,application/xml;q=0.9,*/*;q=0.8"
  const AcceptLanguages: seq<string> := ["en-US,en;q=0.9", "it-IT,it;q=0.9,en;q=0.8"]
  const HeaderNames: set<string> :=
    {"User-Agent", "Accept", "Accept-Language", "Cache-Control", "Pragma", "DNT"}

  /** The header map of one request. `userAgent` is the user agent drawn from
      the rotating pool and `language` the index `random.choice` picks among
      `AcceptLanguages`; entries of `extra` override the defaults. */
  method RandomizedHeaders(extra: map<string, string>, userAgent: string, language: nat)
    returns (h: map<string, string>)
    requires language < |AcceptLanguages|
    ensures h.Keys == HeaderNames + extra.Keys
    ensures forall k | k in extra :: h[k] == extra[k]
    ensures "User-Agent" !in extra ==> h["User-Agent"] == userAgent
    ensures "Accept" !in extra ==> h["Accept"] == AcceptValue
    ensures "Accept-Language" !in extra ==> h["Accept-Language"] in AcceptLanguages
    ensures "Cache-Control" !in extra ==> h["Cache-Control"] == "no-cache"
    ensures "Pragma" !in extra ==> h["Pragma"] == "no-cache"
    ensures "DNT" !in extra ==> h["DNT"] == "1"
  {
    h := map[
      "User-Agent" := userAgent,
      "Accept" := AcceptValue,
      "Accept-Language" := AcceptLanguages[language],
      "Cache-Control" := "no-cache",
      "Pragma" := "no-cache",
      "DNT" := "1"
    ];
    if extra != map[] {
      h := h + extra;
    }
  }

  // ---------------------------------------------------------------------
  // Proxy settings

  /** `os.getenv(name)` is set to a non-empty value. */
  predicate EnvSet(env: map<string, string>, name: string) {
    name in env && env[name] != ""
  }

  /** The keyword arguments for the HTTP client: `{}` without proxies, else
      `{"proxies": m}` with one entry per proxy variable that is set. */
  method BuildProxyKwargs(env: map<string, string>) returns (kw: map<string, map<string, string>>)
    ensures kw == map[] <==> !EnvSet(env, "HTTP_PROXY") && !EnvSet(env, "HTTPS_PROXY")
    ensures kw != map[] ==> "proxies" in kw && kw.Keys == {"proxies"}
    ensures kw != map[] ==>
      kw["proxies"].Keys
        == (if EnvSet(env, "HTTP_PROXY") then {"http://"} else {})
         + (if EnvSet(env, "HTTPS_PROXY") then {"https://"} else {})
    ensures kw != map[] && EnvSet(env, "HTTP_PROXY") ==> kw["proxies"]["http://"] == env["HTTP_PROXY"]
    ensures kw != map[] && EnvSet(env, "HTTPS_PROXY") ==> kw["proxies"]["https://"] == env["HTTPS_PROXY"]
  {
    var proxies: map<string, string> := map[];
    if EnvSet(env, "HTTP_PROXY") {
      proxies := proxies["http://" := env["HTTP_PROXY"]];
    }
    if EnvSet(env, "HTTPS_PROXY") {
      proxies := proxies["https://" := env["HTTPS_PROXY"]];
    }
    assert EnvSet(env, "HTTP_PROXY") || EnvSet(env, "HTTPS_PROXY") ==> proxies != map[] by {
      assert EnvSet(env, "HTTP_PROXY") ==> "http://" in proxies;
      assert EnvSet(env, "HTTPS_PROXY") ==> "https://" in proxies;
    }
    if proxies != map[] {
      kw := map["proxies" := proxies];
      assert "proxies" in kw;
    } else {
      assert "http://" !in proxies && "https://" !in proxies;
      kw := map[];
    }
  }

  // ---------------------------------------------------------------------
  // robots.txt

  /** `base.rstrip(c)`. */
  function RStrip(base: string, c: char): (r: string)
    ensures |r| <= |base| && r == base[..|r|]
    ensures r == [] || r[|r| - 1] != c
    ensures forall i | |r| <= i < |base| :: base[i] == c
  {
    if base != [] && base[|base| - 1] == c then RStrip(base[..|base| - 1], c) else base
  }

  /** The address robots.txt is fetched from: `base.rstrip("/") + "/robots.txt"`. */
  function RobotsTxtUrl(base: string): (u: string)
    ensures |u| >= |"/robots.txt"| && u[|u| - |"/robots.txt"|..] == "/robots.txt"
    ensures var origin := u[..|u| - |"/robots.txt"|];
      |origin| <= |base| && origin == base[..|origin|]
      && (origin == [] || origin[|origin| - 1] != '/')
      && forall i | |origin| <= i < |base| :: base[i] == '/'
  {
    RStrip(base, '/') + "/robots.txt"
  }

  /** A parsed robots.txt; the rules are kept as the text they came from. */
  datatype RobotsParser = RobotsParser(rules: string)

  /** What the robots.txt request produced: a response (and whether parsing
      its text raised), or an exception from the client. */
  datatype RobotsResponse =
    | RobotsReply(status: int, body: string, parseRaises: bool)
    | RobotsRaised(e: Exc)

  /** `fetch_robots_txt`: a parser only for status 200 with a non-empty body
      that parses; every other outcome yields no parser. */
  function FetchRobotsTxt(resp: RobotsResponse): (rp: Option<RobotsParser>)
    ensures rp.Some? <==> resp.RobotsReply? && resp.status == 200 && resp.body != "" && !resp.parseRaises
    ensures rp.Some? ==> rp.value == RobotsParser(resp.body)
  {
    match resp
    case RobotsReply(status, body, parseRaises) =>
      if status == 200 && body != "" && !parseRaises then Some(RobotsParser(body)) else None
    case RobotsRaised(_) => None
  }

  /** What `rp.is_allowed(agent, url)` did: answered, or raised. */
  datatype Lookup = Verdict(allowed: bool) | LookupRaised(e: Exc)

  /** `allowed_by_robots`: fail-open, so only an explicit "no" from the parser
      for the wildcard agent denies. */
  function AllowedByRobots(rp: Option<RobotsParser>, url: string,
                           isAllowed: (RobotsParser, string, string) -> Lookup): (ok: bool)
    ensures !ok <==> rp.Some? && isAllowed(rp.value, "*", url) == Verdict(false)
  {
    match rp
    case None => true
    case Some(p) =>
      match isAllowed(p, "*", url)
      case Verdict(b) => b
      case LookupRaised(_) => true
  }

  // ---------------------------------------------------------------------
  // Certified mail (PEC)

  const PecMarkers: seq<string> :=
    [".pec.it", ".pec.cloud", "@pec.", "postacert", "legalmail", "cert.legal", "poste-cert"]

  predicate IsPec(email: string) {
    exists m | m in PecMarkers :: Contains(Lower(email), m)
  }

  /** `is_pec_email`: scans the markers in order and stops at the first hit. */
  method IsPecEmail(email: string) returns (pec: bool)
    ensures pec <==> IsPec(email)
  {
    var lower := Lower(email);
    for i := 0 to |PecMarkers|
      invariant forall j | 0 <= j < i :: !Contains(lower, PecMarkers[j])
    {
      if Contains(lower, PecMarkers[i]) {
        return true;
      }
    }
    return false;
  }

  lemma PecExamples()
    ensures IsPec("info@pec.it")
    ensures IsPec("Studio@LegalMail.it")
  {
    assert Lower("info@pec.it")[4..9] == "@pec.";
    ContainsAt(Lower("info@pec.it"), "@pec.", 4);
    assert Lower("Studio@LegalMail.it")[7..16] == "legalmail";
    ContainsAt(Lower("Studio@LegalMail.it"), "legalmail", 7);
  }

  /** An ordinary address carries none of the markers. */
  lemma NotPecExample()
    ensures !IsPec("info@ristorante.com")
  {
    var s := "info@ristorante.com";
    assert Lower(s) == s;
    assert 'p' !in s && 'g' !in s;
    forall m | m in PecMarkers ensures !Contains(s, m) {
      if m == "legalmail" {
        ContainsNeedsChar(s, m, 2);
      } else if m == "cert.legal" {
        ContainsNeedsChar(s, m, 7);
      } else if m == "postacert" || m == "poste-cert" {
        ContainsNeedsChar(s, m, 0);
      } else {
        ContainsNeedsChar(s, m, 1);
      }
    }
  }

  // ---------------------------------------------------------------------
  // Backoff

  function Pow2(n: nat): (r: nat)
    ensures r >= 1
  {
    if n == 0 then 1 else 2 * Pow2(n - 1)
  }

  /** `2 ** (a + b) == 2 ** a * 2 ** b`. */
  lemma {:induction false} Pow2Add(a: nat, b: nat)
    ensures Pow2(a + b) == Pow2(a) * Pow2(b)
    decreases b
  {
    if b > 0 {
      Pow2Add(a, b - 1);
      assert Pow2(a + b) == 2 * Pow2(a + b - 1);
    }
  }

  /** The delay before jitter, in milliseconds: `min(max_ms, base_ms * 2**try_idx)`. */
  function PreJitter(tryIdx: nat, baseMs: nat, maxMs: nat): (ms: nat)
    ensures ms <= maxMs && ms <= baseMs * Pow2(tryIdx)
    ensures ms == maxMs || ms == baseMs * Pow2(tryIdx)
  {
    if baseMs * Pow2(tryIdx) < maxMs then baseMs * Pow2(tryIdx) else maxMs
  }

  /** The largest jitter: `int(ms * 0.3)`, taken as the exact floor of 3ms/10. */
  function JitterCap(ms: nat): nat {
    (3 * ms) / 10
  }

  /** `backoff_delay` in milliseconds; `jitter` is the value `random.randint`
      draws from `[0, JitterCap(ms)]`. */
  function BackoffDelay(tryIdx: nat, baseMs: nat, maxMs: nat, jitter: nat): (delayMs: nat)
    requires jitter <= JitterCap(PreJitter(tryIdx, baseMs, maxMs))
    ensures PreJitter(tryIdx, baseMs, maxMs) <= delayMs
    ensures delayMs <= PreJitter(tryIdx, baseMs, maxMs) + JitterCap(PreJitter(tryIdx, baseMs, maxMs))
    ensures delayMs <= maxMs + JitterCap(maxMs)
  {
    PreJitter(tryIdx, baseMs, maxMs) + jitter
  }

  lemma Pow2Monotone(i: nat, j: nat)
    requires i <= j
    ensures Pow2(i) <= Pow2(j)
  {
    Pow2Add(i, j - i);
    MulMonotone(Pow2(i), 1, Pow2(j - i));
  }

  /** The pre-jitter delay never decreases from one attempt to the next. */
  lemma BackoffMonotone(i: nat, j: nat, baseMs: nat, maxMs: nat)
    requires i <= j
    ensures PreJitter(i, baseMs, maxMs) <= PreJitter(j, baseMs, maxMs)
  {
    Pow2Monotone(i, j);
    assert baseMs * Pow2(i) <= baseMs * Pow2(j) by {
      MulMonotone(baseMs, Pow2(i), Pow2(j));
    }
  }

  lemma MulMonotone(a: nat, x: nat, y: nat)
    requires x <= y
    ensures a * x <= a * y
  {
  }

  /** With the defaults (250 ms doubling, 3500 ms cap) the fifth attempt and
      every later one waits exactly the cap before jitter. */
  lemma BackoffDefaultCap(tryIdx: nat)
    requires tryIdx >= 4
    ensures PreJitter(tryIdx, 250, 3500) == 3500
  {
    Pow2Monotone(4, tryIdx);
    assert Pow2(4) == 16;
    MulMonotone(250, 16, Pow2(tryIdx));
  }
}
