# WebScraping-webapp-tool scraping core in Dafny

This project models the scraping engine of the WebScraping-webapp-tool: the
`scraping` package, which takes one url and returns business records
("entities") for it, together with a log of what went wrong. Nothing outside
that package is modelled. The engine gets a url through five stages:

- **`scraping/utils.py`** holds the policy helpers. It builds request headers and
  proxy settings, fetches robots.txt and reads its verdict (failing open),
  spots certified-mail (PEC) addresses, and computes the exponential, jittered
  retry backoff (module `Utils`).
- **`scraping/fetchers.py`** holds the two fetchers (module `Fetchers`).
  - `HttpFetcher.fetch` retries a GET up to `max_retries` times. It backs off on
    statuses 403/429/500/502/503 and on exceptions. When every attempt is used
    up, it raises the most recent exception, or "Fetch failed without
    exception".
  - `BrowserFetcher` manages a headless Chrome driver handle. It is created on
    demand and dropped on `close` even when quitting fails. The page is always
    reported with status 200.
- **`scraping/site_adapters.py`** holds the registry of per-site HTML
  rewriters, where the first adapter whose domain fragment occurs in the
  lower-cased host wins (module `SiteAdapters`).
- **`scraping/parsers.py`** holds the entity normaliser (module `Parsers`). It
  runs three tiers:
  1. schema.org `ItemList` blocks;
  2. otherwise single business blocks;
  3. otherwise a fallback record from the phone numbers and e-mail addresses
     visible on the page.

  Every text field goes through `_clean_text`, and every structured record gets
  an additive data-quality score capped at 100.
- **`scraping/runner.py`** holds `scrape_url`, the orchestrator (module
  `Runner`). It runs the robots.txt gate, then the HTTP fetch, then the browser
  fetch, and logs at most one error per stage.

Supporting modules:

- `Json` holds the decoded JSON-LD values, Python truthiness, `dict.get`, `or`,
  and `Result`/`Option` for computations that raise.
- `Text` holds `str.isspace`, ASCII `lower`, `in`, `replace`, the digit count,
  and the `re.sub(r"\s+", " ", s).strip()` whitespace collapse.
- `Ordering` holds Python's `str` ordering and `sorted(set(xs))`.

How the code is written decides each module's form:

- **Imperative parts are methods, each proved equal to a specification
  function:**
  - the loops of `_from_itemlist`, `parse_entity`, `_collect_phones` and
    `is_pec_email`;
  - the score accumulation of `_entity_from_jsonld_item`;
  - the retry loop of `fetch` and the stage-by-stage `scrape_url`;
  - `BrowserFetcher`, a class with the mutable field `driver`.
- **The expression-only helpers are functions.**
- **The properties the code promises are lemmas about those functions.**

Everything the code gets from outside is an input of the model:

- the network, the browser session, the environment, randomness and `urlsplit`
  (`Runner.World`);
- the foreign libraries: extruct, BeautifulSoup, `html.unescape`+NFKC,
  `float()`, `str()` and the regex engines (`Parsers.Libraries`).

An exception is an `Err` carrying the text `str(e)` would give.

Behaviour of the code that the model keeps:

- **`scrape_url` can raise**, although every caller in app/main.py (lines 37,
  60, 74 and 89) unpacks its result without a `try`. If `driver.quit()` raises in `bf.close()` (scraping/fetchers.py:61-66), the
  `finally` at scraping/runner.py:42-43 lets that exception escape, and it
  replaces the return value. The model's result is then `Escaped(e)`.
- **`_clean_text` raises** `AttributeError` on a truthy value that is not a
  string: a number under `name`, a mapping under `url`, and so on. The
  exception leaves `parse_entity`, and the runner logs it as an HTTP or browser
  fetch error.
- **`entity_type` can be "Restaurant" without `@type` matching
  {"Restaurant"}.** A string `@type` such as `" Restaurant "` does not match,
  yet its cleaned form is "Restaurant". `Parsers.EntityTypeOf` states the
  code's three branches instead of an if-and-only-if.

## Model

| member | source | states |
|---|---|---|
| Json.OrTruthy | scraping/parsers.py:56 | `a or b` is truthy exactly when `a` or `b` is |
| Text.LowerIdempotent | scraping/utils.py:60 | lower-casing a lower-cased string changes nothing |
| Text.LowerHasNoUpper | scraping/utils.py:60 | no ASCII capital letter is left after `lower()` |
| Text.ContainsAt | scraping/utils.py:62 | `sub in s` holds whenever `sub` occurs at some index of `s` |
| Text.ContainsNeedsChar | scraping/utils.py:62 | `sub in s` fails when `sub` holds a character `s` lacks |
| Text.ReplaceAbsent | scraping/parsers.py:22 | `s.replace(pat, rep)` is `s` when `pat` does not occur |
| Text.DigitCountAppend | scraping/parsers.py:37-38 | the digits `re.sub(r"\D", "", p)` keeps are counted piece by piece: a concatenation has the digits of both parts |
| Text.DropSpacesShape | scraping/parsers.py:25 | stripping leading whitespace removes a whitespace-only prefix and leaves a string that is empty or starts with a non-space |
| Text.TrimEndShape | scraping/parsers.py:25 | stripping trailing whitespace removes a whitespace-only suffix and leaves a string that is empty or ends with a non-space |
| Text.SqueezeSingleSpaced | scraping/parsers.py:25 | after `re.sub(r"\s+", " ", s)` every whitespace character is a single ' ' with no whitespace after it |
| Text.InkSqueeze | scraping/parsers.py:25 | the substitution keeps every non-whitespace character, in order |
| Text.CollapseShape | scraping/parsers.py:25 | `re.sub(r"\s+", " ", s).strip()` has no leading, trailing or repeated whitespace and keeps all other characters in order |
| Text.CollapsedEmpty | scraping/parsers.py:25-26 | a collapsed string is empty exactly when it has no non-whitespace character |
| Text.CollapseFixed | scraping/parsers.py:25 | the collapse is idempotent |
| Text.CollapseSplitJoin | scraping/parsers.py:25 | the collapse is `" ".join(s.split())`: the words of `s` in order, each run of whitespace between two of them one space, none at the ends |
| Ordering.LessIrreflexive | scraping/parsers.py:40 | no string sorts before itself |
| Ordering.LessTransitive | scraping/parsers.py:40 | the string order is transitive |
| Ordering.LessTotal | scraping/parsers.py:40 | any two different strings are ordered one way or the other |
| Ordering.LessAsymmetric | scraping/parsers.py:40 | two strings never sort before each other |
| Ordering.Insert | scraping/parsers.py:40 | inserting into a strictly sorted list keeps it strictly sorted and adds exactly the new element |
| Ordering.SortUnique | scraping/parsers.py:40 | `sorted(set(xs))` is strictly increasing and has exactly the elements of `xs` |
| Ordering.SortedListingUnique | scraping/parsers.py:30 | two strictly sorted lists with the same elements are equal, so the sorted listing of a set is unique |
| Utils.RandomizedHeaders | scraping/utils.py:19-29 | the headers hold the six default keys plus `extra`'s, `extra` overrides, and every default that is not overridden has its fixed value (Accept-Language one of the two listed) |
| Utils.BuildProxyKwargs | scraping/utils.py:31-37 | `{}` exactly when neither proxy variable is set, else `{"proxies": m}` with an entry exactly for each set variable, holding its value |
| Utils.RStrip | scraping/utils.py:42 | `rstrip(c)` removes exactly the trailing run of `c` |
| Utils.RobotsTxtUrl | scraping/utils.py:42 | the robots.txt address is the base without trailing slashes followed by `/robots.txt` |
| Utils.FetchRobotsTxt | scraping/utils.py:39-49 | a parser exactly for status 200 with a non-empty body that parses; any other status, empty body or exception gives None |
| Utils.AllowedByRobots | scraping/utils.py:51-57 | fail-open: denied exactly when a parser exists and answers "no" for agent `*`; no parser or a raising lookup allows |
| Utils.IsPecEmail | scraping/utils.py:59-63 | true exactly when the lower-cased address contains one of the seven PEC markers |
| Utils.PecExamples | scraping/utils.py:59-63 | `info@pec.it` and `Studio@LegalMail.it` are PEC addresses |
| Utils.NotPecExample | scraping/utils.py:59-63 | `info@ristorante.com` is not |
| Utils.Pow2Add | scraping/utils.py:66 | `2 ** (a + b) == 2 ** a * 2 ** b` |
| Utils.PreJitter | scraping/utils.py:66 | the pre-jitter delay is `min(max_ms, base_ms * 2**try_idx)`: at most both and equal to one of them |
| Utils.BackoffDelay | scraping/utils.py:65-68 | the delay lies in `[ms, ms + floor(0.3 ms)]` and never exceeds `max_ms + floor(0.3 max_ms)` |
| Utils.Pow2Monotone | scraping/utils.py:66 | powers of two grow with the exponent |
| Utils.BackoffMonotone | scraping/utils.py:66 | the pre-jitter delay never decreases from one attempt to the next |
| Utils.BackoffDefaultCap | scraping/utils.py:65-66 | with the defaults 250/3500, every attempt from index 4 on waits exactly 3500 ms before jitter |
| Parsers.CleanStr | scraping/parsers.py:18-26 | `_clean_text` of a string: None for the empty string, never the empty string |
| Parsers.CleanStrShape | scraping/parsers.py:18-26 | a cleaned string is collapsed and keeps the non-whitespace of the normalised text; None only for the empty string or whitespace-only text |
| Parsers.CleanText | scraping/parsers.py:18-26 | `_clean_text` of any value raises exactly on a truthy non-string, with `'T' object has no attribute 'replace'`; a result is the cleaned string |
| Parsers.AnyAllowed | scraping/parsers.py:50 | true exactly when some string element of the list is allowed |
| Parsers.TypeMatches | scraping/parsers.py:46-51 | a string `@type` matches exactly when it is allowed, a list exactly when one of its string elements is, any other value never |
| Parsers.AddressOf | scraping/parsers.py:53-61 | a non-mapping gives the empty address; every field produced is absent or non-empty |
| Parsers.AddressFields | scraping/parsers.py:53-61 | the dict-filling steps compute `AddressOf` |
| Parsers.FirstRaising | scraping/parsers.py:53-61 | the first value whose cleaning raises, None exactly when none does |
| Parsers.FirstRaisingCons | scraping/parsers.py:53-61 | the first raising value of a list is its head when the head raises, else the first raising value of the rest |
| Parsers.FirstRaisingAppend | scraping/parsers.py:73-89 | the first raising value of a concatenation comes from the first part when it has one |
| Parsers.AddressRaises | scraping/parsers.py:53-61 | `_address_fields` raises exactly when one of its five inputs raises, with the first one's error |
| Parsers.Rating | scraping/parsers.py:63-71 | no rating unless `aggregateRating` is a mapping; None/list/mapping values give None; floats are kept, and so are ints of magnitude below `2**1024 - 2**970`, while a larger int, on which `float()` raises OverflowError, gives None |
| Parsers.Quality | scraping/parsers.py:96-102 | the score as the code totals it: 30 for a name, 25 for a phone, 10 each for a website and a street address, 25 for a rating, capped at 100 |
| Parsers.StructuredQuality | scraping/parsers.py:96-102 | the structured score is at most 100 |
| Parsers.TelephonePhones | scraping/parsers.py:77-82 | at most one phone: none for a falsy telephone, otherwise the cleaned `str(tel)` when not None |
| Parsers.EntityTypeOf | scraping/parsers.py:84 | "Restaurant" when `@type` matches {"Restaurant"}; otherwise the cleaned string `@type`, or None for a non-string |
| Parsers.ItemEntityRaises | scraping/parsers.py:73-103 | building a record raises exactly when name, an address field or the website raises, with the first one's error |
| Parsers.ItemEntity | scraping/parsers.py:73-103 | `_entity_from_jsonld_item` as a value: name, address and website cleaned in that order, the first raise propagating, then the record |
| Parsers.ItemEntityShape | scraping/parsers.py:73-103 | a built record has no e-mails/socials/geo/categories, at most one phone, the score of its fields, every text field (name, street, locality, region, postal code, country, website, type) absent or non-empty, a website falling back to the source url, "Restaurant" for a matching type, none of the five address fields for a non-mapping address, and the cleaned telephone |
| Parsers.EntityFromJsonLdItem | scraping/parsers.py:73-103 | the step-by-step record and score equal the specification `ItemEntity` |
| Parsers.BuildStructured | scraping/parsers.py:73-103 | every record the builder produces is structured |
| Parsers.QualifyingItems | scraping/parsers.py:110-116 | no more qualifying items than list elements |
| Parsers.ExtendNil | scraping/parsers.py:123 | extending nothing leaves the result as it is |
| Parsers.ExtendExtend | scraping/parsers.py:130 | extending twice is extending by the concatenation |
| Parsers.ListEntitiesStep | scraping/parsers.py:110-117 | one element of the item list contributes its record, or nothing, and raises when its record raises |
| Parsers.ListEntitiesSpec | scraping/parsers.py:105-118 | one record per qualifying element, in list order; raises exactly when some qualifying item raises |
| Parsers.ListEntitiesStructured | scraping/parsers.py:105-118 | every listing record is structured |
| Parsers.FromItemList | scraping/parsers.py:105-118 | the append loop with `continue` computes `ItemListEntities`; a non-list `itemListElement` gives [] |
| Parsers.IsItemList | scraping/parsers.py:127 | a tier-1 block: a mapping whose `@type` equals "ItemList" |
| Parsers.IsBusiness | scraping/parsers.py:135-137 | a tier-2 block: a mapping whose `@type` matches an allowed type |
| Parsers.ListPassStep | scraping/parsers.py:126-130 | tier 1 takes a block's listing records only when the block is a mapping whose `@type` equals "ItemList" |
| Parsers.BusinessPassStep | scraping/parsers.py:134-138 | tier 2 takes a block's record only when it is a mapping of an allowed type |
| Parsers.ListPassStructured | scraping/parsers.py:126-130 | every tier-1 record is structured |
| Parsers.BusinessPassStructured | scraping/parsers.py:134-138 | every tier-2 record is structured |
| Parsers.SeparatorsIgnored | scraping/parsers.py:37-38 | the seven-digit test reads only the digits: inserting non-digit separators into a candidate never changes whether it is kept |
| Parsers.KeptPhones | scraping/parsers.py:35-39 | the kept phones are exactly the cleaned candidates with at least seven digits |
| Parsers.PhonesOf | scraping/parsers.py:32-40 | the phones are strictly sorted (so duplicate-free) and exactly the cleaned candidates with at least seven digits |
| Parsers.CollectPhones | scraping/parsers.py:32-40 | the loop over the candidate set computes `PhonesOf` |
| Parsers.KeepEmail | scraping/parsers.py:30 | an address is kept when it is not PEC and its lower-cased form does not start with `no-reply` |
| Parsers.KeptEmails | scraping/parsers.py:30 | the kept addresses are exactly the candidates that are neither PEC nor `no-reply` |
| Parsers.EmailsOf | scraping/parsers.py:28-30 | the e-mails are strictly sorted and exactly the candidates that are neither PEC nor start with `no-reply` in lower case |
| Parsers.PecEmailDropped | scraping/parsers.py:30 | `info@pec.it` is dropped |
| Parsers.PlainEmailKept | scraping/parsers.py:30 | `info@ristorante.com` is kept |
| Parsers.NoReplyEmailDropped | scraping/parsers.py:30 | `No-Reply@ristorante.com` is dropped |
| Parsers.FallbackRecord | scraping/parsers.py:146-154 | the fallback record: only name, phones, e-mails and website set, scored 25/25/10 capped at 100 |
| Parsers.TitleName | scraping/parsers.py:148 | the cleaned page title, or None when the page has no title string or an empty one |
| Parsers.Fallback | scraping/parsers.py:141-154 | at most one record, none exactly when no phones and no e-mails, carrying them, with website = url, no type, address or rating, and a score of exactly 25 per non-empty list plus 10 for a non-empty url (25 to 60) |
| Parsers.Parse | scraping/parsers.py:120-156 | `parse_entity` as a value: tier 1, then tier 2 when it found nothing, then the fallback |
| Parsers.ParseShape | scraping/parsers.py:120-156 | every score is at most 100; a record with e-mails only comes from the fallback, after tiers 1 and 2 found nothing, as the only record |
| Parsers.ParseEntity | scraping/parsers.py:120-156 | the three-tier accumulation computes the specification `Parse` |
| Parsers.ListingRecord | scraping/parsers.py:110-117 | a list element holding a named Restaurant qualifies and gives a record with that name and type |
| Parsers.TwoRestaurantsExample | scraping/parsers.py:126-130 | an ItemList of two Restaurants gives their two records in order |
| Parsers.OneBlockListPass | scraping/parsers.py:126-130 | with a single ItemList block, tier 1 is that block's listing |
| Parsers.TelephoneRecord | scraping/parsers.py:77-98 | a LocalBusiness with only a telephone gives a nameless record with that phone, scoring at least 25 |
| Parsers.SecondBlockBusinessPass | scraping/parsers.py:133-138 | a list-valued `@type` ["ItemList"] is not tier 1; a later business block is tier 2's only record |
| Parsers.SingleBusinessExample | scraping/parsers.py:125-138 | a page with such blocks parses to the business record alone |
| SiteAdapters.AnyDomain | scraping/site_adapters.py:13 | true exactly when some domain fragment occurs in the host |
| SiteAdapters.Applies | scraping/site_adapters.py:11-13 | raises exactly when the url cannot be split; otherwise true exactly when a fragment occurs in the lower-cased host |
| SiteAdapters.PreProcess | scraping/site_adapters.py:15-34 | both adapters' `pre_process` return the page unchanged |
| SiteAdapters.Adapted | scraping/site_adapters.py:15-34 | the page after the first applicable adapter of the list, a split failure raising |
| SiteAdapters.ApplyAdapters | scraping/site_adapters.py:30-34 | the first-match loop over the registry computes `Adapted` |
| SiteAdapters.AdaptedKeepsHtml | scraping/site_adapters.py:15-34 | the page comes back unchanged for every url; a non-empty registry raises when the url cannot be split |
| SiteAdapters.BaseNeverApplies | scraping/site_adapters.py:9-13 | an adapter without domains never applies |
| SiteAdapters.TripAdvisorHostExample | scraping/site_adapters.py:19-20 | the TripAdvisor adapter claims `www.TripAdvisor.it` |
| Fetchers.Delay | scraping/fetchers.py:22 | the backoff after an attempt lies between 250 and 4550 ms |
| Fetchers.Backoffs | scraping/fetchers.py:21-27 | one backoff per retried attempt, each `backoff_delay` of its index |
| Fetchers.RunFrom | scraping/fetchers.py:12-30 | the retry loop from a given attempt on: outcome, GET count and pauses |
| Fetchers.FetchSpec | scraping/fetchers.py:12-30 | `fetch` as a value: the retry loop run from the first attempt |
| Fetchers.HttpFetcher.constructor | scraping/fetchers.py:8-10 | the fetcher keeps its retry count and settle time |
| Fetchers.HttpFetcher.Fetch | scraping/fetchers.py:12-30 | the retry loop computes the specification `FetchSpec` |
| Fetchers.RunFromDecided | scraping/fetchers.py:15-24 | from any attempt on, the first non-retried answer is returned |
| Fetchers.RunFromExhausted | scraping/fetchers.py:15-30 | from any attempt on, when every answer is retried, the latest exception (or RuntimeError) is raised |
| Fetchers.FetchReturnsFirstDecisive | scraping/fetchers.py:15-24 | the first answer with a non-retried status is returned after k+1 GETs, backoffs before it, and the settle pause only for 200/201 |
| Fetchers.FetchRaisesWhenAllRetried | scraping/fetchers.py:25-30 | when every attempt is retried, all attempts are used and the most recent exception is raised, or "Fetch failed without exception" when none raised (always so for `max_retries = 0`) |
| Fetchers.LastFailureLatest | scraping/fetchers.py:26-29 | the kept exception is that of the latest raising attempt, even when later attempts got retried statuses |
| Fetchers.RunFromBounds | scraping/fetchers.py:15-27 | from any attempt on: GETs at most the attempts left, no retried status returned, pauses are settle or backoff |
| Fetchers.FetchBounds | scraping/fetchers.py:15-27 | at most `max_retries` GETs, a retried status is never returned, and every pause is the settle pause or a backoff of 250-4550 ms |
| Fetchers.DriverAfter | scraping/fetchers.py:57-59 | a held driver is kept; otherwise a driver is held afterwards exactly when the launch succeeds |
| Fetchers.EnsureDriverIdempotent | scraping/fetchers.py:57-59 | once a driver is held, ensuring it again changes nothing |
| Fetchers.SyncFetch | scraping/fetchers.py:68-85 | raises exactly when no driver is available or the page load fails; otherwise status 200 and the page source, or "" |
| Fetchers.CloseRaise | scraping/fetchers.py:61-66 | `close` lets an exception escape exactly when a driver was held and quitting it failed |
| Fetchers.BrowserFetcher.constructor | scraping/fetchers.py:40-42 | a new browser fetcher holds no driver |
| Fetchers.BrowserFetcher.ReadyTimeout | scraping/fetchers.py:73 | `max(1, max_wait_ms // 1000)`: at least 1 and the whole seconds of the wait |
| Fetchers.BrowserFetcher.BodyTimeout | scraping/fetchers.py:79 | `min(5, max(1, max_wait_ms // 1000))`: between 1 and 5, never longer than the readiness wait, and either 5 or the readiness wait |
| Fetchers.BrowserFetcher.EnsureDriver | scraping/fetchers.py:57-59 | builds a driver only when none is held, and keeps a held one |
| Fetchers.BrowserFetcher.FetchSync | scraping/fetchers.py:68-85 | the driver afterwards and the page follow `DriverAfter` and `SyncFetch` |
| Fetchers.BrowserFetcher.Close | scraping/fetchers.py:61-66 | no driver is held afterwards, even when quitting raises, and the raise escapes |
| Runner.RobotsAddress | scraping/runner.py:15-17 | the robots.txt address of the url's origin; raises exactly when the url cannot be split |
| Runner.RobotsPhase | scraping/runner.py:13-21 | no check without `respect_robots`; denied exactly on the parser's explicit "no"; a split failure logs exactly "robots.txt check failed: " and the split's error, and goes on |
| Runner.HttpPhase | scraping/runner.py:24-31 | a 200 answer with a non-empty body is served exactly with the processed items when processing succeeds, and nothing else is served; a fetch or processing raise logs exactly "http fetch error: " and its message; any other answer passes on silently |
| Runner.Logging | scraping/runner.py:31 | a logged error starts with its stage's prefix |
| Runner.BrowserPhase | scraping/runner.py:33-43 | with the browser off, no items and the errors so far; a failed launch or load, or a processing raise, gives no items and exactly one "browser fetch error: " with its message after the errors so far; a loaded page that processes gives its items; a launched session whose quit fails escapes with that exception |
| Runner.Processed | scraping/runner.py:27-28 | a fetched page through the adapters, then the parser |
| Runner.Process | scraping/runner.py:27-28 | adapters then parser compute `Processed` |
| Runner.Scrape | scraping/runner.py:9-45 | `scrape_url` as a value: the robots.txt gate, the HTTP stage, then the browser stage |
| Runner.ScrapeUrl | scraping/runner.py:9-45 | the stage-by-stage run computes the specification `Scrape` |
| Runner.DeniedIsFinal | scraping/runner.py:18-19 | a robots.txt denial gives exactly no items and one "Blocked by robots.txt" error, whatever the fetchers would do |
| Runner.RobotsIgnoredWhenNotRespected | scraping/runner.py:13 | without `respect_robots` the robots responses and verdicts play no part |
| Runner.RankPrefix | scraping/runner.py:21-41 | each stage prefix identifies its stage |
| Runner.LogOrdered | scraping/runner.py:10-45 | a log of at most one robots, one HTTP and one browser message, in that order, is stage-ordered |
| Runner.ErrorsInPhaseOrder | scraping/runner.py:10-45 | the error log is the denial alone, or at most one entry per stage in the order robots, http, browser |
| Runner.EscapesOnlyOnQuitFailure | scraping/runner.py:33-43 | `scrape_url` raises exactly when the browser stage ran, a driver was launched and quitting it failed, with that exception |
| Runner.BrowserOffIgnoresBrowser | scraping/runner.py:33-45 | with `use_browser` off or `DISABLE_BROWSER` set, the browser plays no part, nothing escapes, and an unserved run ends with no items |
| Runner.HttpSuccess | scraping/runner.py:25-29 | when the attempt the fetcher settles on (the first whose status is not retried, after any retried statuses and raises) answers 200 with a page that processes, the run returns its items, even none, with the robots errors only |
| Runner.CreatedFallsThrough | scraping/runner.py:25-33 | when the attempt the fetcher settles on answers 201, the page is not parsed and the run goes to the browser stage without logging |
| Runner.BrowserServes | scraping/runner.py:33-43 | after an unserved HTTP stage, a session that launches, loads a page that processes and quits cleanly ends the run with the page's items and the errors logged so far |
| Runner.BrowserLoadFailureLogged | scraping/runner.py:33-43 | after an unserved HTTP stage, a session whose page load raises, and which quits cleanly, ends the run with no items and one "browser fetch error: " entry carrying the load's exception |
| Runner.AllRetriedLogsNoException | scraping/runner.py:23-31 | three retried statuses with no exception log "http fetch error: Fetch failed without exception" |

## Left out

- `RateLimiter` (scraping/utils.py:8-17) is not modelled: it depends on the monotonic clock, float intervals and `asyncio.sleep`, and nothing in the core calls it.
- The network and the browser are inputs:
  - the httpx clients (HTTP/2, timeouts, the `async with` blocks);
  - Selenium and undetected_chromedriver: `_build_driver`'s options, `get`, `page_source` and `WebDriverWait`.
- The HTTP client and the Chrome driver can raise while they are being set up. The model only has exceptions from the GET attempts, the launch, the page load and quit.
- `fake_useragent`, `random.choice` and `random.randint` are parameters of the model, each with its stated range.
- Headers and proxy settings are modelled as separate functions. They are not threaded into the modelled fetch.
- `os.getenv` is a map. asyncio scheduling is dropped.
- The foreign libraries are given total functions in `Parsers.Libraries`, and their own behaviour is not modelled:
  - extruct with w3lib `get_base_url`;
  - BeautifulSoup `get_text` and `title`;
  - `html.unescape` composed with NFKC normalisation;
  - `float()` on strings and `str()` on values;
  - the `finditer` results of the e-mail and phone regexes.
- `urlsplit`/`urlparse` is a given function that may raise (for a malformed IPv6 host, say). The runner and the adapters use the same one, since both take the network location.
- Text.Lower: only ASCII letters are lower-cased, and `IsDigit` counts only ASCII digits. Python's `lower()` and `\d` also cover other Unicode letters and digits.
- Utils.JitterCap: `int(ms * 0.3)` is taken as the exact floor of 3·ms/10, without the float product's rounding.
- Utils.BackoffDelay: the delay is in integer milliseconds; the source returns seconds (ms/1000 as a float).
- Fetchers.HttpFetcher.Fetch: the settle pause `max_wait_ms / 1000.0` seconds is recorded as `max_wait_ms` milliseconds.
- Parsers.PyFloat: `float()` of an int whose magnitude is below the overflow bound is taken as the exact integer, not the nearest double.
- Float values are mathematical reals. NaN and infinities are not modelled: `float()` may return them, and `float("nan")` would make `rating` present.
- `data_quality` is a natural number. The source stores the same integer as a float.
- `source_url` and `scraped_at` are added to records by the web application, outside the scraping package. The FastAPI app, exports and `models.py` are not part of this model.
- The two driver waits in `fetch_sync` swallow every exception, so only their durations (`ReadyTimeout`, `BodyTimeout`) are modelled, not the waiting.
- SiteAdapters.ApplyAdapters: both `pre_process` methods return the page unchanged, so which adapter won cannot be observed in the result. The loop still tries the adapters in registry order and stops at the first that applies.
