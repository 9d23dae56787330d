/** Site adapters: per-site rewrites of a page's HTML before parsing, picked
    by the host of the page's url. */
module SiteAdapters {
  import opened Json
  import opened Text

  /** The scheme and network location `urlsplit` finds in a url. */
  datatype UrlParts = UrlParts(scheme: string, netloc: string)

  /** An adapter and the host fragments it claims. */
  datatype Adapter = Adapter(name: string, domains: seq<string>)

  const BaseAdapter := Adapter("BaseAdapter", [])
  const TripAdvisorAdapter := Adapter("TripAdvisorAdapter", ["tripadvisor."])

  /** The registered adapters, in the order they are tried. */
  const Registry: seq<Adapter> := [TripAdvisorAdapter]

  function AnyDomain(domains: seq<string>, host: string): (b: bool)
    ensures b <==> exists k | 0 <= k < |domains| :: Contains(host, domains[k])
  {
    if domains == [] then false
    else if Contains(host, domains[0]) then true
    else
      var b := AnyDomain(domains[1..], host);
      assert forall k | 1 <= k < |domains| :: domains[k] == domains[1..][k - 1];
      b
  }

  /** `applies`: some claimed fragment occurs in the lower-cased host; it
      raises when `urlsplit` rejects the url. */
  function Applies(a: Adapter, url: string, urlsplit: string -> Result<UrlParts>): (r: Result<bool>)
    ensures r.Err? <==> urlsplit(url).Err?
    ensures r.Ok? ==>
      (r.value <==> exists k | 0 <= k < |a.domains| :: Contains(Lower(urlsplit(url).value.netloc), a.domains[k]))
  {
    var parts :- urlsplit(url);
    Ok(AnyDomain(a.domains, Lower(parts.netloc)))
  }

  /** `pre_process`: both adapters hand the HTML back unchanged. */
  function PreProcess(a: Adapter, html: string): string {
    html
  }

  /** The HTML after the first applicable adapter of `adapters`, if any, has
      rewritten it. */
  function Adapted(adapters: seq<Adapter>, url: string, html: string,
                   urlsplit: string -> Result<UrlParts>): Result<string>
    decreases |adapters|
  {
    if adapters == [] then Ok(html)
    else
      var applies :- Applies(adapters[0], url, urlsplit);
      if applies then Ok(PreProcess(adapters[0], html)) else Adapted(adapters[1..], url, html, urlsplit)
  }

  /** `apply_adapters`: try the registered adapters in order and let the first
      that applies pre-process the page. */
  method ApplyAdapters(url: string, html: string, urlsplit: string -> Result<UrlParts>)
    returns (r: Result<string>)
    ensures r == Adapted(Registry, url, html, urlsplit)
  {
    for i := 0 to |Registry|
      invariant Adapted(Registry, url, html, urlsplit) == Adapted(Registry[i..], url, html, urlsplit)
    {
      assert Registry[i..][1..] == Registry[i + 1..];
      var applies :- Applies(Registry[i], url, urlsplit);
      if applies {
        return Ok(PreProcess(Registry[i], html));
      }
    }
    assert Registry[|Registry|..] == [];
    return Ok(html);
  }

  /** Since no adapter rewrites anything, the adapters leave every page as it
      is; with at least one adapter registered, a url that `urlsplit` rejects
      makes the step raise. */
  lemma {:induction false} AdaptedKeepsHtml(adapters: seq<Adapter>, url: string, html: string,
                                            urlsplit: string -> Result<UrlParts>)
    ensures Adapted(adapters, url, html, urlsplit)
      == if adapters != [] && urlsplit(url).Err? then Err(urlsplit(url).error) else Ok(html)
    decreases |adapters|
  {
    if adapters != [] {
      AdaptedKeepsHtml(adapters[1..], url, html, urlsplit);
    }
  }

  /** The base adapter claims no host. */
  lemma BaseNeverApplies(url: string, urlsplit: string -> Result<UrlParts>)
    ensures Applies(BaseAdapter, url, urlsplit).Ok? ==> !Applies(BaseAdapter, url, urlsplit).value
  {
  }

  /** The TripAdvisor adapter claims its hosts whatever their letter case. */
  lemma TripAdvisorHostExample(url: string, urlsplit: string -> Result<UrlParts>)
    requires urlsplit(url) == Ok(UrlParts("https", "www.TripAdvisor.it"))
    ensures Applies(TripAdvisorAdapter, url, urlsplit) == Ok(true)
  {
    var host := Lower("www.TripAdvisor.it");
    assert host[4..16] == "tripadvisor.";
    ContainsAt(host, "tripadvisor.", 4);
  }
}
