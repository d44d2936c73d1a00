/** The request-shaping half of the four MCP tools: which string each tool
    resolves, the scrape options it builds, the one backend request it issues,
    and, for `udonsharp_extract_data`, the ordered target list and the
    `"sources"` key it adds to the backend's answer. The Firecrawl backend is
    not modelled: a tool's result is the backend's answer to the request shown
    here, and `ExtractData` receives the backend's extract call as a function. */
module Tools {
  import opened Wrappers
  import opened Resolver

  /** A JSON value, as the backend takes and returns them. Nothing here looks inside one. */
  datatype Json =
    | Null
    | Bool(b: bool)
    | Number(n: real)
    | Str(s: string)
    | Array(items: seq<Json>)
    | Object(fields: map<string, Json>)

  /** The formats used when a tool is given none. */
  const DefaultFormats: seq<string> := ["markdown"]

  /** The base domain `vrchat_json_docs` resolves under. */
  const CreatorsDomain: string := "https://creators.vrchat.com"

  /** The page `vrchat_json_docs` fetches when given no path. */
  const VrcJsonPath: string := "/worlds/udon/data-containers/vrcjson"

  /** The text of the `ValueError` raised by `udonsharp_extract_data` with nothing to extract. */
  const NoTargetsMessage: string := "Provide at least one url or path"

  /** Firecrawl's `ScrapeOptions(formats=..., onlyMainContent=...)`. */
  datatype ScrapeOptions = ScrapeOptions(formats: seq<string>, onlyMainContent: bool)

  /** The one call a tool makes on the Firecrawl client, with the arguments it passes. */
  datatype Request =
    | ScrapeUrl(url: string, options: ScrapeOptions)
    | CrawlUrl(url: string, includePaths: seq<string>, excludePaths: seq<string>, maxDepth: int,
               limit: int, ignoreSitemap: bool, options: ScrapeOptions, pollInterval: real)
    | AsyncCrawlUrl(url: string, includePaths: seq<string>, excludePaths: seq<string>, maxDepth: int,
                    limit: int, ignoreSitemap: bool, options: ScrapeOptions)
    | ExtractUrls(urls: seq<string>, prompt: Option<string>, schema: Option<map<string, Json>>)

  /** `ScrapeOptions(formats=formats or ["markdown"], onlyMainContent=only_main_content)`. */
  function MakeScrapeOptions(formats: Option<seq<string>>, onlyMainContent: bool): (o: ScrapeOptions)
    ensures o.formats != []
    ensures formats.Some? && formats.value != [] ==> o.formats == formats.value
    ensures formats.None? || formats.value == [] ==> o.formats == ["markdown"]
    ensures o.onlyMainContent == onlyMainContent
  {
    ScrapeOptions(OrElse(formats, DefaultFormats), onlyMainContent)
  }

  /** `url or path or "/"`: the string `udonsharp_scrape_page` resolves. */
  function ScrapeInput(path: Option<string>, url: Option<string>): (s: string)
    ensures url.Some? && url.value != [] ==> s == url.value
    ensures (url.None? || url.value == []) && path.Some? && path.value != [] ==> s == path.value
    ensures (url.None? || url.value == []) && (path.None? || path.value == []) ==> s == "/"
  {
    OrElse(url, OrElse(path, "/"))
  }

  /** `udonsharp_scrape_page`: the scrape request for the selected input, or the
      resolver's `ValueError`, raised before any backend call. */
  function ScrapePage(path: Option<string> := None, url: Option<string> := None,
                      formats: Option<seq<string>> := None, onlyMainContent: bool := true,
                      baseDomain: Option<string> := None): (r: Result<Request>)
    ensures r.Ok? <==> Resolve(ScrapeInput(path, url), baseDomain).Ok?
    ensures r.Err? ==> r.error == ValueError(UnsupportedMessage)
    ensures r.Ok? ==> r.value.ScrapeUrl? && r.value.url == Resolve(ScrapeInput(path, url), baseDomain).value
    ensures r.Ok? ==> r.value.options == MakeScrapeOptions(formats, onlyMainContent)
  {
    match Resolve(ScrapeInput(path, url), baseDomain)
    case Err(e) => Err(e)
    case Ok(target) => Ok(ScrapeUrl(target, MakeScrapeOptions(formats, onlyMainContent)))
  }

  /** A path with no base domain goes under the default domain, with the default options. */
  lemma ScrapeGettingStarted()
    ensures ScrapePage(path := Some("/getting-started/"))
         == Ok(ScrapeUrl("https://udonsharp.docs.vrchat.com/getting-started/", ScrapeOptions(["markdown"], true)))
  {
    var p := "/getting-started/";
    assert p[..1] == "/";
    DiffersAt(p, "http://", 0);
    DiffersAt(p, "https://", 0);
    assert "https://udonsharp.docs.vrchat.com" + "/" + p[1..] == "https://udonsharp.docs.vrchat.com/getting-started/";
  }

  /** With neither `url` nor `path` (absent or empty), the root of the effective domain is scraped. */
  lemma ScrapeDefaultsToRoot(path: Option<string>, url: Option<string>, formats: Option<seq<string>>,
                             onlyMainContent: bool, baseDomain: Option<string>)
    requires url.None? || url.value == []
    requires path.None? || path.value == []
    ensures ScrapePage(path, url, formats, onlyMainContent, baseDomain)
         == Ok(ScrapeUrl(EffectiveDomain(baseDomain) + "/", MakeScrapeOptions(formats, onlyMainContent)))
  {
  }

  /** `url` wins over `path`: a foreign `url` is rejected whatever `path` says. */
  lemma ScrapeForeignUrlRejected(path: Option<string>, formats: Option<seq<string>>,
                                 onlyMainContent: bool, baseDomain: Option<string>)
    ensures ScrapePage(path, Some("https://evil.example.com/x"), formats, onlyMainContent, baseDomain)
         == Err(ValueError(UnsupportedMessage))
  {
    ForeignHostRejected();
  }

  /** `udonsharp_crawl_site`: the start path is resolved under the default
      domain (no base domain is accepted); `wait` chooses the blocking crawl,
      which also gets the poll interval, over the asynchronous one. */
  function CrawlSite(startPath: string := "/", includePaths: Option<seq<string>> := None,
                     excludePaths: Option<seq<string>> := None, maxDepth: int := 3, limit: int := 50,
                     ignoreSitemap: bool := false, formats: Option<seq<string>> := None,
                     onlyMainContent: bool := true, wait: bool := true, pollIntervalSec: real := 2.0)
    : (r: Result<Request>)
    ensures r.Ok? <==> Resolve(startPath, None).Ok?
    ensures r.Err? ==> r.error == ValueError(UnsupportedMessage)
    ensures r.Ok? ==> (r.value.CrawlUrl? <==> wait) && (r.value.AsyncCrawlUrl? <==> !wait)
    ensures r.Ok? ==> r.value.url == Resolve(startPath, None).value
    ensures r.Ok? ==> r.value.includePaths == OrEmpty(includePaths) && r.value.excludePaths == OrEmpty(excludePaths)
    ensures r.Ok? ==> r.value.options == MakeScrapeOptions(formats, onlyMainContent)
    ensures r.Ok? ==> r.value.maxDepth == maxDepth && r.value.limit == limit && r.value.ignoreSitemap == ignoreSitemap
    ensures r.Ok? && wait ==> r.value.pollInterval == pollIntervalSec
  {
    match Resolve(startPath, None)
    case Err(e) => Err(e)
    case Ok(start) =>
      var options := MakeScrapeOptions(formats, onlyMainContent);
      if wait then
        Ok(CrawlUrl(start, OrEmpty(includePaths), OrEmpty(excludePaths), maxDepth, limit,
                    ignoreSitemap, options, pollIntervalSec))
      else
        Ok(AsyncCrawlUrl(start, OrEmpty(includePaths), OrEmpty(excludePaths), maxDepth, limit,
                         ignoreSitemap, options))
  }

  /** Called with no arguments, the tool crawls from the default domain's root
      with its keyword defaults: depth 3, at most 50 pages, the sitemap used,
      markdown of the main content, and a blocking crawl polled every 2 seconds. */
  lemma CrawlDefaults()
    ensures CrawlSite() == Ok(CrawlUrl("https://udonsharp.docs.vrchat.com/", [], [], 3, 50, false,
                                       ScrapeOptions(["markdown"], true), 2.0))
  {
    DiffersAt("/", "http://", 0);
    DiffersAt("/", "https://", 0);
    assert WithoutLeadingSlash("/") == [];
    assert Resolve("/", None) == Ok("https://udonsharp.docs.vrchat.com" + "/" + []);
    assert MakeScrapeOptions(None, true) == ScrapeOptions(["markdown"], true);
    assert "https://udonsharp.docs.vrchat.com" + "/" + [] == "https://udonsharp.docs.vrchat.com/";
  }

  /** Every crawl starts inside the supported domains. */
  lemma CrawlStaysInAllowList(startPath: string, includePaths: Option<seq<string>>,
                              excludePaths: Option<seq<string>>, maxDepth: int, limit: int,
                              ignoreSitemap: bool, formats: Option<seq<string>>,
                              onlyMainContent: bool, wait: bool, pollIntervalSec: real)
    requires CrawlSite(startPath, includePaths, excludePaths, maxDepth, limit, ignoreSitemap,
                       formats, onlyMainContent, wait, pollIntervalSec).Ok?
    ensures IsSupported(CrawlSite(startPath, includePaths, excludePaths, maxDepth, limit, ignoreSitemap,
                                  formats, onlyMainContent, wait, pollIntervalSec).value.url)
  {
    assert EffectiveDomain(None) == SupportedDomains[0];
    ResolvedStaysInAllowList(startPath, None);
  }

  /** `vrchat_json_docs`: `path or "/worlds/udon/data-containers/vrcjson"`,
      resolved under `https://creators.vrchat.com`. */
  function VrchatJsonDocs(path: Option<string> := None, formats: Option<seq<string>> := None,
                          onlyMainContent: bool := true): (r: Result<Request>)
    ensures r.Ok? <==> Resolve(OrElse(path, VrcJsonPath), Some(CreatorsDomain)).Ok?
    ensures r.Err? ==> r.error == ValueError(UnsupportedMessage)
    ensures r.Ok? ==> r.value.ScrapeUrl? && r.value.url == Resolve(OrElse(path, VrcJsonPath), Some(CreatorsDomain)).value
    ensures r.Ok? ==> r.value.options == MakeScrapeOptions(formats, onlyMainContent)
  {
    match Resolve(OrElse(path, VrcJsonPath), Some(CreatorsDomain))
    case Err(e) => Err(e)
    case Ok(target) => Ok(ScrapeUrl(target, MakeScrapeOptions(formats, onlyMainContent)))
  }

  /** With no path (absent or empty), the VRCJSON data-container page on the creators site. */
  lemma VrchatJsonDocsDefault(path: Option<string>, formats: Option<seq<string>>, onlyMainContent: bool)
    requires path.None? || path.value == []
    ensures VrchatJsonDocs(path, formats, onlyMainContent)
         == Ok(ScrapeUrl("https://creators.vrchat.com" + "/worlds/udon/data-containers/vrcjson",
                         MakeScrapeOptions(formats, onlyMainContent)))
  {
    assert VrcJsonPath[0] == '/';
    assert VrcJsonPath[..1] == [VrcJsonPath[0]];
    DiffersAt(VrcJsonPath, "http://", 0);
    DiffersAt(VrcJsonPath, "https://", 0);
    assert CreatorsDomain + "/" + VrcJsonPath[1..] == CreatorsDomain + VrcJsonPath;
  }

  /** Every page `vrchat_json_docs` fetches lies inside the supported domains. */
  lemma VrchatJsonDocsStaysInAllowList(path: Option<string>, formats: Option<seq<string>>, onlyMainContent: bool)
    requires VrchatJsonDocs(path, formats, onlyMainContent).Ok?
    ensures IsSupported(VrchatJsonDocs(path, formats, onlyMainContent).value.url)
  {
    assert EffectiveDomain(Some(CreatorsDomain)) == SupportedDomains[1];
    ResolvedStaysInAllowList(OrElse(path, VrcJsonPath), Some(CreatorsDomain));
  }

  /** A resolved URL as a one-element target list. */
  function Single(r: Result<string>): Result<seq<string>> {
    match r
    case Err(e) => Err(e)
    case Ok(u) => Ok([u])
  }

  /** Appending two target lists, the first error winning. */
  function Then(ra: Result<seq<string>>, rb: Result<seq<string>>): Result<seq<string>> {
    match ra
    case Err(e) => Err(e)
    case Ok(xs) =>
      (match rb
       case Err(e) => Err(e)
       case Ok(ys) => Ok(xs + ys))
  }

  lemma ThenAssociative(x: Result<seq<string>>, y: Result<seq<string>>, z: Result<seq<string>>)
    ensures Then(Then(x, y), z) == Then(x, Then(y, z))
  {
    if x.Ok? && y.Ok? && z.Ok? {
      assert (x.value + y.value) + z.value == x.value + (y.value + z.value);
    }
  }

  /** Each entry resolved under the default domain, in order, the first entry
      the resolver rejects aborting with its error (see `ResolveEachMeaning`). */
  function ResolveEach(xs: seq<string>): Result<seq<string>> {
    if xs == [] then Ok([])
    else Then(Single(Resolve(xs[0], None)), ResolveEach(xs[1..]))
  }

  /** The list resolves exactly when every entry does, entry by entry and in
      order; otherwise the error is the resolver's. */
  lemma {:induction false} ResolveEachMeaning(xs: seq<string>)
    ensures ResolveEach(xs).Ok? <==> forall i :: 0 <= i < |xs| ==> Resolve(xs[i], None).Ok?
    ensures ResolveEach(xs).Ok? ==> |ResolveEach(xs).value| == |xs|
    ensures ResolveEach(xs).Ok? ==>
              forall i :: 0 <= i < |xs| ==> ResolveEach(xs).value[i] == Resolve(xs[i], None).value
    ensures ResolveEach(xs).Err? ==> ResolveEach(xs).error == ValueError(UnsupportedMessage)
  {
    if xs != [] {
      ResolveEachMeaning(xs[1..]);
      assert forall i :: 1 <= i < |xs| ==> xs[i] == xs[1..][i - 1];
    }
  }

  /** Resolving a concatenation is resolving the first part, then the second. */
  lemma {:induction false} ResolveEachAppend(a: seq<string>, b: seq<string>)
    ensures ResolveEach(a + b) == Then(ResolveEach(a), ResolveEach(b))
  {
    if a == [] {
      assert a + b == b;
      if ResolveEach(b).Ok? {
        assert [] + ResolveEach(b).value == ResolveEach(b).value;
      }
    } else {
      assert (a + b)[0] == a[0];
      assert (a + b)[1..] == a[1..] + b;
      ResolveEachAppend(a[1..], b);
      ThenAssociative(Single(Resolve(a[0], None)), ResolveEach(a[1..]), ResolveEach(b));
    }
  }

  lemma ResolveEachSingle(x: string)
    ensures ResolveEach([x]) == Single(Resolve(x, None))
  {
    assert [x][1..] == [];
    if Resolve(x, None).Ok? {
      assert [Resolve(x, None).value] + [] == [Resolve(x, None).value];
    }
  }

  /** One more entry resolved after a prefix: the step of the append loops. */
  lemma ResolveEachStep(xs: seq<string>, x: string)
    ensures ResolveEach(xs + [x]) == Then(ResolveEach(xs), Single(Resolve(x, None)))
  {
    ResolveEachSingle(x);
    ResolveEachAppend(xs, [x]);
  }

  /** Once a prefix fails, whatever follows it keeps the prefix's error. */
  lemma ResolveEachAborts(xs: seq<string>, ys: seq<string>)
    requires ResolveEach(xs).Err?
    ensures ResolveEach(xs + ys) == ResolveEach(xs)
  {
    ResolveEachAppend(xs, ys);
  }

  /** The two messages a failed extract can carry are distinct. */
  lemma MessagesDiffer()
    ensures NoTargetsMessage != UnsupportedMessage
  {
  }

  /** The target list of `udonsharp_extract_data` (see `ExtractTargetsMeaning`). */
  function ExtractTargets(urls: seq<string>, paths: seq<string>): Result<seq<string>> {
    match ResolveEach(urls + paths)
    case Err(e) => Err(e)
    case Ok(targets) => if targets == [] then Err(ValueError(NoTargetsMessage)) else Ok(targets)
  }

  /** The targets are the resolved urls in order, then the resolved paths in
      order; any unsupported entry makes the resolver's error the result, and the
      no-targets error is raised exactly when both lists are empty. */
  lemma ExtractTargetsMeaning(urls: seq<string>, paths: seq<string>)
    ensures ExtractTargets(urls, paths).Ok? <==>
              urls + paths != [] && forall i :: 0 <= i < |urls + paths| ==> Resolve((urls + paths)[i], None).Ok?
    ensures ExtractTargets(urls, paths).Ok? ==> |ExtractTargets(urls, paths).value| == |urls| + |paths|
    ensures ExtractTargets(urls, paths).Ok? ==> forall i :: 0 <= i < |urls| ==>
              Resolve(urls[i], None).Ok? && ExtractTargets(urls, paths).value[i] == Resolve(urls[i], None).value
    ensures ExtractTargets(urls, paths).Ok? ==> forall j :: 0 <= j < |paths| ==>
              Resolve(paths[j], None).Ok? && ExtractTargets(urls, paths).value[|urls| + j] == Resolve(paths[j], None).value
    ensures ExtractTargets(urls, paths) == Err(ValueError(NoTargetsMessage)) <==> urls == [] && paths == []
    ensures ExtractTargets(urls, paths).Err? && (urls != [] || paths != []) ==>
              ExtractTargets(urls, paths).error == ValueError(UnsupportedMessage)
  {
    MessagesDiffer();
    ResolveEachMeaning(urls + paths);
    assert forall i :: 0 <= i < |urls| ==> (urls + paths)[i] == urls[i];
    assert forall j :: 0 <= j < |paths| ==> (urls + paths)[|urls| + j] == paths[j];
  }

  /** One `for` loop of `udonsharp_extract_data`: each entry of `xs`, in order,
      is resolved under the default domain and appended to `targets`, which
      already holds the resolved `done`; the first rejected entry raises. */
  method AppendResolved(targets: seq<string>, xs: seq<string>, ghost done: seq<string>)
    returns (r: Result<seq<string>>)
    requires ResolveEach(done) == Ok(targets)
    ensures r == ResolveEach(done + xs)
  {
    var acc := targets;
    assert done + xs[..0] == done;
    for i := 0 to |xs|
      invariant ResolveEach(done + xs[..i]) == Ok(acc)
    {
      var t := Resolve(xs[i], None);
      assert (done + xs[..i]) + [xs[i]] == done + xs[..i + 1];
      ResolveEachStep(done + xs[..i], xs[i]);
      if t.Err? {
        assert (done + xs[..i + 1]) + xs[i + 1..] == done + xs;
        ResolveEachAborts(done + xs[..i + 1], xs[i + 1..]);
        return Err(t.error);
      }
      acc := acc + [t.value];
    }
    assert xs[..|xs|] == xs;
    return Ok(acc);
  }

  /** The target list of `udonsharp_extract_data`: the loop over `urls or []`,
      then the loop over `paths or []`, then the emptiness check. */
  method BuildTargets(urls: Option<seq<string>>, paths: Option<seq<string>>) returns (r: Result<seq<string>>)
    ensures r == ExtractTargets(OrEmpty(urls), OrEmpty(paths))
  {
    var us, ps := OrEmpty(urls), OrEmpty(paths);
    assert [] + us == us;
    var fromUrls := AppendResolved([], us, []);
    if fromUrls.Err? {
      ResolveEachAborts(us, ps);
      return Err(fromUrls.error);
    }
    var targets := AppendResolved(fromUrls.value, ps, us);
    if targets.Err? {
      return Err(targets.error);
    }
    if targets.value == [] {
      return Err(ValueError(NoTargetsMessage));
    }
    return targets;
  }

  /** The value stored under `"sources"`: the targets as a JSON list of strings. */
  function SourcesValue(targets: seq<string>): (j: Json)
    ensures j.Array? && |j.items| == |targets|
    ensures forall i :: 0 <= i < |targets| ==> j.items[i] == Str(targets[i])
  {
    Array(seq(|targets|, i requires 0 <= i < |targets| => Str(targets[i])))
  }

  /** `udonsharp_extract_data`. `extract` stands for the backend's extract
      call, taken to answer with a dictionary. On a `ValueError` no backend
      call is made (`call == None`). Otherwise the one call carries the targets,
      the prompt and the schema, and with `showSources` the answer gains exactly
      the key `"sources"`, holding the targets; every other key is kept. */
  method ExtractData(extract: Request -> map<string, Json>, paths: Option<seq<string>> := None,
                     urls: Option<seq<string>> := None, schema: Option<map<string, Json>> := None,
                     prompt: Option<string> := None, showSources: bool := false)
    returns (call: Option<Request>, r: Result<map<string, Json>>)
    ensures ExtractTargets(OrEmpty(urls), OrEmpty(paths)).Err? ==>
              call == None && r == Err(ExtractTargets(OrEmpty(urls), OrEmpty(paths)).error)
    ensures ExtractTargets(OrEmpty(urls), OrEmpty(paths)).Ok? ==>
              call == Some(ExtractUrls(ExtractTargets(OrEmpty(urls), OrEmpty(paths)).value, prompt, schema)) && r.Ok?
    ensures call.Some? && !showSources ==> r == Ok(extract(call.value))
    ensures call.Some? && showSources ==>
              && r.Ok?
              && r.value.Keys == extract(call.value).Keys + {"sources"}
              && r.value["sources"] == SourcesValue(call.value.urls)
              && forall k :: k in extract(call.value) && k != "sources" ==> r.value[k] == extract(call.value)[k]
  {
    var targets := BuildTargets(urls, paths);
    if targets.Err? {
      return None, Err(targets.error);
    }
    var request := ExtractUrls(targets.value, prompt, schema);
    var result := extract(request);
    if showSources {
      result := result["sources" := SourcesValue(targets.value)];
    }
    return Some(request), Ok(result);
  }
}
