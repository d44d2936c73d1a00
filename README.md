# udon-mcp: a verified model of the VRChat documentation resolver and tool requests

`udon_mcp.py` is an MCP server that exposes four tools for fetching VRChat
and UdonSharp documentation through a Firecrawl backend:
`udonsharp_scrape_page`, `udonsharp_crawl_site`, `udonsharp_extract_data`
and `vrchat_json_docs`. Before any backend call, each tool passes its target
through `_ensure_vrchat_url`. An input starting with `http://` or
`https://` is returned unchanged if its text starts with one of three
documentation origins, and otherwise raises `ValueError`. Any other input is
a path: it is placed under `base_domain or DOC_DOMAIN`, and that domain is
not checked against the three origins.

This project models, in Dafny:

- `resolver.dfy` (module `Resolver`): the three `SUPPORTED_DOMAINS`,
  `DOC_DOMAIN`, Python's `str.startswith` and `str.join`, the
  `any(...)` domain test, and `_ensure_vrchat_url` itself as `Resolve`.
  Lemmas state its behaviour on absolute URLs, plain `http://` URLs,
  look-alike hosts and paths. They also state idempotence and that
  `base_domain` is never checked.
- `tools.dfy` (module `Tools`): the request each tool sends to the backend.
  This covers which input string is resolved (Python `or` semantics), the
  `formats or ["markdown"]` default, and the choice between the blocking
  and the asynchronous crawl. For `udonsharp_extract_data` it also covers
  the ordered target list and the in-place addition of `"sources"` to the
  backend's answer in `ExtractData`. The source's two append loops have the
  same shape, so `AppendResolved` is that loop once, and `BuildTargets` runs
  it on the urls and then, continuing the same list, on the paths.
- `wrappers.dfy` (module `Wrappers`): `Option`, `Result` and the raised
  `ValueError`. It also has `OrElse`/`OrEmpty`, which model Python's
  `x or fallback` on an optional `str` or `list`: `None` and an empty
  value both count as absent.

A tool's request is a `Request` value: `ScrapeUrl`, `CrawlUrl`,
`AsyncCrawlUrl` or `ExtractUrls`, holding the arguments the tool passes to
the Firecrawl client. Scrape and crawl tools return the backend's answer
unchanged, so they are modelled as functions from their arguments to
`Result<Request>`. `ExtractData` gets the backend's `extract` call as a
function parameter. It returns the call it made (`None` when a `ValueError`
came first) and the answer, with `"sources"` attached when `show_sources` is
set. Each tool's Python keyword defaults (`start_path="/"`, `max_depth=3`,
`limit=50`, `ignore_sitemap=False`, `wait=True`, `poll_interval_sec=2.0`,
`only_main_content=True`, `show_sources=False`, `None` for the optional
arguments) are the Dafny parameters' default values.

Three behaviours of the code worth knowing:

- `base_domain` is not checked against the allow list, so `scrape_page`
  can build a URL outside the three domains (`Resolver.BaseDomainUnchecked`).
- `crawl_site` has no local timeout. `max_wait_sec` and `delay` are
  accepted but never used, and polling happens inside the client.
- `extract_data` never forwards `formats`, `only_main_content`,
  `ignore_sitemap` or `include_subdomains`.

## Model

| member | source | states |
|---|---|---|
| `Wrappers.OrElse` | udon_mcp.py:42 | `x or fallback`, here and at every other such use in the tools (udon_mcp.py lines 62, 69, 115, 198 and 206): a non-empty value is kept; `None` or an empty value gives the fallback |
| `Wrappers.OrEmpty` | udon_mcp.py:166-168 | `x or []`: a present list is kept (even if empty), `None` gives `[]` |
| `Resolver.MatchesAny` | udon_mcp.py:37 | `any(url.startswith(d) for d in domains)` holds iff the URL's text begins with some domain of the list |
| `Resolver.Resolve` | udon_mcp.py:32-44 | an `http://`/`https://` input resolves iff it begins with a supported domain, and then to itself, whatever the base domain; the only error is `ValueError` with the fixed message; any other input resolves to the effective domain, one `/`, and the path without its leading `/` |
| `Resolver.DomainsAreHttps` | udon_mcp.py:18-22 | every supported domain begins with `https://` |
| `Resolver.UnsupportedMessageText` | udon_mcp.py:38 | the rejection message is `URL must start with one of: ` followed by the three domains joined by `, ` in list order |
| `Resolver.ResolvedStaysInAllowList` | udon_mcp.py:34-44 | whenever it succeeds, resolving under a supported (or the default) domain gives an absolute URL that begins with a supported domain |
| `Resolver.ResolveIdempotent` | udon_mcp.py:34-44 | if the first resolution is under a supported domain or the default, resolving its result again, under any base domain, gives the same result |
| `Resolver.PlainHttpRejected` | udon_mcp.py:34-38 | every `http://` input is rejected with the fixed message |
| `Resolver.LookalikeHostAccepted` | udon_mcp.py:37 | acceptance is text-prefix only: `https://docs.vrchat.com.evil/x` is accepted unchanged |
| `Resolver.ForeignHostRejected` | udon_mcp.py:34-38 | `https://evil.example.com/x` is rejected with the fixed message |
| `Resolver.BaseDomainUnchecked` | udon_mcp.py:42-43 | a path under base domain `https://evil.example` resolves to `https://evil.example/x`, a URL no supported domain prefixes |
| `Tools.MakeScrapeOptions` | udon_mcp.py:68-71 | formats are never empty: given non-empty formats pass through, absent or empty ones become `["markdown"]`; the main-content flag passes through |
| `Tools.ScrapeInput` | udon_mcp.py:62 | `url` if non-empty, else `path` if non-empty, else `/` |
| `Tools.ScrapePage` | udon_mcp.py:46-76 | fails iff the selected input does not resolve (with the resolver's `ValueError`); otherwise one scrape request for the resolved URL with the defaulted options |
| `Tools.ScrapeGettingStarted` | udon_mcp.py:46-76 | called with only `path="/getting-started/"`, the keyword defaults scrape `https://udonsharp.docs.vrchat.com/getting-started/` with formats `["markdown"]`, main content only |
| `Tools.ScrapeDefaultsToRoot` | udon_mcp.py:62 | with `url` and `path` absent or empty, the effective domain followed by `/` is scraped |
| `Tools.ScrapeForeignUrlRejected` | udon_mcp.py:62 | a foreign `url` is rejected whatever `path` is, since `url` takes precedence |
| `Tools.CrawlSite` | udon_mcp.py:81-142 | start path resolved under the default domain; `wait` selects the blocking crawl (which alone gets the poll interval) over the asynchronous one; include/exclude lists default to `[]`; `max_depth`, `limit` and `ignore_sitemap` are forwarded unchanged on both branches; options defaulted |
| `Tools.CrawlDefaults` | udon_mcp.py:81-142 | called with no arguments, the tool makes a blocking crawl of `https://udonsharp.docs.vrchat.com/` with no include or exclude paths, depth 3, limit 50, the sitemap used, `["markdown"]` main content only, polled every 2.0 seconds |
| `Tools.CrawlStaysInAllowList` | udon_mcp.py:108 | every crawl starts at a URL beginning with a supported domain |
| `Tools.VrchatJsonDocs` | udon_mcp.py:188-213 | `path or "/worlds/udon/data-containers/vrcjson"` resolved under `https://creators.vrchat.com`; one scrape request or the resolver's `ValueError` |
| `Tools.VrchatJsonDocsDefault` | udon_mcp.py:198-199 | with no path, or an empty one, the page is `https://creators.vrchat.com/worlds/udon/data-containers/vrcjson` |
| `Tools.VrchatJsonDocsStaysInAllowList` | udon_mcp.py:199 | every page it fetches begins with a supported domain |
| `Tools.ResolveEachMeaning` | udon_mcp.py:166-169 | resolving a list succeeds iff every entry resolves, giving the resolved entries in order and of equal length; otherwise the resolver's error |
| `Tools.ResolveEachAppend` | udon_mcp.py:165-169 | resolving `a + b` is resolving `a` then `b` and concatenating, the first error winning |
| `Tools.ExtractTargetsMeaning` | udon_mcp.py:165-171 | targets are the resolved urls then the resolved paths, of length `|urls| + |paths|`; an unsupported entry gives the resolver's error; `Provide at least one url or path` is raised iff both lists are empty |
| `Tools.AppendResolved` | udon_mcp.py:166-169 | one append loop: starting from the resolved prefix, appending each resolved entry in order gives exactly the resolution of prefix and entries together, the first rejected entry raising the resolver's error |
| `Tools.BuildTargets` | udon_mcp.py:165-171 | the loop over `urls or []`, the loop over `paths or []` and the emptiness check compute exactly `ExtractTargets` of the two lists |
| `Tools.SourcesValue` | udon_mcp.py:183 | the `"sources"` value is a JSON list holding the targets as strings, in order |
| `Tools.ExtractData` | udon_mcp.py:147-184 | on a `ValueError` no backend call is made; otherwise exactly one extract call with the targets, prompt and schema; with `show_sources` the answer gains exactly the key `"sources"` holding the targets, every other key unchanged; without it the answer is returned as is |

## Left out

- The Firecrawl calls `scrape_url`, `crawl_url`, `async_crawl_url` and `extract` are foreign network calls. The scrape and crawl tools are modelled up to the request they send. `ExtractData` takes `extract` as an uninterpreted function.
- `ExtractData` assumes the extract call answers with a dictionary. A different answer, where `result["sources"] = targets` would raise, is not modelled.
- The `RuntimeError` wrapping of backend exceptions is left out because backend failures are not modelled. The resolver's and the no-targets `ValueError` are raised before the `try` blocks and are never wrapped, as in the model.
- Crawl polling and timeouts happen inside the Firecrawl client. `max_wait_sec` and `delay` are accepted by `udonsharp_crawl_site` but never used, so `CrawlSite` does not take them. `poll_interval_sec` is forwarded unchanged as a `real`.
- `udonsharp_extract_data` accepts `ignore_sitemap`, `include_subdomains`, `formats` and `only_main_content` but never forwards them, so `ExtractData` does not take them.
- `_get_firecrawl_app` and the `FIRECRAWL_API_URL`/`FIRECRAWL_API_KEY` settings are process configuration: they read the environment, call `sys.exit` and construct the client.
- FastMCP tool registration and `app.run()` over stdio are protocol transport.
- Inputs of the wrong Python type, such as `start_path=None`, which would raise `AttributeError` in `str.startswith`, are excluded by the Dafny types.
