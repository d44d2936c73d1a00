/** The domain-scoped URL resolver `_ensure_vrchat_url` and the fixed list of
    VRChat documentation origins it accepts. Acceptance is a plain text-prefix
    test, exactly like Python's `str.startswith`, not URL parsing. */
module Resolver {
  import opened Wrappers

  /** `SUPPORTED_DOMAINS`, in list order. */
  const SupportedDomains: seq<string> :=
    ["https://udonsharp.docs.vrchat.com", "https://creators.vrchat.com", "https://docs.vrchat.com"]

  /** `DOC_DOMAIN`, the origin a path resolves under when no base domain is given. */
  const DocDomain: string := "https://udonsharp.docs.vrchat.com"

  /** The text of the `ValueError` raised for an unsupported absolute URL. */
  const UnsupportedMessage: string := "URL must start with one of: " + Join(", ", SupportedDomains)

  /** Python's `s.startswith(prefix)`. */
  predicate StartsWith(s: string, prefix: string) {
    |prefix| <= |s| && s[..|prefix|] == prefix
  }

  /** Python's `sep.join(parts)`. */
  function Join(sep: string, parts: seq<string>): string {
    if |parts| == 0 then ""
    else if |parts| == 1 then parts[0]
    else parts[0] + sep + Join(sep, parts[1..])
  }

  /** The input is taken as an absolute URL rather than a path. */
  predicate IsAbsolute(s: string) {
    StartsWith(s, "http://") || StartsWith(s, "https://")
  }

  /** The text of `url` begins with the text of some supported domain. */
  predicate IsSupported(url: string) {
    exists i :: 0 <= i < |SupportedDomains| && StartsWith(url, SupportedDomains[i])
  }

  /** `any(url.startswith(domain) for domain in domains)`, scanning the list in order. */
  function MatchesAny(url: string, domains: seq<string>): (r: bool)
    ensures r <==> exists i :: 0 <= i < |domains| && StartsWith(url, domains[i])
  {
    if domains == [] then false
    else StartsWith(url, domains[0]) || MatchesAny(url, domains[1..])
  }

  /** `base_domain or DOC_DOMAIN`: an absent or empty base domain falls back to the default. */
  function EffectiveDomain(baseDomain: Option<string>): string {
    OrElse(baseDomain, DocDomain)
  }

  /** A path with at most one leading `/` taken off. */
  function WithoutLeadingSlash(p: string): string {
    if StartsWith(p, "/") then p[1..] else p
  }

  /** `_ensure_vrchat_url(url_or_path, base_domain)`.
      An absolute input is returned unchanged when it begins with a supported
      domain and rejected otherwise, whatever the base domain; any other input is
      a path placed under the effective domain with exactly one `/` between them
      (the path's own leading `/` if it has one). The base domain is not checked
      against the supported list. */
  function Resolve(input: string, baseDomain: Option<string>): (r: Result<string>)
    ensures IsAbsolute(input) ==> (r.Ok? <==> IsSupported(input))
    ensures IsAbsolute(input) && r.Ok? ==> r.value == input
    ensures r.Err? ==> r.error == ValueError(UnsupportedMessage)
    ensures !IsAbsolute(input) ==>
              r == Ok(EffectiveDomain(baseDomain) + "/" + WithoutLeadingSlash(input))
  {
    if StartsWith(input, "http://") || StartsWith(input, "https://") then
      if !MatchesAny(input, SupportedDomains) then Err(ValueError(UnsupportedMessage))
      else Ok(input)
    else
      var domain := EffectiveDomain(baseDomain);
      var path := if StartsWith(input, "/") then input else "/" + input;
      assert path == "/" + WithoutLeadingSlash(input);
      assert domain + path == domain + "/" + WithoutLeadingSlash(input);
      Ok(domain + path)
  }

  /** A string that differs from `prefix` at some position of `prefix` does not start with it. */
  lemma DiffersAt(s: string, prefix: string, k: nat)
    requires k < |prefix| && (k >= |s| || s[k] != prefix[k])
    ensures !StartsWith(s, prefix)
  {
  }

  /** Every supported domain is an `https://` origin. */
  lemma DomainsAreHttps()
    ensures forall i :: 0 <= i < |SupportedDomains| ==> StartsWith(SupportedDomains[i], "https://")
  {
  }

  /** The rejection message lists the three domains joined by ", " in list order. */
  lemma UnsupportedMessageText()
    ensures UnsupportedMessage ==
      "URL must start with one of: " + "https://udonsharp.docs.vrchat.com" + ", "
      + "https://creators.vrchat.com" + ", " + "https://docs.vrchat.com"
  {
    var tail := SupportedDomains[1..];
    assert tail[1..] == ["https://docs.vrchat.com"];
    assert Join(", ", tail) == "https://creators.vrchat.com" + ", " + "https://docs.vrchat.com";
  }

  /** Resolving under a supported domain (or the default) yields an absolute URL
      that the resolver itself accepts. */
  lemma ResolvedStaysInAllowList(input: string, baseDomain: Option<string>)
    requires EffectiveDomain(baseDomain) in SupportedDomains
    requires Resolve(input, baseDomain).Ok?
    ensures IsAbsolute(Resolve(input, baseDomain).value)
    ensures IsSupported(Resolve(input, baseDomain).value)
  {
  }

  /** Resolving a resolved URL again, under any base domain, gives it back. */
  lemma ResolveIdempotent(input: string, baseDomain: Option<string>, again: Option<string>)
    requires EffectiveDomain(baseDomain) in SupportedDomains
    requires Resolve(input, baseDomain).Ok?
    ensures Resolve(Resolve(input, baseDomain).value, again) == Resolve(input, baseDomain)
  {
  }

  /** No `http://` URL is accepted, since every supported domain is `https://`. */
  lemma PlainHttpRejected(input: string, baseDomain: Option<string>)
    requires StartsWith(input, "http://")
    ensures Resolve(input, baseDomain) == Err(ValueError(UnsupportedMessage))
  {
    assert input[4] == ':';
    forall i | 0 <= i < |SupportedDomains|
      ensures !StartsWith(input, SupportedDomains[i])
    {
      DomainsAreHttps();
      assert SupportedDomains[i][..8] == "https://";
      assert SupportedDomains[i][4] == 's';
    }
  }

  /** Matching is on text only: a host that merely extends a supported one is accepted. */
  lemma LookalikeHostAccepted()
    ensures Resolve("https://docs.vrchat.com.evil/x", None) == Ok("https://docs.vrchat.com.evil/x")
  {
    assert StartsWith("https://docs.vrchat.com.evil/x", SupportedDomains[2]);
  }

  /** A host outside the list is rejected. */
  lemma ForeignHostRejected()
    ensures Resolve("https://evil.example.com/x", None) == Err(ValueError(UnsupportedMessage))
  {
    var u := "https://evil.example.com/x";
    assert StartsWith(u, "https://");
    forall i | 0 <= i < |SupportedDomains|
      ensures !StartsWith(u, SupportedDomains[i])
    {
      assert u[8] == 'e';
      assert SupportedDomains[i][8] != 'e';
    }
  }

  /** The base domain is used as given: a path resolved under a foreign base
      domain leaves the supported list. */
  lemma BaseDomainUnchecked()
    ensures Resolve("x", Some("https://evil.example")) == Ok("https://evil.example/x")
    ensures !IsSupported("https://evil.example/x")
  {
    var u := "https://evil.example/x";
    assert !StartsWith("x", "http://") && !StartsWith("x", "https://");
    assert "x"[..1] == "x";
    assert EffectiveDomain(Some("https://evil.example")) + "/" + "x" == u;
    forall i | 0 <= i < |SupportedDomains|
      ensures !StartsWith(u, SupportedDomains[i])
    {
      assert u[8] == 'e';
      assert SupportedDomains[i][8] != 'e';
    }
  }
}
