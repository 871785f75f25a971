/** URL helpers of the crawler (backend/scraper/utils.py): `normalize_url` and
    `is_internal_url`. A URL is the six components that `urlparse` returns
    (section 3 of RFC 3986); `urlparse` and `urlunparse` themselves are given
    functions, carried in a `UrlSyntax` value. */
module UrlUtils {
  import opened Common

  /** The result of `urlparse`: scheme, netloc, path, params, query, fragment. */
  datatype Url = Url(scheme: string, netloc: string, path: string, params: string,
                     query: string, fragment: string)

  /** The given library pair `urlparse` / `urlunparse`. */
  datatype UrlSyntax = UrlSyntax(parse: string -> Url, unparse: Url -> string)

  /** The components that `normalize_url` hands to `urlunparse`. */
  predicate IsNormalized(u: Url) {
    u.scheme != "" && u.netloc != "" && IsLower(u.scheme) && IsLower(u.netloc) && u.fragment == ""
  }

  /** The component part of `normalize_url`: lower-case scheme and netloc,
      reject a URL missing either, drop the fragment, keep the rest. */
  function NormalizeParts(p: Url): (r: Option<Url>)
    ensures r.None? <==> p.scheme == "" || p.netloc == ""
    ensures r.Some? ==> IsNormalized(r.value)
    ensures r.Some? ==> |r.value.scheme| == |p.scheme| && |r.value.netloc| == |p.netloc|
    ensures r.Some? ==> forall i :: 0 <= i < |p.netloc| ==> r.value.netloc[i] == LowerChar(p.netloc[i])
    ensures r.Some? ==> forall i :: 0 <= i < |p.scheme| ==> r.value.scheme[i] == LowerChar(p.scheme[i])
    ensures r.Some? ==> r.value.path == p.path && r.value.params == p.params && r.value.query == p.query
  {
    var scheme := Lower(p.scheme);
    var netloc := Lower(p.netloc);
    if scheme == "" || netloc == "" then None
    else Some(Url(scheme, netloc, p.path, p.params, p.query, ""))
  }

  /** `normalize_url(url)`: `None` for an empty input or when the parsed URL
      has no scheme or no netloc, else the reassembled normalised URL. */
  function NormalizeUrl(syn: UrlSyntax, url: string): (r: Option<string>)
    ensures url == "" ==> r.None?
    ensures url != "" ==> (r.None? <==> NormalizeParts(syn.parse(url)).None?)
    ensures r.Some? ==> r.value == syn.unparse(NormalizeParts(syn.parse(url)).value)
  {
    if url == "" then None
    else match NormalizeParts(syn.parse(url))
      case None => None
      case Some(p) => Some(syn.unparse(p))
  }

  /** Normalising normalised components changes nothing. */
  lemma NormalizePartsIdempotent(p: Url)
    requires NormalizeParts(p).Some?
    ensures NormalizeParts(NormalizeParts(p).value) == NormalizeParts(p)
  {
    var q := NormalizeParts(p).value;
    LowerOfLower(q.scheme);
    LowerOfLower(q.netloc);
  }

  /** What the model assumes of the given `urlparse`/`urlunparse` pair for the
      idempotence of `normalize_url`: the components it hands to `urlunparse`,
      which come from `urlparse` of a non-empty URL, reassemble into a
      non-empty string that parses back to them. (A netloc from `urlparse`
      holds no '/', '?' or '#', and its path under a netloc is empty or starts
      with '/', so no reassembly step changes them.) */
  ghost predicate ReparsesNormalized(syn: UrlSyntax) {
    forall url :: url != "" && NormalizeParts(syn.parse(url)).Some? ==>
      var p := NormalizeParts(syn.parse(url)).value;
      syn.unparse(p) != "" && syn.parse(syn.unparse(p)) == p
  }

  /** `normalize_url` standardises: applied to its own output it returns that
      output unchanged. */
  lemma NormalizeUrlIdempotent(syn: UrlSyntax, url: string)
    requires ReparsesNormalized(syn)
    requires NormalizeUrl(syn, url).Some?
    ensures NormalizeUrl(syn, NormalizeUrl(syn, url).value) == NormalizeUrl(syn, url)
  {
    var p := NormalizeParts(syn.parse(url)).value;
    var n := syn.unparse(p);
    assert n != "" && syn.parse(n) == p;
    NormalizePartsIdempotent(syn.parse(url));
  }

  /** The netloc test of `is_internal_url`: the same netloc, or a netloc
      ending in '.' followed by it. */
  predicate InternalDomain(baseDomain: string, targetDomain: string) {
    baseDomain == targetDomain || EndsWith(targetDomain, "." + baseDomain)
  }

  /** `is_internal_url(base_url, target_url)` compares the netlocs only. */
  predicate IsInternalUrl(syn: UrlSyntax, baseUrl: string, targetUrl: string) {
    InternalDomain(syn.parse(baseUrl).netloc, syn.parse(targetUrl).netloc)
  }

  /** The netloc test means: the same netloc, or that netloc under one more
      prefix ending in a dot. Case-sensitive and port-sensitive. */
  lemma InternalDomainMeaning(baseDomain: string, targetDomain: string)
    ensures InternalDomain(baseDomain, targetDomain) <==>
      targetDomain == baseDomain || exists host: string :: targetDomain == host + "." + baseDomain
  {
    if EndsWith(targetDomain, "." + baseDomain) {
      var host := targetDomain[..|targetDomain| - |baseDomain| - 1];
      assert targetDomain == host + "." + baseDomain;
    }
    if exists host: string :: targetDomain == host + "." + baseDomain {
      var host: string :| targetDomain == host + "." + baseDomain;
      assert targetDomain[|host|..] == "." + baseDomain;
    }
  }

  /** A target URL is internal exactly when its netloc is the base URL's
      netloc or a subdomain-style extension of it; scheme, path, query and
      fragment play no part. */
  lemma IsInternalUrlMeaning(syn: UrlSyntax, baseUrl: string, targetUrl: string)
    ensures IsInternalUrl(syn, baseUrl, targetUrl) <==>
      var b := syn.parse(baseUrl).netloc;
      var t := syn.parse(targetUrl).netloc;
      t == b || exists host: string :: t == host + "." + b
  {
    InternalDomainMeaning(syn.parse(baseUrl).netloc, syn.parse(targetUrl).netloc);
  }

  /** Every URL is internal to itself. */
  lemma InternalIsReflexive(syn: UrlSyntax, url: string)
    ensures IsInternalUrl(syn, url, url)
  {
  }

  /** A subdomain is internal to its parent domain. */
  lemma SubdomainIsInternal(host: string, domain: string)
    ensures InternalDomain(domain, host + "." + domain)
  {
    assert (host + "." + domain)[|host|..] == "." + domain;
  }

  /** A proper subdomain is internal to its parent but not the other way round. */
  lemma {:induction false} InternalIsAntisymmetric(baseDomain: string, targetDomain: string)
    requires InternalDomain(baseDomain, targetDomain)
    requires baseDomain != targetDomain
    ensures !InternalDomain(targetDomain, baseDomain)
  {
    assert |targetDomain| > |baseDomain|;
  }

  /** A domain that merely ends with the same letters is not internal. */
  lemma LookalikeIsNotInternal()
    ensures !InternalDomain("example.com", "notexample.com")
    ensures InternalDomain("example.com", "shop.example.com")
  {
    assert "notexample.com"[2..] != ".example.com";
    SubdomainIsInternal("shop", "example.com");
  }

  /** Unlike `normalize_url`, the test neither lower-cases nor drops a port. */
  lemma CaseAndPortMatter()
    ensures !InternalDomain("example.com", "EXAMPLE.COM")
    ensures !InternalDomain("example.com", "example.com:8080")
  {
    assert "EXAMPLE.COM"[0] != "example.com"[0];
    assert "example.com:8080"[4..] != ".example.com";
  }
}
