/** The breadth-first crawl of backend/scraper/crawler.py: class `Crawler`
    with its FIFO frontier of (url, depth) entries, its `visited` set of
    normalised URLs, the depth bound and the stop flag. The page scrapers
    (`Scraper.scrape_url`, `Scraper.scrape_dynamic`) are an oracle `Web`:
    finite maps from URL to scrape result. */
module Crawl {
  import opened Common
  import opened JsonValue
  import opened UrlUtils

  /** `Config.BASE_URL` and `Config.MAX_DEPTH` when the environment sets neither. */
  const DefaultBaseUrl: string := "https://books.toscrape.com/"
  const DefaultMaxDepth: int := 2

  /** One frontier entry: the URL as found, and its link distance from the base. */
  datatype Entry = Entry(url: string, depth: nat)

  /** What one scrape call gives back: the extracted content (a dict, or
      `None`) with the page's links, or an exception escaping the call. */
  datatype Scrape = Scraped(content: Option<map<string, Json>>, links: seq<string>) | Raised

  /** The oracle standing for the network, the HTML parser and the browser:
      what the static and the dynamic scrape give for each URL they know, and
      a finite set of pages that holds every link they return. */
  datatype Web = Web(staticScrape: map<string, Scrape>, dynamicScrape: map<string, Scrape>, pages: set<string>)

  /** How `Crawler.start` left its loop. */
  datatype CrawlEnd = Exhausted | Stopped | Crashed

  /** One processed frontier entry with its normalised URL (ghost bookkeeping). */
  datatype Visit = Visit(url: string, depth: nat, norm: string)

  /** Python truthiness of the content: neither `None` nor an empty dict. */
  predicate HasContent(s: Scrape) {
    s.Scraped? && s.content.Some? && |s.content.value| > 0
  }

  /** A scrape of a URL the oracle does not know fails inside the scraper,
      which logs the error and returns `(None, [])`. */
  function ScrapeWith(m: map<string, Scrape>, url: string): (r: Scrape)
    ensures url !in m ==> r == Scraped(None, []) && !HasContent(r)
  {
    if url in m then m[url] else Scraped(None, [])
  }

  ghost predicate LinksWithin(m: map<string, Scrape>, pages: set<string>) {
    forall url :: url in m && m[url].Scraped? ==> forall i :: 0 <= i < |m[url].links| ==> m[url].links[i] in pages
  }

  /** Every link a scrape returns is one of the oracle's pages. */
  ghost predicate Closed(web: Web) {
    LinksWithin(web.staticScrape, web.pages) && LinksWithin(web.dynamicScrape, web.pages)
  }

  /** `if not normalized`: `None` and the empty string are both rejected. */
  predicate Usable(n: Option<string>) {
    n.Some? && n.value != ""
  }

  /** The scrape of one URL: static first; the dynamic scrape only when the
      static one returned no content and a driver exists. An exception from
      either escapes. */
  function Fetch(web: Web, hasDriver: bool, url: string): (r: Scrape)
    ensures ScrapeWith(web.staticScrape, url).Raised? ==> r.Raised?
    ensures HasContent(ScrapeWith(web.staticScrape, url)) || !hasDriver ==> r == ScrapeWith(web.staticScrape, url)
    ensures !ScrapeWith(web.staticScrape, url).Raised? && !HasContent(ScrapeWith(web.staticScrape, url)) && hasDriver
            ==> r == ScrapeWith(web.dynamicScrape, url)
  {
    var s := ScrapeWith(web.staticScrape, url);
    if s.Scraped? && !HasContent(s) && hasDriver then ScrapeWith(web.dynamicScrape, url) else s
  }

  /** Every link of a fetched page is one of the oracle's pages. */
  lemma FetchLinks(web: Web, hasDriver: bool, url: string)
    requires Closed(web) && Fetch(web, hasDriver, url).Scraped?
    ensures forall i :: 0 <= i < |Fetch(web, hasDriver, url).links| ==> Fetch(web, hasDriver, url).links[i] in web.pages
  {
  }

  /** Whether a link found on a page is queued: internal to the base URL,
      normalisable, and its normalised form not yet visited. */
  predicate Admits(syn: UrlSyntax, baseUrl: string, visited: set<string>, link: string) {
    IsInternalUrl(syn, baseUrl, link)
    && Usable(NormalizeUrl(syn, link))
    && NormalizeUrl(syn, link).value !in visited
  }

  /** The entries the link loop appends, in link order; the link is queued as
      found, not normalised, and a link repeated on the page is queued again. */
  function Admitted(syn: UrlSyntax, baseUrl: string, links: seq<string>, visited: set<string>, depth: nat)
    : (r: seq<Entry>)
    ensures |r| <= |links|
    ensures forall i :: 0 <= i < |r| ==> r[i].depth == depth
    ensures forall i :: 0 <= i < |r| ==> r[i].url in links && Admits(syn, baseUrl, visited, r[i].url)
  {
    if links == [] then []
    else
      var last := links[|links| - 1];
      var init := Admitted(syn, baseUrl, links[..|links| - 1], visited, depth);
      assert forall i :: 0 <= i < |init| ==> init[i].url in links by {
        forall i | 0 <= i < |init| ensures init[i].url in links {
          var k :| 0 <= k < |links| - 1 && links[..|links| - 1][k] == init[i].url;
          assert links[k] == init[i].url;
        }
      }
      init + (if Admits(syn, baseUrl, visited, last) then [Entry(last, depth)] else [])
  }

  /** The `for link in links` loop of `Crawler.start`: each link is checked
      in page order and the admitted ones are collected one level deeper. */
  method AdmitLinks(syn: UrlSyntax, baseUrl: string, links: seq<string>, visited: set<string>, depth: nat)
    returns (added: seq<Entry>)
    ensures added == Admitted(syn, baseUrl, links, visited, depth)
  {
    added := [];
    var i := 0;
    while i < |links|
      invariant 0 <= i <= |links|
      invariant added == Admitted(syn, baseUrl, links[..i], visited, depth)
    {
      var link := links[i];
      if IsInternalUrl(syn, baseUrl, link) {
        var normLink := NormalizeUrl(syn, link);
        if Usable(normLink) && normLink.value !in visited {
          added := added + [Entry(link, depth)];
        }
      }
      assert links[..i + 1][..i] == links[..i];
      i := i + 1;
    }
    assert links[..i] == links;
  }

  /** One more link on the page adds exactly its own entry when it
      qualifies, and nothing otherwise; with `Admitted(.., [], ..) == []`
      this fixes the queued entries as the qualifying links in page order. */
  lemma AdmittedSnoc(syn: UrlSyntax, baseUrl: string, links: seq<string>, link: string, visited: set<string>, depth: nat)
    ensures Admitted(syn, baseUrl, links + [link], visited, depth)
         == Admitted(syn, baseUrl, links, visited, depth)
            + (if Admits(syn, baseUrl, visited, link) then [Entry(link, depth)] else [])
  {
    assert (links + [link])[..|links|] == links;
  }

  /** Every qualifying link of the page is queued. */
  lemma {:induction false} AdmittedComplete(syn: UrlSyntax, baseUrl: string, links: seq<string>, visited: set<string>, depth: nat)
    ensures forall k :: 0 <= k < |links| && Admits(syn, baseUrl, visited, links[k]) ==>
                          Entry(links[k], depth) in Admitted(syn, baseUrl, links, visited, depth)
  {
    if links != [] {
      var init := links[..|links| - 1];
      AdmittedComplete(syn, baseUrl, init, visited, depth);
      forall k | 0 <= k < |links| && Admits(syn, baseUrl, visited, links[k])
        ensures Entry(links[k], depth) in Admitted(syn, baseUrl, links, visited, depth)
      {
        if k < |links| - 1 {
          assert init[k] == links[k];
        }
      }
    }
  }

  /** A link that qualifies is queued once per occurrence on the page. */
  lemma AdmittedKeepsDuplicates(syn: UrlSyntax, baseUrl: string, link: string, visited: set<string>, depth: nat)
    requires Admits(syn, baseUrl, visited, link)
    ensures Admitted(syn, baseUrl, [link, link], visited, depth) == [Entry(link, depth), Entry(link, depth)]
  {
    assert [link, link][..1] == [link];
    assert [link][..0] == [];
  }

  /** The normalised URLs of a list of visits. */
  ghost function NormsOf(ps: seq<Visit>): set<string> {
    if ps == [] then {} else NormsOf(ps[..|ps| - 1]) + {ps[|ps| - 1].norm}
  }

  lemma NormsOfSnoc(ps: seq<Visit>, v: Visit)
    ensures NormsOf(ps + [v]) == NormsOf(ps) + {v.norm}
  {
    assert (ps + [v])[..|ps|] == ps;
  }

  /** A URL is among the normalised URLs exactly when some visit has it. */
  lemma {:induction false} NormsOfMeaning(ps: seq<Visit>, x: string)
    ensures x in NormsOf(ps) <==> exists i :: 0 <= i < |ps| && ps[i].norm == x
  {
    if ps != [] {
      var init := ps[..|ps| - 1];
      NormsOfMeaning(init, x);
      if exists i :: 0 <= i < |init| && init[i].norm == x {
        var i :| 0 <= i < |init| && init[i].norm == x;
        assert ps[i].norm == x;
      }
      if exists i :: 0 <= i < |ps| && ps[i].norm == x {
        var i :| 0 <= i < |ps| && ps[i].norm == x;
        if i < |init| { assert init[i].norm == x; }
      }
    }
  }

  /** Each visit's normalised URL differs from those of the visits before it. */
  ghost predicate DistinctNorms(ps: seq<Visit>) {
    ps == [] || (ps[|ps| - 1].norm !in NormsOf(ps[..|ps| - 1]) && DistinctNorms(ps[..|ps| - 1]))
  }

  /** No two visits share a normalised URL. */
  lemma {:induction false} DistinctNormsPairs(ps: seq<Visit>)
    requires DistinctNorms(ps)
    ensures forall i, j :: 0 <= i < j < |ps| ==> ps[i].norm != ps[j].norm
  {
    if ps != [] {
      var init := ps[..|ps| - 1];
      DistinctNormsPairs(init);
      forall i | 0 <= i < |init| ensures ps[i].norm != ps[|ps| - 1].norm {
        NormsOfMeaning(init, init[i].norm);
      }
    }
  }

  /** Each visit is at least as deep as the one before it. */
  ghost predicate DepthOrdered(ps: seq<Visit>) {
    |ps| <= 1 || (ps[|ps| - 2].depth <= ps[|ps| - 1].depth && DepthOrdered(ps[..|ps| - 1]))
  }

  /** Visits in depth order: every earlier visit is no deeper than a later one. */
  lemma {:induction false} DepthOrderedPairs(ps: seq<Visit>)
    requires DepthOrdered(ps)
    ensures forall i, j :: 0 <= i < j < |ps| ==> ps[i].depth <= ps[j].depth
  {
    if |ps| > 1 {
      var init := ps[..|ps| - 1];
      DepthOrderedPairs(init);
      assert init[|init| - 1] == ps[|ps| - 2];
    }
  }

  /** Each frontier entry is no deeper than the one after it. */
  ghost predicate Sorted(q: seq<Entry>) {
    |q| <= 1 || (q[0].depth <= q[1].depth && Sorted(q[1..]))
  }

  /** A sorted frontier: every entry is no deeper than any later one. */
  lemma {:induction false} SortedPairs(q: seq<Entry>)
    requires Sorted(q)
    ensures forall i, j :: 0 <= i < j < |q| ==> q[i].depth <= q[j].depth
  {
    if |q| > 1 {
      SortedPairs(q[1..]);
      forall i, j | 0 <= i < j < |q| ensures q[i].depth <= q[j].depth {
        if i > 0 {
          assert q[i] == q[1..][i - 1] && q[j] == q[1..][j - 1];
        } else if j > 1 {
          assert q[1] == q[1..][0] && q[j] == q[1..][j - 1];
        }
      }
    }
  }

  /** Entries at one depth are sorted. */
  lemma {:induction false} LevelSorted(q: seq<Entry>, depth: nat)
    requires forall i :: 0 <= i < |q| ==> q[i].depth == depth
    ensures Sorted(q)
  {
    if |q| > 1 {
      LevelSorted(q[1..], depth);
    }
  }

  /** A sorted frontier no deeper than `depth`, followed by entries at `depth`,
      is sorted. */
  lemma {:induction false} SortedAppend(q: seq<Entry>, more: seq<Entry>, depth: nat)
    requires Sorted(q) && forall i :: 0 <= i < |q| ==> q[i].depth <= depth
    requires forall i :: 0 <= i < |more| ==> more[i].depth == depth
    ensures Sorted(q + more)
  {
    if q == [] {
      assert q + more == more;
      LevelSorted(more, depth);
    } else {
      SortedAppend(q[1..], more, depth);
      assert (q + more)[1..] == q[1..] + more;
    }
  }

  ghost predicate SeenIn(syn: UrlSyntax, visited: set<string>, u: string) {
    Usable(NormalizeUrl(syn, u)) && NormalizeUrl(syn, u).value in visited
  }

  /** The URLs of `universe` whose normalised form is not yet visited. */
  ghost function PendingOf(universe: set<string>, syn: UrlSyntax, visited: set<string>): set<string> {
    set u | u in universe && !SeenIn(syn, visited, u)
  }

  /** Visiting the normalised form of a pending URL removes it from the pending set. */
  lemma PendingShrinks(universe: set<string>, syn: UrlSyntax, visited: set<string>, url: string)
    requires url in universe && Usable(NormalizeUrl(syn, url)) && NormalizeUrl(syn, url).value !in visited
    ensures PendingOf(universe, syn, visited + {NormalizeUrl(syn, url).value}) < PendingOf(universe, syn, visited)
  {
    assert url in PendingOf(universe, syn, visited);
    assert url !in PendingOf(universe, syn, visited + {NormalizeUrl(syn, url).value});
  }

  /** The log of processed URLs: `visited` is exactly their normalised forms,
      each processed once, none deeper than the bound, in breadth-first order,
      none deeper than the depth popped last. */
  ghost predicate LogOk(maxDepth: int, visited: set<string>, processed: seq<Visit>, lastDepth: nat) {
    && visited == NormsOf(processed)
    && DistinctNorms(processed)
    && (forall i :: 0 <= i < |processed| ==> processed[i].depth <= maxDepth && processed[i].depth <= lastDepth)
    && DepthOrdered(processed)
  }

  /** The frontier: sorted by depth, spanning at most two consecutive depths
      from the depth popped last, within the bound except for the base entry. */
  ghost predicate FrontierOk(universe: set<string>, maxDepth: int, queue: seq<Entry>, lastDepth: nat) {
    && (forall i :: 0 <= i < |queue| ==> lastDepth <= queue[i].depth <= lastDepth + 1)
    && Sorted(queue)
    && (forall i :: 0 <= i < |queue| ==> queue[i].depth == 0 || queue[i].depth <= maxDepth)
    && (forall i :: 0 <= i < |queue| ==> queue[i].url in universe)
  }

  /** Popping the head keeps the frontier ordered around the head's depth. */
  lemma FrontierPop(universe: set<string>, maxDepth: int, queue: seq<Entry>, lastDepth: nat)
    requires FrontierOk(universe, maxDepth, queue, lastDepth) && queue != []
    ensures lastDepth <= queue[0].depth
    ensures FrontierOk(universe, maxDepth, queue[1..], queue[0].depth)
  {
    SortedPairs(queue);
  }

  /** All entries are at the given depth and within the universe. */
  ghost predicate EntriesAt(entries: seq<Entry>, depth: nat, universe: set<string>) {
    forall i :: 0 <= i < |entries| ==> entries[i].depth == depth && entries[i].url in universe
  }

  /** Appending entries one level below the depth popped last keeps the frontier ordered. */
  lemma FrontierAppend(universe: set<string>, maxDepth: int, queue: seq<Entry>, lastDepth: nat, more: seq<Entry>)
    requires FrontierOk(universe, maxDepth, queue, lastDepth)
    requires more != [] ==> lastDepth + 1 <= maxDepth
    requires EntriesAt(more, lastDepth + 1, universe)
    ensures FrontierOk(universe, maxDepth, queue + more, lastDepth)
  {
    SortedAppend(queue, more, lastDepth + 1);
  }

  /** Skipping an entry keeps the log, with the new last depth. */
  lemma LogSkip(maxDepth: int, visited: set<string>, processed: seq<Visit>, lastDepth: nat, depth: nat)
    requires LogOk(maxDepth, visited, processed, lastDepth) && lastDepth <= depth
    ensures LogOk(maxDepth, visited, processed, depth)
  {
  }

  /** Processing a new URL, at a depth no smaller than the last, extends the log. */
  lemma LogAdd(maxDepth: int, visited: set<string>, processed: seq<Visit>, lastDepth: nat, v: Visit)
    requires LogOk(maxDepth, visited, processed, lastDepth)
    requires lastDepth <= v.depth <= maxDepth
    requires v.norm !in visited
    ensures LogOk(maxDepth, visited + {v.norm}, processed + [v], v.depth)
  {
    var ps := processed + [v];
    assert ps[..|ps| - 1] == processed;
    NormsOfSnoc(processed, v);
  }

  /** What a `Crawler` is given at construction: the URL library, the scrape
      oracle, the base URL, the depth bound and whether a driver exists. */
  datatype Setup = Setup(syntax: UrlSyntax, web: Web, baseUrl: string, maxDepth: int, hasDriver: bool)

  /** What the crawl loop changes: the frontier, the visited set and the
      extracted pages, with the bookkeeping of processed entries and the depth
      popped last. */
  datatype CrawlState = CrawlState(queue: seq<Entry>, visited: set<string>, extracted: seq<Entry>,
                                   processed: seq<Visit>, lastDepth: nat)

  /** The URLs that can ever be in the frontier: the oracle's pages and the base URL. */
  ghost function UniverseOf(c: Setup): set<string> {
    c.web.pages + {c.baseUrl}
  }

  /** The crawl invariant: the log of processed URLs and the frontier are in order. */
  ghost predicate Ok(c: Setup, s: CrawlState) {
    && LogOk(c.maxDepth, s.visited, s.processed, s.lastDepth)
    && FrontierOk(UniverseOf(c), c.maxDepth, s.queue, s.lastDepth)
  }

  /** `self.queue.popleft()`. */
  function Pop(s: CrawlState): CrawlState
    requires s.queue != []
  {
    s.(queue := s.queue[1..], lastDepth := s.queue[0].depth)
  }

  /** Whether the popped entry is skipped: its URL does not normalise, was
      visited, or is too deep. */
  predicate Skips(c: Setup, visited: set<string>, e: Entry) {
    var n := NormalizeUrl(c.syntax, e.url);
    !Usable(n) || n.value in visited || e.depth > c.maxDepth
  }

  /** The links queued for a scraped page: its admitted links one level
      deeper when it had content and lies above the bound, else none. */
  function QueuedLinks(c: Setup, e: Entry, page: Scrape, visited: set<string>): seq<Entry> {
    if HasContent(page) && e.depth < c.maxDepth
    then Admitted(c.syntax, c.baseUrl, page.links, visited, e.depth + 1) else []
  }

  /** Processing the popped entry `e` whose normalised URL `norm` is new: mark
      it visited, scrape it, record a page with content and queue its links;
      also whether an exception escaped the scrape. */
  function Process(c: Setup, s: CrawlState, e: Entry, norm: string): (CrawlState, bool) {
    var seen := s.visited + {norm};
    var page := Fetch(c.web, c.hasDriver, e.url);
    (s.(queue := s.queue + QueuedLinks(c, e, page, seen), visited := seen,
        extracted := s.extracted + (if HasContent(page) then [e] else []),
        processed := s.processed + [Visit(e.url, e.depth, norm)]),
     page.Raised?)
  }

  /** One turn of the `while self.queue` loop after the stop check: pop the
      head, then skip it or process it. */
  function Turn(c: Setup, s: CrawlState): (CrawlState, bool)
    requires s.queue != []
  {
    var e := s.queue[0];
    if Skips(c, s.visited, e) then (Pop(s), false)
    else Process(c, Pop(s), e, NormalizeUrl(c.syntax, e.url).value)
  }

  /** A turn either skips the head, changing nothing else, or processes it:
      its normalised URL joins `visited`, a page with content is recorded, and
      below the bound exactly its admitted links are appended. */
  lemma TurnCases(c: Setup, s: CrawlState)
    requires s.queue != []
    ensures var e := s.queue[0]; var n := NormalizeUrl(c.syntax, e.url); var (t, raised) := Turn(c, s);
      !Usable(n) || n.value in s.visited || e.depth > c.maxDepth ==>
        && !raised && t.queue == s.queue[1..] && t.visited == s.visited
        && t.processed == s.processed && t.extracted == s.extracted
    ensures var e := s.queue[0]; var n := NormalizeUrl(c.syntax, e.url); var (t, raised) := Turn(c, s);
      Usable(n) && n.value !in s.visited && e.depth <= c.maxDepth ==>
        var page := Fetch(c.web, c.hasDriver, e.url);
        && raised == page.Raised?
        && t.visited == s.visited + {n.value}
        && t.processed == s.processed + [Visit(e.url, e.depth, n.value)]
        && t.extracted == s.extracted + (if HasContent(page) then [e] else [])
        && t.queue == s.queue[1..] + (if HasContent(page) && e.depth < c.maxDepth
                                      then Admitted(c.syntax, c.baseUrl, page.links, t.visited, e.depth + 1) else [])
  {
  }

  /** The entries queued for a scraped page lie in the universe. */
  lemma QueuedWithin(c: Setup, e: Entry, visited: set<string>)
    requires Closed(c.web)
    ensures var page := Fetch(c.web, c.hasDriver, e.url);
      EntriesAt(QueuedLinks(c, e, page, visited), e.depth + 1, UniverseOf(c))
  {
    var page := Fetch(c.web, c.hasDriver, e.url);
    if HasContent(page) && e.depth < c.maxDepth {
      FetchLinks(c.web, c.hasDriver, e.url);
      var added := Admitted(c.syntax, c.baseUrl, page.links, visited, e.depth + 1);
      forall i | 0 <= i < |added| ensures added[i].url in UniverseOf(c) {
        assert added[i].url in page.links;
      }
    }
  }

  /** Popping the head keeps the invariant, at the head's depth. */
  lemma PopKeeps(c: Setup, s: CrawlState)
    requires Ok(c, s) && s.queue != []
    ensures Ok(c, Pop(s))
  {
    FrontierPop(UniverseOf(c), c.maxDepth, s.queue, s.lastDepth);
    LogSkip(c.maxDepth, s.visited, s.processed, s.lastDepth, s.queue[0].depth);
  }

  /** Processing an entry at the depth popped last, within the bound and with
      a new normalised URL, keeps the invariant. */
  lemma ProcessKeeps(c: Setup, s: CrawlState, e: Entry, norm: string)
    requires Closed(c.web) && Ok(c, s)
    requires s.lastDepth == e.depth <= c.maxDepth && norm !in s.visited
    ensures Ok(c, Process(c, s, e, norm).0)
  {
    var seen := s.visited + {norm};
    var page := Fetch(c.web, c.hasDriver, e.url);
    LogAdd(c.maxDepth, s.visited, s.processed, s.lastDepth, Visit(e.url, e.depth, norm));
    QueuedWithin(c, e, seen);
    FrontierAppend(UniverseOf(c), c.maxDepth, s.queue, s.lastDepth, QueuedLinks(c, e, page, seen));
  }

  /** Every turn keeps the crawl invariant. */
  lemma TurnKeeps(c: Setup, s: CrawlState)
    requires Closed(c.web) && Ok(c, s) && s.queue != []
    ensures Ok(c, Turn(c, s).0)
  {
    var e := s.queue[0];
    PopKeeps(c, s);
    if !Skips(c, s.visited, e) {
      ProcessKeeps(c, Pop(s), e, NormalizeUrl(c.syntax, e.url).value);
    }
  }

  /** Every turn makes progress: either the set of URLs that could still be
      processed shrinks, or it stays and the frontier gets shorter. Processed
      and extracted pages only grow. */
  lemma TurnProgress(c: Setup, s: CrawlState)
    requires Ok(c, s) && s.queue != []
    ensures var t := Turn(c, s).0;
      || PendingOf(UniverseOf(c), c.syntax, t.visited) < PendingOf(UniverseOf(c), c.syntax, s.visited)
      || (t.visited == s.visited && |t.queue| < |s.queue|)
    ensures var t := Turn(c, s).0; s.processed <= t.processed && s.extracted <= t.extracted
  {
    var e := s.queue[0];
    if !Skips(c, s.visited, e) {
      assert e.url in UniverseOf(c);
      PendingShrinks(UniverseOf(c), c.syntax, s.visited, e.url);
    }
  }

  class Crawler {
    const syntax: UrlSyntax
    const web: Web
    const baseUrl: string
    const maxDepth: int
    /** Whether `create_driver()` succeeded in the constructor. */
    const hasDriver: bool

    var visited: set<string>
    var queue: seq<Entry>
    var stopRequested: bool
    /** The pages whose content was logged ("Extracted content"), in order. */
    var extracted: seq<Entry>
    /** How often `cleanup` ran, and how often it quit the driver. */
    var cleanups: nat
    var driverQuits: nat

    /** Every entry that passed the checks and was scraped, in order. */
    ghost var processed: seq<Visit>
    /** The depth of the entry popped last. */
    ghost var lastDepth: nat

    function Config(): Setup {
      Setup(syntax, web, baseUrl, maxDepth, hasDriver)
    }

    ghost function State(): CrawlState
      reads this
    {
      CrawlState(queue, visited, extracted, processed, lastDepth)
    }

    /** The URLs that could still be processed; shrinks with every processing. */
    ghost function Pending(): set<string>
      reads this
    {
      PendingOf(UniverseOf(Config()), syntax, visited)
    }

    ghost predicate Valid()
      reads this
    {
      Ok(Config(), State())
    }

    /** `Crawler.__init__`: `base_url or Config.BASE_URL`; an explicit
        `max_depth`, 0 included, is kept, and only `None` takes the default. */
    constructor (syntax: UrlSyntax, web: Web, baseArg: string, maxDepthArg: Option<int>, driverCreated: bool)
      ensures this.syntax == syntax && this.web == web && hasDriver == driverCreated
      ensures baseUrl == if baseArg == "" then DefaultBaseUrl else baseArg
      ensures maxDepth == if maxDepthArg.Some? then maxDepthArg.value else DefaultMaxDepth
      ensures queue == [Entry(baseUrl, 0)] && visited == {} && !stopRequested
      ensures extracted == [] && cleanups == 0 && driverQuits == 0 && processed == []
      ensures Valid()
    {
      this.syntax := syntax;
      this.web := web;
      baseUrl := if baseArg == "" then DefaultBaseUrl else baseArg;
      maxDepth := if maxDepthArg.Some? then maxDepthArg.value else DefaultMaxDepth;
      hasDriver := driverCreated;
      visited := {};
      queue := [Entry(if baseArg == "" then DefaultBaseUrl else baseArg, 0)];
      stopRequested := false;
      extracted := [];
      cleanups, driverQuits := 0, 0;
      processed := [];
      lastDepth := 0;
    }

    /** `Crawler.stop`: raise the stop flag, nothing else. */
    method Stop()
      modifies this
      ensures stopRequested
      ensures State() == old(State())
      ensures cleanups == old(cleanups) && driverQuits == old(driverQuits)
    {
      stopRequested := true;
    }

    /** `Crawler.cleanup`: quit the driver if there is one. */
    method Cleanup()
      modifies this
      ensures cleanups == old(cleanups) + 1
      ensures driverQuits == old(driverQuits) + (if hasDriver then 1 else 0)
      ensures State() == old(State()) && stopRequested == old(stopRequested)
    {
      if hasDriver {
        driverQuits := driverQuits + 1;
      }
      cleanups := cleanups + 1;
    }

    /** One turn of the `while self.queue` loop after the stop check, as
        `Turn` says; `raised` says that an exception escaped the scrape. */
    method Step() returns (raised: bool)
      requires queue != []
      modifies this
      ensures (State(), raised) == Turn(Config(), old(State()))
      ensures stopRequested == old(stopRequested) && cleanups == old(cleanups) && driverQuits == old(driverQuits)
    {
      ghost var before := State();
      var e := queue[0];
      queue, lastDepth := queue[1..], e.depth;
      assert State() == Pop(before);
      var normalized := NormalizeUrl(syntax, e.url);
      if !Usable(normalized) || normalized.value in visited || e.depth > maxDepth {
        return false;
      }
      raised := ProcessEntry(e, normalized.value);
    }

    /** The popped entry `e`, whose normalised URL `norm` is new, is processed
        as `Process` says. */
    method ProcessEntry(e: Entry, norm: string) returns (raised: bool)
      modifies this
      ensures (State(), raised) == Process(Config(), old(State()), e, norm)
      ensures stopRequested == old(stopRequested) && cleanups == old(cleanups) && driverQuits == old(driverQuits)
    {
      ghost var before := State();
      visited := visited + {norm};
      processed := processed + [Visit(e.url, e.depth, norm)];
      var page := Fetch(web, hasDriver, e.url);
      var added := [];
      if HasContent(page) && e.depth < maxDepth {
        added := AdmitLinks(syntax, baseUrl, page.links, visited, e.depth + 1);
      }
      assert added == QueuedLinks(Config(), e, page, visited);
      if HasContent(page) {
        extracted := extracted + [e];
      }
      queue := queue + added;
      raised := page.Raised?;
      assert State() == before.(queue := before.queue + added, visited := before.visited + {norm},
                                extracted := before.extracted + (if HasContent(page) then [e] else []),
                                processed := before.processed + [Visit(e.url, e.depth, norm)]);
    }

    /** `Crawler.start`: run the loop until the frontier is empty, the stop
        flag is seen, or an exception escapes; then `cleanup` runs, once. */
    method Start() returns (end: CrawlEnd)
      requires Closed(web) && Valid()
      modifies this
      ensures Valid()
      ensures cleanups == old(cleanups) + 1
      ensures driverQuits == old(driverQuits) + (if hasDriver then 1 else 0)
      ensures stopRequested == old(stopRequested)
      ensures end == Exhausted ==> queue == []
      ensures end == Stopped <==> old(stopRequested) && old(queue) != []
      ensures old(stopRequested) ==> State() == old(State())
      ensures old(processed) <= processed && old(extracted) <= extracted
    {
      end := Exhausted;
      while queue != []
        invariant Valid()
        invariant end == Exhausted
        invariant cleanups == old(cleanups) && driverQuits == old(driverQuits)
        invariant stopRequested == old(stopRequested)
        invariant old(processed) <= processed && old(extracted) <= extracted
        invariant old(stopRequested) ==> State() == old(State())
        decreases Pending(), |queue|
      {
        if stopRequested {
          end := Stopped;
          break;
        }
        TurnKeeps(Config(), State());
        TurnProgress(Config(), State());
        var raised := Step();
        if raised {
          end := Crashed;
          break;
        }
      }
      Cleanup();
    }
  }
}
