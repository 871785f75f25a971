/** The job-status machine of backend/server.py: the `status` object
    (`is_running`, `current_url`), the `active_crawler` slot, and the handlers
    `start_scrape`, `stop_scrape`, `get_status` and the background job
    `run_crawler_bg`. The thread that runs the job is not modelled: accepting
    a start and beginning the job are one atomic step, and running the job to
    its end is another. */
module Server {
  import opened Common
  import opened JsonValue
  import opened UrlUtils
  import opened Crawl

  /** `ScrapeRequest.max_depth` when the request body leaves it out. */
  const DefaultRequestDepth: int := 1

  /** An HTTP answer: a JSON body, or an `HTTPException` with status and detail. */
  datatype Reply = Ok(body: Json) | HttpError(status: int, detail: string)

  /** The depth a request asks for: the field when present, else 1. */
  function RequestDepth(maxDepth: Option<int>): int {
    if maxDepth.Some? then maxDepth.value else DefaultRequestDepth
  }

  function StartedReply(url: string): Json {
    Obj([("message", Str("Scraper started")), ("url", Str(url))])
  }

  function MessageReply(message: string): Json {
    Obj([("message", Str(message))])
  }

  class ScraperServer {
    /** The oracles every crawler the server creates works with, and whether
        `create_driver()` succeeds. */
    const syntax: UrlSyntax
    const web: Web
    const driverAvailable: bool

    var isRunning: bool
    var currentUrl: string
    var activeCrawler: Crawler?

    /** A crawler is active exactly while a job runs; between jobs the status
        is reset; the active crawler crawls the requested URL. */
    ghost predicate Valid()
      reads this, activeCrawler
    {
      && Closed(web)
      && (isRunning <==> activeCrawler != null)
      && (!isRunning ==> currentUrl == "")
      && (activeCrawler != null ==>
            && activeCrawler.Valid()
            && activeCrawler.web == web && activeCrawler.syntax == syntax
            && activeCrawler.baseUrl == (if currentUrl == "" then DefaultBaseUrl else currentUrl))
    }

    /** The module-level `status = ScraperStatus()` and `active_crawler = None`. */
    constructor (syntax: UrlSyntax, web: Web, driverAvailable: bool)
      requires Closed(web)
      ensures this.syntax == syntax && this.web == web && this.driverAvailable == driverAvailable
      ensures !isRunning && currentUrl == "" && activeCrawler == null
      ensures Valid()
    {
      this.syntax := syntax;
      this.web := web;
      this.driverAvailable := driverAvailable;
      isRunning := false;
      currentUrl := "";
      activeCrawler := null;
    }

    /** `start_scrape` followed at once by the beginning of `run_crawler_bg`:
        rejected with 400 while a job runs; otherwise the status is set and a
        fresh crawler for the URL and depth becomes the active one. */
    method StartScrape(url: string, maxDepth: Option<int>) returns (reply: Reply)
      requires Valid()
      modifies this
      ensures Valid()
      ensures old(isRunning) ==>
        && reply == HttpError(400, "Scraper is already running")
        && isRunning && currentUrl == old(currentUrl) && activeCrawler == old(activeCrawler)
      ensures !old(isRunning) ==>
        && reply == Ok(StartedReply(url))
        && isRunning && currentUrl == url
        && activeCrawler != null && fresh(activeCrawler)
        && activeCrawler.baseUrl == (if url == "" then DefaultBaseUrl else url)
        && activeCrawler.maxDepth == RequestDepth(maxDepth)
        && activeCrawler.queue == [Entry(activeCrawler.baseUrl, 0)]
        && activeCrawler.visited == {} && !activeCrawler.stopRequested
        && activeCrawler.hasDriver == driverAvailable
    {
      if isRunning {
        return HttpError(400, "Scraper is already running");
      }
      isRunning := true;
      currentUrl := url;
      var crawler := new Crawler(syntax, web, url, Some(RequestDepth(maxDepth)), driverAvailable);
      activeCrawler := crawler;
      reply := Ok(StartedReply(url));
    }

    /** `stop_scrape`: signal the active crawler, if any. */
    method StopScrape() returns (reply: Reply)
      requires Valid()
      modifies this, activeCrawler
      ensures Valid()
      ensures isRunning == old(isRunning) && currentUrl == old(currentUrl) && activeCrawler == old(activeCrawler)
      ensures old(activeCrawler) != null ==>
        && reply == Ok(MessageReply("Stop signal sent"))
        && activeCrawler.stopRequested
        && activeCrawler.queue == old(activeCrawler.queue) && activeCrawler.visited == old(activeCrawler.visited)
        && activeCrawler.processed == old(activeCrawler.processed)
        && activeCrawler.extracted == old(activeCrawler.extracted)
      ensures old(activeCrawler) == null ==> reply == Ok(MessageReply("No active crawler to stop"))
    {
      if activeCrawler != null {
        activeCrawler.Stop();
        reply := Ok(MessageReply("Stop signal sent"));
      } else {
        reply := Ok(MessageReply("No active crawler to stop"));
      }
    }

    /** `get_status`: report the status without changing anything.
        `logsPath` is `os.path.abspath("logs/scraper.log")`. */
    method GetStatus(logsPath: string) returns (reply: Reply)
      ensures reply.Ok? && reply.body.Obj? && |reply.body.fields| == 3
      ensures Lookup(reply.body.fields, "is_running") == Some(Bool(isRunning))
      ensures Lookup(reply.body.fields, "current_url") == Some(Str(currentUrl))
      ensures Lookup(reply.body.fields, "logs_path") == Some(Str(logsPath))
    {
      var fields := [("is_running", Bool(isRunning)), ("current_url", Str(currentUrl)), ("logs_path", Str(logsPath))];
      assert fields[..2] == [("is_running", Bool(isRunning)), ("current_url", Str(currentUrl))];
      assert fields[..2][..1] == [("is_running", Bool(isRunning))];
      assert Lookup(fields[..2], "is_running") == Some(Bool(isRunning));
      reply := Ok(Obj(fields));
    }

    /** The rest of `run_crawler_bg`: run the active crawler to its end, then
        the `finally` block resets the status and empties the slot. */
    method RunJob() returns (end: CrawlEnd)
      requires Valid() && isRunning
      modifies this, activeCrawler
      ensures Valid()
      ensures !isRunning && currentUrl == "" && activeCrawler == null
      ensures old(activeCrawler).cleanups == old(activeCrawler.cleanups) + 1
      ensures end == Stopped <==> old(activeCrawler.stopRequested) && old(activeCrawler.queue) != []
      ensures old(activeCrawler.stopRequested) ==>
        && old(activeCrawler).processed == old(activeCrawler.processed)
        && old(activeCrawler).visited == old(activeCrawler.visited)
    {
      var crawler := activeCrawler;
      end := crawler.Start();
      isRunning := false;
      currentUrl := "";
      activeCrawler := null;
    }
  }
}
