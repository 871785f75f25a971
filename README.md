# Anti-Fail WebScraper: a verified model of its core

This project models the core of the Anti-Fail WebScraper in Dafny and proves properties of the model. The system has two halves.

The backend is a Python service:
- a breadth-first crawler (`Crawler`);
- URL helpers (`normalize_url`, `is_internal_url`);
- a JSON log formatter (`JSONFormatter`, `StructuredMessage`);
- a FastAPI server that runs one crawl job at a time (`start_scrape`, `stop_scrape`, `get_status`, `run_crawler_bg`).

The frontend is the operator console, the React `Dashboard` component:
- it shows a live log stream;
- it starts and stops jobs;
- it polls the job status;
- it opens the downloaded artifact in a collapsible JSON tree (`JsonNode`).

Modules, one per file:

| file | module | models |
|---|---|---|
| `common.dfy` | `Common` | `Option`, prefix/suffix/occurrence predicates, ASCII lower-casing, decimal rendering of integers |
| `json_value.dfy` | `JsonValue` | JSON values, the given `JSON.parse`/`JSON.stringify` pair (`Codec`), ordered-object lookup, JavaScript property access and truthiness |
| `url_utils.dfy` | `UrlUtils` | `normalize_url` and `is_internal_url` over the six URL components, with `urlparse`/`urlunparse` given |
| `structured_log.dfy` | `StructuredLog` | `JSONFormatter.format` up to `json.dumps`, and `StructuredMessage.__str__` |
| `crawler.dfy` | `Crawl` | class `Crawler`: the frontier, `visited`, the stop flag, `start`, `stop`, `cleanup`; the scrapers are an oracle |
| `server.dfy` | `Server` | class `ScraperServer`: `status`, `active_crawler` and the four handlers |
| `console_view.dfy` | `ConsoleView` | `getWebSocketUrl`, the `parsedLogs` normaliser, the level styling, the newline-delimited artifact parse |
| `json_tree.dfy` | `JsonTree` | `JsonNode`: default expansion, toggle, chevron, badge, value colour and text, the viewer root |
| `console.dfy` | `Console` | the `Dashboard` state and events: a pure `Next` function and class `Dashboard`, whose methods are proved to do what `Next` says |

Given library functions are parameters of the model:
- `urlparse`/`urlunparse` are the `UrlSyntax` value;
- `JSON.parse`/`JSON.stringify` are the `Codec` value;
- `datetime.isoformat` and `json.dumps` are functions passed in;
- the network, the HTML parser and the browser are the `Web` oracle. It holds finite maps from URL to the result of the static and the dynamic scrape, and a finite set of pages that every returned link belongs to.

Timestamps (`new Date().toISOString()`) are a `now` parameter.

Points where the console and server code behave differently from what their labels suggest:
- A socket error does not change the connection flag. There is no "errored" state: `onerror` only appends a log entry (`Console.SocketEvents`).
- Stop clears the running flag only when the `POST /stop` resolves. If the fetch throws, the flag stays set (`Console.StopOutcome`).
- Collapsing a tree node unmounts its children. Re-expanding it mounts them afresh at their default expansion, so the state of its descendants is lost (`JsonTree.CollapseForgetsBelow`, `JsonTree.CollapseForgetsExample`).
- A poll that is in flight when the job ends is not discarded. Nothing rechecks the running flag when a poll settles, so two polls that both report "not running" append "Scraping completed!" twice (`Console.LatePollDuplicates`).
- The server sets `is_running` inside the job thread, not before replying. Two starts in quick succession can both be accepted. The model takes "start accepted, job begins" as one atomic step (`Server.ScraperServer.StartScrape`).

## Model

| member | source | states |
|---|---|---|
| Common.NatToString | web-ui/components/dashboard.tsx:86 | The decimal rendering of a count or index is a non-empty string of digits whose decimal value is the number; it starts with `0` only for zero. |
| UrlUtils.NormalizeParts | backend/scraper/utils.py:24-32 | Rejects exactly the URLs with an empty scheme or netloc. Otherwise the result has a non-empty lower-case scheme and netloc, each the per-character ASCII lower-casing of the input, no fragment, and the input's path, params and query. |
| UrlUtils.NormalizeUrl | backend/scraper/utils.py:14-32 | The empty string gives `None`. Otherwise the result is `None` exactly when the parsed components are rejected, and is the reassembly of the normalised components when they are not. |
| UrlUtils.NormalizePartsIdempotent | backend/scraper/utils.py:24-32 | Normalising already-normalised components changes nothing. |
| UrlUtils.NormalizeUrlIdempotent | backend/scraper/utils.py:14-32 | If the components that `normalize_url` hands to `urlunparse` parse back to themselves, then `normalize_url` applied to its own output returns that output. |
| UrlUtils.InternalDomainMeaning | backend/scraper/utils.py:41 | The netloc test holds if and only if the target netloc equals the base netloc or is some prefix, a dot, and the base netloc. |
| UrlUtils.IsInternalUrlMeaning | backend/scraper/utils.py:34-41 | A target URL is internal if and only if its parsed netloc is the base URL's parsed netloc or ends in a dot followed by it; no other component matters. |
| UrlUtils.InternalIsReflexive | backend/scraper/utils.py:34-41 | Every URL is internal to itself. |
| UrlUtils.SubdomainIsInternal | backend/scraper/utils.py:41 | `host.domain` is internal to `domain`. |
| UrlUtils.InternalIsAntisymmetric | backend/scraper/utils.py:41 | If one netloc is internal to a different one, the reverse does not hold. |
| UrlUtils.LookalikeIsNotInternal | backend/scraper/utils.py:41 | The suffix test needs the dot: `notexample.com` is not internal to `example.com`, while `shop.example.com` is. |
| UrlUtils.CaseAndPortMatter | backend/scraper/utils.py:38-41 | The netloc test is case-sensitive and port-sensitive. |
| StructuredLog.Extras | backend/scraper/logger.py:29-40 | Every copied attribute is neither standard nor private, and comes from the record. |
| StructuredLog.Format | backend/scraper/logger.py:21-42 | The dict the formatter fills in its loop is the entry `Entry` describes: the four base pairs, then the copied extras. |
| StructuredLog.EntryLookup | backend/scraper/logger.py:21-40 | Gives the value of every key of the entry: `module` and `message` from the record; `level` and `timestamp` from a same-named extra, else from `levelname` and the formatted `created`; any other key from the record if it is copied, else absent. |
| StructuredLog.Entry | backend/scraper/logger.py:21-40 | Every entry begins with `timestamp`, `level`, `message` and `module`, in that order. Every later pair is a pair of the record whose attribute is copied, and is neither `timestamp` nor `level`. |
| StructuredLog.ExtrasFromRecord | backend/scraper/logger.py:29-40 | Every copied pair is a pair of the record, with its value. |
| StructuredLog.WithoutFromInput | backend/scraper/logger.py:38-40 | Dropping the pairs of some keys keeps only pairs of the input. |
| StructuredLog.EntryKeys | backend/scraper/logger.py:22-40 | A key is in the entry if and only if it is a base key or a copied attribute of the record. |
| StructuredLog.NoStandardLeak | backend/scraper/logger.py:29-40 | No standard LogRecord attribute except `message` and `module` ever appears in an entry. |
| StructuredLog.EntryMessageIsRawMsg | backend/scraper/logger.py:25-26 | The message is the raw `record.msg` and the module is `record.module`; no extra can replace them. |
| StructuredLog.EntryBaseOverwrite | backend/scraper/logger.py:23-40 | An extra named `level` or `timestamp` overwrites the base value; without one, the base value stays. |
| StructuredLog.EntryKeepsExtras | backend/scraper/logger.py:38-40 | A copied attribute reaches the entry with its value unchanged. |
| StructuredLog.StructuredMessageStr | backend/scraper/logger.py:14-18 | The result starts with the message. It equals the message exactly when there are no keyword arguments; otherwise the rest is a bar separator followed by the dump of the keyword arguments. |
| Crawl.ScrapeWith | backend/scraper/crawler.py:75 | A URL the oracle does not know scrapes as no content and no links. |
| Crawl.Fetch | backend/scraper/crawler.py:75-80 | Static scrape first. The dynamic scrape is used exactly when the static one returned no content and a driver exists. An exception from the static scrape escapes. |
| Crawl.Admitted | backend/scraper/crawler.py:92-97 | The queued entries are at most one per link, all at the given depth, each a link of the page that is internal, normalisable and not yet visited. With AdmittedSnoc and AdmittedComplete: exactly the qualifying links, one entry per occurrence, in page order. |
| Crawl.AdmittedSnoc | backend/scraper/crawler.py:93-97 | One more link on the page adds exactly its own entry at the end when it qualifies, and nothing when it does not. |
| Crawl.AdmittedComplete | backend/scraper/crawler.py:93-97 | Every qualifying link of the page is queued. |
| Crawl.AdmittedKeepsDuplicates | backend/scraper/crawler.py:93-97 | A qualifying link that occurs twice on a page is queued twice. |
| Crawl.PendingShrinks | backend/scraper/crawler.py:57-63 | Visiting a new normalised URL strictly shrinks the set of URLs that can still be processed. This is the crawl's termination measure. |
| Crawl.FrontierPop | backend/scraper/crawler.py:51 | Popping the head of a depth-ordered frontier leaves a depth-ordered frontier around the head's depth. |
| Crawl.FrontierAppend | backend/scraper/crawler.py:92-97 | Appending entries one level below the popped depth, within the bound, keeps the frontier in breadth-first order. |
| Crawl.LogSkip | backend/scraper/crawler.py:53-61 | Skipping an entry keeps the invariant of processed URLs. |
| Crawl.LogAdd | backend/scraper/crawler.py:63 | Processing a new normalised URL, within the bound and no shallower than the last, keeps every URL processed at most once, in breadth-first order, and `visited` equal to the processed URLs. |
| Crawl.AdmitLinks | backend/scraper/crawler.py:92-97 | The link loop collects exactly the entries `Admitted` describes, in link order. |
| Crawl.NormsOfMeaning | backend/scraper/crawler.py:57-63 | A URL is among the normalised URLs of the processed log exactly when some processed entry has it. |
| Crawl.DistinctNormsPairs | backend/scraper/crawler.py:57-63 | No two processed entries share a normalised URL. |
| Crawl.DepthOrderedPairs | backend/scraper/crawler.py:46-97 | Every processed entry is no deeper than any entry processed after it. |
| Crawl.SortedPairs | backend/scraper/crawler.py:46-51 | In a sorted frontier every entry is no deeper than any later one. |
| Crawl.LevelSorted | backend/scraper/crawler.py:97 | Entries all at one depth form a sorted frontier. |
| Crawl.SortedAppend | backend/scraper/crawler.py:92-97 | A sorted frontier no deeper than some depth, followed by entries at that depth, is sorted. |
| Crawl.TurnCases | backend/scraper/crawler.py:51-97 | Of `Crawl.Turn` and `Crawl.Process`: a turn either skips the head with nothing else changed and nothing raised, or marks its normalised URL visited, logs it as processed, records a page with content, appends exactly its admitted links when below the bound, and reports whether the scrape raised. |
| Crawl.QueuedWithin | backend/scraper/crawler.py:92-97 | Every entry queued for a scraped page is one level deeper and is one of the oracle's pages. |
| Crawl.PopKeeps | backend/scraper/crawler.py:51-61 | Popping the head keeps the crawl invariant at the head's depth. |
| Crawl.ProcessKeeps | backend/scraper/crawler.py:63-97 | Processing an entry at the popped depth, within the bound and with a new normalised URL, keeps the crawl invariant. |
| Crawl.TurnKeeps | backend/scraper/crawler.py:46-99 | Every turn keeps the crawl invariant: `visited` is the set of processed normalised URLs, each processed once, none beyond the bound, in breadth-first order; the frontier is sorted by depth, spans at most two consecutive depths, and holds only known pages. |
| Crawl.TurnProgress | backend/scraper/crawler.py:46-63 | Every turn either shrinks the set of URLs that can still be processed or keeps it and shortens the frontier. Processed and extracted pages only grow. |
| Crawl.Crawler.constructor | backend/scraper/crawler.py:15-35 | Base URL and depth come from the arguments or the defaults; an explicit depth of 0 is kept. The frontier holds only the base URL at depth 0, `visited` is empty and the stop flag is down. |
| Crawl.Crawler.Stop | backend/scraper/crawler.py:37-39 | Raises the stop flag and changes nothing else. |
| Crawl.Crawler.Cleanup | backend/scraper/crawler.py:108-112 | Quits the driver exactly when there is one. |
| Crawl.Crawler.Step | backend/scraper/crawler.py:51-61 | Changes the crawler's state and reports a raise exactly as `Turn` says for one turn of the loop; the stop flag and the cleanup counts are unchanged. |
| Crawl.Crawler.ProcessEntry | backend/scraper/crawler.py:63-97 | Changes the crawler's state and reports a raise exactly as `Process` says for the popped entry. |
| Crawl.Crawler.Start | backend/scraper/crawler.py:42-106 | The loop terminates. Cleanup runs exactly once. The crawl ends as stopped exactly when the flag was up and the frontier non-empty, and a raised flag means nothing is processed. An exhausted crawl leaves an empty frontier. Processed and extracted pages only grow. Every URL is processed at most once, within the depth bound, in breadth-first order. |
| Server.ScraperServer.constructor | backend/server.py:35-41 | Starts idle, with an empty current URL and no active crawler. |
| Server.ScraperServer.StartScrape | backend/server.py:59-67 | While running, replies 400 "Scraper is already running" and changes nothing. Otherwise replies "Scraper started" with the URL, sets running and the current URL, and makes a fresh crawler for the URL the active one, at the requested depth or 1. |
| Server.ScraperServer.StopScrape | backend/server.py:77-83 | With an active crawler, raises its stop flag and replies "Stop signal sent". Without one, replies "No active crawler to stop". The status is unchanged either way. |
| Server.ScraperServer.GetStatus | backend/server.py:69-75 | Replies with `is_running`, `current_url` and `logs_path` and mutates nothing. |
| Server.ScraperServer.RunJob | backend/server.py:43-57 | Runs the active crawler to its end, then resets running, the current URL and the slot. The crawler's cleanup ran once. |
| ConsoleView.ApiBaseUrl | web-ui/components/dashboard.tsx:13 | A non-empty environment value wins. An unset or empty one gives `http://localhost:8000`. The result is never empty. |
| ConsoleView.WebSocketUrl | web-ui/components/dashboard.tsx:16-21 | The socket address always ends with `/logs`. |
| ConsoleView.ReplaceFirstAt | web-ui/components/dashboard.tsx:18-20 | `String.replace` with a string pattern replaces the first occurrence only. |
| ConsoleView.ReplaceFirstAbsent | web-ui/components/dashboard.tsx:20 | Without an occurrence, the string is unchanged. |
| ConsoleView.WebSocketUrlSecure | web-ui/components/dashboard.tsx:17-18 | A base starting with `https` gets `wss` in place of that prefix. |
| ConsoleView.WebSocketUrlPlain | web-ui/components/dashboard.tsx:20 | Any other base has its first `http`, wherever it occurs, replaced by `ws`. |
| ConsoleView.WebSocketUrlNoScheme | web-ui/components/dashboard.tsx:20 | A base without `http` is kept whole. |
| ConsoleView.WebSocketUrlHttp | web-ui/components/dashboard.tsx:16-21 | A base that starts with `http` but not `https` has exactly that prefix replaced by `ws`, and `/logs` appended. |
| ConsoleView.DefaultWebSocketUrl | web-ui/components/dashboard.tsx:13-21 | The default base gives `ws://localhost:8000/logs`. |
| ConsoleView.DisplayEntry | web-ui/components/dashboard.tsx:233-239 | A string that parses is shown as the parsed value unchanged, with no check for a message field. One that does not parse is shown as a record whose message is the string. |
| ConsoleView.DisplayLogs | web-ui/components/dashboard.tsx:233-239 | One display entry per log string, in order. |
| ConsoleView.RawKeepsText | web-ui/components/dashboard.tsx:236-237 | An unparsable string becomes the RAW record with its text. |
| ConsoleView.StyleOf | web-ui/components/dashboard.tsx:387-407 | Levels ERROR, WARNING and INFO map to red, amber and emerald, and every other level to blue. The row is highlighted exactly for ERROR. A `null` entry has no style, since the row would throw. |
| ConsoleView.RawIsNeutral | web-ui/components/dashboard.tsx:237 | An unparsable line shows in blue, unhighlighted. |
| ConsoleView.OwnLinesStyled | web-ui/components/dashboard.tsx:387-407 | Given the codec round trip, the console's own entries display as the record it built; ERROR entries are red and highlighted, SYSTEM entries blue. |
| ConsoleView.TrimStart | web-ui/components/dashboard.tsx:214 | The result is a suffix of the input and does not start with whitespace. |
| ConsoleView.TrimStartRemovesSpace | web-ui/components/dashboard.tsx:214 | Everything `trimStart` removes is whitespace. |
| ConsoleView.TrimEnd | web-ui/components/dashboard.tsx:214 | The result is a prefix of the input and does not end with whitespace. |
| ConsoleView.TrimEndRemovesSpace | web-ui/components/dashboard.tsx:214 | Everything `trimEnd` removes is whitespace. |
| ConsoleView.Trim | web-ui/components/dashboard.tsx:214 | The result is no longer than the input and has no whitespace at either end. |
| ConsoleView.TrimRemovesSpace | web-ui/components/dashboard.tsx:214 | The result of `trim` is one slice of the input, and everything removed before and after it is whitespace. |
| ConsoleView.Split | web-ui/components/dashboard.tsx:214 | At least one piece, none containing a newline. |
| ConsoleView.SplitJoin | web-ui/components/dashboard.tsx:214 | Joining the pieces with newlines gives back the input. |
| ConsoleView.NonEmpty | web-ui/components/dashboard.tsx:214 | The kept lines are no more than the input lines, and none is empty. |
| ConsoleView.NonEmptyMembers | web-ui/components/dashboard.tsx:214 | A line is kept if and only if it is a non-empty line of the input. |
| ConsoleView.NonEmptyAppend | web-ui/components/dashboard.tsx:214 | Filtering two blocks of lines gives the filtered first block followed by the filtered second, so kept lines keep their order. |
| ConsoleView.NonEmptySingle | web-ui/components/dashboard.tsx:214 | A single line is kept exactly when it is non-empty. |
| ConsoleView.NonEmptyKeepsAll | web-ui/components/dashboard.tsx:214 | Lines that are all non-empty pass unchanged. |
| ConsoleView.ParseArtifactLine | web-ui/components/dashboard.tsx:215-221 | A line that parses becomes its value; one that does not becomes `{raw: line}`. |
| ConsoleView.ParseArtifact | web-ui/components/dashboard.tsx:214-221 | One value per non-empty line of the trimmed text, parsed independently and in order; no line aborts the load. |
| ConsoleView.ArtifactLinesShape | web-ui/components/dashboard.tsx:214 | Every line handed to the parser is non-empty and has no newline. |
| ConsoleView.BlankArtifactIsEmpty | web-ui/components/dashboard.tsx:214 | A blank artifact parses to no values. |
| JsonTree.Entries | web-ui/components/dashboard.tsx:69 | Array elements under their decimal indices, object fields in order, nothing for a scalar. |
| JsonTree.Children | web-ui/components/dashboard.tsx:89-91 | One child per entry. |
| JsonTree.Mount | web-ui/components/dashboard.tsx:30-31 | A node starts expanded exactly when its depth is below 2, and has children only when expanded and a container. |
| JsonTree.MountWellFormed | web-ui/components/dashboard.tsx:89-91 | A mounted tree agrees with its data: an expanded container has one child per entry, with the entry's key and value, one level deeper. |
| JsonTree.DefaultViewIsShallow | web-ui/components/dashboard.tsx:31 | The default view of a root tree shows no node deeper than 2. |
| JsonTree.Toggle | web-ui/components/dashboard.tsx:75 | A click keeps the node's key, value and depth. Below the clicked path, siblings are unchanged. |
| JsonTree.ToggleWellFormed | web-ui/components/dashboard.tsx:75-91 | A click keeps the tree in agreement with its data. |
| JsonTree.ToggleFlips | web-ui/components/dashboard.tsx:75 | A click flips the expansion of the clicked container. |
| JsonTree.DoubleToggleRestoresCollapsed | web-ui/components/dashboard.tsx:75-91 | Two clicks on a collapsed node restore the whole tree exactly. |
| JsonTree.CollapseForgetsBelow | web-ui/components/dashboard.tsx:89-91 | Two clicks on an expanded node bring its flag back but remount its children at their defaults. |
| JsonTree.CollapseForgetsExample | web-ui/components/dashboard.tsx:31-91 | In `[[1]]`, a collapsed inner array is expanded again after the root is collapsed and re-expanded. |
| JsonTree.ChevronOf | web-ui/components/dashboard.tsx:77-83 | An empty container shows a spacer instead of a chevron. |
| JsonTree.EmptyToggleInvisible | web-ui/components/dashboard.tsx:77-83 | Clicking an empty container changes nothing visible. |
| JsonTree.Badge | web-ui/components/dashboard.tsx:86 | `[n]` for an array and `{n}` for an object, with n the entry count. |
| JsonTree.ScalarColors | web-ui/components/dashboard.tsx:44-50 | Of `JsonTree.ValueColor`: every JSON scalar gets one of the four type colours: emerald exactly for strings, zinc-500 exactly for null. |
| JsonTree.ValueText | web-ui/components/dashboard.tsx:57 | Strings are shown in double quotes around the copied text; anything else is shown as the copied text. |
| JsonTree.ViewerRoot | web-ui/components/dashboard.tsx:437-438 | The tree is shown exactly for an array, rooted at "data" at depth 0 and expanded. |
| JsonTree.EmptyArtifactShowsRoot | web-ui/components/dashboard.tsx:437-438 | An empty array is truthy, so an empty artifact shows the root `data [0]` with no chevron. |
| Console.Initial | web-ui/components/dashboard.tsx:97-105 | No logs, not running, not connected, no data. |
| Console.NextInputs | web-ui/components/dashboard.tsx:145-163 | Of `Console.Next`: only the inputs change the URL and depth. Only the socket's open and close change the connection flag. |
| Console.NextRunning | web-ui/components/dashboard.tsx:116-201 | Of `Console.Next`: the job is marked running only by a Start click with a URL entered, and marked stopped only when a start, stop or poll request settles. |
| Console.NextViewer | web-ui/components/dashboard.tsx:207-230 | Of `Console.Next`: the viewer's data changes only when a download settles, and then the viewer is open. Only a settled download opens the viewer and only the close button closes it. |
| Console.NextLogs | web-ui/components/dashboard.tsx:145-163 | Every event keeps the logs as a prefix and appends at most one entry. |
| Console.RunLogs | web-ui/components/dashboard.tsx:145-163 | Over any run of events, the logs only grow, by at most one entry per event. |
| Console.MessagesInOrder | web-ui/components/dashboard.tsx:156-158 | Socket messages are appended verbatim and in arrival order, and nothing else changes. |
| Console.SocketEvents | web-ui/components/dashboard.tsx:145-163 | Open sets connected and appends the SYSTEM "Connected to log stream..." entry. Error appends one ERROR entry naming the socket address, shown red and highlighted, and leaves connected alone. Message appends the data. Close clears connected and appends nothing. |
| Console.StartNeedsUrl | web-ui/components/dashboard.tsx:177-178 | With an empty URL, Start does nothing. |
| Console.StartOutcome | web-ui/components/dashboard.tsx:177-192 | From idle, Start sets running before the request. When the request settles, running stays exactly when the response is ok. |
| Console.StopOutcome | web-ui/components/dashboard.tsx:194-201 | A resolved stop clears running whatever its status; a thrown stop leaves it. |
| Console.PollOnlyWhileRunning | web-ui/components/dashboard.tsx:113-114 | A poll is sent exactly while running. |
| Console.PollOutcome | web-ui/components/dashboard.tsx:116-133 | A reply reporting the job finished clears running and appends exactly one SYSTEM "Scraping completed!" entry. Any other reply changes nothing. |
| Console.FailedPollsAreSilent | web-ui/components/dashboard.tsx:118-132 | A thrown fetch, a non-ok reply, a `null` body and an unparsable body do not count as completion; `{is_running: false}` does. |
| Console.LatePollDuplicates | web-ui/components/dashboard.tsx:116-128 | Two polls in flight that both report completion append the completion entry twice. |
| Console.ViewDataOutcome | web-ui/components/dashboard.tsx:207-230 | A successful download opens the viewer on the parsed artifact, rooted at "data". A failure only ends loading. |
| Console.InitialConsistent | web-ui/components/dashboard.tsx:97-105 | The initial state is consistent. |
| Console.NextConsistent | web-ui/components/dashboard.tsx:207-230 | Every event keeps the state consistent: loading only with logs, data absent or an artifact, viewer open only over an artifact. |
| Console.OpenViewerShowsTree | web-ui/components/dashboard.tsx:437-438 | After any run from a consistent state, an open viewer shows the tree, never "No data available". |
| Console.Dashboard.constructor | web-ui/components/dashboard.tsx:13-20 | The initial state. The socket address is derived from the API base that the environment value selects, and from `http://localhost:8000` when that value is unset or empty. |
| Console.Dashboard.OnOpen | web-ui/components/dashboard.tsx:145-149 | Does what `Next` says for a socket open. |
| Console.Dashboard.OnError | web-ui/components/dashboard.tsx:151-154 | Does what `Next` says for a socket error. |
| Console.Dashboard.OnMessage | web-ui/components/dashboard.tsx:156-158 | Does what `Next` says for a socket message. |
| Console.Dashboard.OnClose | web-ui/components/dashboard.tsx:160-163 | Does what `Next` says for a socket close. |
| Console.Dashboard.EditUrl | web-ui/components/dashboard.tsx:306 | Sets the URL input. |
| Console.Dashboard.EditDepth | web-ui/components/dashboard.tsx:324 | Sets the depth input. |
| Console.Dashboard.ClickStart | web-ui/components/dashboard.tsx:177-186 | Does what `Next` says for a Start click. A request is sent exactly from idle with a URL, and its body carries the URL and the depth. |
| Console.Dashboard.SettleStart | web-ui/components/dashboard.tsx:186-191 | Does what `Next` says when a start request settles. |
| Console.Dashboard.ClickStop | web-ui/components/dashboard.tsx:194-196 | Does what `Next` says for a Stop click. |
| Console.Dashboard.SettleStop | web-ui/components/dashboard.tsx:196-200 | Does what `Next` says when a stop request settles. |
| Console.Dashboard.Tick | web-ui/components/dashboard.tsx:135 | Does what `Next` says for an interval tick. |
| Console.Dashboard.SettlePoll | web-ui/components/dashboard.tsx:116-133 | Does what `Next` says when a poll settles. |
| Console.Dashboard.ClickViewData | web-ui/components/dashboard.tsx:207-208 | Does what `Next` says for a View click. |
| Console.Dashboard.SettleViewData | web-ui/components/dashboard.tsx:209-229 | Does what `Next` says when the download settles. |
| Console.Dashboard.CloseViewer | web-ui/components/dashboard.tsx:425 | Does what `Next` says when the viewer is closed. |

## Left out

- The page scrapers, the HTML parser and the browser driver (backend/scraper/scraper.py, parser.py, driver_manager.py) are not part of this model. Their results enter only through the `Web` oracle, and whether `create_driver()` succeeds is a parameter.
- Crawl.Crawler.Start: exceptions are modelled only as escaping from a scrape call. Other exceptions, and `KeyboardInterrupt`, are not modelled. They end the crawl the same way: the loop stops and cleanup runs.
- Crawl.Crawler.Start: termination rests on the oracle's pages being a finite set that holds every returned link. An open-ended web is not modelled.
- The log lines the crawler writes ("Processing", "Extracted content", warnings) are not modelled. Only the list of pages whose content was logged is kept.
- `resolve_url` (`urljoin`), `get_random_user_agent`, logger setup, the `get_logger` cache, `Config` and `main.py` are not part of this model. The two configuration defaults are constants.
- `urlparse`, `urlunparse`, `JSON.parse`, `JSON.stringify`, `json.dumps` and `isoformat` are given functions. Their grammars are not modelled. Two properties are assumed, as predicates required by the lemmas that need them. One is the round trip of the console's own log records. The other is that the components `normalize_url` passes to `urlunparse`, which come from `urlparse` of a non-empty URL, parse back to themselves.
- UrlUtils.NormalizeParts: lower-cases ASCII letters only. Python's `str.lower()` also folds non-ASCII cased letters and can change the length of a string. The model does not capture either.
- The server's job thread is not modelled. The `/logs` tail loop and `/download` are file I/O and are not modelled either.
- Server.ScraperServer.StartScrape: "start accepted" and "job begins" are one atomic step. The window in which a second start can be accepted is not modelled. A crawler constructor that raises is not modelled either.
- Server.ScraperServer.RunJob: the crawl ends by returning. An exception escaping the crawler's constructor is not modelled. The `finally` reset is modelled.
- JSON numbers are integers. Floating point, and the `NaN` that `parseInt` gives for a cleared depth input, are not modelled.
- JsonTree.Entries: `Object.entries` puts integer-like object keys first. That reordering is not modelled: object fields keep their order.
- The per-node `isExpanded` state of `JsonNode` is modelled as a value tree that a click rebuilds. It is not a mutable object per node.
- The copy button's clipboard write and its 1.5 s acknowledgement, auto-scroll, `window.open` for downloads and locale time formatting are not modelled. CSS classes beyond the level and value colours are not modelled.
- The 3 s interval and its cancellation are reduced to ticks that send a poll only while running. Requests in flight are counted, so their replies can arrive in any order. Socket teardown on unmount is not modelled.
