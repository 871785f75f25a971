/** The state of the `Dashboard` component of web-ui/components/dashboard.tsx
    and the events that change it: the log-stream socket, the start and stop
    buttons and their requests, the status poll, and the artifact viewer.
    Every request is an event when it is sent and another when it settles,
    so replies may interleave with anything else; the counts of requests in
    flight are the model's own bookkeeping. `Next` is the meaning of one
    event; the `Dashboard` class performs the events in place. */
module Console {
  import opened Common
  import opened JsonValue
  import opened ConsoleView
  import opened JsonTree

  /** How a `fetch` settles: it throws, or a response arrives with its `ok`
      flag, the outcome of `res.json()` (`None` when that throws) and the
      outcome of `res.text()`. */
  datatype HttpResult = Thrown | Answered(ok: bool, json: Option<Json>, text: string)

  datatype State = State(
    url: string,
    maxDepth: int,
    logs: seq<string>,
    isRunning: bool,
    isConnected: bool,
    isLoadingJson: bool,
    jsonData: Json,
    showJsonViewer: bool,
    startsInFlight: nat,
    stopsInFlight: nat,
    pollsInFlight: nat)

  /** The `useState` initial values. */
  function Initial(): (s: State)
    ensures s.logs == [] && !s.isRunning && !s.isConnected && s.jsonData == Null
  {
    State("", 1, [], false, false, false, Null, false, 0, 0, 0)
  }

  datatype Event =
    | SocketOpen(now: string)
    | SocketError(now: string)
    | SocketMessage(data: string)
    | SocketClose
    | UrlEdited(newUrl: string)
    | DepthEdited(newDepth: int)
    | StartClicked
    | StartSettled(start: HttpResult)
    | StopClicked
    | StopSettled(stop: HttpResult)
    | PollTick
    | PollSettled(poll: HttpResult, at: string)
    | ViewDataClicked
    | ViewDataSettled(download: HttpResult)
    | ViewerClosed

  /** The entries the component itself writes into the log view. */
  function SystemLine(c: Codec, now: string, message: string): string {
    c.stringify(LogLine(now, "SYSTEM", message))
  }

  function ErrorLine(c: Codec, now: string, wsUrl: string): string {
    c.stringify(LogLine(now, "ERROR", "Connection failed to " + wsUrl))
  }

  /** A poll reply that reports the job finished: an ok response whose body
      parses and whose `is_running` is falsy. Reading a field of `null`
      throws, which the poll's `catch` swallows. */
  predicate Completed(r: HttpResult) {
    && r.Answered? && r.ok && r.json.Some?
    && !r.json.value.Null? && !Truthy(Get(r.json.value, "is_running"))
  }

  /** What one event does to the state. `c` is the JSON codec and `wsUrl`
      the socket address the component connected to. */
  function Next(c: Codec, wsUrl: string, s: State, e: Event): State {
    match e
    case SocketOpen(now) =>
      s.(isConnected := true, logs := s.logs + [SystemLine(c, now, "Connected to log stream...")])
    case SocketError(now) =>
      s.(logs := s.logs + [ErrorLine(c, now, wsUrl)])
    case SocketMessage(data) =>
      s.(logs := s.logs + [data])
    case SocketClose =>
      s.(isConnected := false)
    case UrlEdited(u) =>
      s.(url := u)
    case DepthEdited(d) =>
      s.(maxDepth := d)
    case StartClicked =>
      // the Start button is rendered only while idle; `handleStart` returns on an empty url
      if s.isRunning || s.url == "" then s
      else s.(isRunning := true, startsInFlight := s.startsInFlight + 1)
    case StartSettled(r) =>
      if s.startsInFlight == 0 then s
      else s.(startsInFlight := s.startsInFlight - 1,
              isRunning := if r.Answered? && r.ok then s.isRunning else false)
    case StopClicked =>
      // the Stop button is rendered only while running
      if !s.isRunning then s else s.(stopsInFlight := s.stopsInFlight + 1)
    case StopSettled(r) =>
      if s.stopsInFlight == 0 then s
      else s.(stopsInFlight := s.stopsInFlight - 1,
              isRunning := if r.Thrown? then s.isRunning else false)
    case PollTick =>
      // the interval exists only while running
      if s.isRunning then s.(pollsInFlight := s.pollsInFlight + 1) else s
    case PollSettled(r, now) =>
      if s.pollsInFlight == 0 then s
      else if Completed(r) then
        s.(pollsInFlight := s.pollsInFlight - 1, isRunning := false,
           logs := s.logs + [SystemLine(c, now, "Scraping completed!")])
      else s.(pollsInFlight := s.pollsInFlight - 1)
    case ViewDataClicked =>
      // the View button is disabled with no logs or while loading
      if |s.logs| == 0 || s.isLoadingJson then s else s.(isLoadingJson := true)
    case ViewDataSettled(r) =>
      if !s.isLoadingJson then s
      else if r.Answered? && r.ok then
        s.(isLoadingJson := false, jsonData := Arr(ParseArtifact(c, r.text)), showJsonViewer := true)
      else s.(isLoadingJson := false)
    case ViewerClosed =>
      s.(showJsonViewer := false)
  }

  /** The URL and depth fields change only through their inputs, and the
      connection flag only when the socket opens or closes. */
  lemma NextInputs(c: Codec, wsUrl: string, s: State, e: Event)
    ensures var r := Next(c, wsUrl, s, e);
      && r.url == (if e.UrlEdited? then e.newUrl else s.url)
      && r.maxDepth == (if e.DepthEdited? then e.newDepth else s.maxDepth)
      && r.isConnected == (if e.SocketOpen? then true else if e.SocketClose? then false else s.isConnected)
  {
  }

  /** A crawl is marked running only by a click on Start with a URL entered,
      and marked stopped only when a start, stop or status request settles. */
  lemma NextRunning(c: Codec, wsUrl: string, s: State, e: Event)
    ensures var r := Next(c, wsUrl, s, e);
      && (r.isRunning && !s.isRunning ==> e.StartClicked? && s.url != "")
      && (!r.isRunning && s.isRunning ==> e.StartSettled? || e.StopSettled? || e.PollSettled?)
  {
  }

  /** The viewer's data changes only when a download settles, which also
      opens the viewer; only the close button closes it. */
  lemma NextViewer(c: Codec, wsUrl: string, s: State, e: Event)
    ensures var r := Next(c, wsUrl, s, e);
      && (r.jsonData != s.jsonData ==> e.ViewDataSettled? && r.showJsonViewer)
      && (r.showJsonViewer && !s.showJsonViewer ==> e.ViewDataSettled?)
      && (!r.showJsonViewer && s.showJsonViewer ==> e.ViewerClosed?)
  {
  }

  /** A sequence of events, in order. */
  function Run(c: Codec, wsUrl: string, s: State, events: seq<Event>): State
    decreases |events|
  {
    if events == [] then s else Run(c, wsUrl, Next(c, wsUrl, s, events[0]), events[1..])
  }

  /** One event appends at most one entry to the log view and never removes
      or reorders the entries already there. */
  lemma NextLogs(c: Codec, wsUrl: string, s: State, e: Event)
    ensures s.logs <= Next(c, wsUrl, s, e).logs
    ensures |Next(c, wsUrl, s, e).logs| <= |s.logs| + 1
  {
    if !(e.SocketOpen? || e.SocketError? || e.SocketMessage? || e.PollSettled?) {
      assert Next(c, wsUrl, s, e).logs == s.logs;
    }
  }

  /** Over any run the log view only grows, by at most one entry per event. */
  lemma {:induction false} RunLogs(c: Codec, wsUrl: string, s: State, events: seq<Event>)
    ensures s.logs <= Run(c, wsUrl, s, events).logs
    ensures |Run(c, wsUrl, s, events).logs| <= |s.logs| + |events|
    decreases |events|
  {
    if events != [] {
      var s1 := Next(c, wsUrl, s, events[0]);
      NextLogs(c, wsUrl, s, events[0]);
      RunLogs(c, wsUrl, s1, events[1..]);
    }
  }

  function Messages(ds: seq<string>): (es: seq<Event>)
    ensures |es| == |ds| && forall i :: 0 <= i < |ds| ==> es[i] == SocketMessage(ds[i])
  {
    seq(|ds|, i requires 0 <= i < |ds| => SocketMessage(ds[i]))
  }

  /** Socket messages are appended verbatim and in arrival order. */
  lemma {:induction false} MessagesInOrder(c: Codec, wsUrl: string, s: State, ds: seq<string>)
    ensures Run(c, wsUrl, s, Messages(ds)).logs == s.logs + ds
    ensures Run(c, wsUrl, s, Messages(ds)) == s.(logs := s.logs + ds)
    decreases |ds|
  {
    if ds != [] {
      var s1 := Next(c, wsUrl, s, SocketMessage(ds[0]));
      assert Messages(ds)[1..] == Messages(ds[1..]);
      MessagesInOrder(c, wsUrl, s1, ds[1..]);
      assert s1.logs + ds[1..] == s.logs + ds;
    }
  }

  /** The four socket handlers. An error is reported in the log view as a
      highlighted red row but leaves the connection flag alone; a close
      clears the flag and writes nothing. */
  lemma SocketEvents(c: Codec, wsUrl: string, s: State, now: string, data: string)
    requires RoundTripsLogLines(c)
    ensures var t := Next(c, wsUrl, s, SocketOpen(now));
      t.isConnected && t.logs == s.logs + [SystemLine(c, now, "Connected to log stream...")]
      && DisplayEntry(c, t.logs[|s.logs|], now) == LogLine(now, "SYSTEM", "Connected to log stream...")
    ensures var t := Next(c, wsUrl, s, SocketError(now));
      t.isConnected == s.isConnected && |t.logs| == |s.logs| + 1
      && DisplayEntry(c, t.logs[|s.logs|], now) == LogLine(now, "ERROR", "Connection failed to " + wsUrl)
      && StyleOf(DisplayEntry(c, t.logs[|s.logs|], now)) == Some(RowStyle(ErrorClass, true))
    ensures Next(c, wsUrl, s, SocketMessage(data)).logs == s.logs + [data]
    ensures Next(c, wsUrl, s, SocketClose) == s.(isConnected := false)
  {
    OwnLinesStyled(c, now, "SYSTEM", "Connected to log stream...", now);
    OwnLinesStyled(c, now, "ERROR", "Connection failed to " + wsUrl, now);
  }

  /** With an empty url a click on Start does nothing. */
  lemma StartNeedsUrl(c: Codec, wsUrl: string, s: State)
    requires s.url == ""
    ensures Next(c, wsUrl, s, StartClicked) == s
  {
  }

  /** A start from idle sets running before the request, and its settling
      turns it off again exactly when the request threw or was not ok. */
  lemma StartOutcome(c: Codec, wsUrl: string, s: State, r: HttpResult)
    requires !s.isRunning && s.url != ""
    ensures var s1 := Next(c, wsUrl, s, StartClicked);
      && s1.isRunning && s1.logs == s.logs
      && (Next(c, wsUrl, s1, StartSettled(r)).isRunning <==> r.Answered? && r.ok)
  {
  }

  /** A settled stop clears running whatever the reply's status; a thrown
      stop leaves it as it was. Nothing else changes. */
  lemma StopOutcome(c: Codec, wsUrl: string, s: State, r: HttpResult)
    requires s.stopsInFlight > 0
    ensures var t := Next(c, wsUrl, s, StopSettled(r));
      && (t.isRunning <==> s.isRunning && r.Thrown?)
      && t == s.(stopsInFlight := s.stopsInFlight - 1, isRunning := t.isRunning)
  {
  }

  /** Polls are sent only while running. */
  lemma PollOnlyWhileRunning(c: Codec, wsUrl: string, s: State)
    ensures Next(c, wsUrl, s, PollTick).pollsInFlight > s.pollsInFlight <==> s.isRunning
    ensures !s.isRunning ==> Next(c, wsUrl, s, PollTick) == s
  {
  }

  /** A poll that reports the job finished clears running and appends exactly
      one completion entry, shown as a SYSTEM row; any other reply changes
      nothing but the count of polls in flight. */
  lemma PollOutcome(c: Codec, wsUrl: string, s: State, r: HttpResult, now: string)
    requires RoundTripsLogLines(c)
    requires s.pollsInFlight > 0
    ensures var t := Next(c, wsUrl, s, PollSettled(r, now));
      && (Completed(r) ==>
            && !t.isRunning && t.logs == s.logs + [SystemLine(c, now, "Scraping completed!")]
            && DisplayEntry(c, t.logs[|s.logs|], now) == LogLine(now, "SYSTEM", "Scraping completed!")
            && StyleOf(DisplayEntry(c, t.logs[|s.logs|], now)) == Some(RowStyle(OtherClass, false)))
      && (!Completed(r) ==> t == s.(pollsInFlight := s.pollsInFlight - 1))
  {
    OwnLinesStyled(c, now, "SYSTEM", "Scraping completed!", now);
  }

  /** A thrown poll, a non-ok reply and a `null` body are all swallowed. */
  lemma FailedPollsAreSilent(v: Json)
    ensures !Completed(Thrown)
    ensures !Completed(Answered(false, Some(v), ""))
    ensures !Completed(Answered(true, Some(Null), ""))
    ensures !Completed(Answered(true, None, ""))
    ensures Completed(Answered(true, Some(Obj([("is_running", Bool(false))])), ""))
  {
    assert Lookup([("is_running", Bool(false))], "is_running") == Some(Bool(false));
  }

  /** Nothing rechecks `isRunning` when a poll settles: two polls in flight
      that both report the job finished write the completion entry twice. */
  lemma LatePollDuplicates(c: Codec, wsUrl: string, s: State, r1: HttpResult, r2: HttpResult, now1: string, now2: string)
    requires s.pollsInFlight == 2 && Completed(r1) && Completed(r2)
    ensures Run(c, wsUrl, s, [PollSettled(r1, now1), PollSettled(r2, now2)]).logs
      == s.logs + [SystemLine(c, now1, "Scraping completed!"), SystemLine(c, now2, "Scraping completed!")]
  {
    var s1 := Next(c, wsUrl, s, PollSettled(r1, now1));
    var s2 := Next(c, wsUrl, s1, PollSettled(r2, now2));
    assert [PollSettled(r1, now1), PollSettled(r2, now2)][1..] == [PollSettled(r2, now2)];
    assert Run(c, wsUrl, s1, [PollSettled(r2, now2)]) == Run(c, wsUrl, s2, []);
  }

  /** A successful download opens the viewer on the parsed artifact; any
      failure only ends the loading state. */
  lemma ViewDataOutcome(c: Codec, wsUrl: string, s: State, r: HttpResult)
    requires s.isLoadingJson
    ensures var t := Next(c, wsUrl, s, ViewDataSettled(r));
      && !t.isLoadingJson
      && (r.Answered? && r.ok ==> t.showJsonViewer && t.jsonData == Arr(ParseArtifact(c, r.text))
                                  && ViewerRoot(t.jsonData) == Some(Mount("data", t.jsonData, 0)))
      && (!(r.Answered? && r.ok) ==> t == s.(isLoadingJson := false))
  {
  }

  /** The effect of a settled download, case by case. */
  lemma DownloadStep(c: Codec, wsUrl: string, s: State, r: HttpResult)
    ensures Next(c, wsUrl, s, ViewDataSettled(r)) ==
      if !s.isLoadingJson then s
      else if r.Answered? && r.ok then
        s.(isLoadingJson := false, jsonData := Arr(ParseArtifact(c, r.text)), showJsonViewer := true)
      else s.(isLoadingJson := false)
  {
  }

  /** What the component keeps true between events: it loads data only once
      there are logs, holds either nothing or a parsed artifact, and shows the
      viewer only over an artifact. */
  ghost predicate Consistent(s: State) {
    && (s.isLoadingJson ==> |s.logs| > 0)
    && (s.jsonData.Null? || s.jsonData.Arr?)
    && (s.showJsonViewer ==> s.jsonData.Arr?)
  }

  lemma InitialConsistent()
    ensures Consistent(Initial())
  {
  }

  lemma NextConsistent(c: Codec, wsUrl: string, s: State, e: Event)
    requires Consistent(s)
    ensures Consistent(Next(c, wsUrl, s, e))
  {
  }

  /** From the initial state, the open viewer always shows the tree rooted at
      "data", never "No data available". */
  lemma {:induction false} OpenViewerShowsTree(c: Codec, wsUrl: string, s: State, events: seq<Event>)
    requires Consistent(s)
    ensures Consistent(Run(c, wsUrl, s, events))
    ensures Run(c, wsUrl, s, events).showJsonViewer ==> ViewerRoot(Run(c, wsUrl, s, events).jsonData).Some?
    decreases |events|
  {
    if events != [] {
      NextConsistent(c, wsUrl, s, events[0]);
      OpenViewerShowsTree(c, wsUrl, Next(c, wsUrl, s, events[0]), events[1..]);
    }
  }

  /** The component as a mutable object: one method per event, each proved to
      do what `Next` says. */
  class Dashboard {
    const codec: Codec
    const wsUrl: string

    var url: string
    var maxDepth: int
    var logs: seq<string>
    var isRunning: bool
    var isConnected: bool
    var isLoadingJson: bool
    var jsonData: Json
    var showJsonViewer: bool
    var startsInFlight: nat
    var stopsInFlight: nat
    var pollsInFlight: nat

    function Snapshot(): State
      reads this
    {
      State(url, maxDepth, logs, isRunning, isConnected, isLoadingJson, jsonData, showJsonViewer,
            startsInFlight, stopsInFlight, pollsInFlight)
    }

    /** Mounting the component: `env` is `NEXT_PUBLIC_API_URL`, and the
        socket address is derived from the API base it selects. */
    constructor (codec: Codec, env: Option<string>)
      ensures this.codec == codec && wsUrl == WebSocketUrl(ApiBaseUrl(env))
      ensures env.None? || env.value == "" ==> wsUrl == WebSocketUrl(DefaultApiBase)
      ensures Snapshot() == Initial()
    {
      this.codec := codec;
      wsUrl := WebSocketUrl(ApiBaseUrl(env));
      url, maxDepth, logs := "", 1, [];
      isRunning, isConnected, isLoadingJson := false, false, false;
      jsonData, showJsonViewer := Null, false;
      startsInFlight, stopsInFlight, pollsInFlight := 0, 0, 0;
    }

    method OnOpen(now: string)
      modifies this
      ensures Snapshot() == Next(codec, wsUrl, old(Snapshot()), SocketOpen(now))
    {
      isConnected := true;
      logs := logs + [SystemLine(codec, now, "Connected to log stream...")];
    }

    method OnError(now: string)
      modifies this
      ensures Snapshot() == Next(codec, wsUrl, old(Snapshot()), SocketError(now))
    {
      logs := logs + [ErrorLine(codec, now, wsUrl)];
    }

    method OnMessage(data: string)
      modifies this
      ensures Snapshot() == Next(codec, wsUrl, old(Snapshot()), SocketMessage(data))
    {
      logs := logs + [data];
    }

    method OnClose()
      modifies this
      ensures Snapshot() == Next(codec, wsUrl, old(Snapshot()), SocketClose)
    {
      isConnected := false;
    }

    method EditUrl(u: string)
      modifies this
      ensures Snapshot() == Next(codec, wsUrl, old(Snapshot()), UrlEdited(u))
    {
      url := u;
    }

    method EditDepth(d: int)
      modifies this
      ensures Snapshot() == Next(codec, wsUrl, old(Snapshot()), DepthEdited(d))
    {
      maxDepth := d;
    }

    /** `handleStart` up to its request; the request body, when one is sent,
        carries the url and depth. */
    method ClickStart() returns (request: Option<Json>)
      modifies this
      ensures Snapshot() == Next(codec, wsUrl, old(Snapshot()), StartClicked)
      ensures request.Some? <==> !old(isRunning) && old(url) != ""
      ensures request.Some? ==> request.value == Obj([("url", Str(url)), ("max_depth", Num(maxDepth))])
    {
      if isRunning || url == "" {
        return None;
      }
      isRunning := true;
      startsInFlight := startsInFlight + 1;
      request := Some(Obj([("url", Str(url)), ("max_depth", Num(maxDepth))]));
    }

    method SettleStart(r: HttpResult)
      modifies this
      ensures Snapshot() == Next(codec, wsUrl, old(Snapshot()), StartSettled(r))
    {
      if startsInFlight > 0 {
        startsInFlight := startsInFlight - 1;
        if !(r.Answered? && r.ok) {
          isRunning := false;
        }
      }
    }

    method ClickStop()
      modifies this
      ensures Snapshot() == Next(codec, wsUrl, old(Snapshot()), StopClicked)
    {
      if isRunning {
        stopsInFlight := stopsInFlight + 1;
      }
    }

    method SettleStop(r: HttpResult)
      modifies this
      ensures Snapshot() == Next(codec, wsUrl, old(Snapshot()), StopSettled(r))
    {
      if stopsInFlight > 0 {
        stopsInFlight := stopsInFlight - 1;
        if !r.Thrown? {
          isRunning := false;
        }
      }
    }

    method Tick()
      modifies this
      ensures Snapshot() == Next(codec, wsUrl, old(Snapshot()), PollTick)
    {
      if isRunning {
        pollsInFlight := pollsInFlight + 1;
      }
    }

    method SettlePoll(r: HttpResult, now: string)
      modifies this
      ensures Snapshot() == Next(codec, wsUrl, old(Snapshot()), PollSettled(r, now))
    {
      if pollsInFlight > 0 {
        pollsInFlight := pollsInFlight - 1;
        if Completed(r) {
          isRunning := false;
          logs := logs + [SystemLine(codec, now, "Scraping completed!")];
        }
      }
    }

    method ClickViewData()
      modifies this
      ensures Snapshot() == Next(codec, wsUrl, old(Snapshot()), ViewDataClicked)
    {
      if |logs| > 0 && !isLoadingJson {
        isLoadingJson := true;
      }
    }

    method SettleViewData(r: HttpResult)
      modifies this
      ensures Snapshot() == Next(codec, wsUrl, old(Snapshot()), ViewDataSettled(r))
    {
      DownloadStep(codec, wsUrl, Snapshot(), r);
      if isLoadingJson {
        if r.Answered? && r.ok {
          jsonData := Arr(ParseArtifact(codec, r.text));
          showJsonViewer := true;
        }
        isLoadingJson := false;
      }
    }

    method CloseViewer()
      modifies this
      ensures Snapshot() == Next(codec, wsUrl, old(Snapshot()), ViewerClosed)
    {
      showJsonViewer := false;
    }
  }
}
