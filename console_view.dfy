/** The pure helpers of the operator console (web-ui/components/dashboard.tsx):
    the API and WebSocket addresses, the display normaliser for log lines, the
    level styling of a log row, and the line-by-line parse of the downloaded
    artifact. */
module ConsoleView {
  import opened Common
  import opened JsonValue

  /** `API_BASE_URL` when `NEXT_PUBLIC_API_URL` is unset or empty. */
  const DefaultApiBase: string := "http://localhost:8000"

  /** `process.env.NEXT_PUBLIC_API_URL || "http://localhost:8000"`. */
  function ApiBaseUrl(env: Option<string>): (r: string)
    ensures r != ""
    ensures env.Some? && env.value != "" ==> r == env.value
    ensures env.None? || env.value == "" ==> r == DefaultApiBase
  {
    if env.Some? && env.value != "" then env.value else DefaultApiBase
  }

  /** JavaScript `s.replace(pat, rep)` with a string pattern: only the first
      occurrence is replaced; without one the string is returned as it is. */
  function ReplaceFirst(s: string, pat: string, rep: string): string
    decreases |s|
  {
    if StartsWith(s, pat) then rep + s[|pat|..]
    else if s == [] then []
    else [s[0]] + ReplaceFirst(s[1..], pat, rep)
  }

  /** Without an occurrence of the pattern, nothing is replaced. */
  lemma {:induction false} ReplaceFirstAbsent(s: string, pat: string, rep: string)
    requires forall i :: 0 <= i <= |s| ==> !OccursAt(s, pat, i)
    ensures ReplaceFirst(s, pat, rep) == s
    decreases |s|
  {
    assert !OccursAt(s, pat, 0);
    if |pat| <= |s| {
      assert s[..|pat|] == s[0..0 + |pat|];
    }
    if s != [] {
      forall i | 0 <= i <= |s[1..]| ensures !OccursAt(s[1..], pat, i) {
        assert !OccursAt(s, pat, i + 1);
        if i + |pat| <= |s[1..]| {
          assert s[1..][i..i + |pat|] == s[i + 1..i + 1 + |pat|];
        }
      }
      ReplaceFirstAbsent(s[1..], pat, rep);
    }
  }

  /** The first occurrence, at `i`, is the one replaced. */
  lemma {:induction false} ReplaceFirstAt(s: string, pat: string, rep: string, i: nat)
    requires OccursAt(s, pat, i)
    requires forall j :: 0 <= j < i ==> !OccursAt(s, pat, j)
    ensures ReplaceFirst(s, pat, rep) == s[..i] + rep + s[i + |pat|..]
    decreases i
  {
    if i == 0 {
      assert s[..|pat|] == s[0..0 + |pat|];
    } else {
      assert !OccursAt(s, pat, 0);
      assert s[..|pat|] == s[0..0 + |pat|];
      var t := s[1..];
      assert t[i - 1..i - 1 + |pat|] == s[i..i + |pat|];
      forall j | 0 <= j < i - 1 ensures !OccursAt(t, pat, j) {
        assert !OccursAt(s, pat, j + 1);
        if j + |pat| <= |t| {
          assert t[j..j + |pat|] == s[j + 1..j + 1 + |pat|];
        }
      }
      ReplaceFirstAt(t, pat, rep, i - 1);
      assert [s[0]] + t[..i - 1] == s[..i];
      assert t[i - 1 + |pat|..] == s[i + |pat|..];
    }
  }

  /** `getWebSocketUrl()`: an `https` base has its first "https" turned into
      "wss"; any other base has its first "http", wherever it is, turned into
      "ws"; then "/logs" is appended. */
  function WebSocketUrl(base: string): (r: string)
    ensures EndsWith(r, "/logs")
  {
    var r := (if StartsWith(base, "https") then ReplaceFirst(base, "https", "wss")
              else ReplaceFirst(base, "http", "ws")) + "/logs";
    assert r[|r| - 5..] == "/logs";
    r
  }

  /** An `https` base becomes a `wss` address for the same host and path. */
  lemma WebSocketUrlSecure(base: string)
    requires StartsWith(base, "https")
    ensures WebSocketUrl(base) == "wss" + base[5..] + "/logs"
  {
    assert base[..5] == "https";
  }

  /** Any other base has its first "http" turned into "ws", even one inside
      the host or path, and is kept whole when it has none. */
  lemma WebSocketUrlPlain(base: string, i: nat)
    requires !StartsWith(base, "https")
    requires OccursAt(base, "http", i) && forall j :: 0 <= j < i ==> !OccursAt(base, "http", j)
    ensures WebSocketUrl(base) == base[..i] + "ws" + base[i + 4..] + "/logs"
  {
    ReplaceFirstAt(base, "http", "ws", i);
  }

  lemma WebSocketUrlNoScheme(base: string)
    requires forall i :: 0 <= i <= |base| ==> !OccursAt(base, "http", i)
    ensures WebSocketUrl(base) == base + "/logs"
  {
    assert !OccursAt(base, "http", 0);
    ReplaceFirstAbsent(base, "http", "ws");
  }

  /** A base that starts with "http" but not "https" has exactly that prefix
      turned into "ws". */
  lemma WebSocketUrlHttp(rest: string)
    requires rest == [] || rest[0] != 's'
    ensures WebSocketUrl("http" + rest) == "ws" + rest + "/logs"
  {
    var base := "http" + rest;
    assert !StartsWith(base, "https") by {
      if |base| >= 5 { assert base[4] == rest[0]; assert base[..5][4] == base[4]; }
    }
    assert base[..4] == "http";
    assert OccursAt(base, "http", 0);
    WebSocketUrlPlain(base, 0);
    assert base[..0] + "ws" + base[4..] + "/logs" == "ws" + rest + "/logs" by {
      assert base[..0] == [] && base[4..] == rest;
    }
  }

  /** The default base is "http" followed by the host part. */
  lemma DefaultApiBaseParts()
    ensures DefaultApiBase == "http" + "://localhost:8000"
  {
  }

  /** The default socket address spelled out from its parts. */
  lemma DefaultSocketParts()
    ensures "ws" + "://localhost:8000" + "/logs" == "ws://localhost:8000/logs"
  {
  }

  /** The default base gives the default socket address. */
  lemma DefaultWebSocketUrl()
    ensures WebSocketUrl(DefaultApiBase) == "ws://localhost:8000/logs"
  {
    DefaultApiBaseParts();
    WebSocketUrlHttp("://localhost:8000");
    DefaultSocketParts();
  }

  /** The record shown for a log string that does not parse. */
  function RawEntry(s: string, now: string): Json {
    Obj([("message", Str(s)), ("level", Str("RAW")), ("timestamp", Str(now))])
  }

  /** One element of `parsedLogs`: the parsed value as it is, or the RAW record. */
  function DisplayEntry(c: Codec, s: string, now: string): (r: Json)
    ensures c.parse(s).Some? ==> r == c.parse(s).value
    ensures c.parse(s).None? ==> r.Obj? && Lookup(r.fields, "message") == Some(Str(s))
  {
    match c.parse(s)
    case Some(v) => v
    case None =>
      var r := RawEntry(s, now);
      assert r.fields[..2] == [("message", Str(s)), ("level", Str("RAW"))];
      assert r.fields[..2][..1] == [("message", Str(s))];
      assert Lookup(r.fields[..2], "message") == Some(Str(s));
      r
  }

  /** `parsedLogs`: one display entry per log string, in order. `now` is the
      time of the render. */
  function DisplayLogs(c: Codec, logs: seq<string>, now: string): (r: seq<Json>)
    ensures |r| == |logs|
    ensures forall i :: 0 <= i < |logs| ==> r[i] == DisplayEntry(c, logs[i], now)
  {
    if logs == [] then []
    else DisplayLogs(c, logs[..|logs| - 1], now) + [DisplayEntry(c, logs[|logs| - 1], now)]
  }

  /** A string that does not parse is shown at level RAW with its text kept. */
  lemma RawKeepsText(c: Codec, s: string, now: string)
    requires c.parse(s).None?
    ensures DisplayEntry(c, s, now) == RawEntry(s, now)
    ensures Get(DisplayEntry(c, s, now), "level") == Some(Str("RAW"))
  {
    var f := RawEntry(s, now).fields;
    assert f[..2] == [("message", Str(s)), ("level", Str("RAW"))];
    assert Lookup(f[..2], "level") == Some(Str("RAW"));
  }

  /** The classes of the level cell of a log row. */
  const ErrorClass: string := "text-red-500"
  const WarningClass: string := "text-amber-500"
  const InfoClass: string := "text-emerald-500"
  const OtherClass: string := "text-blue-400"

  /** How a log row is drawn: the class of its level cell, and whether the
      whole row carries the red error highlight. */
  datatype RowStyle = RowStyle(levelClass: string, highlighted: bool)

  /** The styling of a displayed entry, by strict equality of `log.level`
      with "ERROR", "WARNING" or "INFO". `None` when the entry is `null`: the
      row reads `log.level`, which throws on `null`. */
  function StyleOf(log: Json): (r: Option<RowStyle>)
    ensures r.None? <==> log.Null?
    ensures r.Some? ==> (r.value.highlighted <==> Get(log, "level") == Some(Str("ERROR")))
    ensures r.Some? ==> (r.value.levelClass == ErrorClass <==> Get(log, "level") == Some(Str("ERROR")))
    ensures r.Some? ==> (r.value.levelClass == WarningClass <==> Get(log, "level") == Some(Str("WARNING")))
    ensures r.Some? ==> (r.value.levelClass == InfoClass <==> Get(log, "level") == Some(Str("INFO")))
    ensures r.Some? ==> (r.value.levelClass == OtherClass <==>
              Get(log, "level") !in {Some(Str("ERROR")), Some(Str("WARNING")), Some(Str("INFO"))})
  {
    if log.Null? then None
    else
      var level := Get(log, "level");
      if level == Some(Str("ERROR")) then Some(RowStyle(ErrorClass, true))
      else if level == Some(Str("WARNING")) then Some(RowStyle(WarningClass, false))
      else if level == Some(Str("INFO")) then Some(RowStyle(InfoClass, false))
      else Some(RowStyle(OtherClass, false))
  }

  /** A string that does not parse is drawn in the neutral colour. */
  lemma RawIsNeutral(c: Codec, s: string, now: string)
    requires c.parse(s).None?
    ensures StyleOf(DisplayEntry(c, s, now)) == Some(RowStyle(OtherClass, false))
  {
    RawKeepsText(c, s, now);
  }

  /** The console's own lines, built with `JSON.stringify`, come back from the
      display normaliser as the records they were, and are styled by level:
      an ERROR line is highlighted, a SYSTEM line is neutral. */
  lemma OwnLinesStyled(c: Codec, t: string, level: string, m: string, now: string)
    requires RoundTripsLogLines(c)
    ensures DisplayEntry(c, c.stringify(LogLine(t, level, m)), now) == LogLine(t, level, m)
    ensures level == "ERROR" ==> StyleOf(LogLine(t, level, m)) == Some(RowStyle(ErrorClass, true))
    ensures level == "SYSTEM" ==> StyleOf(LogLine(t, level, m)) == Some(RowStyle(OtherClass, false))
  {
    var f := LogLine(t, level, m).fields;
    assert f[..2] == [("timestamp", Str(t)), ("level", Str(level))];
    assert Lookup(f, "level") == Some(Str(level));
  }

  /** The whitespace that JavaScript's `String.prototype.trim` removes. */
  predicate IsSpace(ch: char) {
    || ch in {'\t', '\n', '\U{000B}', '\U{000C}', '\r', ' ', '\U{00A0}', '\U{1680}'}
    || ('\U{2000}' <= ch <= '\U{200A}')
    || ch in {'\U{2028}', '\U{2029}', '\U{202F}', '\U{205F}', '\U{3000}', '\U{FEFF}'}
  }

  /** `trimStart()`: the text after its leading whitespace. */
  function TrimStart(s: string): (r: string)
    ensures |r| <= |s| && r == s[|s| - |r|..]
    ensures r == [] || !IsSpace(r[0])
  {
    if s != [] && IsSpace(s[0]) then TrimStart(s[1..]) else s
  }

  /** Everything `trimStart()` removes is whitespace. */
  lemma {:induction false} TrimStartRemovesSpace(s: string)
    ensures forall i :: 0 <= i < |s| - |TrimStart(s)| ==> IsSpace(s[i])
  {
    if s != [] && IsSpace(s[0]) {
      TrimStartRemovesSpace(s[1..]);
      forall i | 0 < i < |s| - |TrimStart(s)| ensures IsSpace(s[i]) {
        assert s[i] == s[1..][i - 1];
      }
    }
  }

  /** `trimEnd()`: the text before its trailing whitespace. */
  function TrimEnd(s: string): (r: string)
    ensures |r| <= |s| && r == s[..|r|]
    ensures r == [] || !IsSpace(r[|r| - 1])
  {
    if s != [] && IsSpace(s[|s| - 1]) then TrimEnd(s[..|s| - 1]) else s
  }

  /** Everything `trimEnd()` removes is whitespace. */
  lemma {:induction false} TrimEndRemovesSpace(s: string)
    ensures forall i :: |TrimEnd(s)| <= i < |s| ==> IsSpace(s[i])
  {
    if s != [] && IsSpace(s[|s| - 1]) {
      TrimEndRemovesSpace(s[..|s| - 1]);
      forall i | |TrimEnd(s)| <= i < |s| - 1 ensures IsSpace(s[i]) {
        assert s[i] == s[..|s| - 1][i];
      }
    }
  }

  /** `text.trim()`: the text with the whitespace at both ends removed; the
      result has no whitespace at either end. */
  function Trim(s: string): (r: string)
    ensures |r| <= |s|
    ensures r == [] || (!IsSpace(r[0]) && !IsSpace(r[|r| - 1]))
  {
    TrimEnd(TrimStart(s))
  }

  /** `trim()` removes whitespace and nothing else: its result is one slice of
      the text, with only whitespace before and after it. */
  lemma TrimRemovesSpace(s: string)
    ensures exists a, b :: 0 <= a <= b <= |s| && Trim(s) == s[a..b] && Cut(s, a, b)
  {
    var t := TrimStart(s);
    var r := TrimEnd(t);
    TrimStartRemovesSpace(s);
    TrimEndRemovesSpace(t);
    TrimCut(s, t, r);
    var a := |s| - |t|;
    assert Trim(s) == s[a..a + |r|] && Cut(s, a, a + |r|);
  }

  /** Everything before `a` and from `b` on is whitespace. */
  predicate Cut(s: string, a: int, b: int) {
    (forall i :: 0 <= i < a && i < |s| ==> IsSpace(s[i]))
    && (forall i :: b <= i < |s| && 0 <= i ==> IsSpace(s[i]))
  }

  /** Cutting leading whitespace and then trailing whitespace leaves one
      slice of the text with only whitespace around it. */
  lemma TrimCut(s: string, t: string, r: string)
    requires |t| <= |s| && t == s[|s| - |t|..] && Cut(s, |s| - |t|, |s|)
    requires |r| <= |t| && r == t[..|r|] && Cut(t, 0, |r|)
    ensures var a := |s| - |t|; r == s[a..a + |r|] && Cut(s, a, a + |r|)
  {
    var a := |s| - |t|;
    assert s[a..][..|r|] == s[a..a + |r|];
    forall i | a + |r| <= i < |s| ensures IsSpace(s[i]) {
      assert s[i] == t[i - a];
    }
  }

  /** `s.split("\n")`: the pieces between newlines, in order. */
  function Split(s: string): (r: seq<string>)
    ensures |r| >= 1
    ensures forall i :: 0 <= i < |r| ==> '\n' !in r[i]
  {
    if s == [] then [""]
    else
      var rest := Split(s[1..]);
      if s[0] == '\n' then [""] + rest else [[s[0]] + rest[0]] + rest[1..]
  }

  /** `pieces.join("\n")`. */
  function Join(pieces: seq<string>): string
    requires |pieces| >= 1
  {
    if |pieces| == 1 then pieces[0] else pieces[0] + "\n" + Join(pieces[1..])
  }

  /** Splitting loses nothing: joining the pieces again gives the text back. */
  lemma {:induction false} SplitJoin(s: string)
    ensures Join(Split(s)) == s
  {
    if s != [] {
      SplitJoin(s[1..]);
      var rest := Split(s[1..]);
      if s[0] != '\n' && |rest| > 1 {
        assert ([s[0]] + rest[0]) + "\n" + Join(rest[1..]) == [s[0]] + (rest[0] + "\n" + Join(rest[1..]));
      }
    }
  }

  /** `.filter(Boolean)`: the non-empty lines, in order. */
  function NonEmpty(lines: seq<string>): (r: seq<string>)
    ensures |r| <= |lines|
    ensures forall i :: 0 <= i < |r| ==> r[i] != ""
  {
    if lines == [] then []
    else
      var init := NonEmpty(lines[..|lines| - 1]);
      init + (if lines[|lines| - 1] != "" then [lines[|lines| - 1]] else [])
  }

  /** The kept lines are exactly the non-empty lines of the input. */
  lemma {:induction false} NonEmptyMembers(lines: seq<string>)
    ensures forall x :: x in NonEmpty(lines) <==> x in lines && x != ""
  {
    if lines != [] {
      var init := lines[..|lines| - 1];
      NonEmptyMembers(init);
      assert lines == init + [lines[|lines| - 1]];
    }
  }

  /** Filtering distributes over concatenation: the kept lines of two
      blocks are those of the first followed by those of the second, so the
      filter keeps every non-empty line in its original order. */
  lemma {:induction false} NonEmptyAppend(a: seq<string>, b: seq<string>)
    ensures NonEmpty(a + b) == NonEmpty(a) + NonEmpty(b)
    decreases |b|
  {
    if b == [] {
      assert a + b == a;
    } else {
      var b' := b[..|b| - 1];
      var x := b[|b| - 1];
      assert (a + b)[..|a + b| - 1] == a + b';
      assert b[..|b| - 1] == b';
      NonEmptyAppend(a, b');
    }
  }

  /** A single line is kept exactly when it is non-empty. */
  lemma NonEmptySingle(x: string)
    ensures NonEmpty([x]) == if x != "" then [x] else []
  {
    assert [x][..0] == [];
  }

  /** Lines that are all non-empty pass the filter unchanged. */
  lemma {:induction false} NonEmptyKeepsAll(lines: seq<string>)
    requires forall i :: 0 <= i < |lines| ==> lines[i] != ""
    ensures NonEmpty(lines) == lines
  {
    if lines != [] {
      NonEmptyKeepsAll(lines[..|lines| - 1]);
      assert lines[..|lines| - 1] + [lines[|lines| - 1]] == lines;
    }
  }

  /** The lines of the artifact that `handleViewData` parses. */
  function ArtifactLines(text: string): seq<string> {
    NonEmpty(Split(Trim(text)))
  }

  /** One artifact line: the parsed value, or `{raw: line}` when parsing throws. */
  function ParseArtifactLine(c: Codec, line: string): (r: Json)
    ensures c.parse(line).Some? ==> r == c.parse(line).value
    ensures c.parse(line).None? ==> r == Obj([("raw", Str(line))])
  {
    match c.parse(line)
    case Some(v) => v
    case None => Obj([("raw", Str(line))])
  }

  /** `lines.map(...)`: every line is parsed independently and in order, and
      a line that fails does not stop the others. */
  function ParseArtifact(c: Codec, text: string): (r: seq<Json>)
    ensures |r| == |ArtifactLines(text)|
    ensures forall i :: 0 <= i < |r| ==> r[i] == ParseArtifactLine(c, ArtifactLines(text)[i])
  {
    var lines := ArtifactLines(text);
    seq(|lines|, i requires 0 <= i < |lines| => ParseArtifactLine(c, lines[i]))
  }

  /** No artifact line is empty or holds a newline, and no line keeps
      surrounding whitespace of the whole text. */
  lemma ArtifactLinesShape(text: string)
    ensures forall i :: 0 <= i < |ArtifactLines(text)| ==>
      ArtifactLines(text)[i] != "" && '\n' !in ArtifactLines(text)[i]
  {
    var pieces := Split(Trim(text));
    NonEmptyMembers(pieces);
    forall i | 0 <= i < |ArtifactLines(text)| ensures '\n' !in ArtifactLines(text)[i] {
      assert ArtifactLines(text)[i] in pieces;
      var k :| 0 <= k < |pieces| && pieces[k] == ArtifactLines(text)[i];
    }
  }

  /** Text made of whitespace only gives no lines and an empty artifact. */
  lemma BlankArtifactIsEmpty(c: Codec, text: string)
    requires forall i :: 0 <= i < |text| ==> IsSpace(text[i])
    ensures ParseArtifact(c, text) == []
  {
    assert Trim(text) == [];
    assert Split("") == [""];
  }
}
