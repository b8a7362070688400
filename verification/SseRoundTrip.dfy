/** The server's event-stream printer, the bridge's line parser, and the round trips through both parsers. */
module SseRoundTrip {
  import opened Options
  import opened Text
  import opened SseParser

  // ---- printer -------------------------------------------------------------------------------------

  /** What the server writes: a named frame with one line of data, with a retry hint in front of a stream error,
      and keep-alive comments. */
  datatype Frame = Frame(name: string, data: string, retry: Option<nat>) | Keepalive

  function RetryLine(retry: Option<nat>): string {
    if retry.Some? then "retry: " + Decimal(retry.value) + "\n" else ""
  }

  function Print(f: Frame): string {
    match f
    case Keepalive => ": keepalive\n\n"
    case Frame(name, data, retry) => RetryLine(retry) + ("event: " + name + "\n" + ("data: " + data + "\n" + "\n"))
  }

  function PrintAll(fs: seq<Frame>): string {
    if fs == [] then "" else Print(fs[0]) + PrintAll(fs[1..])
  }

  /** A frame the wire format can carry: a name, and no line end inside the name or the data. */
  predicate Printable(f: Frame) {
    f.Frame? ==> f.name != "" && NoBreaks(f.name) && NoBreaks(f.data)
  }

  function Hint(f: Frame, retry: Option<nat>): Option<nat> {
    if f.Frame? && f.retry.Some? then f.retry else retry
  }

  function LastHint(fs: seq<Frame>, retry: Option<nat>): Option<nat> {
    if fs == [] then retry else LastHint(fs[1..], Hint(fs[0], retry))
  }

  /** The events the frames stand for, each with the latest hint. */
  function Delivered(fs: seq<Frame>, retry: Option<nat>): seq<SseEvent> {
    if fs == [] then []
    else
      var hint := Hint(fs[0], retry);
      (if fs[0].Frame? then [SseEvent(fs[0].name, fs[0].data, hint)] else []) + Delivered(fs[1..], hint)
  }

  // ---- the JavaScript parser reads back what was printed -------------------------------------------

  lemma {:induction false} ColonAt(s: string, i: nat)
    requires i < |s| && ':' !in s[..i] && s[i] == ':'
    ensures IndexOf(s, ':') == i
  {
    if i > 0 {
      assert s[..i][0] == s[0];
      assert s[1..][..i - 1] == s[..i][1..];
      ColonAt(s[1..], i - 1);
    }
  }

  lemma FieldLine(field: string, value: string)
    requires field != "" && ':' !in field
    ensures var line := field + ": " + value;
            line != "" && line[0] != ':' && Field(line) == field && Value(line) == value
  {
    var line := field + ": " + value;
    assert line[..|field|] == field;
    ColonAt(line, |field|);
    assert line[|field| + 1..] == " " + value;
  }

  /** A whole line at the front of the text is interpreted, and the rest is parsed from there. */
  lemma ParseLine(st: State, line: string, rest: string)
    requires st.buf == "" && NoBreaks(line)
    ensures Parse(st, line + "\n" + rest) == Parse(Interpret(st, line), rest)
    ensures Interpret(st, line).buf == ""
  {
    hide Drain;
    InterpretKeepsBuffer(st, line, "");
    InterpretKeepsBuffer(st, line, line + "\n" + rest);
    hide Interpret;
    var text := line + "\n" + rest;
    assert st.buf + text == text && text[..|line|] == line && text[|line|] == '\n';
    FirstBreakAt(text, |line|);
    DrainOne(st.(buf := text), |line|);
    assert text[|line| + 1..] == rest;
    assert Interpret(st, line).buf + rest == rest;
  }

  function RetryText(n: nat): string { "retry" + ": " + Decimal(n) }

  lemma RetryTextIsLine(n: nat)
    ensures NoBreaks(RetryText(n)) && RetryText(n) != "" && RetryText(n)[0] == 'r'
    ensures RetryLine(Some(n)) == RetryText(n) + "\n"
  {
    var line := RetryText(n);
    DecimalRoundTrip(n);
    assert forall i | 7 <= i < |line| :: line[i] == Decimal(n)[i - 7];
    assert "retry" + ": " == "retry: ";
  }

  lemma RetryIsInterpreted(st: State, n: nat)
    ensures Interpret(st, RetryText(n)) == st.(retry := Some(n))
  {
    DecimalRoundTrip(n);
    FieldLine("retry", Decimal(n));
    assert "retry" != "data" && "retry"[0] != "event"[0];
    hide Field, Value, Decimal, DecimalValue;
  }

  lemma ParseRetry(st: State, retry: Option<nat>, rest: string)
    requires st.buf == ""
    ensures Parse(st, RetryLine(retry) + rest) == Parse(st.(retry := if retry.Some? then retry else st.retry), rest)
  {
    hide Drain, Interpret, Decimal, RetryText, Parse;
    if retry.Some? {
      RetryTextIsLine(retry.value);
      RetryIsInterpreted(st, retry.value);
      ParseLine(st, RetryText(retry.value), rest);
    } else {
      assert RetryLine(retry) + rest == rest;
    }
  }

  lemma ParseBlank(st: State, rest: string)
    requires st.buf == ""
    ensures Parse(st, "\n" + rest) == Parse(Dispatch(st), rest)
  {
    hide Drain;
    ParseLine(st, "", rest);
    assert "" + "\n" + rest == "\n" + rest;
  }

  lemma ParseField(st: State, field: string, value: string, rest: string)
    requires st.buf == "" && field in {"event", "data"} && NoBreaks(value)
    ensures Parse(st, field + ": " + value + "\n" + rest) ==
            Parse(if field == "event" then st.(evName := value) else st.(dataLines := st.dataLines + [value]), rest)
  {
    hide Drain;
    FieldLine(field, value);
    var line := field + ": " + value;
    assert NoBreaks(line) by {
      assert forall i | |field| + 2 <= i < |line| :: line[i] == value[i - |field| - 2];
    }
    ParseLine(st, line, rest);
    assert "event" != "data" by { assert |"event"| != |"data"|; }
  }

  lemma ParseBody(st: State, name: string, data: string)
    requires st.buf == "" && Idle(st) && name != "" && NoBreaks(name) && NoBreaks(data)
    ensures Parse(st, "event: " + name + "\n" + ("data: " + data + "\n" + "\n")) ==
            st.(events := st.events + [SseEvent(name, data, st.retry)])
  {
    hide Drain, Interpret;
    var tail := "data: " + data + "\n" + "\n";
    assert "event: " + name + "\n" + tail == "event" + ": " + name + "\n" + tail;
    ParseField(st, "event", name, tail);
    var named := st.(evName := name);
    assert tail == "data" + ": " + data + "\n" + "\n";
    ParseField(named, "data", data, "\n");
    var full := named.(dataLines := [data]);
    assert named.dataLines + [data] == [data];
    assert "\n" == "\n" + "";
    ParseBlank(full, "");
    assert Dispatch(full) == st.(events := st.events + [SseEvent(name, data, st.retry)]);
    DrainQuiet(Dispatch(full).(buf := Dispatch(full).buf + ""));
  }

  lemma ParseFrame(st: State, f: Frame)
    requires st.buf == "" && Idle(st) && Printable(f)
    ensures Parse(st, Print(f)) ==
            st.(retry := Hint(f, st.retry),
                events := st.events + if f.Frame? then [SseEvent(f.name, f.data, Hint(f, st.retry))] else [])
  {
    hide Drain;
    match f
    case Keepalive =>
      assert Print(f) == ": keepalive" + "\n" + "\n";
      ParseLine(st, ": keepalive", "\n");
      assert "\n" == "\n" + "";
      ParseBlank(st, "");
      DrainQuiet(st);
      assert st.buf + "" == st.buf && st.events + [] == st.events;
      assert Dispatch(st) == st;
    case Frame(name, data, retry) =>
      ParseRetry(st, retry, "event: " + name + "\n" + ("data: " + data + "\n" + "\n"));
      ParseBody(st.(retry := Hint(f, st.retry)), name, data);
  }

  lemma PrintEndsWithLf(f: Frame)
    ensures Print(f) != "" && Print(f)[|Print(f)| - 1] == '\n'
  {
  }

  /** Every sequence of frames and keep-alives is recovered exactly and in order. */
  lemma {:induction false} JsRoundTrip(st: State, fs: seq<Frame>)
    requires st.buf == "" && Idle(st) && forall f | f in fs :: Printable(f)
    ensures Parse(st, PrintAll(fs)) ==
            st.(retry := LastHint(fs, st.retry), events := st.events + Delivered(fs, st.retry))
    decreases |fs|
  {
    hide Drain, Print;
    if fs == [] {
      DrainQuiet(st);
      assert st.buf + "" == st.buf && st.events + [] == st.events;
    } else {
      var f, rest := fs[0], PrintAll(fs[1..]);
      PrintEndsWithLf(f);
      assert st.buf + Print(f) == Print(f);
      ParseAppend(st, Print(f), rest);
      ParseFrame(st, f);
      var next := Parse(st, Print(f));
      JsRoundTrip(next, fs[1..]);
      assert next.events + Delivered(fs[1..], next.retry) == st.events + Delivered(fs, st.retry);
    }
  }

  lemma {:induction false} PrintedIsLfOnly(fs: seq<Frame>)
    requires forall f | f in fs :: Printable(f)
    ensures LfOnly(PrintAll(fs))
  {
    if fs != [] {
      PrintedIsLfOnly(fs[1..]);
      FrameIsLfOnly(fs[0]);
    }
  }

  lemma FrameIsLfOnly(f: Frame)
    requires Printable(f)
    ensures LfOnly(Print(f))
  {
    if f.Frame? {
      assert LfOnly(f.name) && LfOnly(f.data);
      if f.retry.Some? { DecimalRoundTrip(f.retry.value); }
      assert LfOnly(RetryLine(f.retry));
    }
  }

  /** Through the network: however the printed stream is cut into chunks, the console recovers the frames. */
  lemma StreamedRoundTrip(fs: seq<Frame>, chunks: seq<string>)
    requires forall f | f in fs :: Printable(f)
    requires Concat(chunks) == PrintAll(fs) && WithinCap(FRESH, chunks)
    ensures FeedAll(FRESH, chunks) == FRESH.(retry := LastHint(fs, None), events := Delivered(fs, None))
  {
    hide Drain, Feed;
    PrintedIsLfOnly(fs);
    LfChunkInvariance(FRESH, chunks);
    JsRoundTrip(FRESH, fs);
    assert [] + Delivered(fs, None) == Delivered(fs, None);
  }

  // ---- the bridge's line parser --------------------------------------------------------------------

  /** `rstrip("\r\n")` */
  function TrimBreaks(s: string): string {
    if s != "" && IsBreak(s[|s| - 1]) then TrimBreaks(s[..|s| - 1]) else s
  }

  datatype Bridge = Bridge(current: string, dataLines: seq<string>, yielded: seq<(string, string)>)

  const BRIDGE_OPEN := Bridge("message", [], [])

  function OrMessage(s: string): string { if s == "" then "message" else s }

  function TakeLine(st: Bridge, raw: string): Bridge {
    var line := TrimBreaks(raw);
    if line == "" then
      Bridge("message", [], if st.dataLines == [] then st.yielded else st.yielded + [(st.current, Join(st.dataLines))])
    else if line[0] == ':' then st
    else if "event:" <= line then st.(current := OrMessage(Strip(line[6..])))
    else if "data:" <= line then st.(dataLines := st.dataLines + [Strip(line[5..])])
    else st
  }

  function TakeLines(st: Bridge, lines: seq<string>): Bridge {
    if lines == [] then st else TakeLine(TakeLines(st, lines[..|lines| - 1]), lines[|lines| - 1])
  }

  /** What successive `readline` calls return, each with its line feed. */
  function ReadLines(text: string): seq<string> {
    var i := IndexOf(text, '\n');
    if text == "" then []
    else if i == |text| then [text]
    else [text[..i + 1]] + ReadLines(text[i + 1..])
  }

  const OPEN_MARK := ("__bridge_open__", "")

  /** The generator: a mark when the connection opens, then the loop over the lines of the response. The stop flag is
      seen set before line `stop`; a stream that ends first raises. */
  method IterEvents(lines: seq<string>, stop: nat) returns (yielded: seq<(string, string)>, raised: bool)
    ensures raised <==> |lines| < stop
    ensures yielded == [("__bridge_open__", "")] + TakeLines(BRIDGE_OPEN, if raised then lines else lines[..stop]).yielded
  {
    yielded := [OPEN_MARK];
    var current := "message";
    var dataLines: seq<string> := [];
    ghost var after: seq<(string, string)> := [];
    for i := 0 to |lines|
      invariant i <= stop && yielded == [OPEN_MARK] + after
      invariant Bridge(current, dataLines, after) == TakeLines(BRIDGE_OPEN, lines[..i])
    {
      if i == stop {
        return yielded, false;
      }
      assert lines[..i + 1][..i] == lines[..i];
      var line := TrimBreaks(lines[i]);
      if line == "" {
        if |dataLines| > 0 {
          yielded := yielded + [(current, Join(dataLines))];
          after := after + [(current, Join(dataLines))];
        }
        current := "message";
        dataLines := [];
      } else if line[0] == ':' {
      } else if "event:" <= line {
        current := OrMessage(Strip(line[6..]));
      } else if "data:" <= line {
        dataLines := dataLines + [Strip(line[5..])];
      }
    }
    assert lines[..|lines|] == lines;
    raised := |lines| < stop;
  }

  function BridgeReads(text: string): seq<(string, string)> {
    TakeLines(BRIDGE_OPEN, ReadLines(text)).yielded
  }

  /** An event without a name is a "message" to both parsers. */
  lemma UnnamedIsMessage(st: State, b: Bridge)
    ensures st.evName == "" && st.dataLines != [] ==>
      Dispatch(st).events == st.events + [SseEvent("message", Join(st.dataLines), st.retry)]
    ensures TakeLine(b, "event:\n").current == "message" && TakeLine(b, "\n").current == "message"
    ensures BRIDGE_OPEN == Bridge("message", [], [])
  {
    assert "event:\n"[..6] == "event:" && "\n"[..0] == "";
    assert "event:"[6..] == "";
  }

  // ---- what the bridge makes of a printed stream ---------------------------------------------------

  lemma {:induction false} LfAt(s: string, i: nat)
    requires i < |s| && '\n' !in s[..i] && s[i] == '\n'
    ensures IndexOf(s, '\n') == i
  {
    if i > 0 {
      assert s[..i][0] == s[0];
      assert s[1..][..i - 1] == s[..i][1..];
      LfAt(s[1..], i - 1);
    }
  }

  lemma ReadOne(line: string, rest: string)
    requires NoBreaks(line)
    ensures ReadLines(line + "\n" + rest) == [line + "\n"] + ReadLines(rest)
    ensures TrimBreaks(line + "\n") == line
  {
    var text := line + "\n" + rest;
    assert text[..|line|] == line && text[..|line| + 1] == line + "\n" && text[|line| + 1..] == rest;
    LfAt(text, |line|);
    assert (line + "\n")[..|line|] == line;
  }

  lemma {:induction false} TakeLinesAppend(st: Bridge, a: seq<string>, b: seq<string>)
    ensures TakeLines(st, a + b) == TakeLines(TakeLines(st, a), b)
    decreases |b|
  {
    if b == [] {
      assert a + b == a;
    } else {
      assert (a + b)[..|a + b| - 1] == a + b[..|b| - 1];
      TakeLinesAppend(st, a, b[..|b| - 1]);
    }
  }

  /** One printed line at the front of the text. */
  lemma BridgeLine(st: Bridge, line: string, rest: string)
    requires NoBreaks(line)
    ensures TakeLines(st, ReadLines(line + "\n" + rest)) == TakeLines(TakeLine(st, line), ReadLines(rest))
  {
    ReadOne(line, rest);
    TakeLinesAppend(st, [line + "\n"], ReadLines(rest));
    assert TakeLines(st, [line + "\n"]) == TakeLine(st, line + "\n") by { assert [line + "\n"][..0] == []; }
    assert TrimBreaks(line) == line;
  }

  lemma BridgeBody(st: Bridge, name: string, data: string, rest: string)
    requires st.dataLines == [] && NoBreaks(name) && NoBreaks(data)
    ensures TakeLines(st, ReadLines("event: " + name + "\n" + ("data: " + data + "\n" + ("\n" + rest)))) ==
            TakeLines(Bridge("message", [], st.yielded + [(OrMessage(Strip(name)), Strip(data))]), ReadLines(rest))
  {
    hide ReadLines, TakeLines;
    var tail := "\n" + rest;
    var middle := "data: " + data + "\n" + tail;
    EventLine(st, name);
    BridgeLine(st, "event: " + name, middle);
    var named := st.(current := OrMessage(Strip(name)));
    DataLine(named, data);
    BridgeLine(named, "data: " + data, tail);
    var full := named.(dataLines := [Strip(data)]);
    assert "" + "\n" + rest == tail;
    BridgeLine(full, "", rest);
  }

  lemma EventLine(st: Bridge, name: string)
    requires NoBreaks(name)
    ensures NoBreaks("event: " + name) && TakeLine(st, "event: " + name) == st.(current := OrMessage(Strip(name)))
  {
    var line := "event: " + name;
    assert forall i | 7 <= i < |line| :: line[i] == name[i - 7];
    assert NoBreaks(line);
    assert TrimBreaks(line) == line && "event:" <= line;
    assert line[6..] == " " + name;
    assert (" " + name)[1..] == name;
  }

  lemma DataLine(st: Bridge, data: string)
    requires NoBreaks(data) && st.dataLines == []
    ensures NoBreaks("data: " + data) && TakeLine(st, "data: " + data) == st.(dataLines := [Strip(data)])
  {
    var line := "data: " + data;
    assert forall i | 6 <= i < |line| :: line[i] == data[i - 6];
    assert NoBreaks(line);
    assert TrimBreaks(line) == line && "data:" <= line && line[0] != 'e';
    assert line[5..] == " " + data;
    assert (" " + data)[1..] == data;
  }

  lemma BridgeSkips(st: Bridge, line: string, rest: string)
    requires NoBreaks(line) && line != "" && (line[0] == ':' || line[0] == 'r')
    ensures TakeLines(st, ReadLines(line + "\n" + rest)) == TakeLines(st, ReadLines(rest))
  {
    hide ReadLines, TakeLines;
    BridgeLine(st, line, rest);
    assert TrimBreaks(line) == line;
  }

  /** What the bridge yields for a frame: it strips the name and the data. */
  function BridgePairs(fs: seq<Frame>): seq<(string, string)> {
    if fs == [] then []
    else (if fs[0].Frame? then [(OrMessage(Strip(fs[0].name)), Strip(fs[0].data))] else []) + BridgePairs(fs[1..])
  }

  lemma BridgeKeepalive(st: Bridge, rest: string)
    requires st.current == "message" && st.dataLines == []
    ensures TakeLines(st, ReadLines(Print(Keepalive) + rest)) == TakeLines(st, ReadLines(rest))
  {
    hide ReadLines, TakeLines, TakeLine, Strip;
    assert Print(Keepalive) + rest == ": keepalive" + "\n" + ("\n" + rest);
    BridgeSkips(st, ": keepalive", "\n" + rest);
    assert "" + "\n" + rest == "\n" + rest;
    BridgeLine(st, "", rest);
    BlankLine(st);
  }

  lemma BridgeRetry(st: Bridge, retry: Option<nat>, rest: string)
    ensures TakeLines(st, ReadLines(RetryLine(retry) + rest)) == TakeLines(st, ReadLines(rest))
  {
    hide ReadLines, TakeLines, RetryText;
    if retry.Some? {
      RetryTextIsLine(retry.value);
      BridgeSkips(st, RetryText(retry.value), rest);
    } else {
      assert RetryLine(retry) + rest == rest;
    }
  }

  lemma BridgeFrame(yielded: seq<(string, string)>, f: Frame, rest: string)
    requires Printable(f)
    ensures TakeLines(Bridge("message", [], yielded), ReadLines(Print(f) + rest)) ==
            TakeLines(Bridge("message", [], yielded + BridgePairs([f])), ReadLines(rest))
  {
    hide ReadLines, TakeLines, TakeLine, Strip, RetryLine;
    var st := Bridge("message", [], yielded);
    assert [f][1..] == [];
    if f.Keepalive? {
      BridgeKeepalive(st, rest);
      assert yielded + BridgePairs([f]) == yielded;
    } else {
      var tail := "data: " + f.data + "\n" + ("\n" + rest);
      assert Print(f) + rest == RetryLine(f.retry) + ("event: " + f.name + "\n" + tail);
      BridgeRetry(st, f.retry, "event: " + f.name + "\n" + tail);
      BridgeBody(st, f.name, f.data, rest);
      assert BridgePairs([f]) == [(OrMessage(Strip(f.name)), Strip(f.data))] + BridgePairs([f][1..]);
      assert BridgePairs([f]) == [(OrMessage(Strip(f.name)), Strip(f.data))];
    }
  }

  lemma BlankLine(st: Bridge)
    requires st.current == "message" && st.dataLines == []
    ensures TakeLine(st, "") == st
  {
  }

  lemma {:induction false} BridgeRun(yielded: seq<(string, string)>, fs: seq<Frame>)
    requires forall f | f in fs :: Printable(f)
    ensures TakeLines(Bridge("message", [], yielded), ReadLines(PrintAll(fs))) ==
            Bridge("message", [], yielded + BridgePairs(fs))
    decreases |fs|
  {
    hide Strip, TakeLine, Print, Printable;
    if fs == [] {
      assert yielded + [] == yielded;
    } else {
      var first, rest := BridgePairs([fs[0]]), BridgePairs(fs[1..]);
      BridgePairsSplit(fs);
      hide BridgePairs, ReadLines, TakeLines;
      BridgeFrame(yielded, fs[0], PrintAll(fs[1..]));
      BridgeRun(yielded + first, fs[1..]);
      assert yielded + first + rest == yielded + (first + rest);
    }
  }

  lemma BridgePairsSplit(fs: seq<Frame>)
    requires fs != []
    ensures BridgePairs(fs) == BridgePairs([fs[0]]) + BridgePairs(fs[1..])
  {
    assert [fs[0]][1..] == [];
  }

  // ---- agreement -----------------------------------------------------------------------------------

  /** Neither the name nor the data begins or ends with a space character. */
  predicate Trimmed(f: Frame) { f.Frame? ==> Strip(f.name) == f.name && Strip(f.data) == f.data }

  function Pairs(events: seq<SseEvent>): seq<(string, string)> {
    seq(|events|, i requires 0 <= i < |events| => (events[i].name, events[i].data))
  }

  lemma {:induction false} PairsAgreeIff(fs: seq<Frame>, retry: Option<nat>)
    requires forall f | f in fs :: Printable(f)
    ensures |BridgePairs(fs)| == |Delivered(fs, retry)|
    ensures BridgePairs(fs) == Pairs(Delivered(fs, retry)) <==> forall f | f in fs :: Trimmed(f)
    decreases |fs|
  {
    hide Strip, NoBreaks, Trimmed;
    if fs != [] {
      var f, hint := fs[0], Hint(fs[0], retry);
      assert Printable(f);
      PairsAgreeIff(fs[1..], hint);
      var bridge, console := BridgePairs(fs), Pairs(Delivered(fs, retry));
      if f.Frame? {
        assert bridge[1..] == BridgePairs(fs[1..]);
        assert console[1..] == Pairs(Delivered(fs[1..], hint));
        assert bridge[0] == (OrMessage(Strip(f.name)), Strip(f.data)) && console[0] == (f.name, f.data);
        MessageOnly(f);
        SameHeadSameTail(bridge, console);
      } else {
        assert bridge == BridgePairs(fs[1..]) && console == Pairs(Delivered(fs[1..], hint));
        KeepaliveIsTrimmed(f);
      }
      TrimmedSplit(fs);
    }
  }

  lemma SameHeadSameTail(a: seq<(string, string)>, b: seq<(string, string)>)
    requires a != [] && b != []
    ensures a == b <==> a[0] == b[0] && a[1..] == b[1..]
  {
    assert a == [a[0]] + a[1..] && b == [b[0]] + b[1..];
  }

  lemma KeepaliveIsTrimmed(f: Frame)
    requires !f.Frame?
    ensures Trimmed(f)
  {
  }

  lemma TrimmedSplit(fs: seq<Frame>)
    requires fs != []
    ensures (forall f | f in fs :: Trimmed(f)) <==> Trimmed(fs[0]) && forall f | f in fs[1..] :: Trimmed(f)
  {
    hide Trimmed;
    assert forall g :: g in fs <==> g == fs[0] || g in fs[1..];
  }

  lemma MessageOnly(f: Frame)
    requires f.Frame? && f.name != ""
    ensures (OrMessage(Strip(f.name)), Strip(f.data)) == (f.name, f.data) <==> Trimmed(f)
  {
    if f.name == "message" { assert !IsSpace(f.name[0]) && !IsSpace(f.name[|f.name| - 1]); }
  }

  /** The two parsers agree on a printed stream exactly when no name and no payload has outer spaces: the console
      drops one leading blank, the bridge drops all outer space. */
  lemma ParsersAgreeIff(fs: seq<Frame>)
    requires forall f | f in fs :: Printable(f)
    ensures BridgeReads(PrintAll(fs)) == Pairs(Parse(FRESH, PrintAll(fs)).events) <==> forall f | f in fs :: Trimmed(f)
  {
    hide Drain, Print, Strip, NoBreaks, TakeLines, ReadLines;
    BridgeRun([], fs);
    JsRoundTrip(FRESH, fs);
    PairsAgreeIff(fs, None);
    assert [] + BridgePairs(fs) == BridgePairs(fs) && [] + Delivered(fs, None) == Delivered(fs, None);
  }

  /** A payload with a leading blank reads differently. */
  lemma ParsersDisagree()
    ensures var fs := [Frame("state", " x", None)];
      BridgeReads(PrintAll(fs)) != Pairs(Parse(FRESH, PrintAll(fs)).events)
  {
    var f := Frame("state", " x", None);
    assert Strip(" x") == Strip("x") == "x" by { assert " x"[1..] == "x"; }
    assert !Trimmed(f) && Printable(f);
    hide Parse, PrintAll, BridgeReads, Trimmed, Printable;
    ParsersAgreeIff([f]);
    assert f in [f];
  }

  /** A JSON object text and a name without outer spaces are such a frame. */
  lemma JsonFramesAreTrimmed(name: string, data: string, retry: Option<nat>)
    requires name != "" && !IsSpace(name[0]) && !IsSpace(name[|name| - 1])
    requires |data| >= 2 && data[0] == '{' && data[|data| - 1] == '}'
    ensures Trimmed(Frame(name, data, retry))
  {
  }
}
