/** The touch console's incremental event-stream parser (section 9.2.6 "Interpreting an event stream" of the
    HTML Living Standard, without ids), and how its result depends on where the stream is cut into chunks. */
module SseParser {
  import opened Options
  import opened Text

  /** What a listener receives; `retry` is the last reconnection hint seen so far on the stream. */
  datatype SseEvent = SseEvent(name: string, data: string, retry: Option<nat>)

  datatype State = State(buf: string, evName: string, dataLines: seq<string>, retry: Option<nat>, events: seq<SseEvent>)

  const FRESH := State("", "", [], None, [])
  const BUFFER_CAP: nat := 4 * 1024 * 1024

  // ---- one line ------------------------------------------------------------------------------------

  function Field(line: string): string {
    line[..IndexOf(line, ':')]
  }

  /** The text after the first colon, less one leading blank. */
  function Value(line: string): string {
    var c := IndexOf(line, ':');
    var raw := if c < |line| then line[c + 1..] else "";
    if raw != "" && raw[0] == ' ' then raw[1..] else raw
  }

  function Join(lines: seq<string>): string {
    if lines == [] then ""
    else if |lines| == 1 then lines[0]
    else Join(lines[..|lines| - 1]) + "\n" + lines[|lines| - 1]
  }

  /** A blank line ends an event: it is delivered if it has data, and its name and data are forgotten. */
  function Dispatch(st: State): State {
    var events :=
      if st.dataLines == [] then st.events
      else st.events + [SseEvent(if st.evName == "" then "message" else st.evName, Join(st.dataLines), st.retry)];
    st.(evName := "", dataLines := [], events := events)
  }

  function Interpret(st: State, line: string): State {
    if line == "" then Dispatch(st)
    else if line[0] == ':' then st
    else if Field(line) == "event" then st.(evName := Value(line))
    else if Field(line) == "data" then st.(dataLines := st.dataLines + [Value(line)])
    else if Field(line) == "retry" && AllDigits(Value(line)) then st.(retry := Some(DecimalValue(Value(line))))
    else st
  }

  // ---- a buffer of lines ---------------------------------------------------------------------------

  predicate IsBreak(c: char) { c == '\n' || c == '\r' }

  predicate NoBreaks(s: string) { forall i | 0 <= i < |s| :: !IsBreak(s[i]) }

  /** Where the first line of `s` ends; `|s|` if it does not. */
  function FirstBreak(s: string): (i: nat)
    ensures i <= |s| && NoBreaks(s[..i]) && (i < |s| ==> IsBreak(s[i]))
  {
    if s == "" || IsBreak(s[0]) then 0
    else
      var j := FirstBreak(s[1..]);
      assert s[..j + 1] == [s[0]] + s[1..][..j];
      j + 1
  }

  /** A carriage return and a line feed in a row end one line, not two. */
  function BreakLength(s: string, i: nat): (n: nat)
    requires i < |s|
    ensures 1 <= n <= |s| - i
  {
    if s[i] == '\r' && i + 1 < |s| && s[i + 1] == '\n' then 2 else 1
  }

  /** Interpret every complete line of the buffer; what is left has no line end. */
  function Drain(st: State): (r: State)
    ensures NoBreaks(r.buf) && |r.buf| <= |st.buf|
    decreases |st.buf|
  {
    var i := FirstBreak(st.buf);
    if i == |st.buf| then
      assert st.buf[..i] == st.buf;
      st
    else
      Drain(Interpret(st, st.buf[..i]).(buf := st.buf[i + BreakLength(st.buf, i)..]))
  }

  /** Parsing with no bound on the buffer. */
  function Parse(st: State, text: string): State { Drain(st.(buf := st.buf + text)) }

  /** One chunk: a buffer grown past its cap is thrown away with the event being collected. */
  function Feed(st: State, chunk: string): (r: State)
    ensures NoBreaks(r.buf)
  {
    if |st.buf + chunk| > BUFFER_CAP then st.(buf := "", evName := "", dataLines := [])
    else Parse(st, chunk)
  }

  /** The parser object: its closure variables, and the events handed to the callback. */
  class Parser {
    var buf: string
    var evName: string
    var dataLines: seq<string>
    var retry: Option<nat>
    var events: seq<SseEvent>

    ghost function View(): State
      reads this
    {
      State(buf, evName, dataLines, retry, events)
    }

    constructor ()
      ensures View() == FRESH
    {
      buf, evName, dataLines, retry, events := "", "", [], None, [];
    }

    method Deliver()
      modifies this`events, this`evName, this`dataLines
      ensures View() == Dispatch(old(View()))
    {
      if |dataLines| > 0 {
        events := events + [SseEvent(if evName == "" then "message" else evName, Join(dataLines), retry)];
      }
      evName := "";
      dataLines := [];
    }

    /** One complete line of the stream. */
    method TakeLine(line: string)
      modifies this`events, this`evName, this`dataLines, this`retry
      ensures View() == Interpret(old(View()), line)
    {
      if line == "" {
        Deliver();
      } else if line[0] != ':' {
        var field, value := Field(line), Value(line);
        if field == "event" {
          evName := value;
        } else if field == "data" {
          dataLines := dataLines + [value];
        } else if field == "retry" && AllDigits(value) {
          retry := Some(DecimalValue(value));
        }
      }
    }

    method FeedChunk(chunk: string)
      modifies this
      ensures View() == Feed(old(View()), chunk)
    {
      hide Interpret;
      buf := buf + chunk;
      if |buf| > BUFFER_CAP {
        buf, dataLines, evName := "", [], "";
        return;
      }
      ghost var whole := View();
      var i := FirstBreak(buf);
      while i < |buf|
        invariant i == FirstBreak(buf)
        invariant Drain(View()) == Drain(whole)
        decreases |buf|
      {
        var line := buf[..i];
        ghost var before := View();
        buf := buf[i + BreakLength(buf, i)..];
        InterpretKeepsBuffer(before, line, buf);
        TakeLine(line);
        i := FirstBreak(buf);
      }
    }
  }

  /** Past 4 MiB of unfinished line the buffer and the event being collected are dropped; the retry hint and what was
      delivered stay. */
  lemma OverflowDrops(st: State, chunk: string)
    ensures |st.buf| + |chunk| > 4194304 ==> Feed(st, chunk) == State("", "", [], st.retry, st.events)
    ensures |st.buf| + |chunk| <= 4194304 ==> Feed(st, chunk) == Parse(st, chunk)
  {
    hide Drain;
  }

  /** The data of an event: its lines with a line feed between any two. */
  lemma JoinMeans(lines: seq<string>, last: string)
    ensures Join([]) == "" && Join([last]) == last
    ensures lines != [] ==> Join(lines + [last]) == Join(lines) + "\n" + last
  {
    assert (lines + [last])[..|lines|] == lines;
  }

  // ---- chunk boundaries ----------------------------------------------------------------------------

  predicate EndsWithCr(s: string) { s != "" && s[|s| - 1] == '\r' }

  predicate StartsWithLf(s: string) { s != "" && s[0] == '\n' }

  /** The cut separates the two characters of one line end. */
  predicate CutsLineEnd(a: string, b: string) { EndsWithCr(a) && StartsWithLf(b) }

  lemma {:induction false} FirstBreakAt(s: string, i: nat)
    requires i <= |s| && NoBreaks(s[..i]) && (i < |s| ==> IsBreak(s[i]))
    ensures FirstBreak(s) == i
  {
    if i > 0 {
      assert s[..i][0] == s[0];
      assert s[1..][..i - 1] == s[..i][1..];
      FirstBreakAt(s[1..], i - 1);
    }
  }

  lemma {:induction false} DrainAppend(st: State, b: string)
    requires !CutsLineEnd(st.buf, b)
    ensures Drain(st.(buf := st.buf + b)) == Drain(Drain(st).(buf := Drain(st).buf + b))
    decreases |st.buf|
  {
    hide Interpret;
    var s := st.buf;
    var i := FirstBreak(s);
    if i < |s| {
      var t := s + b;
      assert t[..i] == s[..i] && t[i] == s[i];
      FirstBreakAt(t, i);
      var n := BreakLength(s, i);
      assert BreakLength(t, i) == n;
      assert t[i + n..] == s[i + n..] + b;
      var next := Interpret(st, s[..i]).(buf := s[i + n..]);
      DrainAppend(next, b);
      InterpretKeepsBuffer(st, s[..i], t);
    }
  }

  /** Interpreting a line neither reads nor changes the buffer. */
  lemma InterpretKeepsBuffer(st: State, line: string, buf: string)
    ensures Interpret(st.(buf := buf), line) == Interpret(st, line).(buf := buf)
  {
  }

  lemma DrainQuiet(st: State)
    requires NoBreaks(st.buf)
    ensures Drain(st) == st
  {
    FirstBreakAt(st.buf, |st.buf|);
  }

  /** Parsing in two pieces is parsing the whole, unless the cut separates a CR from its LF. */
  lemma ParseAppend(st: State, a: string, b: string)
    requires !CutsLineEnd(st.buf + a, b)
    ensures Parse(Parse(st, a), b) == Parse(st, a + b)
  {
    var whole := st.(buf := st.buf + a);
    DrainAppend(whole, b);
    assert st.buf + a + b == st.buf + (a + b);
  }

  // ---- any number of chunks ------------------------------------------------------------------------

  function FeedAll(st: State, chunks: seq<string>): State
    decreases |chunks|
  {
    if chunks == [] then st else FeedAll(Feed(st, chunks[0]), chunks[1..])
  }

  function Concat(chunks: seq<string>): string {
    if chunks == [] then "" else chunks[0] + Concat(chunks[1..])
  }

  /** No feed of the run overflows the buffer. The stream as a whole may be of any length. */
  predicate WithinCap(st: State, chunks: seq<string>)
    decreases |chunks|
  {
    chunks == [] || (|st.buf + chunks[0]| <= BUFFER_CAP && WithinCap(Feed(st, chunks[0]), chunks[1..]))
  }

  predicate KeepsLineEnds(chunks: seq<string>) {
    chunks == [] || (!CutsLineEnd(chunks[0], Concat(chunks[1..])) && KeepsLineEnds(chunks[1..]))
  }

  predicate LfOnly(s: string) { '\r' !in s }

  lemma {:induction false} LfOnlyKeepsLineEnds(chunks: seq<string>)
    requires LfOnly(Concat(chunks))
    ensures KeepsLineEnds(chunks)
  {
    if chunks != [] {
      forall i | 0 <= i < |chunks[0]| ensures chunks[0][i] != '\r' { assert Concat(chunks)[i] == chunks[0][i]; }
      forall i | 0 <= i < |Concat(chunks[1..])| ensures Concat(chunks[1..])[i] != '\r' {
        assert Concat(chunks)[|chunks[0]| + i] == Concat(chunks[1..])[i];
      }
      LfOnlyKeepsLineEnds(chunks[1..]);
    }
  }

  /** Chunk invariance: however a stream is cut, the events, the retry hint and the residual state are those
      of parsing it whole, provided the buffer never overflows and no cut falls inside a CR LF pair. */
  lemma {:induction false} ChunkInvariance(st: State, chunks: seq<string>)
    requires NoBreaks(st.buf) && WithinCap(st, chunks) && KeepsLineEnds(chunks)
    ensures FeedAll(st, chunks) == Parse(st, Concat(chunks))
    decreases |chunks|
  {
    if chunks == [] {
      assert st.buf + "" == st.buf;
      DrainQuiet(st);
    } else {
      var a, rest := chunks[0], Concat(chunks[1..]);
      ChunkInvariance(Feed(st, a), chunks[1..]);
      assert EndsWithCr(st.buf + a) ==> EndsWithCr(a) by {
        if a == "" { assert st.buf + a == st.buf; }
      }
      ParseAppend(st, a, rest);
    }
  }

  /** For the streams the server sends, which use LF only, no condition on the cuts is left. */
  lemma LfChunkInvariance(st: State, chunks: seq<string>)
    requires NoBreaks(st.buf) && WithinCap(st, chunks) && LfOnly(Concat(chunks))
    ensures FeedAll(st, chunks) == Parse(st, Concat(chunks))
  {
    LfOnlyKeepsLineEnds(chunks);
    ChunkInvariance(st, chunks);
  }

  // ---- the excluded cut ----------------------------------------------------------------------------

  /** Nothing of an event has been collected yet. */
  predicate Idle(st: State) { st.evName == "" && st.dataLines == [] }

  lemma {:induction false} CrIsBreak(s: string)
    requires EndsWithCr(s)
    ensures FirstBreak(s) < |s|
    ensures FirstBreak(s) + 1 < |s| ==> EndsWithCr(s[FirstBreak(s) + BreakLength(s, FirstBreak(s))..])
    ensures FirstBreak(s) + 1 == |s| ==> BreakLength(s, FirstBreak(s)) == 1
  {
    var i := FirstBreak(s);
    assert i < |s| by {
      if i == |s| { assert s[..i] == s; assert IsBreak(s[|s| - 1]); }
    }
  }

  lemma {:induction false} DrainEndsEmpty(st: State)
    requires EndsWithCr(st.buf)
    ensures Drain(st).buf == ""
    decreases |st.buf|
  {
    hide Interpret;
    CrIsBreak(st.buf);
    var i := FirstBreak(st.buf);
    var next := Interpret(st, st.buf[..i]).(buf := st.buf[i + BreakLength(st.buf, i)..]);
    if next.buf == "" {
      DrainQuiet(next);
    } else {
      DrainEndsEmpty(next);
    }
  }

  lemma DrainOne(st: State, i: nat)
    requires i == FirstBreak(st.buf) < |st.buf|
    ensures Drain(st) == Drain(Interpret(st, st.buf[..i]).(buf := st.buf[i + BreakLength(st.buf, i)..]))
  {
    hide Interpret;
  }

  lemma SameBreak(s: string, t: string, i: nat)
    requires i + 1 < |s| && i + 1 < |t| && s[i] == t[i] && s[i + 1] == t[i + 1]
    ensures BreakLength(s, i) == BreakLength(t, i)
  {
  }

  /** What one step of draining does to a buffer with more text behind it, when that text completes no line end. */
  lemma DrainStep(st: State, b: string)
    requires EndsWithCr(st.buf) && FirstBreak(st.buf) + 1 < |st.buf|
    ensures var i := FirstBreak(st.buf);
            var next := Interpret(st, st.buf[..i]).(buf := st.buf[i + BreakLength(st.buf, i)..]);
            && Drain(st) == Drain(next)
            && Drain(st.(buf := st.buf + b)) == Drain(next.(buf := next.buf + b))
  {
    hide Interpret, Drain, FirstBreak;
    var s, t := st.buf, st.buf + b;
    var i := FirstBreak(s);
    var n := BreakLength(s, i);
    assert t[..i] == s[..i] && t[i] == s[i] && t[i + 1] == s[i + 1];
    FirstBreakAt(t, i);
    InterpretKeepsBuffer(st, s[..i], t);
    SameBreak(s, t, i);
    assert t[i + n..] == s[i + n..] + b;
    DrainOne(st, i);
    DrainOne(st.(buf := t), i);
    hide FirstBreak, BreakLength;
  }

  /** A cut between CR and LF makes the parser see one blank line too many, and nothing else. */
  lemma {:induction false} CutLineEnd(st: State, b: string)
    requires CutsLineEnd(st.buf, b)
    ensures Drain(st.(buf := st.buf + b)) == Drain(Drain(st).(buf := b[1..]))
    decreases |st.buf|
  {
    hide Interpret, Drain;
    CrIsBreak(st.buf);
    var i := FirstBreak(st.buf);
    if i + 1 < |st.buf| {
      DrainStep(st, b);
      CutLineEnd(Interpret(st, st.buf[..i]).(buf := st.buf[i + BreakLength(st.buf, i)..]), b);
    } else {
      CutLastLineEnd(st, b);
    }
  }

  lemma LastCr(s: string, b: string)
    requires CutsLineEnd(s, b) && FirstBreak(s) + 1 == |s|
    ensures var i, t := FirstBreak(s), s + b;
      && FirstBreak(t) == i && BreakLength(s, i) == 1 && BreakLength(t, i) == 2
      && t[..i] == s[..i] && t[i + 2..] == b[1..] && s[i + 1..] == ""
  {
    hide FirstBreak;
    var i, t := FirstBreak(s), s + b;
    assert t[..i] == s[..i] && t[i] == s[i] == '\r' && t[i + 1] == b[0] == '\n';
    FirstBreakAt(t, i);
    assert t[i + 2..] == b[1..];
  }

  lemma CutLastLineEnd(st: State, b: string)
    requires CutsLineEnd(st.buf, b) && FirstBreak(st.buf) + 1 == |st.buf|
    ensures Drain(st.(buf := st.buf + b)) == Drain(Drain(st).(buf := b[1..]))
  {
    hide Interpret, Drain, FirstBreak, BreakLength;
    LastCr(st.buf, b);
    var s, t := st.buf, st.buf + b;
    var i := FirstBreak(s);
    InterpretKeepsBuffer(st, s[..i], t);
    DrainOne(st, i);
    DrainOne(st.(buf := t), i);
    var next := Interpret(st, s[..i]).(buf := "");
    DrainQuiet(next);
  }

  lemma ExtraBlankLine(st: State, b: string)
    requires st.buf == "" && StartsWithLf(b)
    ensures Drain(st.(buf := b)) == Drain(Dispatch(st).(buf := b[1..]))
  {
    FirstBreakAt(b, 0);
    assert b[..0] == "";
  }

  /** What a cut CR LF pair does to the rest of the stream: the event being collected is dispatched first. */
  lemma CutMeansDispatch(st: State, a: string, b: string)
    requires EndsWithCr(st.buf + a) && StartsWithLf(b)
    ensures var out := Parse(st, a);
      && out.buf == ""
      && Parse(st, a + b) == Drain(out.(buf := b[1..]))
      && Parse(out, b) == Drain(Dispatch(out).(buf := b[1..]))
  {
    hide Interpret, Drain;
    var whole := st.(buf := st.buf + a);
    CutLineEnd(whole, b);
    assert st.buf + a + b == st.buf + (a + b);
    DrainEndsEmpty(whole);
    var out := Drain(whole);
    assert out.buf + b == b;
    ExtraBlankLine(out, b);
  }

  /** Cutting a CR LF pair is harmless, whatever follows, exactly when no event is being collected at the cut. */
  lemma CutHarmlessIff(st: State, a: string)
    requires EndsWithCr(st.buf + a)
    ensures (forall b | StartsWithLf(b) :: Parse(Parse(st, a), b) == Parse(st, a + b)) <==> Idle(Parse(st, a))
    ensures Parse(Parse(st, a), "\n") == Parse(st, a + "\n") <==> Idle(Parse(st, a))
  {
    hide Drain;
    var out := Parse(st, a);
    if Idle(out) {
      forall b | StartsWithLf(b) ensures Parse(out, b) == Parse(st, a + b) { CutMeansDispatch(st, a, b); }
    }
    CutMeansDispatch(st, a, "\n");
    assert "\n"[1..] == "";
    DrainQuiet(out.(buf := ""));
    DrainQuiet(Dispatch(out).(buf := ""));
    assert StartsWithLf("\n");
  }

  /** A data line cut before its LF is delivered as an event at once. */
  lemma CutLineEndCounterexample()
    ensures Parse(Parse(FRESH, "data\r"), "\n") != Parse(FRESH, "data\r" + "\n")
  {
    var a := "data\r";
    assert FRESH.buf + a == a && a[..4] == "data";
    FirstBreakAt(a, 4);
    assert IndexOf("data", ':') == 4;
    var next := Interpret(FRESH, "data").(buf := "");
    assert a[5..] == "" && next.dataLines == [""];
    DrainQuiet(next);
    CutHarmlessIff(FRESH, a);
  }
}
