/** The dashboard's trend file: throttled appends with pruning, and what the file holds after any run. */
module TrendStore {
  import opened Options

  /** A point of the trend; an unreadable timestamp reads as 0. */
  datatype Point = Point(ts: real, body: string)

  /** A line of the file: a JSON object, or anything the reader skips. */
  datatype Line = Row(point: Point) | Skipped(text: string)

  /** Environment of the store, with the source's lower bounds applied where it applies them. */
  datatype Config = Config(interval: real, retention: real, limit: int) {
    function Gap(): real { if interval > 1.0 then interval else 1.0 }
    function Retention(): real { if retention > 60.0 then retention else 60.0 }
    function TailLimit(): int { if limit * 2 > 120 then limit * 2 else 120 }
  }

  /** How the file operations of one call end. */
  datatype Outcome = AllWell | AppendFails | ReadFails | RewriteFails

  /** The file, and the time of the last attempt (0 for none since the process started). */
  datatype Store = Store(lines: seq<Line>, last: real)

  const EMPTY := Store([], 0.0)

  // ---- reading -------------------------------------------------------------------------------------

  function Points(lines: seq<Line>): seq<Point> {
    if lines == [] then []
    else
      var l := lines[|lines| - 1];
      Points(lines[..|lines| - 1]) + (if l.Row? then [l.point] else [])
  }

  function LastN<T>(s: seq<T>, n: nat): seq<T> { if |s| > n then s[|s| - n..] else s }

  /** `_tail_jsonl`: the loop over a bounded deque returns the last rows of the file. */
  method Tail(lines: seq<Line>, limit: int) returns (rows: seq<Point>)
    ensures rows == LastN(Points(lines), if limit > 1 then limit else 1)
  {
    var cap: nat := if limit > 1 then limit else 1;
    rows := [];
    for i := 0 to |lines|
      invariant rows == LastN(Points(lines[..i]), cap)
    {
      assert lines[..i + 1][..i] == lines[..i];
      if lines[i].Row? {
        rows := rows + [lines[i].point];
        if |rows| > cap { rows := rows[1..]; }
      }
    }
    assert lines[..|lines|] == lines;
  }

  /** The rows not older than `minTs`. */
  method KeepFresh(rows: seq<Point>, minTs: real) returns (kept: seq<Point>)
    ensures kept == Fresh(rows, minTs)
    ensures rows == [] ==> kept == []
  {
    kept := [];
    for i := 0 to |rows|
      invariant kept == Fresh(rows[..i], minTs)
    {
      assert rows[..i + 1][..i] == rows[..i];
      if rows[i].ts >= minTs { kept := kept + [rows[i]]; }
    }
    assert rows[..|rows|] == rows;
  }

  // ---- pruning -------------------------------------------------------------------------------------

  function Fresh(rows: seq<Point>, minTs: real): seq<Point> {
    if rows == [] then []
    else
      var r := rows[|rows| - 1];
      Fresh(rows[..|rows| - 1], minTs) + (if r.ts >= minTs then [r] else [])
  }

  /** `kept[-limit:]` when there are more than `limit` rows, with Python's reading of a zero or negative limit. */
  function Cut(kept: seq<Point>, limit: int): seq<Point> {
    if |kept| <= limit then kept
    else if limit > 0 then kept[|kept| - limit..]
    else if -limit < |kept| then kept[-limit..]
    else []
  }

  function Pruned(rows: seq<Point>, now: real, c: Config): seq<Point> {
    Cut(Fresh(rows, now - c.Retention()), c.limit)
  }

  function RowLines(ps: seq<Point>): (ls: seq<Line>)
    ensures |ls| == |ps|
  {
    seq(|ps|, i requires 0 <= i < |ps| => Row(ps[i]))
  }

  /** Whether a call at this time writes at all. */
  predicate Due(s: Store, now: real, c: Config) { s.last == 0.0 || now - s.last >= c.Gap() }

  function Recorded(s: Store, p: Point, c: Config, o: Outcome): Store {
    if !Due(s, p.ts, c) then s
    else if o == AppendFails then s.(last := p.ts)
    else
      var lines := s.lines + [Row(p)];
      var rows := LastN(Points(lines), c.TailLimit());
      var kept := Pruned(rows, p.ts, c);
      Store(if o == AllWell && |kept| != |rows| then RowLines(kept) else lines, p.ts)
  }

  class TrendFile {
    var lines: seq<Line>
    var last: real
    const c: Config

    function State(): Store
      reads this
    {
      Store(lines, last)
    }

    /** A process starts with whatever file is there. */
    constructor (c: Config, lines: seq<Line>)
      ensures this.c == c && State() == Store(lines, 0.0)
    {
      this.c := c;
      this.lines := lines;
      this.last := 0.0;
    }

    method Record(now: real, body: string, o: Outcome)
      modifies this
      ensures State() == Recorded(old(State()), Point(now, body), c, o)
    {
      hide Points, LastN, Fresh, RowLines;
      if last != 0.0 && now - last < c.Gap() { return; }
      last := now;
      if o == AppendFails { return; }
      lines := lines + [Row(Point(now, body))];
      var rows := [];
      if o != ReadFails { rows := Tail(lines, c.TailLimit()); }
      var kept := KeepFresh(rows, now - c.Retention());
      if |kept| > c.limit { kept := Cut(kept, c.limit); }
      if |kept| != |rows| {
        if o != RewriteFails { lines := RowLines(kept); }
      }
    }
  }

  // ---- small facts ---------------------------------------------------------------------------------

  lemma {:induction false} PointsOfRows(ps: seq<Point>)
    ensures Points(RowLines(ps)) == ps
  {
    if ps != [] {
      PointsOfRows(ps[..|ps| - 1]);
      assert RowLines(ps)[..|ps| - 1] == RowLines(ps[..|ps| - 1]);
    }
  }

  lemma {:induction false} FreshLength(rows: seq<Point>, m: real)
    ensures |Fresh(rows, m)| <= |rows|
    ensures forall i | 0 <= i < |Fresh(rows, m)| :: Fresh(rows, m)[i].ts >= m
    ensures |Fresh(rows, m)| == |rows| ==> Fresh(rows, m) == rows
  {
    if rows != [] { FreshLength(rows[..|rows| - 1], m); }
  }

  // ---- one successful call on any file -------------------------------------------------------------

  /** Whatever the file held before, a call that writes leaves the rows it read, pruned. */
  lemma RowsAfter(s: Store, p: Point, c: Config)
    requires Due(s, p.ts, c)
    ensures var rows := LastN(Points(s.lines) + [p], c.TailLimit());
      var after := Points(Recorded(s, p, c, AllWell).lines);
      after == if |Pruned(rows, p.ts, c)| != |rows| then Pruned(rows, p.ts, c) else Points(s.lines) + [p]
  {
    var lines := s.lines + [Row(p)];
    assert lines[..|s.lines|] == s.lines;
    var rows := LastN(Points(lines), c.TailLimit());
    PointsOfRows(Pruned(rows, p.ts, c));
  }

  /** A successful call heals any file: at most `limit` rows, none older than the retention, the new point last. */
  lemma SuccessfulRecordHeals(s: Store, p: Point, c: Config)
    requires Due(s, p.ts, c) && c.limit >= 1
    ensures Healed(Points(Recorded(s, p, c, AllWell).lines), p, c)
  {
    hide Fresh, Points, Recorded, Pruned;
    RowsAfter(s, p, c);
    var rows := LastN(Points(s.lines) + [p], c.TailLimit());
    assert rows[|rows| - 1] == p;
    PrunedIsHealed(rows, p, c);
    if |Pruned(rows, p.ts, c)| == |rows| { SmallTail(Points(s.lines) + [p], c); }
  }

  predicate Healed(rows: seq<Point>, p: Point, c: Config) {
    && 1 <= |rows| <= c.limit && rows[|rows| - 1] == p
    && forall i | 0 <= i < |rows| :: rows[i].ts >= p.ts - c.Retention()
  }

  lemma PrunedIsHealed(rows: seq<Point>, p: Point, c: Config)
    requires c.limit >= 1 && rows != [] && rows[|rows| - 1] == p
    ensures Healed(Pruned(rows, p.ts, c), p, c)
    ensures |Pruned(rows, p.ts, c)| == |rows| ==> Pruned(rows, p.ts, c) == rows
  {
    hide Fresh;
    FreshLength(rows, p.ts - c.Retention());
    FreshKeepsLast(rows, p, c);
    CutIsHealed(Fresh(rows, p.ts - c.Retention()), p, c);
  }

  lemma CutIsHealed(f: seq<Point>, p: Point, c: Config)
    requires c.limit >= 1 && f != [] && f[|f| - 1] == p
    requires forall i | 0 <= i < |f| :: f[i].ts >= p.ts - c.Retention()
    ensures Healed(Cut(f, c.limit), p, c) && |Cut(f, c.limit)| <= |f|
    ensures |Cut(f, c.limit)| == |f| ==> Cut(f, c.limit) == f
  {
  }

  /** If pruning dropped nothing, the tail was the whole file. */
  lemma SmallTail(all: seq<Point>, c: Config)
    requires c.limit >= 1 && |LastN(all, c.TailLimit())| <= c.limit
    ensures LastN(all, c.TailLimit()) == all
  {
  }

  lemma FreshKeepsLast(rows: seq<Point>, p: Point, c: Config)
    requires rows != [] && rows[|rows| - 1] == p
    ensures var f := Fresh(rows, p.ts - c.Retention()); f != [] && f[|f| - 1] == p
  {
  }

  /** Whether the size bound holds after every successful call depends on the configured limit alone. */
  lemma SizeBoundIff(c: Config)
    ensures (forall s: Store, p: Point | Due(s, p.ts, c) ::
              |Points(Recorded(s, p, c, AllWell).lines)| <= c.limit) <==> c.limit >= 1
  {
    if c.limit >= 1 {
      forall s: Store, p: Point | Due(s, p.ts, c) ensures |Points(Recorded(s, p, c, AllWell).lines)| <= c.limit {
        hide Recorded, Points;
        SuccessfulRecordHeals(s, p, c);
      }
    } else {
      ZeroLimitKeepsAll(c);
      assert Due(EMPTY, 1.0, c);
    }
  }

  /** With a limit of 0 the slice keeps every fresh row; with a negative one no size is within it. */
  lemma ZeroLimitKeepsAll(c: Config)
    requires c.limit <= 0
    ensures |Points(Recorded(EMPTY, Point(1.0, ""), c, AllWell).lines)| > c.limit
  {
    var p := Point(1.0, "");
    RowsAfter(EMPTY, p, c);
    assert Points(EMPTY.lines) + [p] == [p];
    assert [p][..0] == [];
    assert Fresh([p], 1.0 - c.Retention()) == [p];
  }

  // ---- whole runs ----------------------------------------------------------------------------------

  datatype Event = Call(p: Point, o: Outcome) | Restart

  /** The store together with every point whose append succeeded, oldest first. */
  datatype World = World(store: Store, written: seq<Point>)

  function Step(w: World, e: Event, c: Config): World {
    match e
    case Restart => w.(store := w.store.(last := 0.0))
    case Call(p, o) =>
      World(Recorded(w.store, p, c, o),
        if Due(w.store, p.ts, c) && o != AppendFails then w.written + [p] else w.written)
  }

  function Run(es: seq<Event>, c: Config): World {
    if es == [] then World(EMPTY, []) else Step(Run(es[..|es| - 1], c), es[|es| - 1], c)
  }

  /** The clock is past the epoch and no rewrite of the file fails; a failing append is allowed. */
  predicate Healthy(e: Event) { e.Call? && e.p.ts > 0.0 && (e.o == AllWell || e.o == AppendFails) }

  predicate Spaced(ps: seq<Point>, gap: real) { forall i, j | 0 <= i < j < |ps| :: ps[i].ts + gap <= ps[j].ts }

  /** `from` starts the longest end of `ps` that has at most `limit` points, all at or after `minTs`. */
  predicate LongestEnd(ps: seq<Point>, from: nat, minTs: real, limit: int) {
    && from <= |ps| && |ps| - from <= limit
    && (forall i | from <= i < |ps| :: ps[i].ts >= minTs)
    && (from == 0 || ps[from - 1].ts < minTs || |ps| - from == limit)
  }

  function NewestKept(ps: seq<Point>, c: Config): real
    requires ps != []
  {
    ps[|ps| - 1].ts - c.Retention()
  }

  predicate WindowFrom(w: World, from: nat, c: Config)
    requires w.written != []
  {
    && LongestEnd(w.written, from, NewestKept(w.written, c), c.limit)
    && w.store.lines == RowLines(w.written[from..])
  }

  /** The file is the longest end of everything written that the limits allow. */
  ghost predicate HoldsWindow(w: World, c: Config) {
    if w.written == [] then w.store.lines == [] else exists from: nat :: WindowFrom(w, from, c)
  }

  ghost predicate Inv(w: World, c: Config) {
    && Spaced(w.written, c.Gap())
    && 0.0 <= w.store.last
    && (w.written != [] ==> 0.0 < w.store.last && w.written[|w.written| - 1].ts <= w.store.last)
    && HoldsWindow(w, c)
  }

  lemma {:induction false} AllOld(ps: seq<Point>, m: real)
    requires forall i | 0 <= i < |ps| :: ps[i].ts < m
    ensures Fresh(ps, m) == []
  {
    if ps != [] { AllOld(ps[..|ps| - 1], m); }
  }

  /** `k` cuts the old points from the fresh ones. */
  predicate CutAt(ps: seq<Point>, m: real, k: nat) {
    && k <= |ps|
    && (forall i | k <= i < |ps| :: ps[i].ts >= m)
    && (k > 0 ==> ps[k - 1].ts < m)
  }

  lemma FreshGrows(ps: seq<Point>, p: Point, m: real, k: nat)
    requires CutAt(ps, m, k) && Fresh(ps, m) == ps[k..] && p.ts >= m
    ensures CutAt(ps + [p], m, k) && Fresh(ps + [p], m) == (ps + [p])[k..]
  {
    assert (ps + [p])[..|ps|] == ps;
    assert (ps + [p])[k..] == ps[k..] + [p];
  }

  lemma LastIsNewest(ps: seq<Point>, m: real)
    requires Spaced(ps, 0.0) && ps != [] && ps[|ps| - 1].ts < m
    ensures forall i | 0 <= i < |ps| :: ps[i].ts < m
  {
    var n := |ps| - 1;
    forall i | 0 <= i < |ps| ensures ps[i].ts < m { assert i < n ==> ps[i].ts + 0.0 <= ps[n].ts; }
  }

  lemma SpacedFront(ps: seq<Point>, gap: real)
    requires Spaced(ps, gap) && ps != []
    ensures Spaced(ps[..|ps| - 1], gap)
  {
  }

  lemma {:induction false} FreshIsAnEnd(ps: seq<Point>, m: real) returns (k: nat)
    requires Spaced(ps, 0.0)
    ensures CutAt(ps, m, k) && Fresh(ps, m) == ps[k..]
  {
    hide Spaced;
    if ps == [] {
      k := 0;
    } else if ps[|ps| - 1].ts < m {
      LastIsNewest(ps, m);
      AllOld(ps, m);
      k := |ps|;
    } else {
      hide Fresh, CutAt;
      var front := ps[..|ps| - 1];
      SpacedFront(ps, 0.0);
      k := FreshIsAnEnd(front, m);
      FreshGrows(front, ps[|ps| - 1], m, k);
      assert ps == front + [ps[|ps| - 1]];
    }
  }

  lemma PrunedIsLongestEnd(ps: seq<Point>, now: real, c: Config) returns (b: nat)
    requires Spaced(ps, 0.0) && c.limit >= 1
    ensures LongestEnd(ps, b, now - c.Retention(), c.limit) && Pruned(ps, now, c) == ps[b..]
  {
    hide Fresh;
    b := FreshIsAnEnd(ps, now - c.Retention());
    if |ps| - b > c.limit {
      assert ps[b..][|ps| - b - c.limit..] == ps[|ps| - c.limit..];
      b := |ps| - c.limit;
    }
  }

  /** Pruning the pruned file and the new point gives what pruning the whole history would. */
  lemma EndsCompose(ps: seq<Point>, a: nat, m: real, p: Point, b: nat, m': real, limit: int)
    requires LongestEnd(ps, a, m, limit) && m <= m'
    requires LongestEnd((ps + [p])[a..], b, m', limit)
    ensures LongestEnd(ps + [p], a + b, m', limit)
    ensures (ps + [p])[a..][b..] == (ps + [p])[a + b..]
  {
    var all := ps + [p];
    assert forall i | a + b <= i < |all| :: all[i] == all[a..][i - a];
    if b > 0 {
      assert all[a + b - 1] == all[a..][b - 1];
    } else if a > 0 {
      assert all[a - 1] == ps[a - 1];
    }
  }

  /** The tail read after an append is the whole file. */
  lemma TailIsWholeFile(w: World, c: Config, p: Point)
    requires Inv(w, c) && c.limit >= 1
    ensures LastN(Points(w.store.lines + [Row(p)]), c.TailLimit()) == Points(w.store.lines) + [p]
    ensures RowLines(Points(w.store.lines)) == w.store.lines && |w.store.lines| <= c.limit
  {
    assert (w.store.lines + [Row(p)])[..|w.store.lines|] == w.store.lines;
    if w.written == [] {
      assert RowLines([]) == [];
    } else {
      var from: nat :| WindowFrom(w, from, c);
      PointsOfRows(w.written[from..]);
    }
  }

  /** The file of a run is an end of what was written, whether anything was written or not. */
  lemma FileIsAnEnd(w: World, c: Config, now: real) returns (a: nat, m: real)
    requires Inv(w, c) && c.limit >= 1 && (w.written != [] ==> now >= w.store.last)
    ensures LongestEnd(w.written, a, m, c.limit) && m <= now - c.Retention()
    ensures Points(w.store.lines) == w.written[a..] && w.store.lines == RowLines(w.written[a..])
  {
    hide Points, Spaced;
    if w.written == [] {
      a, m := 0, now - c.Retention();
      PointsOfRows([]);
      assert RowLines([]) == [];
    } else {
      a :| WindowFrom(w, a, c);
      m := NewestKept(w.written, c);
      PointsOfRows(w.written[a..]);
    }
  }

  lemma SpacedEnd(ps: seq<Point>, p: Point, a: nat, gap: real)
    requires Spaced(ps, gap) && gap >= 0.0 && a <= |ps| && (ps != [] ==> ps[|ps| - 1].ts + gap <= p.ts)
    ensures Spaced(ps + [p], gap) && Spaced((ps + [p])[a..], 0.0)
  {
    var all := ps + [p];
    forall i, j | 0 <= i < j < |all| ensures all[i].ts + gap <= all[j].ts {
      if j == |ps| { assert i == |ps| - 1 || ps[i].ts + gap <= ps[|ps| - 1].ts; }
    }
  }

  /** What a call that writes leaves in the file of a run. */
  lemma FileAfter(w: World, p: Point, c: Config, rows: seq<Point>)
    requires Inv(w, c) && c.limit >= 1 && Due(w.store, p.ts, c)
    requires Points(w.store.lines) + [p] == rows
    requires |Pruned(rows, p.ts, c)| == |rows| ==> Pruned(rows, p.ts, c) == rows
    ensures Recorded(w.store, p, c, AllWell) == Store(RowLines(Pruned(rows, p.ts, c)), p.ts)
  {
    hide Fresh, Pruned, Points, Inv;
    TailIsWholeFile(w, c, p);
    var before := Points(w.store.lines);
    assert w.store.lines + [Row(p)] == RowLines(rows) by {
      assert forall i | 0 <= i < |before| :: RowLines(before)[i] == Row(rows[i]);
    }
  }

  lemma WrittenStep(w: World, p: Point, c: Config)
    requires Inv(w, c) && c.limit >= 1 && p.ts > 0.0 && Due(w.store, p.ts, c)
    ensures Inv(Step(w, Call(p, AllWell), c), c)
  {
    hide Fresh, Pruned, Points, Recorded, Spaced, LongestEnd, LastN, HoldsWindow;
    var a, from := WindowGrows(w, p, c);
    SpacedEnd(w.written, p, a, c.Gap());
    WindowShown(Step(w, Call(p, AllWell), c), from, c);
  }

  lemma WindowGrows(w: World, p: Point, c: Config) returns (a: nat, from: nat)
    requires Inv(w, c) && c.limit >= 1 && p.ts > 0.0 && Due(w.store, p.ts, c)
    ensures a <= |w.written| && from <= |w.written| + 1
    ensures LongestEnd(w.written + [p], from, p.ts - c.Retention(), c.limit)
    ensures Recorded(w.store, p, c, AllWell) == Store(RowLines((w.written + [p])[from..]), p.ts)
  {
    hide Fresh, Pruned, Points, Recorded, Spaced, LongestEnd, LastN;
    var all := w.written + [p];
    var m;
    a, m := FileIsAnEnd(w, c, p.ts);
    EndInRange(w.written, a, m, c.limit);
    SpacedEnd(w.written, p, a, c.Gap());
    var rows := all[a..];
    assert rows == w.written[a..] + [p];
    var b := PrunedIsLongestEnd(rows, p.ts, c);
    hide HoldsWindow, Inv;
    EndInRange(rows, b, p.ts - c.Retention(), c.limit);
    EndsCompose(w.written, a, m, p, b, p.ts - c.Retention(), c.limit);
    assert |rows[b..]| == |rows| ==> rows[b..] == rows;
    FileAfter(w, p, c, rows);
    from := a + b;
  }

  lemma EndInRange(ps: seq<Point>, a: nat, m: real, limit: int)
    requires LongestEnd(ps, a, m, limit)
    ensures a <= |ps|
  {
  }

  lemma WindowShown(w: World, from: nat, c: Config)
    requires w.written != [] && WindowFrom(w, from, c)
    ensures HoldsWindow(w, c)
  {
  }

  lemma {:induction false} HealthyRunsKeepInv(es: seq<Event>, c: Config)
    requires c.limit >= 1 && forall i | 0 <= i < |es| :: Healthy(es[i])
    ensures Inv(Run(es, c), c)
  {
    hide Recorded, Points;
    if es != [] {
      HealthyRunsKeepInv(es[..|es| - 1], c);
      StepKeepsInv(Run(es[..|es| - 1], c), es[|es| - 1], c);
    }
  }

  lemma StepKeepsInv(w: World, e: Event, c: Config)
    requires Inv(w, c) && c.limit >= 1 && Healthy(e)
    ensures Inv(Step(w, e, c), c)
  {
    hide Points, Pruned, Spaced, LongestEnd;
    if Due(w.store, e.p.ts, c) && e.o == AllWell {
      WrittenStep(w, e.p, c);
    } else if w.written != [] {
      var from: nat :| WindowFrom(w, from, c);
      assert WindowFrom(Step(w, e, c), from, c);
    }
  }

  // ---- the throttle, read off the calls ------------------------------------------------------------

  /** When the latest write was attempted since the last restart, if any was; a failing append is an attempt. */
  function LastAttempt(es: seq<Event>, c: Config): Option<real>
    decreases |es|, 0
  {
    if es == [] then None
    else
      match es[|es| - 1]
      case Restart => None
      case Call(p, _) =>
        if Attempts(es[..|es| - 1], p.ts, c) then Some(p.ts) else LastAttempt(es[..|es| - 1], c)
  }

  /** A call at this time attempts a write: none was attempted since the last restart, or the latest was a second and
      the interval ago. */
  predicate Attempts(es: seq<Event>, ts: real, c: Config)
    decreases |es|, 1
  {
    var latest := LastAttempt(es, c);
    latest.None? || (ts - latest.value >= 1.0 && ts - latest.value >= c.interval)
  }

  /** The points whose append succeeded. */
  function Written(es: seq<Event>, c: Config): seq<Point> {
    if es == [] then []
    else
      var front, e := es[..|es| - 1], es[|es| - 1];
      Written(front, c) + (if e.Call? && e.o != AppendFails && Attempts(front, e.p.ts, c) then [e.p] else [])
  }

  /** In every run, with any failures and restarts, the store throttles as the calls say. */
  lemma {:induction false} ThrottleFollowsCalls(es: seq<Event>, c: Config)
    requires forall i | 0 <= i < |es| && es[i].Call? :: es[i].p.ts > 0.0
    ensures var w, latest := Run(es, c), LastAttempt(es, c);
      && w.written == Written(es, c)
      && w.store.last == (if latest.Some? then latest.value else 0.0)
      && (latest.Some? ==> latest.value > 0.0)
    ensures forall ts :: Due(Run(es, c).store, ts, c) <==> Attempts(es, ts, c)
  {
    hide Recorded;
    if es != [] {
      var front, e := es[..|es| - 1], es[|es| - 1];
      ThrottleFollowsCalls(front, c);
      if e.Call? { CallMeans(Run(front, c).store, e.p, c, e.o); }
      assert [] + Written(front, c) == Written(front, c) == Written(front, c) + [];
    }
  }

  /** What a call does to the file and the time of the latest attempt. */
  lemma CallMeans(s: Store, p: Point, c: Config, o: Outcome)
    ensures !Due(s, p.ts, c) ==> Recorded(s, p, c, o) == s
    ensures Due(s, p.ts, c) ==> Recorded(s, p, c, o).last == p.ts
    ensures Due(s, p.ts, c) && o == AppendFails ==> Recorded(s, p, c, o).lines == s.lines
    ensures Due(s, p.ts, c) && (o == ReadFails || o == RewriteFails) ==> Recorded(s, p, c, o).lines == s.lines + [Row(p)]
  {
    hide Points, Pruned;
  }

  /** Successful calls that are a second and the interval apart are all written. */
  lemma {:induction false} SpacedCallsAreWritten(es: seq<Event>, c: Config)
    requires forall i | 0 <= i < |es| :: es[i].Call? && es[i].o == AllWell
    requires forall i | 0 < i < |es| ::
      es[i].p.ts - es[i - 1].p.ts >= 1.0 && es[i].p.ts - es[i - 1].p.ts >= c.interval
    ensures |Written(es, c)| == |es| && forall i | 0 <= i < |es| :: Written(es, c)[i] == es[i].p
    ensures es != [] ==> LastAttempt(es, c) == Some(es[|es| - 1].p.ts)
  {
    if es != [] {
      var front := es[..|es| - 1];
      assert forall i | 0 <= i < |front| :: front[i] == es[i];
      SpacedCallsAreWritten(front, c);
      var n := |es| - 1;
      if n > 0 {
        assert es[n].p.ts - es[n - 1].p.ts >= 1.0 && es[n].p.ts - es[n - 1].p.ts >= c.interval;
        assert front[n - 1] == es[n - 1];
      }
      assert Attempts(front, es[n].p.ts, c);
      assert Written(es, c) == Written(front, c) + [es[n].p];
    }
  }

  /** `from` starts the longest end of these points with at most `limit` of them, none a minute and the retention older
      than the newest. */
  predicate KeptFrom(ps: seq<Point>, from: nat, c: Config)
    requires ps != []
  {
    var newest := ps[|ps| - 1].ts;
    && from < |ps| && |ps| - from <= c.limit
    && (forall i | from <= i < |ps| :: newest - ps[i].ts <= 60.0 || newest - ps[i].ts <= c.retention)
    && (from == 0 || |ps| - from == c.limit || (newest - ps[from - 1].ts > 60.0 && newest - ps[from - 1].ts > c.retention))
  }

  /** After every run from an empty store the file is exactly the longest end of all the points written that has at most
      `limit` points and lies within the retention of the newest; its timestamps rise by at least a second and the write
      interval, and a reader's tail is the whole file. */
  lemma FileAfterAnyRun(es: seq<Event>, c: Config)
    requires c.limit >= 1 && forall i | 0 <= i < |es| :: Healthy(es[i])
    ensures var lines, all := Run(es, c).store.lines, Written(es, c);
      && (all == [] ==> lines == [])
      && (all != [] ==> exists from: nat :: KeptFrom(all, from, c) && lines == RowLines(all[from..]))
      && (forall i, j | 0 <= i < j < |all| :: all[j].ts - all[i].ts >= 1.0 && all[j].ts - all[i].ts >= c.interval)
      && LastN(Points(lines), c.TailLimit()) == Points(lines) && RowLines(Points(lines)) == lines
  {
    hide Run, Points, Recorded, Written, LastAttempt;
    ThrottleFollowsCalls(es, c);
    HealthyRunsKeepInv(es, c);
    var w := Run(es, c);
    TailIsWholeFile(w, c, Point(0.0, ""));
    TailIsShort(w.store.lines, c);
    if w.written != [] {
      var from: nat :| WindowFrom(w, from, c);
      assert KeptFrom(w.written, from, c);
    }
  }

  lemma TailIsShort(lines: seq<Line>, c: Config)
    requires |lines| <= c.limit && c.limit >= 1
    ensures LastN(Points(lines), c.TailLimit()) == Points(lines)
  {
    PointsAreFewer(lines);
  }

  lemma {:induction false} PointsAreFewer(lines: seq<Line>)
    ensures |Points(lines)| <= |lines|
  {
    if lines != [] { PointsAreFewer(lines[..|lines| - 1]); }
  }

  /** The lower bounds on the configuration, and how far a reader reads. */
  lemma BoundsMean(c: Config, d: real, n: int)
    ensures d >= c.Gap() <==> d >= 1.0 && d >= c.interval
    ensures d <= c.Retention() <==> d <= 60.0 || d <= c.retention
    ensures n <= c.TailLimit() <==> n <= 120 || n <= 2 * c.limit
  {
  }

  lemma TwoPoints(c: Config)
    requires c.limit >= 2
    ensures var p := Point(1.0, ""); Pruned([p], 1.0, c) == [p] && Pruned([p, p], 1.0, c) == [p, p]
  {
    var p := Point(1.0, "");
    assert [p][..0] == [] && [p, p][..1] == [p];
    assert Fresh([p], 1.0 - c.Retention()) == [p];
    assert Fresh([p, p], 1.0 - c.Retention()) == [p] + [p];
  }

  /** A restart forgets the throttle: two points may then be closer than the write interval. */
  lemma RestartForgetsTheGap(c: Config)
    requires c.limit >= 2
    ensures var p := Point(1.0, "");
      Points(Run([Call(p, AllWell), Restart, Call(p, AllWell)], c).store.lines) == [p, p]
  {
    hide Pruned, Recorded;
    var p := Point(1.0, "");
    var e1, e2, e3 := Call(p, AllWell), Restart, Call(p, AllWell);
    assert [e1, e2, e3][..2] == [e1, e2] && [e1, e2][..1] == [e1] && [e1][..0] == [];
    TwoPoints(c);
    RowsAfter(EMPTY, p, c);
    assert Points(EMPTY.lines) + [p] == [p];
    var one := Recorded(EMPTY, p, c, AllWell);
    var again := one.(last := 0.0);
    RowsAfter(again, p, c);
    assert [p] + [p] == [p, p];
    assert Run([], c).store == EMPTY;
    assert Run([e1], c).store == one;
    assert Run([e1, e2], c).store == again;
    assert Run([e1, e2, e3], c).store == Recorded(again, p, c, AllWell);
  }

  /** Exactly when the first point after a restart keeps the spacing of the file: there is no older point, or it is
      the write interval later, or so late that the older points are pruned. */
  lemma RestartGapIff(w: World, p: Point, c: Config)
    requires Inv(w, c) && c.limit >= 2
    ensures Spaced(Points(Step(Step(w, Restart, c), Call(p, AllWell), c).store.lines), c.Gap()) <==>
      w.written == [] || p.ts >= w.written[|w.written| - 1].ts + c.Gap()
      || p.ts - c.Retention() > w.written[|w.written| - 1].ts
  {
    hide Points, Pruned, Recorded, LastN, Spaced;
    RowsAfter(w.store.(last := 0.0), p, c);
    TailIsWholeFile(w, c, p);
    TailOfAppend(w, p, c);
    var rows := Points(w.store.lines);
    assert (rows + [p])[|rows|] == p;
    PrunedIsHealed(rows + [p], p, c);
    if w.written == [] {
      PointsOfRows([]);
      assert RowLines([]) == [] && [] + [p] == [p];
      OnePointIsSpaced(p, c);
    } else {
      var from: nat :| WindowFrom(w, from, c);
      PointsOfRows(w.written[from..]);
      SpacedTail(w.written, from, c.Gap());
      PrunedSpacedIff(rows, p, c);
    }
  }

  lemma TailOfAppend(w: World, p: Point, c: Config)
    ensures Points(w.store.lines + [Row(p)]) == Points(w.store.lines) + [p]
  {
    assert (w.store.lines + [Row(p)])[..|w.store.lines|] == w.store.lines;
  }

  lemma OnePointIsSpaced(p: Point, c: Config)
    requires c.limit >= 1
    ensures Pruned([p], p.ts, c) == [p] && Spaced([p], c.Gap())
  {
    assert [p][..0] == [];
    assert Fresh([p], p.ts - c.Retention()) == [p];
  }

  lemma SpacedTail(ps: seq<Point>, from: nat, gap: real)
    requires Spaced(ps, gap) && from <= |ps|
    ensures Spaced(ps[from..], gap)
  {
  }

  lemma PrunedSpacedIff(rows: seq<Point>, p: Point, c: Config)
    requires rows != [] && Spaced(rows, c.Gap()) && c.limit >= 2
    ensures Spaced(Pruned(rows + [p], p.ts, c), c.Gap()) <==>
      p.ts >= rows[|rows| - 1].ts + c.Gap() || p.ts - c.Retention() > rows[|rows| - 1].ts
  {
    hide Fresh, Spaced;
    var l, m, all := rows[|rows| - 1], p.ts - c.Retention(), rows + [p];
    if p.ts >= l.ts + c.Gap() {
      SpacedEnd(rows, p, 0, c.Gap());
      assert all[0..] == all;
      var b := PrunedIsLongestEnd(all, p.ts, c);
      SpacedTail(all, b, c.Gap());
    } else if m > l.ts {
      LastIsOldEnough(rows, m, c);
      AllOld(rows, m);
      FreshOfAppend(rows, p, m);
      assert [] + [p] == [p];
      OnePointIsSpaced(p, c);
    } else {
      FreshOfAppend(rows, p, m);
      FreshOfAppend(rows[..|rows| - 1], l, m);
      assert rows[..|rows| - 1] + [l] == rows;
      var f := Fresh(all, m);
      var r := Cut(f, c.limit);
      assert |r| >= 2 && r[|r| - 1] == p && r[|r| - 2] == l;
      NotSpaced(r, c.Gap());
    }
  }

  lemma NotSpaced(r: seq<Point>, gap: real)
    requires |r| >= 2 && r[|r| - 2].ts + gap > r[|r| - 1].ts
    ensures !Spaced(r, gap)
  {
  }

  lemma LastIsOldEnough(ps: seq<Point>, m: real, c: Config)
    requires Spaced(ps, c.Gap()) && ps != [] && ps[|ps| - 1].ts < m
    ensures forall i | 0 <= i < |ps| :: ps[i].ts < m
  {
    forall i | 0 <= i < |ps| ensures ps[i].ts < m { assert i < |ps| - 1 ==> ps[i].ts + c.Gap() <= ps[|ps| - 1].ts; }
  }

  lemma FreshOfAppend(ps: seq<Point>, p: Point, m: real)
    ensures Fresh(ps + [p], m) == Fresh(ps, m) + if p.ts >= m then [p] else []
  {
    assert (ps + [p])[..|ps|] == ps;
  }
}
