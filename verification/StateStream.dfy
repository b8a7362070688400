/** Life of the touch console's state stream: one connection at a time, retry delays, and the hold-off after
    repeated stream errors, under any interleaving of timers, ticks, visibility, tokens and late endings. */
module StateStream {
  import opened Options

  const USER_IDLE_MS := 300000
  const BACKOFF_MIN_MS := 2000
  const BACKOFF_MAX_MS := 60000
  const ERROR_HOLDOFF_MS := 300000
  const DEFAULT_RETRY_MS := 15000

  datatype Status = Connecting | Paused | Live | Failing | Down | Unsupported

  /** One request. `hint` is the last non-zero retry value its parser saw. */
  datatype Conn = Conn(aborted: bool, ended: bool, authFailed: bool, hint: Option<nat>)

  /** The stream record, the page state it looks at, and every connection ever opened (its index is its identity).
      `timer` is the moment the pending retry is due. */
  datatype State = State(
    status: Status, ctrl: Option<nat>, timer: Option<int>, backoff: int, errors: nat, holdOffUntil: int,
    supported: bool, hidden: bool, authProblem: bool, lastInteraction: int, now: int, conns: seq<Conn>)

  function Initial(supported: bool, hidden: bool, now: nat): State {
    State(Connecting, None, None, BACKOFF_MIN_MS, 0, 0, supported, hidden, false, now, now, [])
  }

  // ---- pure policy ---------------------------------------------------------------------------------

  predicate Wanted(s: State) {
    && !s.hidden && !s.authProblem && s.status != Unsupported
    && !(s.holdOffUntil != 0 && s.now < s.holdOffUntil)
    && s.now - s.lastInteraction < USER_IDLE_MS
  }

  datatype Ending = AuthRefused | StreamError | Closed

  function Max(a: int, b: int): int { if a < b then b else a }
  function Min(a: int, b: int): int { if a < b then a else b }

  function NextDelay(ended: Ending, hint: Option<nat>, backoff: int): int {
    var wait := Min(BACKOFF_MAX_MS, Max(BACKOFF_MIN_MS, backoff));
    match ended
    case StreamError => Max(if hint.Some? && hint.value != 0 then hint.value else DEFAULT_RETRY_MS, wait)
    case AuthRefused => BACKOFF_MAX_MS
    case Closed => if hint.Some? && hint.value != 0 then Max(hint.value, wait) else wait
  }

  /** What the browser makes of a delay: a signed 32-bit number of milliseconds, below zero counting as zero. */
  function TimerDelay(ms: int): int {
    var wrapped := ms % 0x1_0000_0000;
    if wrapped >= 0x8000_0000 then 0 else wrapped
  }

  // ---- the functions of the console ----------------------------------------------------------------

  function Abort(s: State): State {
    if s.ctrl.Some? && s.ctrl.value < |s.conns|
    then s.(conns := s.conns[s.ctrl.value := s.conns[s.ctrl.value].(aborted := true)])
    else s
  }

  function Close(s: State, status: Status): State {
    Abort(s).(ctrl := None, timer := None, status := status)
  }

  function Open(s: State): State {
    if !s.supported then s.(status := Unsupported)
    else s.(ctrl := Some(|s.conns|), status := Connecting, conns := s.conns + [Conn(false, false, false, None)])
  }

  function OpenOrPause(s: State): State {
    if Wanted(s) then Open(s) else s.(status := Paused)
  }

  function Restart(s: State): State {
    OpenOrPause(Close(s, Connecting).(backoff := BACKOFF_MIN_MS, errors := 0, holdOffUntil := 0))
  }

  function Sync(s: State): State {
    if !Wanted(s) && s.ctrl.Some? then Close(s, Paused)
    else if !Wanted(s) && s.status != Unsupported then s.(timer := None, status := Paused)
    else if Wanted(s) && s.ctrl.None? && s.timer.None? then Open(s)
    else s
  }

  function HowEnded(s: State, id: nat): Ending
    requires id < |s.conns|
  {
    if s.conns[id].authFailed then AuthRefused else if s.status == Failing then StreamError else Closed
  }

  function Wait(s: State, id: nat): int
    requires id < |s.conns|
  {
    NextDelay(HowEnded(s, id), s.conns[id].hint, s.backoff)
  }

  /** The fetch of connection `id` settles. Only the current connection's ending schedules a retry. */
  function End(s: State, id: nat): State
    requires id < |s.conns|
  {
    var t := s.(conns := s.conns[id := s.conns[id].(ended := true)]);
    if s.ctrl != Some(id) then t
    else
      var ended := HowEnded(s, id);
      var u := t.(ctrl := None, timer := Some(s.now + TimerDelay(Wait(s, id))), backoff := Min(BACKOFF_MAX_MS, s.backoff * 2));
      if ended == StreamError then
        u.(errors := s.errors + 1, holdOffUntil := if s.errors + 1 >= 3 then s.now + ERROR_HOLDOFF_MS else s.holdOffUntil)
      else u.(status := Down)
  }

  datatype ServerEvent = Ready | StateObject | ErrorEvent | OtherEvent

  /** An event from connection `id`, with the retry value the parser holds. */
  function Receive(s: State, id: nat, ev: ServerEvent, retry: Option<nat>): State
    requires id < |s.conns|
  {
    var hint := if retry.Some? && retry.value != 0 then retry else s.conns[id].hint;
    var t := s.(conns := s.conns[id := s.conns[id].(hint := hint)]);
    match ev
    case Ready => t.(status := Live)
    case StateObject => t.(status := Live, backoff := BACKOFF_MIN_MS, errors := 0)
    case ErrorEvent => t.(status := Failing)
    case OtherEvent => t
  }

  // ---- the console object --------------------------------------------------------------------------

  class Console {
    var status: Status
    var ctrl: Option<nat>
    var timer: Option<int>
    var backoff: int
    var errors: nat
    var holdOffUntil: int
    var hidden: bool
    var authProblem: bool
    var lastInteraction: int
    var now: int
    var conns: seq<Conn>
    const supported: bool

    ghost function View(): State
      reads this
    {
      State(status, ctrl, timer, backoff, errors, holdOffUntil, supported, hidden, authProblem, lastInteraction, now, conns)
    }

    constructor (supported: bool, hidden: bool, now: nat)
      ensures View() == Initial(supported, hidden, now)
    {
      this.supported, this.hidden, this.now, this.lastInteraction := supported, hidden, now, now;
      status, ctrl, timer, backoff, errors, holdOffUntil := Connecting, None, None, BACKOFF_MIN_MS, 0, 0;
      authProblem, conns := false, [];
    }

    method WantStream() returns (want: bool)
      ensures want == Wanted(View())
    {
      if hidden || authProblem || status == Unsupported {
        return false;
      }
      if holdOffUntil != 0 && now < holdOffUntil {
        return false;
      }
      want := now - lastInteraction < USER_IDLE_MS;
    }

    method CloseStream(to: Status)
      modifies this
      ensures View() == Close(old(View()), to)
    {
      var was := ctrl;
      ctrl := None;
      timer := None;
      status := to;
      if was.Some? && was.value < |conns| {
        conns := conns[was.value := conns[was.value].(aborted := true)];
      }
    }

    method OpenStream()
      modifies this
      ensures View() == Open(old(View()))
    {
      if !supported {
        status := Unsupported;
        return;
      }
      ctrl := Some(|conns|);
      conns := conns + [Conn(false, false, false, None)];
      status := Connecting;
    }

    method OpenIfWanted()
      modifies this
      ensures View() == OpenOrPause(old(View()))
    {
      var want := WantStream();
      if want {
        OpenStream();
      } else {
        status := Paused;
      }
    }

    /** Afterwards nothing of the past is left: no retry, no back-off, no hold-off, and no older request running; a new
        one runs exactly when the stream is wanted. */
    method RestartStream()
      modifies this
      ensures View() == Restart(old(View()))
      ensures OneAtATime(old(View())) ==> OneAtATime(View()) && forall id: nat | id < |old(conns)| :: !Running(View(), id)
      ensures timer.None? && backoff == 2000 && errors == 0 && holdOffUntil == 0
      ensures old(status) != Unsupported ==>
        (ctrl.Some? <==> supported && !hidden && !authProblem && now - lastInteraction < 300000)
      ensures ctrl.Some? ==> ctrl.value == |old(conns)| && Running(View(), ctrl.value)
    {
      CloseStream(Connecting);
      backoff := BACKOFF_MIN_MS;
      errors := 0;
      holdOffUntil := 0;
      OpenIfWanted();
    }

    /** Afterwards a request runs only if the stream is wanted, a wanted stream runs or has a retry pending, and no
        request was opened while a retry was. */
    method SyncStream()
      modifies this
      ensures View() == Sync(old(View()))
      ensures OneAtATime(old(View())) ==> OneAtATime(View())
      ensures ctrl.Some? ==> Wanted(View())
      ensures Wanted(old(View())) && supported ==> ctrl.Some? || timer.Some?
      ensures old(timer).Some? ==> |conns| == |old(conns)|
      ensures !Wanted(old(View())) && status != Unsupported ==> ctrl.None? && timer.None? && status == Paused
    {
      var want := WantStream();
      if !want && ctrl.Some? {
        CloseStream(Paused);
      } else if !want && status != Unsupported {
        timer := None;
        status := Paused;
      } else if want && ctrl.None? && timer.None? {
        OpenStream();
      }
    }

    method ConnectionEnded(id: nat)
      requires id < |conns|
      modifies this
      ensures View() == End(old(View()), id)
    {
      conns := conns[id := conns[id].(ended := true)];
      if ctrl != Some(id) {
        return;
      }
      ctrl := None;
      var ended := if conns[id].authFailed then AuthRefused else if status == Failing then StreamError else Closed;
      if ended == StreamError {
        errors := errors + 1;
        if errors >= 3 {
          holdOffUntil := now + ERROR_HOLDOFF_MS;
        }
      } else {
        status := Down;
      }
      var wait := NextDelay(ended, conns[id].hint, backoff);
      backoff := Min(BACKOFF_MAX_MS, backoff * 2);
      timer := Some(now + TimerDelay(wait));
    }
  }

  // ---- runs ----------------------------------------------------------------------------------------

  datatype Event =
    | Tick | Touch | Hide | Show | TimerFires
    | NewToken | ForgetToken
    | PollAnswered(refused: bool)
    | Refused(id: nat)
    | Received(id: nat, ev: ServerEvent, retry: Option<nat>)
    | WatchdogAborts(id: nat)
    | Ends(id: nat)

  datatype Action = At(now: int, event: Event)

  predicate Running(s: State, id: nat) { id < |s.conns| && !s.conns[id].aborted && !s.conns[id].ended }

  /** The clock does not go back, a timer fires when it is due, an aborted or ended connection delivers nothing,
      and a connection ends once. */
  predicate Enabled(s: State, a: Action) {
    && a.now >= s.now
    && match a.event
       case TimerFires => s.timer.Some? && s.timer.value <= a.now
       case Refused(id) => Running(s, id)
       case Received(id, _, _) => Running(s, id)
       case WatchdogAborts(id) => Running(s, id)
       case Ends(id) => id < |s.conns| && !s.conns[id].ended
       case _ => true
  }

  function Handle(s: State, e: Event): State
    requires Enabled(s, At(s.now, e))
  {
    match e
    case Tick => Sync(s)
    case Touch => Sync(s.(lastInteraction := s.now))
    case Hide => Close(s.(hidden := true), Paused)
    case Show => Sync(s.(hidden := false, lastInteraction := s.now))
    case TimerFires => OpenOrPause(s.(timer := None))
    case NewToken => Restart(s.(authProblem := false))
    case ForgetToken => Restart(s)
    case PollAnswered(refused) => s.(authProblem := refused)
    case Refused(id) => s.(authProblem := true, conns := s.conns[id := s.conns[id].(authFailed := true)])
    case Received(id, ev, retry) => Receive(s, id, ev, retry)
    case WatchdogAborts(id) => s.(conns := s.conns[id := s.conns[id].(aborted := true)])
    case Ends(id) => End(s, id)
  }

  function Step(s: State, a: Action): State
    requires Enabled(s, a)
  {
    Handle(s.(now := a.now), a.event)
  }

  predicate TokenChange(a: Action) { a.event.NewToken? || a.event.ForgetToken? }

  /** The step opens a connection. */
  predicate Opens(s: State, a: Action)
    requires Enabled(s, a)
  {
    |Step(s, a).conns| > |s.conns|
  }

  /** The step ends the current connection. */
  predicate Settles(s: State, a: Action) { a.event.Ends? && s.ctrl == Some(a.event.id) }

  // ---- history -------------------------------------------------------------------------------------

  /** What happened since the last state event or token change: `endings` and `errorEndings` count settled
      connections. `lastEnd` is when the latest one settled and what it has to wait; `dropped` says that its retry
      was cancelled by a pause. `heldFrom` is the latest stream error that was at least the third. */
  datatype History = History(endings: nat, errorEndings: nat, lastEnd: Option<(int, int)>, dropped: bool, heldFrom: Option<int>)

  const NO_HISTORY := History(0, 0, None, false, None)

  function Observe(h: History, s: State, a: Action, how: Ending): History
    requires Enabled(s, a)
  {
    if TokenChange(a) then NO_HISTORY
    else if a.event.Received? && a.event.ev.StateObject? then h.(endings := 0, errorEndings := 0)
    else if Settles(s, a) then
      var isError := how == StreamError;
      var errors := if isError then h.errorEndings + 1 else h.errorEndings;
      History(h.endings + 1, errors, Some((a.now, TimerDelay(Wait(s, a.event.id)))), false,
              if isError && errors >= 3 then Some(a.now) else h.heldFrom)
    else if s.timer.Some? && Step(s, a).timer.None? && !a.event.TimerFires? then h.(dropped := true)
    else h
  }

  // ---- a connection's record, read off the actions -------------------------------------------------

  /** The last event of the connection that says how it stands. */
  function LastWord(acts: seq<Action>, id: nat): Option<ServerEvent> {
    if acts == [] then None
    else
      var e := acts[|acts| - 1].event;
      if e.Received? && e.id == id && !e.ev.OtherEvent? then Some(e.ev) else LastWord(acts[..|acts| - 1], id)
  }

  /** The last non-zero retry hint its parser held. */
  function LastHint(acts: seq<Action>, id: nat): Option<nat> {
    if acts == [] then None
    else
      var e := acts[|acts| - 1].event;
      if e.Received? && e.id == id && e.retry.Some? && e.retry.value != 0 then e.retry
      else LastHint(acts[..|acts| - 1], id)
  }

  predicate WasRefused(acts: seq<Action>, id: nat) { exists i :: 0 <= i < |acts| && acts[i].event == Refused(id) }

  /** How a connection ended, going by what was received from it. */
  function EndedBy(acts: seq<Action>, id: nat): Ending {
    if WasRefused(acts, id) then AuthRefused
    else if LastWord(acts, id) == Some(ErrorEvent) then StreamError
    else Closed
  }

  function EndingOf(acts: seq<Action>, a: Action): Ending { if a.event.Ends? then EndedBy(acts, a.event.id) else Closed }

  datatype Point = Point(s: State, h: History)

  predicate Possible(start: State, acts: seq<Action>)
    decreases |acts|, 0
  {
    acts == [] || (Possible(start, acts[..|acts| - 1]) && Enabled(Reached(start, acts[..|acts| - 1]).s, acts[|acts| - 1]))
  }

  /** The state and the history after a run. */
  function Reached(start: State, acts: seq<Action>): Point
    requires Possible(start, acts)
    decreases |acts|, 1
  {
    if acts == [] then Point(start, NO_HISTORY)
    else
      var p, a := Reached(start, acts[..|acts| - 1]), acts[|acts| - 1];
      Point(Step(p.s, a), Observe(p.h, p.s, a, EndingOf(acts[..|acts| - 1], a)))
  }

  // ---- invariants ----------------------------------------------------------------------------------

  /** A live controller and a pending retry never coexist, and the only running connection is the controlled one. */
  ghost predicate OneAtATime(s: State) {
    && (s.ctrl.Some? ==> s.timer.None? && s.ctrl.value < |s.conns| && !s.conns[s.ctrl.value].ended)
    && forall id | 0 <= id < |s.conns| :: !s.conns[id].aborted && !s.conns[id].ended ==> s.ctrl == Some(id)
  }

  /** The k-th delay of an unbroken series of endings. */
  function Backoff(k: nat): int {
    if k == 0 then BACKOFF_MIN_MS else Min(BACKOFF_MAX_MS, 2 * Backoff(k - 1))
  }

  ghost predicate Paced(s: State, h: History) {
    && s.backoff == Backoff(h.endings) && s.errors == h.errorEndings
    && (s.timer.Some? ==> h.lastEnd.Some? && !h.dropped)
    && (h.lastEnd.Some? && !h.dropped ==>
          var due := h.lastEnd.value.0 + h.lastEnd.value.1;
          s.timer == Some(due) || due <= s.now)
    && (s.errors >= 3 ==> h.heldFrom.Some?)
    && (h.heldFrom.Some? ==> s.holdOffUntil == h.heldFrom.value + ERROR_HOLDOFF_MS && 0 <= h.heldFrom.value <= s.now)
    && 0 <= s.now
  }

  lemma {:induction false} BackoffRange(k: nat)
    ensures BACKOFF_MIN_MS <= Backoff(k) <= BACKOFF_MAX_MS
  {
    if k > 0 { BackoffRange(k - 1); }
  }

  function Pow2(k: nat): nat { if k == 0 then 1 else 2 * Pow2(k - 1) }

  /** The closed form of the delay. */
  lemma {:induction false} BackoffDoubles(k: nat)
    ensures Backoff(k) == Min(BACKOFF_MAX_MS, BACKOFF_MIN_MS * Pow2(k))
  {
    if k > 0 { BackoffDoubles(k - 1); }
  }

  lemma CloseKeepsOne(s: State, status: Status)
    requires OneAtATime(s)
    ensures OneAtATime(Close(s, status)) && Close(s, status).ctrl.None?
  {
  }

  lemma OpenKeepsOne(s: State)
    requires OneAtATime(s) && s.ctrl.None? && s.timer.None?
    ensures OneAtATime(Open(s)) && OneAtATime(OpenOrPause(s))
  {
    hide Wanted;
  }

  lemma SyncKeepsOne(s: State)
    requires OneAtATime(s)
    ensures OneAtATime(Sync(s))
  {
    hide Wanted, Open, Close;
    CloseKeepsOne(s, Paused);
    if s.ctrl.None? && s.timer.None? { OpenKeepsOne(s); }
  }

  lemma RestartKeepsOne(s: State)
    requires OneAtATime(s)
    ensures OneAtATime(Restart(s))
  {
    hide OpenOrPause;
    CloseKeepsOne(s, Connecting);
    OpenKeepsOne(Close(s, Connecting).(backoff := BACKOFF_MIN_MS, errors := 0, holdOffUntil := 0));
  }

  lemma StepKeepsOne(s: State, a: Action)
    requires OneAtATime(s) && Enabled(s, a)
    ensures OneAtATime(Step(s, a))
  {
    hide Wanted, HowEnded, Wait, Sync, Restart, Close, OpenOrPause;
    var t := s.(now := a.now);
    match a.event
    case Tick => SyncKeepsOne(t);
    case Touch => SyncKeepsOne(t.(lastInteraction := t.now));
    case Hide => CloseKeepsOne(t.(hidden := true), Paused);
    case Show => SyncKeepsOne(t.(hidden := false, lastInteraction := t.now));
    case TimerFires => OpenKeepsOne(t.(timer := None));
    case NewToken => RestartKeepsOne(t.(authProblem := false));
    case ForgetToken => RestartKeepsOne(t);
    case _ => NetworkStepKeepsOne(s, a);
  }

  lemma NetworkStepKeepsOne(s: State, a: Action)
    requires OneAtATime(s) && Enabled(s, a)
    requires a.event.PollAnswered? || a.event.Refused? || a.event.Received? || a.event.WatchdogAborts? || a.event.Ends?
    ensures OneAtATime(Step(s, a))
  {
    hide Wanted, HowEnded, Wait, Sync, Restart, Close, OpenOrPause;
  }

  lemma EndKeepsPace(s: State, h: History, a: Action, how: Ending)
    requires OneAtATime(s) && Paced(s, h) && Enabled(s, a) && a.event.Ends? && (Settles(s, a) ==> how == HowEnded(s, a.event.id))
    ensures Paced(Step(s, a), Observe(h, s, a, how))
  {
    BackoffRange(h.endings);
    hide Wanted;
  }

  /** Pausing, opening and synchronising touch neither the pace nor, unless they cancel it, the pending retry. */
  lemma SyncKeepsPace(s: State)
    ensures var t := Sync(s);
            && t.backoff == s.backoff && t.errors == s.errors && t.holdOffUntil == s.holdOffUntil && t.now == s.now
            && (t.timer == s.timer || t.timer.None?)
  {
    hide Wanted;
  }

  lemma QuietStepKeepsPace(s: State, h: History, a: Action, how: Ending)
    requires OneAtATime(s) && Paced(s, h) && Enabled(s, a)
    requires a.event.Tick? || a.event.Touch? || a.event.Show?
    ensures Paced(Step(s, a), Observe(h, s, a, how))
  {
    hide Wanted, Sync, Backoff;
    var t := s.(now := a.now);
    SyncKeepsPace(t);
    SyncKeepsPace(t.(lastInteraction := t.now));
    SyncKeepsPace(t.(hidden := false, lastInteraction := t.now));
  }

  lemma OtherStepKeepsPace(s: State, h: History, a: Action, how: Ending)
    requires OneAtATime(s) && Paced(s, h) && Enabled(s, a)
    requires !(a.event.Tick? || a.event.Touch? || a.event.Show? || a.event.Ends?) && !TokenChange(a)
    ensures Paced(Step(s, a), Observe(h, s, a, how))
  {
    hide Wanted, Sync, Restart, End;
  }

  lemma TokenStepKeepsPace(s: State, h: History, a: Action, how: Ending)
    requires Paced(s, h) && Enabled(s, a) && TokenChange(a)
    ensures Paced(Step(s, a), Observe(h, s, a, how))
  {
    hide Wanted, Sync, End, Receive;
  }

  lemma StepKeepsPace(s: State, h: History, a: Action, how: Ending)
    requires OneAtATime(s) && Paced(s, h) && Enabled(s, a)
    requires Settles(s, a) ==> how == HowEnded(s, a.event.id)
    ensures Paced(Step(s, a), Observe(h, s, a, how))
  {
    hide Step, Observe, Paced, OneAtATime, Enabled;
    if a.event.Ends? {
      EndKeepsPace(s, h, a, how);
    } else if a.event.Tick? || a.event.Touch? || a.event.Show? {
      QuietStepKeepsPace(s, h, a, how);
    } else if TokenChange(a) {
      TokenStepKeepsPace(s, h, a, how);
    } else {
      OtherStepKeepsPace(s, h, a, how);
    }
  }

  // ---- the record of a connection is what the actions say ------------------------------------------

  function Standing(word: Option<ServerEvent>): Status {
    if word.None? then Connecting else if word.value.ErrorEvent? then Failing else Live
  }

  /** Refusals and hints are those received from the connection; the status is that of the current one; a connection
      not opened yet has received nothing. */
  ghost predicate Recorded(s: State, acts: seq<Action>) {
    && (forall id | 0 <= id < |s.conns| ::
          (s.conns[id].authFailed <==> WasRefused(acts, id)) && s.conns[id].hint == LastHint(acts, id))
    && (forall id: nat | id >= |s.conns| ::
          !WasRefused(acts, id) && LastHint(acts, id) == None && LastWord(acts, id) == None)
    && (s.ctrl.Some? ==> s.status == Standing(LastWord(acts, s.ctrl.value)))
  }

  /** What a handler other than those of the network may do to the records: nothing, but add a fresh one that is then
      current and connecting. */
  predicate KeepsRecords(s: State, t: State) {
    && |s.conns| <= |t.conns| <= |s.conns| + 1
    && (forall id | 0 <= id < |s.conns| :: t.conns[id].authFailed == s.conns[id].authFailed && t.conns[id].hint == s.conns[id].hint)
    && (|t.conns| > |s.conns| ==> t.conns[|s.conns|] == Conn(false, false, false, None))
    && (t.ctrl.Some? ==>
          || (t.ctrl == s.ctrl && t.status == s.status)
          || (t.ctrl == Some(|s.conns|) && |t.conns| == |s.conns| + 1 && t.status == Connecting))
  }

  lemma OpenOrCloseKeepsRecords(s: State, status: Status)
    ensures KeepsRecords(s, Close(s, status)) && |Close(s, status).conns| == |s.conns|
    ensures s.ctrl.None? ==> KeepsRecords(s, OpenOrPause(s)) && KeepsRecords(s, Open(s))
  {
    hide Wanted;
  }

  lemma SyncKeepsRecords(s: State)
    requires OneAtATime(s)
    ensures KeepsRecords(s, Sync(s))
  {
    hide Wanted, Open, Close;
    OpenOrCloseKeepsRecords(s, Paused);
  }

  lemma RestartKeepsRecords(s: State)
    ensures KeepsRecords(s, Restart(s))
  {
    hide Wanted, OpenOrPause;
    var t := Close(s, Connecting).(backoff := BACKOFF_MIN_MS, errors := 0, holdOffUntil := 0);
    OpenOrCloseKeepsRecords(s, Connecting);
    OpenOrCloseKeepsRecords(t, Connecting);
  }

  predicate FromNetwork(e: Event) { e.Refused? || e.Received? }

  lemma ReframeRecords(s: State, t: State, r: State)
    requires KeepsRecords(t, r) && t.conns == s.conns && t.ctrl == s.ctrl && t.status == s.status
    ensures KeepsRecords(s, r)
  {
  }

  lemma PlainStepKeepsRecords(s: State, a: Action)
    requires Enabled(s, a) && (a.event.PollAnswered? || a.event.WatchdogAborts? || a.event.Ends?)
    ensures KeepsRecords(s, Step(s, a))
  {
    hide HowEnded, Wait;
  }

  lemma QuietStepKeepsRecords(s: State, a: Action)
    requires OneAtATime(s) && Enabled(s, a) && !FromNetwork(a.event)
    ensures KeepsRecords(s, Step(s, a))
  {
    hide Sync, Restart, Close, OpenOrPause, End, KeepsRecords;
    var t := s.(now := a.now);
    if a.event.Tick? {
      SyncKeepsRecords(t);
      ReframeRecords(s, t, Step(s, a));
    } else if a.event.Touch? {
      SyncKeepsRecords(t.(lastInteraction := t.now));
      ReframeRecords(s, t.(lastInteraction := t.now), Step(s, a));
    } else if a.event.Hide? {
      OpenOrCloseKeepsRecords(t.(hidden := true), Paused);
      ReframeRecords(s, t.(hidden := true), Step(s, a));
    } else if a.event.Show? {
      SyncKeepsRecords(t.(hidden := false, lastInteraction := t.now));
      ReframeRecords(s, t.(hidden := false, lastInteraction := t.now), Step(s, a));
    } else if a.event.TimerFires? {
      OpenOrCloseKeepsRecords(t.(timer := None), Paused);
      ReframeRecords(s, t.(timer := None), Step(s, a));
    } else if a.event.NewToken? {
      RestartKeepsRecords(t.(authProblem := false));
      ReframeRecords(s, t.(authProblem := false), Step(s, a));
    } else if a.event.ForgetToken? {
      RestartKeepsRecords(t);
      ReframeRecords(s, t, Step(s, a));
    } else {
      PlainStepKeepsRecords(s, a);
    }
  }

  lemma QuietActionSaysNothing(acts: seq<Action>, a: Action, id: nat)
    requires !FromNetwork(a.event)
    ensures LastWord(acts + [a], id) == LastWord(acts, id) && LastHint(acts + [a], id) == LastHint(acts, id)
    ensures WasRefused(acts + [a], id) <==> WasRefused(acts, id)
  {
    assert (acts + [a])[..|acts|] == acts;
    if i :| 0 <= i < |acts| && acts[i].event == Refused(id) { assert (acts + [a])[i] == acts[i]; }
  }

  lemma NetworkActionSays(acts: seq<Action>, a: Action, id: nat)
    requires FromNetwork(a.event)
    ensures a.event.id != id ==>
      LastWord(acts + [a], id) == LastWord(acts, id) && LastHint(acts + [a], id) == LastHint(acts, id)
      && (WasRefused(acts + [a], id) <==> WasRefused(acts, id))
    ensures a.event == Refused(id) ==>
      WasRefused(acts + [a], id) && LastWord(acts + [a], id) == LastWord(acts, id)
      && LastHint(acts + [a], id) == LastHint(acts, id)
    ensures a.event.Received? && a.event.id == id ==>
      && (WasRefused(acts + [a], id) <==> WasRefused(acts, id))
      && LastWord(acts + [a], id) == (if a.event.ev.OtherEvent? then LastWord(acts, id) else Some(a.event.ev))
      && LastHint(acts + [a], id) ==
           if a.event.retry.Some? && a.event.retry.value != 0 then a.event.retry else LastHint(acts, id)
  {
    assert (acts + [a])[..|acts|] == acts && (acts + [a])[|acts|] == a;
    if i :| 0 <= i < |acts| && acts[i].event == Refused(id) { assert (acts + [a])[i] == acts[i]; }
  }

  lemma QuietRecords(s: State, t: State, acts: seq<Action>, a: Action)
    requires KeepsRecords(s, t) && Recorded(s, acts) && !FromNetwork(a.event)
    ensures Recorded(t, acts + [a])
  {
    hide LastWord, LastHint, WasRefused;
    forall id: nat
      ensures LastWord(acts + [a], id) == LastWord(acts, id) && LastHint(acts + [a], id) == LastHint(acts, id)
      ensures WasRefused(acts + [a], id) <==> WasRefused(acts, id)
    {
      QuietActionSaysNothing(acts, a, id);
    }
  }

  lemma RefusalRecords(s: State, acts: seq<Action>, a: Action)
    requires OneAtATime(s) && Enabled(s, a) && Recorded(s, acts) && a.event.Refused?
    ensures Recorded(Step(s, a), acts + [a])
  {
    hide LastWord, LastHint, WasRefused;
    NetworkActionSays(acts, a, a.event.id);
    forall id: nat | id != a.event.id
      ensures LastWord(acts + [a], id) == LastWord(acts, id) && LastHint(acts + [a], id) == LastHint(acts, id)
      ensures WasRefused(acts + [a], id) <==> WasRefused(acts, id)
    {
      NetworkActionSays(acts, a, id);
    }
  }

  lemma ReceivedIs(s: State, a: Action)
    requires OneAtATime(s) && Enabled(s, a) && a.event.Received?
    ensures var t, e := Step(s, a), a.event;
      && s.ctrl == Some(e.id) && t.ctrl == s.ctrl && |t.conns| == |s.conns|
      && (forall id | 0 <= id < |s.conns| && id != e.id :: t.conns[id] == s.conns[id])
      && t.conns[e.id].authFailed == s.conns[e.id].authFailed
      && t.conns[e.id].hint == (if e.retry.Some? && e.retry.value != 0 then e.retry else s.conns[e.id].hint)
      && t.status == (if e.ev.OtherEvent? then s.status else if e.ev.ErrorEvent? then Failing else Live)
  {
  }

  lemma ReceiptRecords(s: State, acts: seq<Action>, a: Action)
    requires OneAtATime(s) && Enabled(s, a) && Recorded(s, acts) && a.event.Received?
    ensures Recorded(Step(s, a), acts + [a])
  {
    hide LastWord, LastHint, WasRefused, Step;
    ReceivedIs(s, a);
    hide OneAtATime, Enabled;
    NetworkActionSays(acts, a, a.event.id);
    forall id: nat | id != a.event.id
      ensures LastWord(acts + [a], id) == LastWord(acts, id) && LastHint(acts + [a], id) == LastHint(acts, id)
      ensures WasRefused(acts + [a], id) <==> WasRefused(acts, id)
    {
      NetworkActionSays(acts, a, id);
    }
  }

  lemma StepRecords(s: State, acts: seq<Action>, a: Action)
    requires OneAtATime(s) && Enabled(s, a) && Recorded(s, acts)
    ensures Recorded(Step(s, a), acts + [a])
  {
    hide Recorded, KeepsRecords, Step;
    if FromNetwork(a.event) {
      if a.event.Refused? { RefusalRecords(s, acts, a); } else { ReceiptRecords(s, acts, a); }
    } else {
      QuietStepKeepsRecords(s, a);
      QuietRecords(s, Step(s, a), acts, a);
    }
  }

  /** Both invariants hold after every run, and the records are what the actions say. */
  lemma {:induction false} Reachable(supported: bool, hidden: bool, now: nat, acts: seq<Action>)
    requires Possible(Initial(supported, hidden, now), acts)
    ensures var p := Reached(Initial(supported, hidden, now), acts);
      OneAtATime(p.s) && Paced(p.s, p.h) && Recorded(p.s, acts)
    decreases |acts|
  {
    hide Step, Observe, Enabled, Recorded;
    if acts != [] {
      var before, a := acts[..|acts| - 1], acts[|acts| - 1];
      Reachable(supported, hidden, now, before);
      var p := Reached(Initial(supported, hidden, now), before);
      if Settles(p.s, a) { EndedIsRecorded(p.s, before, a.event.id); }
      hide OneAtATime, Paced, Settles;
      assert acts == before + [a];
      StepKeepsOne(p.s, a);
      StepKeepsPace(p.s, p.h, a, EndingOf(before, a));
      StepRecords(p.s, before, a);
    } else {
      NothingRecorded(Initial(supported, hidden, now));
    }
  }

  lemma NothingRecorded(s: State)
    requires s.conns == [] && s.ctrl.None?
    ensures Recorded(s, [])
  {
  }

  /** A settling connection ended as the actions say. */
  lemma EndedIsRecorded(s: State, acts: seq<Action>, id: nat)
    requires OneAtATime(s) && Recorded(s, acts) && s.ctrl == Some(id)
    ensures HowEnded(s, id) == EndedBy(acts, id) && s.conns[id].hint == LastHint(acts, id)
  {
    hide LastWord, LastHint, WasRefused;
  }

  // ---- theorems ------------------------------------------------------------------------------------

  /** In every reachable state the controller and the retry timer exclude each other and at most one connection
      is neither aborted nor ended. */
  lemma AtMostOneConnection(supported: bool, hidden: bool, now: nat, acts: seq<Action>, i: nat, j: nat)
    requires Possible(Initial(supported, hidden, now), acts)
    ensures var s := Reached(Initial(supported, hidden, now), acts).s;
            && !(s.ctrl.Some? && s.timer.Some?)
            && (Running(s, i) && Running(s, j) ==> i == j)
  {
    hide Reached, Possible;
    Reachable(supported, hidden, now, acts);
  }

  /** What one handler may do: connections are only added, a connection becomes current only when it is new, and time
      and capability stay. */
  predicate Evolves(s: State, t: State) {
    && |s.conns| <= |t.conns| && t.now == s.now && t.supported == s.supported
    && (t.ctrl == s.ctrl || t.ctrl.None? || t.ctrl == Some(|s.conns|))
    && (Capable(s) ==> Capable(t))
  }

  /** The browser can stream, and the console knows it. */
  predicate Capable(s: State) {
    && (s.conns != [] ==> s.supported)
    && (s.supported ==> s.status != Unsupported)
  }

  lemma CloseEvolves(s: State, status: Status)
    requires status != Unsupported
    ensures Evolves(s, Close(s, status)) && |Close(s, status).conns| == |s.conns|
  {
  }

  lemma OpenOrPauseEvolves(s: State)
    ensures Evolves(s, OpenOrPause(s)) && Evolves(s, Open(s))
  {
    hide Wanted;
  }

  lemma SyncEvolves(s: State)
    ensures Evolves(s, Sync(s))
  {
    hide Wanted, Open, Close;
    CloseEvolves(s, Paused);
    OpenOrPauseEvolves(s);
  }

  lemma RestartEvolves(s: State)
    ensures Evolves(s, Restart(s))
  {
    hide Wanted, OpenOrPause, Close;
    CloseEvolves(s, Connecting);
    OpenOrPauseEvolves(Close(s, Connecting).(backoff := BACKOFF_MIN_MS, errors := 0, holdOffUntil := 0));
  }

  lemma NetworkEvolves(s: State, e: Event)
    requires Enabled(s, At(s.now, e))
    requires e.PollAnswered? || e.Refused? || e.Received? || e.WatchdogAborts? || e.Ends?
    ensures Evolves(s, Handle(s, e))
  {
    hide HowEnded, Wait;
  }

  lemma StepEvolves(s: State, a: Action)
    requires Enabled(s, a)
    ensures Evolves(s.(now := a.now), Step(s, a))
  {
    hide Sync, Restart, Close, OpenOrPause, Evolves;
    var t := s.(now := a.now);
    match a.event
    case Tick => SyncEvolves(t);
    case Touch =>
      SyncEvolves(t.(lastInteraction := t.now));
      Reframe(t, t.(lastInteraction := t.now), Step(s, a));
    case Hide =>
      CloseEvolves(t.(hidden := true), Paused);
      Reframe(t, t.(hidden := true), Step(s, a));
    case Show =>
      SyncEvolves(t.(hidden := false, lastInteraction := t.now));
      Reframe(t, t.(hidden := false, lastInteraction := t.now), Step(s, a));
    case TimerFires =>
      OpenOrPauseEvolves(t.(timer := None));
      Reframe(t, t.(timer := None), Step(s, a));
    case NewToken =>
      RestartEvolves(t.(authProblem := false));
      Reframe(t, t.(authProblem := false), Step(s, a));
    case ForgetToken => RestartEvolves(t);
    case _ => NetworkEvolves(t, a.event);
  }

  lemma Reframe(s: State, t: State, r: State)
    requires Evolves(t, r) && t.conns == s.conns && t.ctrl == s.ctrl && t.now == s.now
    requires t.supported == s.supported && t.status == s.status
    ensures Evolves(s, r)
  {
  }

  /** A connection that is not the current one at some point of a run never becomes so again. */
  lemma {:induction false} SupersededForever(start: State, before: seq<Action>, after: seq<Action>, id: nat)
    requires Possible(start, before) && Possible(start, before + after)
    requires id < |Reached(start, before).s.conns| && Reached(start, before).s.ctrl != Some(id)
    ensures var s := Reached(start, before + after).s; id < |s.conns| && s.ctrl != Some(id)
    decreases |after|
  {
    hide Step, Enabled, Observe;
    if after == [] {
      assert before + after == before;
    } else {
      var front, a := after[..|after| - 1], after[|after| - 1];
      assert (before + after)[..|before + after| - 1] == before + front && (before + after)[|before + after| - 1] == a;
      SupersededForever(start, before, front, id);
      StepEvolves(Reached(start, before + front).s, a);
    }
  }

  /** So once a connection was closed on purpose or superseded, its ending, whenever it comes, changes nothing but its
      own record. */
  lemma LateEndingIsIgnored(start: State, before: seq<Action>, after: seq<Action>, a: Action)
    requires Possible(start, before) && Possible(start, before + after)
    requires a.event.Ends? && a.event.id < |Reached(start, before).s.conns|
    requires Reached(start, before).s.ctrl != Some(a.event.id)
    requires Enabled(Reached(start, before + after).s, a)
    ensures var s := Reached(start, before + after).s;
            Step(s, a) == s.(now := a.now, conns := s.conns[a.event.id := s.conns[a.event.id].(ended := true)])
  {
    hide Possible, Reached;
    SupersededForever(start, before, after, a.event.id);
  }

  /** The delay in milliseconds asked for after a connection that ended in this way, following `endings` others since
      the last state event or token change. */
  function Asked(endings: nat, how: Ending, hint: Option<nat>): int {
    var doubled := if 2000 * Pow2(endings) < 60000 then 2000 * Pow2(endings) else 60000;
    match how
    case AuthRefused => 60000
    case StreamError => Max(if hint.Some? then hint.value else 15000, doubled)
    case Closed => if hint.Some? then Max(hint.value, doubled) else doubled
  }

  /** How long a settled connection waits, read off the actions: it ended refused, by a stream error or otherwise as its
      last event says, and the delay is that of `Asked`. The browser waits that long exactly when a hint that counts is
      below 2^31 ms. */
  lemma EndingWaits(supported: bool, hidden: bool, now: nat, acts: seq<Action>, a: Action)
    requires Possible(Initial(supported, hidden, now), acts)
    requires var s := Reached(Initial(supported, hidden, now), acts).s; Enabled(s, a) && Settles(s, a)
    ensures var p := Reached(Initial(supported, hidden, now), acts);
            var how, hint := EndedBy(acts, a.event.id), LastHint(acts, a.event.id);
            var asked := Asked(p.h.endings, how, hint);
            && Step(p.s, a).timer == Some(a.now + TimerDelay(asked))
            && (TimerDelay(asked) == asked <==> how == AuthRefused || hint.None? || hint.value < 0x8000_0000)
            && Observe(p.h, p.s, a, how).endings == p.h.endings + 1
            && Observe(p.h, p.s, a, how).errorEndings == p.h.errorEndings + (if how == StreamError then 1 else 0)
            && Step(p.s, a).errors == Observe(p.h, p.s, a, how).errorEndings
            && 2000 <= p.s.backoff <= 60000
  {
    hide Reached, Possible, Wanted, EndedBy;
    var p := Reached(Initial(supported, hidden, now), acts);
    Reachable(supported, hidden, now, acts);
    EndedIsRecorded(p.s, acts, a.event.id);
    LastHintIsNotZero(acts, a.event.id);
    hide OneAtATime, Recorded, LastHint, Asked, NextDelay;
    BackoffRange(p.h.endings);
    BackoffDoubles(p.h.endings);
    AskedIs(p.s.backoff, p.h.endings, EndedBy(acts, a.event.id), LastHint(acts, a.event.id));
    hide Backoff, Pow2;
  }

  lemma AskedIs(backoff: int, endings: nat, how: Ending, hint: Option<nat>)
    requires backoff == Min(60000, 2000 * Pow2(endings)) && backoff >= 2000 && (hint.Some? ==> hint.value != 0)
    ensures NextDelay(how, hint, backoff) == Asked(endings, how, hint)
    ensures var asked := Asked(endings, how, hint);
      TimerDelay(asked) == asked <==> how == AuthRefused || hint.None? || hint.value < 0x8000_0000
  {
    hide Pow2;
  }

  lemma {:induction false} LastHintIsNotZero(acts: seq<Action>, id: nat)
    ensures LastHint(acts, id).Some? ==> LastHint(acts, id).value != 0
  {
    if acts != [] { LastHintIsNotZero(acts[..|acts| - 1], id); }
  }

  /** A delay below 2^31 is kept; the next 2^31 are not waited for at all; then it starts again. */
  lemma TimerDelayMeans(ms: nat, rounds: nat)
    requires ms < 0x8000_0000
    ensures TimerDelay(ms + rounds * 0x1_0000_0000) == ms
    ensures TimerDelay(0x8000_0000 + ms + rounds * 0x1_0000_0000) == 0
  {
  }

  lemma OpenNeedsWant(s: State, a: Action)
    requires OneAtATime(s) && Enabled(s, a) && Opens(s, a) && !TokenChange(a)
    ensures !(s.holdOffUntil != 0 && a.now < s.holdOffUntil)
    ensures a.event.TimerFires? || (s.timer.None? && s.ctrl.None?)
  {
  }

  /** A connection opens only when it is allowed to: never during a hold-off, so for five minutes after the latest
      stream error that was at least the third in a row, and not before the retry delay of the last settled
      connection, unless a pause dropped that retry or the token changed. */
  lemma OpeningIsAllowed(supported: bool, hidden: bool, now: nat, acts: seq<Action>, a: Action)
    requires Possible(Initial(supported, hidden, now), acts)
    requires var s := Reached(Initial(supported, hidden, now), acts).s; Enabled(s, a) && Opens(s, a) && !TokenChange(a)
    ensures var h := Reached(Initial(supported, hidden, now), acts).h;
            && (h.heldFrom.Some? ==> a.now >= h.heldFrom.value + 300000)
            && (h.errorEndings >= 3 ==> h.heldFrom.Some?)
            && (h.lastEnd.Some? && !h.dropped ==> a.now >= h.lastEnd.value.0 + h.lastEnd.value.1)
  {
    hide Reached, Possible, Wanted, Step, Opens;
    var p := Reached(Initial(supported, hidden, now), acts);
    Reachable(supported, hidden, now, acts);
    OpenNeedsWant(p.s, a);
  }

  lemma HoldIsKept(h: History, s: State, a: Action, how: Ending)
    requires Enabled(s, a) && !TokenChange(a) && h.heldFrom.Some? && h.heldFrom.value <= s.now
    ensures var k := Observe(h, s, a, how); k.heldFrom.Some? && h.heldFrom.value <= k.heldFrom.value <= a.now
  {
    hide Step;
  }

  lemma {:induction false} HoldLasts(supported: bool, hidden: bool, now: nat, before: seq<Action>, after: seq<Action>)
    requires Possible(Initial(supported, hidden, now), before) && Possible(Initial(supported, hidden, now), before + after)
    requires Reached(Initial(supported, hidden, now), before).h.heldFrom.Some?
    requires forall i | 0 <= i < |after| :: !TokenChange(after[i])
    ensures var held := Reached(Initial(supported, hidden, now), before + after).h.heldFrom;
      held.Some? && held.value >= Reached(Initial(supported, hidden, now), before).h.heldFrom.value
    decreases |after|
  {
    hide Step, Observe, Enabled, TokenChange;
    if after == [] {
      assert before + after == before;
    } else {
      var start, front, a := Initial(supported, hidden, now), after[..|after| - 1], after[|after| - 1];
      assert (before + after)[..|before + after| - 1] == before + front && (before + after)[|before + after| - 1] == a;
      HoldLasts(supported, hidden, now, before, front);
      Reachable(supported, hidden, now, before + front);
      HoldIsKept(Reached(start, before + front).h, Reached(start, before + front).s, a, EndingOf(before + front, a));
    }
  }

  /** Once a third stream error in a row, or a later one, came at `held`, nothing opens for five minutes from then on,
      whatever happens, unless the token changes. */
  lemma NothingOpensWhileHeld(supported: bool, hidden: bool, now: nat, before: seq<Action>, after: seq<Action>, a: Action)
    requires Possible(Initial(supported, hidden, now), before) && Possible(Initial(supported, hidden, now), before + after)
    requires Reached(Initial(supported, hidden, now), before).h.heldFrom.Some?
    requires forall i | 0 <= i < |after| :: !TokenChange(after[i])
    requires Enabled(Reached(Initial(supported, hidden, now), before + after).s, a) && !TokenChange(a)
    requires a.now < Reached(Initial(supported, hidden, now), before).h.heldFrom.value + 300000
    ensures !Opens(Reached(Initial(supported, hidden, now), before + after).s, a)
  {
    hide Reached, Possible, Opens, TokenChange, Enabled;
    HoldLasts(supported, hidden, now, before, after);
    if Opens(Reached(Initial(supported, hidden, now), before + after).s, a) {
      OpeningIsAllowed(supported, hidden, now, before + after, a);
    }
  }

  /** Three connections that each end with a stream error, retried as soon as they may be. */
  function ThreeErrors(): seq<Action> {
    [ At(0, Tick), At(5, Received(0, ErrorEvent, None)), At(10, Ends(0)),
      At(15010, TimerFires), At(15015, Received(1, ErrorEvent, None)), At(15020, Ends(1)),
      At(30020, TimerFires), At(30025, Received(2, ErrorEvent, None)), At(30030, Ends(2)) ]
  }

  /** The state and history of a run one action longer. */
  lemma Extend(start: State, acts: seq<Action>, n: nat, p: Point)
    requires n < |acts| && Possible(start, acts[..n]) && Reached(start, acts[..n]) == p && Enabled(p.s, acts[n])
    ensures Possible(start, acts[..n + 1])
    ensures Reached(start, acts[..n + 1]) ==
      Point(Step(p.s, acts[n]), Observe(p.h, p.s, acts[n], EndingOf(acts[..n], acts[n])))
  {
    hide Step, Observe, Enabled;
    assert acts[..n + 1][..n] == acts[..n];
  }

  const OVER := Conn(false, true, false, None)
  const FRESH_CONN := Conn(false, false, false, None)

  /** The record after each of its nine actions. */
  function ErrorPoint(n: nat): Point
    requires n <= 9
  {
    var h1 := History(1, 1, Some((10, 15000)), false, None);
    var h2 := History(2, 2, Some((15020, 15000)), false, None);
    if n == 0 then Point(Initial(true, false, 0), NO_HISTORY)
    else if n == 1 then Point(Page(Connecting, Some(0), None, 2000, 0, 0, 0, [FRESH_CONN]), NO_HISTORY)
    else if n == 2 then Point(Page(Failing, Some(0), None, 2000, 0, 0, 5, [FRESH_CONN]), NO_HISTORY)
    else if n == 3 then Point(Page(Failing, None, Some(15010), 4000, 1, 0, 10, [OVER]), h1)
    else if n == 4 then Point(Page(Connecting, Some(1), None, 4000, 1, 0, 15010, [OVER, FRESH_CONN]), h1)
    else if n == 5 then Point(Page(Failing, Some(1), None, 4000, 1, 0, 15015, [OVER, FRESH_CONN]), h1)
    else if n == 6 then Point(Page(Failing, None, Some(30020), 8000, 2, 0, 15020, [OVER, OVER]), h2)
    else if n == 7 then Point(Page(Connecting, Some(2), None, 8000, 2, 0, 30020, [OVER, OVER, FRESH_CONN]), h2)
    else if n == 8 then Point(Page(Failing, Some(2), None, 8000, 2, 0, 30025, [OVER, OVER, FRESH_CONN]), h2)
    else
      Point(Page(Failing, None, Some(45030), 16000, 3, 330030, 30030, [OVER, OVER, OVER]),
            History(3, 3, Some((30030, 15000)), false, Some(30030)))
  }

  function Page(status: Status, ctrl: Option<nat>, timer: Option<int>, backoff: int, errors: nat, holdOff: int, now: int,
      conns: seq<Conn>): State {
    State(status, ctrl, timer, backoff, errors, holdOff, true, false, false, 0, now, conns)
  }

  predicate ErrorStepIs(n: nat)
    requires n < 9
  {
    var p, a := ErrorPoint(n), ThreeErrors()[n];
    && Enabled(p.s, a)
    && ErrorPoint(n + 1) == Point(Step(p.s, a), Observe(p.h, p.s, a, if a.event.Ends? then StreamError else Closed))
  }

  lemma FirstError(n: nat)
    requires 0 <= n <= 2
    ensures ErrorStepIs(n)
  {
    var p, a := ErrorPoint(n), ThreeErrors()[n];
    assert Step(p.s, a).conns == ErrorPoint(n + 1).s.conns;
  }

  lemma SecondError(n: nat)
    requires 3 <= n <= 5
    ensures ErrorStepIs(n)
  {
    var p, a := ErrorPoint(n), ThreeErrors()[n];
    assert Step(p.s, a).conns == ErrorPoint(n + 1).s.conns;
  }

  lemma ThirdError(n: nat)
    requires 6 <= n <= 8
    ensures ErrorStepIs(n)
  {
    var p, a := ErrorPoint(n), ThreeErrors()[n];
    assert Step(p.s, a).conns == ErrorPoint(n + 1).s.conns;
  }

  lemma ErrorEndings(n: nat)
    requires n < 9
    ensures EndingOf(ThreeErrors()[..n], ThreeErrors()[n]) == if ThreeErrors()[n].event.Ends? then StreamError else Closed
  {
    var acts := ThreeErrors();
    if n in {2, 5, 8} {
      assert acts[..n][n - 1] == acts[n - 1];
      forall i | 0 <= i < n ensures !acts[..n][i].event.Refused? { assert acts[..n][i] == acts[i]; }
    }
  }

  lemma {:induction false} ErrorRun(n: nat)
    requires n <= 9
    ensures Possible(Initial(true, false, 0), ThreeErrors()[..n])
    ensures Reached(Initial(true, false, 0), ThreeErrors()[..n]) == ErrorPoint(n)
  {
    hide Step, Observe, Enabled, ErrorPoint, EndingOf;
    if n == 0 {
      assert ThreeErrors()[..0] == [];
      NoErrorsYet();
    } else {
      hide ThreeErrors, Reached, Possible;
      ErrorRun(n - 1);
      if n <= 3 { FirstError(n - 1); } else if n <= 6 { SecondError(n - 1); } else { ThirdError(n - 1); }
      ErrorEndings(n - 1);
      ErrorCount();
      Extend(Initial(true, false, 0), ThreeErrors(), n - 1, ErrorPoint(n - 1));
    }
  }

  lemma NoErrorsYet()
    ensures ErrorPoint(0) == Point(Initial(true, false, 0), NO_HISTORY)
  {
  }

  lemma ErrorCount()
    ensures |ThreeErrors()| == 9
  {
  }

  /** After these three errors nothing opens before 330030 ms, however the page is touched, hidden, shown or polled. */
  lemma ThreeErrorsHoldOff(after: seq<Action>, a: Action)
    requires Possible(Initial(true, false, 0), ThreeErrors() + after) && forall i | 0 <= i < |after| :: !TokenChange(after[i])
    requires Enabled(Reached(Initial(true, false, 0), ThreeErrors() + after).s, a) && !TokenChange(a) && a.now < 330030
    ensures !Opens(Reached(Initial(true, false, 0), ThreeErrors() + after).s, a)
  {
    hide Possible, Reached, Enabled, Opens, TokenChange;
    ErrorRun(9);
    assert ThreeErrors()[..9] == ThreeErrors();
    NothingOpensWhileHeld(true, false, 0, ThreeErrors(), after, a);
  }

  // ---- the page, read off the actions --------------------------------------------------------------

  function HiddenBy(acts: seq<Action>, at: bool): bool {
    if acts == [] then at
    else
      var e := acts[|acts| - 1].event;
      if e.Hide? then true else if e.Show? then false else HiddenBy(acts[..|acts| - 1], at)
  }

  /** Refused by the stream or by the latest poll, and no new token since. */
  function RefusedBy(acts: seq<Action>): bool {
    if acts == [] then false
    else
      var e := acts[|acts| - 1].event;
      if e.Refused? then true
      else if e.NewToken? then false
      else if e.PollAnswered? then e.refused
      else RefusedBy(acts[..|acts| - 1])
  }

  /** The latest touch of, or return to, the page. */
  function UsedAt(acts: seq<Action>, from: int): int {
    if acts == [] then from
    else
      var a := acts[|acts| - 1];
      if a.event.Touch? || a.event.Show? then a.now else UsedAt(acts[..|acts| - 1], from)
  }

  predicate SamePage(s: State, t: State) {
    t.hidden == s.hidden && t.authProblem == s.authProblem && t.lastInteraction == s.lastInteraction
  }

  lemma ConsoleKeepsPage(s: State, status: Status)
    ensures SamePage(s, Close(s, status)) && SamePage(s, OpenOrPause(s)) && SamePage(s, Sync(s)) && SamePage(s, Restart(s))
  {
    hide Wanted;
  }

  /** The page after an action, whatever the console then does. */
  function PageAfter(s: State, a: Action): State {
    var e := a.event;
    s.(hidden := if e.Hide? then true else if e.Show? then false else s.hidden,
       authProblem := if e.Refused? then true else if e.NewToken? then false else if e.PollAnswered? then e.refused
                      else s.authProblem,
       lastInteraction := if e.Touch? || e.Show? then a.now else s.lastInteraction)
  }

  lemma PageStep(s: State, a: Action)
    requires Enabled(s, a)
    ensures SamePage(PageAfter(s, a), Step(s, a))
  {
    hide Sync, Restart, Close, OpenOrPause, HowEnded, Wait;
    var t := s.(now := a.now);
    if a.event.TimerFires? {
      ConsoleKeepsPage(t.(timer := None), Paused);
    } else if a.event.Tick? || a.event.Touch? || a.event.Show? || a.event.Hide? || a.event.NewToken? || a.event.ForgetToken? {
      ConsoleKeepsPage(PageAfter(t, a), Paused);
    }
  }

  /** In every run the page is hidden, refused and last used as the actions say. */
  lemma {:induction false} PageFollowsActions(supported: bool, hidden: bool, now: nat, acts: seq<Action>)
    requires Possible(Initial(supported, hidden, now), acts)
    ensures var s := Reached(Initial(supported, hidden, now), acts).s;
      s.hidden == HiddenBy(acts, hidden) && s.authProblem == RefusedBy(acts) && s.lastInteraction == UsedAt(acts, now)
    decreases |acts|
  {
    hide Step, Observe, Enabled;
    if acts != [] {
      PageFollowsActions(supported, hidden, now, acts[..|acts| - 1]);
      PageStep(Reached(Initial(supported, hidden, now), acts[..|acts| - 1]).s, acts[|acts| - 1]);
    }
  }

  /** A connection the watchdog aborted delivers nothing more. */
  lemma WatchdogStops(s: State, a: Action, later: Action)
    requires Enabled(s, a) && a.event.WatchdogAborts? && FromNetwork(later.event) && later.event.id == a.event.id
    ensures !Enabled(Step(s, a), later)
  {
  }

  // ---- exactly when a connection opens before its retry delay ----------------------------------------

  /** A hint of 2^31 ms does not wait 2^31 ms: the timer fires at once. */
  lemma OverlongHintDoesNotWait(backoff: int)
    ensures TimerDelay(NextDelay(StreamError, Some(0x8000_0000), backoff)) == 0
  {
  }

  /** Visible, not refused, used within five minutes and not held off. */
  predicate Streamable(s: State) {
    !s.hidden && !s.authProblem && s.now < s.lastInteraction + 300000 && s.now >= s.holdOffUntil
  }

  lemma WantedIff(s: State)
    requires s.now >= 0 && s.status != Unsupported
    ensures Wanted(s) <==> Streamable(s)
  {
  }

  predicate Syncs(a: Action) { a.event.Tick? || a.event.Touch? || a.event.Show? }

  /** The page as a tick, a touch or a return to the page finds it. */
  function Seen(s: State, a: Action): State {
    var t := s.(now := a.now);
    if a.event.Touch? then t.(lastInteraction := t.now)
    else if a.event.Show? then t.(hidden := false, lastInteraction := t.now)
    else t
  }

  /** The page is hidden, or a tick, touch or return finds the stream not wanted. */
  predicate Pauses(s: State, a: Action) { a.event.Hide? || (Syncs(a) && !Streamable(Seen(s, a))) }

  lemma {:induction false} AlwaysCapable(supported: bool, hidden: bool, now: nat, acts: seq<Action>)
    requires Possible(Initial(supported, hidden, now), acts)
    ensures Capable(Reached(Initial(supported, hidden, now), acts).s)
    decreases |acts|
  {
    hide Step, Observe, Enabled;
    if acts != [] {
      AlwaysCapable(supported, hidden, now, acts[..|acts| - 1]);
      StepEvolves(Reached(Initial(supported, hidden, now), acts[..|acts| - 1]).s, acts[|acts| - 1]);
    }
  }

  /** Between connections, before the retry is due (`due`), which is pending or dropped. */
  predicate Waiting(s: State, due: int) {
    s.ctrl.None? && s.supported && s.status != Unsupported && (s.timer == Some(due) || s.timer.None?)
  }

  lemma EarlyStep(s: State, a: Action, due: int)
    requires OneAtATime(s) && Waiting(s, due) && Enabled(s, a) && !TokenChange(a) && 0 <= a.now < due
    ensures Opens(s, a) <==> s.timer.None? && Syncs(a) && Streamable(Seen(s, a))
    ensures !Opens(s, a) ==>
      Waiting(Step(s, a), due) && Step(s, a).timer == if Pauses(s, a) then None else s.timer
  {
    if Syncs(a) {
      WantedIff(Seen(s, a));
      hide Wanted, Streamable;
      assert Step(s, a) == Sync(Seen(s, a));
    } else {
      hide Wanted, HowEnded, Wait, Sync;
    }
  }

  ghost predicate PausedSince(start: State, base: seq<Action>, after: seq<Action>)
    requires forall i | 0 <= i <= |after| :: Possible(start, base + after[..i])
  {
    exists i | 0 <= i < |after| :: Pauses(Reached(start, base + after[..i]).s, after[i])
  }

  /** No token change and no opening among these actions. */
  ghost predicate Uneventful(start: State, base: seq<Action>, after: seq<Action>)
    requires forall i | 0 <= i <= |after| :: Possible(start, base + after[..i])
  {
    forall i | 0 <= i < |after| ::
      && !TokenChange(after[i])
      && Enabled(Reached(start, base + after[..i]).s, after[i])
      && !Opens(Reached(start, base + after[..i]).s, after[i])
  }

  lemma {:induction false} Prefixes(start: State, base: seq<Action>, after: seq<Action>)
    requires Possible(start, base + after)
    ensures forall i | 0 <= i <= |after| :: Possible(start, base + after[..i])
    decreases |after|
  {
    assert after[..|after|] == after;
    if after != [] {
      var front := after[..|after| - 1];
      assert (base + after)[..|base + after| - 1] == base + front;
      Prefixes(start, base, front);
      assert forall i | 0 <= i <= |front| :: front[..i] == after[..i];
    }
  }

  /** While nothing opens, the retry is pending exactly until the first pause. */
  lemma {:induction false} DroppedIffPaused(supported: bool, hidden: bool, now: nat, base: seq<Action>, after: seq<Action>,
      due: int)
    requires forall i | 0 <= i <= |after| :: Possible(Initial(supported, hidden, now), base + after[..i])
    requires Uneventful(Initial(supported, hidden, now), base, after)
    requires var s := Reached(Initial(supported, hidden, now), base + after[..0]).s; Waiting(s, due) && s.timer == Some(due)
    requires Reached(Initial(supported, hidden, now), base + after[..|after|]).s.now < due
    ensures var s := Reached(Initial(supported, hidden, now), base + after[..|after|]).s;
      && Waiting(s, due)
      && s.timer == if PausedSince(Initial(supported, hidden, now), base, after) then None else Some(due)
    decreases |after|
  {
    hide Step, Enabled, Observe, Opens, Pauses, OneAtATime, Paced, Waiting, Reached, Possible;
    var start := Initial(supported, hidden, now);
    if after != [] {
      var n := |after| - 1;
      var front, a := after[..n], after[n];
      assert forall i | 0 <= i <= n :: front[..i] == after[..i];
      assert base + after[..n + 1] == base + front + [a];
      var s := Reached(start, base + front).s;
      ReachedStep(start, base + front, a);
      StepEvolves(s, a);
      EnabledLater(s, a);
      FrontIsUneventful(start, base, front, after);
      DroppedIffPaused(supported, hidden, now, base, front, due);
      Reachable(supported, hidden, now, base + front);
      EarlyClock(s, Reached(start, base + front).h, a);
      EarlyStep(s, a, due);
      PausedMore(start, base, front, after);
    }
  }

  lemma EnabledLater(s: State, a: Action)
    requires Enabled(s, a)
    ensures s.now <= a.now
  {
  }

  lemma FrontIsUneventful(start: State, base: seq<Action>, front: seq<Action>, after: seq<Action>)
    requires after != [] && front == after[..|after| - 1]
    requires forall i | 0 <= i <= |after| :: Possible(start, base + after[..i])
    requires forall i | 0 <= i <= |front| :: Possible(start, base + front[..i])
    requires Uneventful(start, base, after)
    ensures Uneventful(start, base, front) && Possible(start, base + front)
    ensures var s, a := Reached(start, base + front).s, after[|after| - 1];
      !TokenChange(a) && Enabled(s, a) && !Opens(s, a)
  {
    hide Possible, Reached, Enabled, Opens;
    assert front[..|front|] == front;
    assert forall i | 0 <= i <= |front| :: front[..i] == after[..i];
  }

  lemma ReachedStep(start: State, acts: seq<Action>, a: Action)
    requires Possible(start, acts) && Possible(start, acts + [a])
    ensures Enabled(Reached(start, acts).s, a) && Reached(start, acts + [a]).s == Step(Reached(start, acts).s, a)
  {
    hide Step, Enabled, Observe;
    assert (acts + [a])[..|acts|] == acts;
  }

  lemma PausedMore(start: State, base: seq<Action>, front: seq<Action>, after: seq<Action>)
    requires after != [] && front == after[..|after| - 1]
    requires forall i | 0 <= i <= |after| :: Possible(start, base + after[..i])
    requires forall i | 0 <= i <= |front| :: Possible(start, base + front[..i])
    ensures Possible(start, base + front)
    ensures PausedSince(start, base, after) <==>
      PausedSince(start, base, front) || Pauses(Reached(start, base + front).s, after[|after| - 1])
  {
    hide Possible, Reached, Pauses;
    assert front[..|front|] == front;
    assert forall i | 0 <= i <= |front| :: front[..i] == after[..i];
  }

  /** A run settles a connection (`end`), whose retry is due later; since then nothing opened and the token did not
      change. Before the due time an action opens a connection exactly when a pause came since the ending and the
      action is a tick, a touch or a return that finds the stream wanted. */
  lemma EarlyOpeningIff(supported: bool, hidden: bool, now: nat, before: seq<Action>, end: Action, after: seq<Action>, a: Action)
    requires Possible(Initial(supported, hidden, now), before) && Enabled(Reached(Initial(supported, hidden, now), before).s, end)
    requires Settles(Reached(Initial(supported, hidden, now), before).s, end)
    requires forall i | 0 <= i <= |after| :: Possible(Initial(supported, hidden, now), before + [end] + after[..i])
    requires Uneventful(Initial(supported, hidden, now), before + [end], after)
    requires var s := Reached(Initial(supported, hidden, now), before + [end] + after[..|after|]).s; Enabled(s, a)
    requires !TokenChange(a)
    requires a.now < end.now + TimerDelay(Wait(Reached(Initial(supported, hidden, now), before).s, end.event.id))
    ensures var s := Reached(Initial(supported, hidden, now), before + [end] + after[..|after|]).s;
      Opens(s, a) <==>
        && PausedSince(Initial(supported, hidden, now), before + [end], after)
        && Syncs(a) && Streamable(Seen(s, a))
  {
    hide Opens, Pauses, Paced, Wanted, Wait, HowEnded, Observe, Streamable, Recorded;
    var start, base := Initial(supported, hidden, now), before + [end];
    var p := Reached(start, before).s;
    var due := end.now + TimerDelay(Wait(p, end.event.id));
    assert base[..|before|] == before && base + after[..0] == base;
    Reachable(supported, hidden, now, before);
    AlwaysCapable(supported, hidden, now, before);
    Settled(p, end);
    var s := Reached(start, base + after[..|after|]).s;
    hide Reached, Possible, Step, Enabled, OneAtATime, Waiting, Seen;
    DroppedIffPaused(supported, hidden, now, base, after, due);
    Reachable(supported, hidden, now, base + after[..|after|]);
    EarlyClock(s, Reached(start, base + after[..|after|]).h, a);
    EarlyStep(s, a, due);
  }

  lemma EarlyClock(s: State, h: History, a: Action)
    requires Paced(s, h) && Enabled(s, a)
    ensures 0 <= s.now <= a.now
  {
  }

  lemma Settled(s: State, end: Action)
    requires OneAtATime(s) && Capable(s) && Enabled(s, end) && Settles(s, end)
    ensures var due := end.now + TimerDelay(Wait(s, end.event.id));
      Waiting(Step(s, end), due) && Step(s, end).timer == Some(due)
  {
    hide Wanted;
  }

  /** A token change opens at once exactly when the page is visible and in use. */
  lemma TokenOpensIff(s: State, a: Action)
    requires Enabled(s, a) && TokenChange(a) && s.supported && s.status != Unsupported
    ensures Opens(s, a) <==>
      !s.hidden && (a.event.NewToken? || !s.authProblem) && a.now - s.lastInteraction < 300000
  {
  }

  /** Such a run: the first connection ends after 10 ms and would be retried at 2010; the page is hidden at 20 and shown
      at 30, and the stream reopens then. */
  lemma HideAndShowSkipsTheWait()
    ensures var acts, back := [At(0, Tick), At(10, Ends(0)), At(20, Hide)], At(30, Show);
      && Possible(Initial(true, false, 0), acts)
      && var s := Reached(Initial(true, false, 0), acts).s; Enabled(s, back) && Opens(s, back)
  {
    var start := Initial(true, false, 0);
    var a1, a2, a3 := At(0, Tick), At(10, Ends(0)), At(20, Hide);
    var s1 := Step(start, a1);
    var s2 := Step(s1, a2);
    var s3 := Step(s2, a3);
    assert s1.conns == [Conn(false, false, false, None)];
    assert s2.timer == Some(2010) && s3.timer.None?;
    assert Opens(s3, At(30, Show));
    hide Step, Opens, Observe, Enabled;
    assert [a1][..0] == [] && [a1, a2][..1] == [a1] && [a1, a2, a3][..2] == [a1, a2];
    assert Possible(start, [a1]) && Reached(start, [a1]).s == s1;
    assert Possible(start, [a1, a2]) && Reached(start, [a1, a2]).s == s2;
  }
}
