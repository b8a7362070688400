/** Attention pulses of the dashboard: tone memory, running and deferred pulses, and the fold that replays them.
    Every id stands for one element of the page. */
module AttentionPulse {
  import opened Options

  type Id = string
  type Fold = string

  /** A normalised tone; `Calm` is safe, neutral or any other name. */
  datatype Tone = Danger | Caution | Calm(name: string)

  /** The two pulse classes. */
  datatype Pulse = DangerPulse | CautionPulse {
    function Duration(): int { if DangerPulse? then 5000 else 2000 }
  }

  function Expected(t: Tone): set<Pulse> {
    match t
    case Danger => {DangerPulse}
    case Caution => {CautionPulse}
    case Calm(_) => {}
  }

  /** An `animationend` handler on an element; each start makes a new one. */
  datatype Listener = Listener(serial: nat, pulse: Pulse)

  datatype Entry = Entry(pulse: Pulse, expiresAt: int, onEnd: Listener)

  datatype Pending = Pending(id: Id, pulse: Pulse, duration: int)

  /** The page: the innermost fold around an element, every fold that contains it, the folds that replay when
      opened, and whether the visitor asked for reduced motion. */
  datatype Page = Page(closest: map<Id, Fold>, holds: set<(Fold, Id)>, bound: set<Fold>, reduced: bool) {
    predicate Contains(f: Fold, id: Id) { (f, id) in holds }

    /** No fold inside another, as far as elements can tell. */
    ghost predicate Flat() { forall f, id | (f, id) in holds :: id in closest && closest[id] == f }
  }

  /** `pending` is in insertion order; `folds` are the open ones; `ready` flips after the first snapshot. */
  datatype State = State(
    tone: map<Id, Tone>, active: map<Id, Entry>, pending: seq<Pending>, classes: map<Id, set<Pulse>>,
    listeners: map<Id, set<Listener>>, folds: set<Fold>, ready: bool, serial: nat)

  function On(s: State, id: Id): set<Pulse> { if id in s.classes then s.classes[id] else {} }

  function Hears(s: State, id: Id): set<Listener> { if id in s.listeners then s.listeners[id] else {} }

  function Without(ps: seq<Pending>, id: Id): seq<Pending> {
    if ps == [] then []
    else
      var p := ps[|ps| - 1];
      Without(ps[..|ps| - 1], id) + (if p.id == id then [] else [p])
  }

  predicate Hidden(s: State, id: Id, page: Page) { id in page.closest && page.closest[id] !in s.folds }

  // ---- transitions ---------------------------------------------------------------------------------

  function Cancelled(s: State, id: Id): State {
    var left := if id in s.active then Hears(s, id) - {s.active[id].onEnd} else Hears(s, id);
    s.(pending := Without(s.pending, id), active := s.active - {id}, classes := s.classes[id := {}],
       listeners := s.listeners[id := left])
  }

  function Started(s: State, id: Id, pulse: Pulse, duration: int, now: int, page: Page): State {
    if page.reduced then s
    else
      var c := Cancelled(s, id);
      if Hidden(s, id, page) then c.(pending := c.pending + [Pending(id, pulse, duration)])
      else
        var onEnd := Listener(c.serial, pulse);
        c.(active := c.active[id := Entry(pulse, now + duration, onEnd)],
           classes := c.classes[id := {pulse}],
           listeners := c.listeners[id := Hears(c, id) + {onEnd}],
           serial := c.serial + 1)
  }

  function Reapplied(s: State, id: Id, now: int): State {
    if id !in s.active then s
    else if now >= s.active[id].expiresAt then s.(active := s.active - {id})
    else s.(classes := s.classes[id := On(s, id) + {s.active[id].pulse}])
  }

  /** A tone is noted for an element that is on the page or not (`present`), whose class attribute the caller may
      just have overwritten (`wiped`). */
  function Noted(s: State, id: Id, present: bool, wiped: bool, t: Tone, now: int, page: Page): State {
    var same := id in s.tone && s.tone[id] == t;
    var w := s.(tone := s.tone[id := t], classes := if present && wiped then s.classes[id := {}] else s.classes);
    if !present || !s.ready then w
    else if same then Reapplied(w, id, now)
    else
      match t
      case Danger => Started(w, id, DangerPulse, DangerPulse.Duration(), now, page)
      case Caution => Started(w, id, CautionPulse, CautionPulse.Duration(), now, page)
      case Calm(_) => Cancelled(w, id)
  }

  /** The element's animation ends: every handler on it removes its class, the active entry and itself. */
  function Ended(s: State, id: Id): State {
    var hs := Hears(s, id);
    s.(classes := s.classes[id := set p | p in On(s, id) && !(exists h :: h in hs && h.pulse == p)],
       active := if hs == {} then s.active else s.active - {id},
       listeners := s.listeners[id := {}])
  }

  // ---- replay when a fold opens --------------------------------------------------------------------

  /** The iteration over the pending map: a cursor into the entries, which moves past what it leaves alone. */
  datatype Cursor = Cursor(s: State, i: nat) {
    predicate Done() { i >= |s.pending| }
  }

  function Removed(s: State, i: nat): State
    requires i < |s.pending|
  {
    s.(pending := s.pending[..i] + s.pending[i + 1..])
  }

  /** One visit. A replayed entry that is deferred again lands at the end and will be visited again. */
  function Visit(c: Cursor, f: Fold, now: int, page: Page): Cursor
    requires !c.Done()
  {
    var p := c.s.pending[c.i];
    if page.Contains(f, p.id) then Cursor(Started(Removed(c.s, c.i), p.id, p.pulse, p.duration, now, page), c.i)
    else Cursor(c.s, c.i + 1)
  }

  function Visits(c: Cursor, n: nat, f: Fold, now: int, page: Page): Cursor
    decreases n
  {
    if n == 0 || c.Done() then c else Visits(Visit(c, f, now, page), n - 1, f, now, page)
  }

  /** Entries the fold contains but cannot show: a closed fold in between hides their element. */
  predicate Stuck(c: Cursor, f: Fold, page: Page) {
    exists j :: c.i <= j < |c.s.pending| && page.Contains(f, c.s.pending[j].id) && Hidden(c.s, c.s.pending[j].id, page)
  }

  predicate Distinct(ps: seq<Pending>) { forall i, j | 0 <= i < j < |ps| :: ps[i].id != ps[j].id }

  lemma {:induction false} WithoutAbsent(ps: seq<Pending>, id: Id)
    requires forall i | 0 <= i < |ps| :: ps[i].id != id
    ensures Without(ps, id) == ps
  {
    if ps != [] { WithoutAbsent(ps[..|ps| - 1], id); }
  }

  lemma StartedRemoved(s: State, i: nat, now: int, page: Page)
    requires i < |s.pending| && Distinct(s.pending) && !page.reduced
    ensures var p := s.pending[i];
      var r := Started(Removed(s, i), p.id, p.pulse, p.duration, now, page);
      && r.pending == s.pending[..i] + s.pending[i + 1..] + (if Hidden(s, p.id, page) then [p] else [])
      && Distinct(r.pending) && r.folds == s.folds
  {
    var rest := s.pending[..i] + s.pending[i + 1..];
    TakenOut(s.pending, i);
    hide Distinct;
    WithoutAbsent(rest, s.pending[i].id);
    hide Without;
    assert rest + [] == rest;
  }

  lemma TakenOut(ps: seq<Pending>, i: nat)
    requires i < |ps| && Distinct(ps)
    ensures var rest := ps[..i] + ps[i + 1..];
      Distinct(rest) && Distinct(rest + [ps[i]]) && forall j | 0 <= j < |rest| :: rest[j].id != ps[i].id
  {
    var rest := ps[..i] + ps[i + 1..];
    forall j | 0 <= j < |rest| ensures rest[j] == ps[if j < i then j else j + 1] && rest[j].id != ps[i].id {
    }
  }

  lemma VisitShortens(c: Cursor, f: Fold, now: int, page: Page)
    requires !c.Done() && Distinct(c.s.pending) && !Stuck(c, f, page) && !page.reduced
    ensures var d := Visit(c, f, now, page);
      && |d.s.pending| - d.i < |c.s.pending| - c.i
      && d.i <= |d.s.pending| && Distinct(d.s.pending) && !Stuck(d, f, page) && d.s.folds == c.s.folds
  {
    var p := c.s.pending[c.i];
    if page.Contains(f, p.id) {
      hide Started, Distinct;
      StartedRemoved(c.s, c.i, now, page);
      var d := Visit(c, f, now, page);
      assert forall j | d.i <= j < |d.s.pending| :: d.s.pending[j] == c.s.pending[j + 1];
    }
  }

  lemma VisitStaysStuck(c: Cursor, f: Fold, now: int, page: Page)
    requires Stuck(c, f, page) && Distinct(c.s.pending) && !page.reduced
    ensures !c.Done() && Stuck(Visit(c, f, now, page), f, page) && Distinct(Visit(c, f, now, page).s.pending)
  {
    hide Started, Distinct;
    var j :| c.i <= j < |c.s.pending| && page.Contains(f, c.s.pending[j].id) && Hidden(c.s, c.s.pending[j].id, page);
    var p := c.s.pending[c.i];
    if page.Contains(f, p.id) {
      StartedRemoved(c.s, c.i, now, page);
      var d := Visit(c, f, now, page);
      if j == c.i {
        assert d.s.pending[|d.s.pending| - 1] == p;
      } else {
        assert d.s.pending[j - 1] == c.s.pending[j];
      }
    }
  }

  lemma {:induction false} StuckForever(c: Cursor, n: nat, f: Fold, now: int, page: Page)
    requires Stuck(c, f, page) && Distinct(c.s.pending) && !page.reduced
    ensures !Visits(c, n, f, now, page).Done()
    decreases n
  {
    hide Visit, Stuck, Distinct;
    VisitStaysStuck(c, f, now, page);
    if n > 0 { StuckForever(Visit(c, f, now, page), n - 1, f, now, page); }
  }

  lemma {:induction false} Finishes(c: Cursor, f: Fold, now: int, page: Page) returns (n: nat)
    requires !Stuck(c, f, page) && Distinct(c.s.pending) && !page.reduced && c.i <= |c.s.pending|
    ensures Visits(c, n, f, now, page).Done()
    decreases |c.s.pending| - c.i
  {
    hide Visit, Stuck, Distinct;
    if c.Done() {
      n := 0;
    } else {
      VisitShortens(c, f, now, page);
      n := Finishes(Visit(c, f, now, page), f, now, page);
      n := n + 1;
    }
  }

  /** Opening a fold finishes its replay exactly when no pending element inside it sits in a further closed fold;
      otherwise the iteration visits the same entry for ever. */
  lemma ReplayEndsIff(s: State, f: Fold, now: int, page: Page)
    requires Distinct(s.pending) && !page.reduced
    ensures (exists n: nat :: Visits(Cursor(s, 0), n, f, now, page).Done()) <==> !Stuck(Cursor(s, 0), f, page)
  {
    hide Visit, Stuck, Distinct, Visits;
    if Stuck(Cursor(s, 0), f, page) {
      forall n: nat ensures !Visits(Cursor(s, 0), n, f, now, page).Done() {
        StuckForever(Cursor(s, 0), n, f, now, page);
      }
    } else {
      var n := Finishes(Cursor(s, 0), f, now, page);
    }
  }

  /** Folds that do not nest never block each other's replay. */
  lemma FlatFoldsNeverStick(s: State, f: Fold, page: Page)
    requires page.Flat() && f in s.folds
    ensures !Stuck(Cursor(s, 0), f, page)
  {
  }

  /** The whole replay, where it ends. */
  function Replayed(c: Cursor, f: Fold, now: int, page: Page): State
    requires !Stuck(c, f, page) && Distinct(c.s.pending) && !page.reduced && c.i <= |c.s.pending|
    decreases |c.s.pending| - c.i
  {
    if c.Done() then c.s
    else
      VisitShortens(c, f, now, page);
      Replayed(Visit(c, f, now, page), f, now, page)
  }

  // ---- one element at a time -----------------------------------------------------------------------

  /** Everything the machine keeps about one element. */
  datatype View = View(tone: Option<Tone>, active: Option<Entry>, on: set<Pulse>, hears: set<Listener>, waits: set<Pulse>)

  function Waits(ps: seq<Pending>, id: Id): set<Pulse> { set p | p in ps && p.id == id :: p.pulse }

  function Of(s: State, id: Id): View {
    View(
      if id in s.tone then Some(s.tone[id]) else None,
      if id in s.active then Some(s.active[id]) else None,
      On(s, id), Hears(s, id), Waits(s.pending, id))
  }

  ghost predicate OnlyTouches(s: State, r: State, id: Id) {
    forall other | other != id :: Of(r, other) == Of(s, other)
  }

  lemma {:induction false} WithoutFacts(ps: seq<Pending>, id: Id)
    ensures forall p :: p in Without(ps, id) <==> p in ps && p.id != id
    ensures Distinct(ps) ==> Distinct(Without(ps, id))
  {
    if ps != [] {
      var n := |ps| - 1;
      WithoutFacts(ps[..n], id);
      assert ps == ps[..n] + [ps[n]];
    }
  }

  lemma WaitsWithout(ps: seq<Pending>, id: Id, other: Id)
    ensures Waits(Without(ps, id), other) == if other == id then {} else Waits(ps, other)
  {
    WithoutFacts(ps, id);
  }

  lemma WaitsAppend(ps: seq<Pending>, p: Pending, other: Id)
    ensures Waits(ps + [p], other) == if other == p.id then Waits(ps, other) + {p.pulse} else Waits(ps, other)
  {
  }

  /** A cancel leaves no pulse of the element in any form, and touches no other element. */
  lemma CancelledView(s: State, id: Id)
    ensures var v := Of(s, id);
      Of(Cancelled(s, id), id) ==
        View(v.tone, None, {}, if v.active.Some? then v.hears - {v.active.value.onEnd} else v.hears, {})
    ensures OnlyTouches(s, Cancelled(s, id), id)
  {
    hide Without, Waits;
    WaitsWithout(s.pending, id, id);
    forall other | other != id ensures Of(Cancelled(s, id), other) == Of(s, other) { WaitsWithout(s.pending, id, other); }
  }

  /** A start either defers the pulse or runs it; in both cases it replaces whatever the element had. */
  lemma StartedView(s: State, id: Id, pulse: Pulse, duration: int, now: int, page: Page)
    requires !page.reduced
    ensures var c := Of(Cancelled(s, id), id);
      var onEnd := Listener(s.serial, pulse);
      Of(Started(s, id, pulse, duration, now, page), id) ==
        if Hidden(s, id, page) then View(c.tone, None, {}, c.hears, {pulse})
        else View(c.tone, Some(Entry(pulse, now + duration, onEnd)), {pulse}, c.hears + {onEnd}, {})
    ensures OnlyTouches(s, Started(s, id, pulse, duration, now, page), id)
  {
    CancelledView(s, id);
    CancelledRest(s, id);
    var c := Cancelled(s, id);
    var p := Pending(id, pulse, duration);
    hide Cancelled, Waits;
    WaitsAppend(c.pending, p, id);
    forall other | other != id ensures Of(Started(s, id, pulse, duration, now, page), other) == Of(s, other) {
      assert Of(c, other) == Of(s, other);
      WaitsAppend(c.pending, p, other);
    }
  }

  // ---- invariant -----------------------------------------------------------------------------------

  /** The pulse an element has, running, deferred or on its class list, is the one of its last noted tone; it is not
      both running and deferred; a pulse class on it has a handler that will remove it. */
  ghost predicate Good(v: View, ready: bool) {
    var wanted := if v.tone.Some? then Expected(v.tone.value) else {};
    && v.on <= wanted && v.waits <= wanted
    && (v.active.Some? ==> v.active.value.pulse in wanted && v.active.value.onEnd in v.hears)
    && (v.active.Some? ==> v.active.value.onEnd.pulse == v.active.value.pulse)
    && (v.waits != {} ==> v.active.None? && v.on == {})
    && (forall p | p in v.on :: exists h :: h in v.hears && h.pulse == p)
    && (!ready ==> v.on == {} && v.waits == {} && v.active.None?)
  }

  ghost predicate Inv(s: State, page: Page) {
    && Distinct(s.pending)
    && (forall id :: Good(Of(s, id), s.ready))
    && (page.reduced ==> forall id :: Quiet(Of(s, id)))
  }

  /** No pulse in any form. */
  predicate Quiet(v: View) { v.on == {} && v.waits == {} && v.active.None? }

  /** The pulse class of an element that is not calm can only be its tone's; a calm element has none. */
  lemma ClassMatchesTone(s: State, page: Page, id: Id)
    requires Inv(s, page)
    ensures On(s, id) <= (if id in s.tone then Expected(s.tone[id]) else {})
    ensures id in s.tone && s.tone[id].Calm? ==> Quiet(Of(s, id))
    ensures !(id in s.active && Waits(s.pending, id) != {})
  {
    hide Waits;
    assert Good(Of(s, id), s.ready);
  }

  lemma DistinctAfter(s: State, id: Id, pulse: Pulse, duration: int, now: int, page: Page)
    requires Distinct(s.pending)
    ensures Distinct(Cancelled(s, id).pending) && Distinct(Started(s, id, pulse, duration, now, page).pending)
  {
    WithoutFacts(s.pending, id);
    var ps := Without(s.pending, id);
    assert forall i | 0 <= i < |ps| :: ps[i] in ps;
    hide Without;
  }

  /** A start for the tone the element has is good, whatever its tone was before. */
  lemma StartedIsGood(s: State, id: Id, pulse: Pulse, duration: int, now: int, page: Page)
    requires !page.reduced && s.ready && id in s.tone && pulse in Expected(s.tone[id])
    ensures Good(Of(Started(s, id, pulse, duration, now, page), id), true)
  {
    hide Waits;
    CancelledView(s, id);
    StartedView(s, id, pulse, duration, now, page);
    hide Started, Cancelled;
    var onEnd := Listener(s.serial, pulse);
    assert onEnd.pulse == pulse;
  }

  lemma CancelledIsGood(s: State, id: Id)
    ensures Good(Of(Cancelled(s, id), id), s.ready) && Quiet(Of(Cancelled(s, id), id))
  {
    hide Waits;
    CancelledView(s, id);
  }

  lemma ReappliedView(s: State, id: Id, now: int)
    requires Good(Of(s, id), s.ready)
    ensures Good(Of(Reapplied(s, id, now), id), s.ready) && OnlyTouches(s, Reapplied(s, id, now), id)
    ensures Quiet(Of(s, id)) ==> Quiet(Of(Reapplied(s, id, now), id))
  {
    hide Waits;
  }

  /** `w` is `s` after the tone is stored and the caller's class list has replaced the old one. */
  lemma WipedIsGood(s: State, id: Id, t: Tone, wiped: bool)
    requires Good(Of(s, id), s.ready) && id in s.tone && s.tone[id] == t
    ensures Good(Of(s.(tone := s.tone[id := t], classes := if wiped then s.classes[id := {}] else s.classes), id), s.ready)
  {
    hide Waits;
  }

  lemma UnreadyIsGood(s: State, id: Id, t: Tone, present: bool, wiped: bool)
    requires Good(Of(s, id), s.ready) && !s.ready
    ensures Good(Of(s.(tone := s.tone[id := t], classes := if present && wiped then s.classes[id := {}] else s.classes), id), false)
  {
    hide Waits;
  }

  lemma FromOne(s: State, r: State, id: Id, page: Page)
    requires Inv(s, page) && OnlyTouches(s, r, id) && Good(Of(r, id), r.ready) && r.ready == s.ready
    requires Distinct(r.pending) && (page.reduced ==> Quiet(Of(r, id)))
    ensures Inv(r, page)
  {
    hide Waits, Good, Distinct;
    forall other ensures Good(Of(r, other), r.ready) { assert other != id ==> Of(r, other) == Of(s, other); }
    if page.reduced {
      forall other ensures Quiet(Of(r, other)) { assert other != id ==> Of(r, other) == Of(s, other); }
    }
  }

  lemma NoteKeepsInv(s: State, id: Id, wiped: bool, t: Tone, now: int, page: Page)
    requires Inv(s, page)
    ensures Inv(Noted(s, id, true, wiped, t, now, page), page)
  {
    hide Waits, Without, Started, Cancelled, Reapplied, Good, Distinct;
    var w := s.(tone := s.tone[id := t], classes := if wiped then s.classes[id := {}] else s.classes);
    var r := Noted(s, id, true, wiped, t, now, page);
    assert Good(Of(s, id), s.ready);
    assert page.reduced ==> Quiet(Of(s, id));
    assert OnlyTouches(s, w, id);
    assert page.reduced ==> Quiet(Of(w, id));
    if !s.ready {
      UnreadyIsGood(s, id, t, true, wiped);
    } else if id in s.tone && s.tone[id] == t {
      WipedIsGood(s, id, t, wiped);
      ReappliedView(w, id, now);
      ReappliedPending(w, id, now);
    } else if t.Calm? {
      CancelledView(w, id);
      CancelledIsGood(w, id);
      CancelledRest(w, id);
      DistinctAfter(w, id, DangerPulse, 0, now, page);
    } else {
      var pulse := if t.Danger? then DangerPulse else CautionPulse;
      if page.reduced {
        ReducedIsGood(w, id);
        StartedReduced(w, id, pulse, pulse.Duration(), now, page);
      } else {
        StartedView(w, id, pulse, pulse.Duration(), now, page);
        StartedIsGood(w, id, pulse, pulse.Duration(), now, page);
      }
      StartedRest(w, id, pulse, pulse.Duration(), now, page);
      DistinctAfter(w, id, pulse, pulse.Duration(), now, page);
    }
    FromOne(s, r, id, page);
  }

  lemma ReappliedPending(s: State, id: Id, now: int)
    ensures Reapplied(s, id, now).pending == s.pending && Reapplied(s, id, now).ready == s.ready
  {
  }

  lemma CancelledRest(s: State, id: Id)
    ensures var r := Cancelled(s, id); r.ready == s.ready && r.tone == s.tone && r.folds == s.folds && r.serial == s.serial
  {
  }

  lemma StartedRest(s: State, id: Id, pulse: Pulse, duration: int, now: int, page: Page)
    ensures var r := Started(s, id, pulse, duration, now, page);
      r.ready == s.ready && r.tone == s.tone && r.folds == s.folds
  {
  }

  lemma StartedReduced(s: State, id: Id, pulse: Pulse, duration: int, now: int, page: Page)
    requires page.reduced
    ensures Started(s, id, pulse, duration, now, page) == s
  {
  }

  lemma ReducedIsGood(s: State, id: Id)
    requires Quiet(Of(s, id))
    ensures Good(Of(s, id), s.ready)
  {
    hide Waits;
  }

  /** An end of animation leaves no pulse class, no handler and no running pulse. */
  lemma EndClears(s: State, id: Id, page: Page)
    requires Inv(s, page)
    ensures var v := Of(Ended(s, id), id); v.on == {} && v.hears == {} && v.active.None?
    ensures Inv(Ended(s, id), page)
  {
    hide Waits, Distinct;
    assert Good(Of(s, id), s.ready);
    assert page.reduced ==> Quiet(Of(s, id));
    FromOne(s, Ended(s, id), id, page);
  }

  lemma ReapplyKeepsInv(s: State, id: Id, now: int, page: Page)
    ensures OnlyTouches(s, Reapplied(s, id, now), id)
    ensures Inv(s, page) ==> Inv(Reapplied(s, id, now), page)
  {
    hide Waits, Distinct, Good;
    if Inv(s, page) {
      assert Good(Of(s, id), s.ready) && (page.reduced ==> Quiet(Of(s, id)));
      ReappliedView(s, id, now);
      ReappliedPending(s, id, now);
      FromOne(s, Reapplied(s, id, now), id, page);
    }
  }

  /** What a note does to its element: a calm tone leaves no pulse; a new alarming tone gives the element exactly the
      pulse of that tone, running or, in a closed fold, deferred. No other element changes. */
  lemma NoteMeans(s: State, id: Id, present: bool, wiped: bool, t: Tone, now: int, page: Page)
    ensures var r := Noted(s, id, present, wiped, t, now, page);
      && OnlyTouches(s, r, id) && id in r.tone && r.tone[id] == t && r.ready == s.ready
      && (present && Inv(s, page) ==> Inv(r, page))
      && (present && s.ready && Inv(s, page) && t.Calm? ==> Quiet(Of(r, id)))
      && (present && s.ready && !page.reduced && !t.Calm? && !(id in s.tone && s.tone[id] == t) ==>
            if Hidden(r, id, page) then Waits(r.pending, id) == Expected(t) && id !in r.active
            else On(r, id) == Expected(t) && id in r.active)
  {
    hide Noted, Good, Waits, Distinct, Inv, Quiet, OnlyTouches;
    NoteTouches(s, id, present, wiped, t, now, page);
    NoteStarts(s, id, wiped, t, now, page);
    if present && Inv(s, page) {
      NoteKeepsInv(s, id, wiped, t, now, page);
      ClassMatchesTone(Noted(s, id, present, wiped, t, now, page), page, id);
    }
  }

  lemma NoteTouches(s: State, id: Id, present: bool, wiped: bool, t: Tone, now: int, page: Page)
    ensures var r := Noted(s, id, present, wiped, t, now, page);
      OnlyTouches(s, r, id) && id in r.tone && r.tone[id] == t && r.ready == s.ready
  {
    hide Waits, Without, Started, Cancelled, Reapplied;
    var w := s.(tone := s.tone[id := t], classes := if present && wiped then s.classes[id := {}] else s.classes);
    var pulse := if t.Danger? then DangerPulse else CautionPulse;
    assert OnlyTouches(s, w, id);
    ReappliedTouches(w, id, now);
    CancelledView(w, id);
    CancelledRest(w, id);
    StartedRest(w, id, pulse, pulse.Duration(), now, page);
    if page.reduced {
      StartedReduced(w, id, pulse, pulse.Duration(), now, page);
    } else {
      StartedView(w, id, pulse, pulse.Duration(), now, page);
    }
  }

  lemma NoteStarts(s: State, id: Id, wiped: bool, t: Tone, now: int, page: Page)
    ensures var r := Noted(s, id, true, wiped, t, now, page);
      s.ready && !page.reduced && !t.Calm? && !(id in s.tone && s.tone[id] == t) ==>
        if Hidden(r, id, page) then Waits(r.pending, id) == Expected(t) && id !in r.active
        else On(r, id) == Expected(t) && id in r.active
  {
    hide Waits, Without, Started, Cancelled, Reapplied;
    if s.ready && !page.reduced && !t.Calm? {
      var w := s.(tone := s.tone[id := t], classes := if wiped then s.classes[id := {}] else s.classes);
      var pulse := if t.Danger? then DangerPulse else CautionPulse;
      CancelledView(w, id);
      StartedView(w, id, pulse, pulse.Duration(), now, page);
      StartedRest(w, id, pulse, pulse.Duration(), now, page);
    }
  }

  lemma ReappliedTouches(s: State, id: Id, now: int)
    ensures OnlyTouches(s, Reapplied(s, id, now), id)
    ensures Reapplied(s, id, now).tone == s.tone && Reapplied(s, id, now).ready == s.ready
  {
    hide Waits;
  }

  /** The branches of a note, by the transition each takes. */
  lemma NotedIs(s: State, id: Id, present: bool, wiped: bool, t: Tone, now: int, page: Page)
    ensures var w := s.(tone := s.tone[id := t], classes := if present && wiped then s.classes[id := {}] else s.classes);
      Noted(s, id, present, wiped, t, now, page) ==
        if !present || !s.ready then w
        else if id in s.tone && s.tone[id] == t then Reapplied(w, id, now)
        else if t == Danger then Started(w, id, DangerPulse, 5000, now, page)
        else if t == Caution then Started(w, id, CautionPulse, 2000, now, page)
        else Cancelled(w, id)
  {
    hide Reapplied, Started, Cancelled;
  }

  /** A visible pulse outlives a caller that overwrites the class list, until exactly its own time is up: five seconds
      for danger, two for caution. */
  lemma PulseLasts(s: State, id: Id, t: Tone, start: int, now: int, page: Page)
    requires s.ready && !page.reduced && !Hidden(s, id, page) && !t.Calm? && !(id in s.tone && s.tone[id] == t)
    ensures var first := Noted(s, id, true, true, t, start, page);
      On(Noted(first, id, true, true, t, now, page), id) ==
        if now < start + (if t.Danger? then 5000 else 2000) then Expected(t) else {}
  {
    hide Waits, Started, Cancelled;
    var pulse := if t.Danger? then DangerPulse else CautionPulse;
    var w := s.(tone := s.tone[id := t], classes := s.classes[id := {}]);
    StartedView(w, id, pulse, pulse.Duration(), start, page);
    StartedRest(w, id, pulse, pulse.Duration(), start, page);
    var first := Noted(s, id, true, true, t, start, page);
    assert first == Started(w, id, pulse, pulse.Duration(), start, page);
    assert Of(first, id).active.Some?;
  }

  /** A note for an element that is not on the page only changes the memory: it keeps the invariant exactly when the
      element has no pulse in any form, or the new tone wants the same one. */
  lemma AbsentNoteKeepsInvIff(s: State, id: Id, wiped: bool, t: Tone, now: int, page: Page)
    requires Inv(s, page)
    ensures Inv(Noted(s, id, false, wiped, t, now, page), page) <==>
      Quiet(Of(s, id)) || Expected(t) == Expected(s.tone[id])
  {
    hide Waits, Without, Started, Cancelled, Reapplied, Distinct;
    var r := Noted(s, id, false, wiped, t, now, page);
    assert Good(Of(s, id), s.ready);
    assert OnlyTouches(s, r, id);
    if Good(Of(r, id), r.ready) {
      assert page.reduced ==> Quiet(Of(s, id));
      FromOne(s, r, id, page);
    }
    assert Inv(r, page) ==> Good(Of(r, id), r.ready);
  }

  // ---- replay and the invariant --------------------------------------------------------------------

  lemma WaitsRemoved(s: State, i: nat, other: Id)
    requires i < |s.pending| && Distinct(s.pending)
    ensures Waits(Removed(s, i).pending, other) == if other == s.pending[i].id then {} else Waits(s.pending, other)
  {
    var ps := s.pending;
    var rest := ps[..i] + ps[i + 1..];
    TakenOut(ps, i);
    assert ps == ps[..i] + [ps[i]] + ps[i + 1..];
    assert forall p :: p in ps <==> p in rest || p == ps[i];
    assert forall p | p in rest :: p.id != ps[i].id;
  }

  lemma RemovedTouches(s: State, i: nat)
    requires i < |s.pending| && Distinct(s.pending)
    ensures OnlyTouches(s, Removed(s, i), s.pending[i].id)
  {
    hide Waits, Distinct;
    forall other | other != s.pending[i].id ensures Of(Removed(s, i), other) == Of(s, other) { WaitsRemoved(s, i, other); }
  }

  lemma PendingWaits(s: State, i: nat)
    requires i < |s.pending|
    ensures s.pending[i].pulse in Waits(s.pending, s.pending[i].id)
  {
    assert s.pending[i] in s.pending;
  }

  /** Replaying one entry: the element's deferred pulse is the one its tone wants now, so is the pulse started. */
  lemma ReplayedEntry(s: State, i: nat, now: int, page: Page)
    requires Inv(s, page) && !page.reduced && i < |s.pending|
    ensures var p := s.pending[i];
      var r := Started(Removed(s, i), p.id, p.pulse, p.duration, now, page);
      Inv(r, page) && OnlyTouches(s, r, p.id) && r.ready == s.ready && r.tone == s.tone && r.folds == s.folds
  {
    hide Waits, Without, Started, Cancelled, Distinct;
    var p := s.pending[i];
    var m := Removed(s, i);
    PendingWaits(s, i);
    assert Good(Of(s, p.id), s.ready);
    RemovedTouches(s, i);
    StartedView(m, p.id, p.pulse, p.duration, now, page);
    StartedIsGood(m, p.id, p.pulse, p.duration, now, page);
    StartedRest(m, p.id, p.pulse, p.duration, now, page);
    StartedRemoved(s, i, now, page);
    hide Good, Removed;
    FromOne(s, Started(m, p.id, p.pulse, p.duration, now, page), p.id, page);
  }

  lemma VisitKeepsInv(c: Cursor, f: Fold, now: int, page: Page)
    requires Inv(c.s, page) && !page.reduced && !c.Done()
    ensures var d := Visit(c, f, now, page);
      Inv(d.s, page) && OnlyTouches(c.s, d.s, c.s.pending[c.i].id) && d.s.folds == c.s.folds && d.s.tone == c.s.tone
  {
    hide Started, Removed, Good, Waits, Distinct, Inv;
    ReplayedEntry(c.s, c.i, now, page);
  }

  lemma {:induction false} ReplayKeepsInv(c: Cursor, f: Fold, now: int, page: Page)
    requires Inv(c.s, page) && !Stuck(c, f, page) && !page.reduced && c.i <= |c.s.pending|
    ensures var r := Replayed(c, f, now, page); Inv(r, page) && r.folds == c.s.folds && r.tone == c.s.tone
    decreases |c.s.pending| - c.i
  {
    hide Visit, Stuck, Good, Distinct, Waits;
    if !c.Done() {
      VisitShortens(c, f, now, page);
      VisitKeepsInv(c, f, now, page);
      ReplayKeepsInv(Visit(c, f, now, page), f, now, page);
    }
  }

  /** Deferred under the fold, at the cursor or behind it. */
  predicate Due(c: Cursor, f: Fold, page: Page, id: Id) {
    page.Contains(f, id) && exists j :: c.i <= j < |c.s.pending| && c.s.pending[j].id == id
  }

  /** A pulse runs on the element, and it is the one its tone wants. */
  predicate Pulsing(v: View) { v.tone.Some? && v.active.Some? && v.on == {v.active.value.pulse} == Expected(v.tone.value) && v.waits == {} }

  lemma VisitedView(c: Cursor, f: Fold, now: int, page: Page)
    requires Inv(c.s, page) && !Stuck(c, f, page) && !page.reduced && !c.Done()
    ensures var id := c.s.pending[c.i].id;
      var d := Visit(c, f, now, page);
      if page.Contains(f, id) then Pulsing(Of(d.s, id)) && !Due(d, f, page, id) else d.s == c.s && d.i == c.i + 1
  {
    hide Waits, Started, Cancelled, Without;
    var p := c.s.pending[c.i];
    if page.Contains(f, p.id) {
      var m := Removed(c.s, c.i);
      PendingWaits(c.s, c.i);
      assert Good(Of(c.s, p.id), c.s.ready);
      assert !Hidden(c.s, p.id, page);
      StartedView(m, p.id, p.pulse, p.duration, now, page);
      CancelledView(m, p.id);
      StartedRemoved(c.s, c.i, now, page);
      TakenOut(c.s.pending, c.i);
      hide Distinct, Removed, Good;
      var d := Visit(c, f, now, page);
      assert forall j | 0 <= j < |d.s.pending| :: d.s.pending[j].id != p.id;
      WantedIsOne(m.tone[p.id], p.pulse);
    }
  }

  lemma WantedIsOne(t: Tone, p: Pulse)
    requires p in Expected(t)
    ensures Expected(t) == {p}
  {
  }

  lemma DueAfter(c: Cursor, f: Fold, now: int, page: Page, id: Id)
    requires !c.Done() && Distinct(c.s.pending) && !Stuck(c, f, page) && !page.reduced && id != c.s.pending[c.i].id
    ensures Due(Visit(c, f, now, page), f, page, id) <==> Due(c, f, page, id)
  {
    hide Started, Distinct;
    var d := Visit(c, f, now, page);
    if page.Contains(f, c.s.pending[c.i].id) {
      StartedRemoved(c.s, c.i, now, page);
      assert forall j | d.i <= j < |d.s.pending| :: d.s.pending[j] == c.s.pending[j + 1];
      if j :| c.i <= j < |c.s.pending| && c.s.pending[j].id == id { assert d.s.pending[j - 1] == c.s.pending[j]; }
    }
  }

  /** What a finished replay did: every element that was deferred under the fold now pulses, with the pulse of its
      current tone; nothing else changed. */
  lemma {:induction false} ReplayedView(c: Cursor, f: Fold, now: int, page: Page, id: Id)
    requires Inv(c.s, page) && !Stuck(c, f, page) && !page.reduced && c.i <= |c.s.pending|
    ensures var r := Replayed(c, f, now, page);
      if Due(c, f, page, id) then Pulsing(Of(r, id)) else Of(r, id) == Of(c.s, id)
    decreases |c.s.pending| - c.i
  {
    hide Visit, Stuck, Good, Distinct, Waits, Pulsing, Due;
    if c.Done() {
      NothingDue(c, f, page, id);
    } else {
      var d := Visit(c, f, now, page);
      VisitShortens(c, f, now, page);
      VisitKeepsInv(c, f, now, page);
      VisitedView(c, f, now, page);
      ReplayedView(d, f, now, page, id);
      var at := c.s.pending[c.i].id;
      if id != at {
        DueAfter(c, f, now, page, id);
        assert Of(d.s, id) == Of(c.s, id);
      } else if page.Contains(f, at) {
        DueAtCursor(c, f, page);
      } else {
        OutsideIsNotDue(c, f, page, id);
        OutsideIsNotDue(d, f, page, id);
      }
    }
  }

  lemma NothingDue(c: Cursor, f: Fold, page: Page, id: Id)
    requires c.Done()
    ensures !Due(c, f, page, id)
  {
  }

  lemma DueAtCursor(c: Cursor, f: Fold, page: Page)
    requires !c.Done() && page.Contains(f, c.s.pending[c.i].id)
    ensures Due(c, f, page, c.s.pending[c.i].id)
  {
  }

  lemma OutsideIsNotDue(c: Cursor, f: Fold, page: Page, id: Id)
    requires !page.Contains(f, id)
    ensures !Due(c, f, page, id)
  {
  }

  // ---- whole runs ----------------------------------------------------------------------------------

  /** A fold's `open` flips at once; its toggle event comes later, when the fold may have flipped again. */
  datatype Event =
    | Note(id: Id, present: bool, wiped: bool, t: Tone, now: int)
    | AnimationEnd(id: Id)
    | FoldFlips(f: Fold, open: bool)
    | Toggled(f: Fold, now: int)
    | FirstSnapshot

  /** The toggle listener of this fold has something to replay: it is bound, and the fold is open. */
  predicate Replays(s: State, f: Fold, page: Page) { f in s.folds && f in page.bound && !page.reduced }

  predicate Returns(s: State, f: Fold, page: Page) { Replays(s, f, page) ==> !Stuck(Cursor(s, 0), f, page) }

  /** The listener of a fold's toggle event, where it returns. */
  function Caught(s: State, f: Fold, now: int, page: Page): State
    requires Distinct(s.pending) && Returns(s, f, page)
  {
    if Replays(s, f, page) then Replayed(Cursor(s, 0), f, now, page) else s
  }

  /** A note without its element is harmless when the element has no pulse or the new tone wants the same one. */
  predicate Harmless(s: State, id: Id, t: Tone) {
    Quiet(Of(s, id)) || (id in s.tone && Expected(t) == Expected(s.tone[id]))
  }

  /** Listeners return, and a note without its element is harmless. */
  predicate Allowed(s: State, e: Event, page: Page) {
    && Distinct(s.pending)
    && (e.Toggled? ==> Returns(s, e.f, page))
    && (e.Note? && !e.present ==> Harmless(s, e.id, e.t))
  }

  function Flipped(s: State, f: Fold, open: bool): State {
    s.(folds := if open then s.folds + {f} else s.folds - {f})
  }

  function Step(s: State, e: Event, page: Page): State
    requires Allowed(s, e, page)
  {
    match e
    case Note(id, present, wiped, t, now) => Noted(s, id, present, wiped, t, now, page)
    case AnimationEnd(id) => Ended(s, id)
    case FoldFlips(f, open) => Flipped(s, f, open)
    case Toggled(f, now) => Caught(s, f, now, page)
    case FirstSnapshot => s.(ready := true)
  }

  predicate IsRun(run: seq<State>, events: seq<Event>, page: Page) {
    && |run| == |events| + 1
    && run[0] == State(map[], map[], [], map[], map[], run[0].folds, false, 0)
    && forall i | 0 <= i < |events| :: Allowed(run[i], events[i], page) && run[i + 1] == Step(run[i], events[i], page)
  }

  lemma SameViews(s: State, r: State, page: Page)
    requires Inv(s, page) && r.ready == s.ready && r.pending == s.pending
    requires r.tone == s.tone && r.active == s.active && r.classes == s.classes && r.listeners == s.listeners
    ensures Inv(r, page)
  {
    hide Good, Waits, Distinct;
    forall id ensures Of(r, id) == Of(s, id) {}
  }

  lemma ReadyKeepsInv(s: State, page: Page)
    requires Inv(s, page)
    ensures Inv(s.(ready := true), page)
  {
    hide Waits, Distinct;
    var r := s.(ready := true);
    forall id ensures Good(Of(r, id), true) { assert Of(r, id) == Of(s, id) && Good(Of(s, id), s.ready); }
    forall id ensures page.reduced ==> Quiet(Of(r, id)) { assert Of(r, id) == Of(s, id); }
  }

  lemma StepKeepsInv(s: State, e: Event, page: Page)
    requires Inv(s, page) && Allowed(s, e, page)
    ensures Inv(Step(s, e, page), page)
  {
    hide Inv, Good, Waits, Noted, Ended, Distinct, Replayed, Stuck;
    match e
    case Note(id, present, wiped, t, now) =>
      if present { NoteKeepsInv(s, id, wiped, t, now, page); } else { AbsentNoteKeepsInvIff(s, id, wiped, t, now, page); }
    case AnimationEnd(id) => EndClears(s, id, page);
    case FoldFlips(f, open) => SameViews(s, Flipped(s, f, open), page);
    case Toggled(f, now) =>
      if Replays(s, f, page) { ReplayKeepsInv(Cursor(s, 0), f, now, page); }
    case FirstSnapshot => ReadyKeepsInv(s, page);
  }

  /** In every reachable state an element has at most one pulse, running or deferred, and it is the one of its last
      noted tone; a calm element has none, and a pulse class always has a handler that will remove it. */
  lemma {:induction false} EveryRun(run: seq<State>, events: seq<Event>, page: Page, k: nat)
    requires IsRun(run, events, page) && k < |run|
    ensures Inv(run[k], page)
  {
    if k == 0 {
      forall id ensures Good(Of(run[0], id), false) && Quiet(Of(run[0], id)) {}
    } else {
      EveryRun(run, events, page, k - 1);
      assert Allowed(run[k - 1], events[k - 1], page) && run[k - 1 + 1] == Step(run[k - 1], events[k - 1], page);
      hide Inv, Step, Allowed;
      StepKeepsInv(run[k - 1], events[k - 1], page);
    }
  }

  /** With folds that do not nest, no toggle listener can fail to return. */
  lemma FlatPagesNeverHang(s: State, f: Fold, page: Page)
    requires page.Flat()
    ensures Returns(s, f, page)
  {
    hide Stuck;
    if f in s.folds { FlatFoldsNeverStick(s, f, page); }
  }

  /** The toggle event of an open fold, in any reachable state, starts exactly the pulses that were deferred under it,
      each with the pulse its element's tone wants now. */
  lemma OpeningReplaysCurrentTones(run: seq<State>, events: seq<Event>, page: Page, k: nat, id: Id)
    requires IsRun(run, events, page) && k < |events| && events[k].Toggled? && Replays(run[k], events[k].f, page)
    ensures var f := events[k].f;
      if page.Contains(f, id) && Waits(run[k].pending, id) != {} then Pulsing(Of(run[k + 1], id))
      else Of(run[k + 1], id) == Of(run[k], id)
  {
    EveryRun(run, events, page, k);
    var s, f, now := run[k], events[k].f, events[k].now;
    assert Allowed(s, events[k], page) && run[k + 1] == Step(s, events[k], page);
    hide IsRun, Good, Stuck, Replayed, Pulsing;
    ReplayedView(Cursor(s, 0), f, now, page, id);
    WaitsIff(s, id);
  }

  ghost predicate NeverReturns(s: State, f: Fold, page: Page) {
    forall n: nat, now: int :: !Visits(Cursor(s, 0), n, f, now, page).Done()
  }

  /** The replay does hang: an element two folds deep, both closed, is noted in caution; the outer fold is opened; its
      listener never returns. */
  lemma NestedFoldsHang() returns (page: Page, run: seq<State>, events: seq<Event>)
    ensures IsRun(run, events, page)
    ensures Replays(run[|run| - 1], "outer", page) && NeverReturns(run[|run| - 1], "outer", page)
  {
    page := Page(map["pill" := "inner"], {("outer", "pill"), ("inner", "pill")}, {"outer", "inner"}, false);
    events := [FirstSnapshot, Note("pill", true, true, Caution, 0), FoldFlips("outer", true)];
    var s0 := State(map[], map[], [], map[], map[], {}, false, 0);
    var s1 := s0.(ready := true);
    var s2 := Noted(s1, "pill", true, true, Caution, 0, page);
    var s3 := Flipped(s2, "outer", true);
    run := [s0, s1, s2, s3];
    assert Without([], "pill") == [] && [] + [Pending("pill", CautionPulse, 2000)] == [Pending("pill", CautionPulse, 2000)];
    assert s2.pending == [Pending("pill", CautionPulse, 2000)] && s2.folds == {};
    assert "inner"[0] != "outer"[0];
    assert s3.pending == s2.pending && "inner" !in s3.folds;
    assert s3.pending[0].id == "pill";
    assert Stuck(Cursor(s3, 0), "outer", page);
    forall n: nat, now: int ensures !Visits(Cursor(s3, 0), n, "outer", now, page).Done() {
      hide Visits, Stuck, Noted;
      StuckForever(Cursor(s3, 0), n, "outer", now, page);
    }
  }

  lemma WaitsIff(s: State, id: Id)
    ensures Waits(s.pending, id) != {} <==> exists j :: 0 <= j < |s.pending| && s.pending[j].id == id
  {
    if j :| 0 <= j < |s.pending| && s.pending[j].id == id { PendingWaits(s, j); }
    if pulse :| pulse in Waits(s.pending, id) {
      var p :| p in s.pending && p.id == id && p.pulse == pulse;
      var j :| 0 <= j < |s.pending| && s.pending[j] == p;
    }
  }

  // ---- the machine ---------------------------------------------------------------------------------

  class Pulses {
    const page: Page
    var toneMemory: map<Id, Tone>
    var active: map<Id, Entry>
    var pending: seq<Pending>
    var classes: map<Id, set<Pulse>>
    var listeners: map<Id, set<Listener>>
    var openFolds: set<Fold>
    var firstSnapshotDone: bool
    var serial: nat

    function Contents(): State
      reads this
    {
      State(toneMemory, active, pending, classes, listeners, openFolds, firstSnapshotDone, serial)
    }

    constructor (page: Page, openFolds: set<Fold>)
      ensures this.page == page
      ensures Contents() == State(map[], map[], [], map[], map[], openFolds, false, 0)
    {
      this.page := page;
      this.openFolds := openFolds;
      toneMemory, active, pending, classes, listeners := map[], map[], [], map[], map[];
      firstSnapshotDone, serial := false, 0;
    }

    method CancelPulse(id: Id)
      modifies this
      ensures Contents() == Cancelled(old(Contents()), id)
    {
      pending := Without(pending, id);
      var on, hears := On(Contents(), id), Hears(Contents(), id);
      if id in active {
        var entry := active[id];
        active := active - {id};
        on := on - {entry.pulse};
        hears := hears - {entry.onEnd};
      }
      BothPulses(on);
      on := on - {CautionPulse, DangerPulse};
      assert active == old(active) - {id};
      classes := classes[id := on];
      listeners := listeners[id := hears];
    }

    method StartPulse(id: Id, pulse: Pulse, duration: int, now: int)
      modifies this
      ensures Contents() == Started(old(Contents()), id, pulse, duration, now, page)
    {
      if page.reduced { return; }
      CancelPulse(id);
      if id in page.closest && page.closest[id] !in openFolds {
        pending := pending + [Pending(id, pulse, duration)];
        return;
      }
      var onEnd := Listener(serial, pulse);
      serial := serial + 1;
      active := active[id := Entry(pulse, now + duration, onEnd)];
      assert On(Contents(), id) + {pulse} == {pulse};
      classes := classes[id := On(Contents(), id) + {pulse}];
      listeners := listeners[id := Hears(Contents(), id) + {onEnd}];
    }

    /** A pulse whose time is not up is back on the class list; one whose time is up is forgotten; no other element
        changes. */
    method Reapply(id: Id, now: int)
      modifies this
      ensures Contents() == Reapplied(old(Contents()), id, now)
      ensures Inv(old(Contents()), page) ==> Inv(Contents(), page)
      ensures OnlyTouches(old(Contents()), Contents(), id) && toneMemory == old(toneMemory) && pending == old(pending)
      ensures id in active <==> id in old(active) && now < old(active)[id].expiresAt
      ensures id in active ==> active[id] == old(active)[id] && active[id].pulse in On(Contents(), id)
    {
      hide Good, Waits, Distinct;
      ReapplyKeepsInv(Contents(), id, now, page);
      if id !in active { return; }
      if now >= active[id].expiresAt {
        active := active - {id};
        return;
      }
      classes := classes[id := On(Contents(), id) + {active[id].pulse}];
    }

    /** `present` is whether the element was found; a caller that overwrites its class attribute has `wiped` it. */
    method NotePanelTone(id: Id, present: bool, wiped: bool, t: Tone, now: int)
      modifies this
      ensures Contents() == Noted(old(Contents()), id, present, wiped, t, now, page)
      ensures present && Inv(old(Contents()), page) ==> Inv(Contents(), page)
      ensures OnlyTouches(old(Contents()), Contents(), id) && id in toneMemory && toneMemory[id] == t
      ensures present && firstSnapshotDone && Inv(old(Contents()), page) && t.Calm? ==> Quiet(Of(Contents(), id))
      ensures present && firstSnapshotDone && !page.reduced && !t.Calm? && !(id in old(toneMemory) && old(toneMemory)[id] == t) ==>
        if Hidden(Contents(), id, page) then Waits(pending, id) == Expected(t) && id !in active
        else On(Contents(), id) == Expected(t) && id in active
    {
      hide Good, Waits, Distinct, Noted, Quiet, Hidden, Inv, OnlyTouches, Reapplied, Started, Cancelled;
      NoteMeans(Contents(), id, present, wiped, t, now, page);
      NotedIs(Contents(), id, present, wiped, t, now, page);
      if present && wiped { classes := classes[id := {}]; }
      var same := id in toneMemory && toneMemory[id] == t;
      toneMemory := toneMemory[id := t];
      if !present || !firstSnapshotDone { return; }
      if same {
        Reapply(id, now);
      } else if t == Danger {
        StartPulse(id, DangerPulse, 5000, now);
      } else if t == Caution {
        StartPulse(id, CautionPulse, 2000, now);
      } else {
        CancelPulse(id);
      }
    }

    /** The browser calls every handler on the element, in any order. */
    method AnimationEnds(id: Id)
      modifies this
      ensures Contents() == Ended(old(Contents()), id)
    {
      var hears := Hears(Contents(), id);
      var left, on := hears, On(Contents(), id);
      while left != {}
        invariant left <= hears
        invariant on == set p | p in On(old(Contents()), id) && !(exists h :: h in hears - left && h.pulse == p)
        invariant active == if left == hears then old(active) else old(active) - {id}
        invariant Contents() == old(Contents()).(active := active)
      {
        var h :| h in left;
        on := on - {h.pulse};
        active := active - {id};
        assert hears - (left - {h}) == (hears - left) + {h};
        left := left - {h};
      }
      assert hears - left == hears;
      classes := classes[id := on];
      listeners := listeners[id := {}];
    }

    /** The browser opens or closes a fold. */
    method FlipFold(f: Fold, open: bool)
      modifies this`openFolds
      ensures Contents() == Flipped(old(Contents()), f, open)
    {
      openFolds := if open then openFolds + {f} else openFolds - {f};
    }

    /** The toggle listener of a fold: if the fold is open, it replays what waits under it. */
    method OnToggle(f: Fold, now: int)
      requires Inv(Contents(), page) && Returns(Contents(), f, page)
      modifies this
      ensures Contents() == Caught(old(Contents()), f, now, page)
      ensures Inv(Contents(), page)
    {
      hide Inv, Good, Stuck, Started, Visit, Removed;
      QuietWhenReduced(Contents(), page);
      ToggleKeepsInv(Contents(), f, now, page);
      if f !in openFolds || f !in page.bound { return; }
      var i := 0;
      ghost var first := Contents();
      while i < |pending|
        invariant i <= |pending| && Distinct(pending)
        invariant !page.reduced ==> !Stuck(Cursor(Contents(), i), f, page)
        invariant page.reduced ==> Contents() == first && pending == []
        invariant !page.reduced ==>
          Replayed(Cursor(Contents(), i), f, now, page) == Replayed(Cursor(first, 0), f, now, page)
        decreases |pending| - i
      {
        ghost var c := Cursor(Contents(), i);
        VisitShortens(c, f, now, page);
        VisitIs(c, f, now, page);
        var p := pending[i];
        if page.Contains(f, p.id) {
          pending := pending[..i] + pending[i + 1..];
          StartPulse(p.id, p.pulse, p.duration, now);
        } else {
          i := i + 1;
        }
        assert Cursor(Contents(), i) == Visit(c, f, now, page);
      }
    }
  }

  lemma ToggleKeepsInv(s: State, f: Fold, now: int, page: Page)
    requires Inv(s, page) && Distinct(s.pending) && Returns(s, f, page)
    ensures Inv(Caught(s, f, now, page), page)
  {
    hide Inv, Good, Stuck, Replayed;
    if Replays(s, f, page) { ReplayKeepsInv(Cursor(s, 0), f, now, page); }
  }

  lemma BothPulses(on: set<Pulse>)
    ensures on - {CautionPulse, DangerPulse} == {}
  {
    assert forall p | p in on :: p == CautionPulse || p == DangerPulse;
  }

  lemma QuietWhenReduced(s: State, page: Page)
    requires Inv(s, page)
    ensures Distinct(s.pending) && (page.reduced ==> s.pending == [])
  {
    if s.pending != [] {
      PendingWaits(s, 0);
      assert page.reduced ==> Quiet(Of(s, s.pending[0].id));
    }
  }

  lemma VisitIs(c: Cursor, f: Fold, now: int, page: Page)
    requires !c.Done()
    ensures var p := c.s.pending[c.i];
      Visit(c, f, now, page) ==
        if page.Contains(f, p.id)
        then Cursor(Started(c.s.(pending := c.s.pending[..c.i] + c.s.pending[c.i + 1..]), p.id, p.pulse, p.duration, now, page), c.i)
        else Cursor(c.s, c.i + 1)
  {
  }
}
