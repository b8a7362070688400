/** The single-flight reachability ping: any number of threads in the cached ping, one shared-memory access a step.
    Results are named by the number of the probe that made them; 0 is the initial "not checked". */
module PingCache {
  import opened Options

  /** Where a thread is in its call. */
  datatype Pc =
    | Idle
    | Checking(force: bool, now: real)
    | FastRead(tag: nat, force: bool, age: real)   // the timestamp it read: by which probe, how old
    | Acquiring
    | BusyRead
    | Probing(id: nat)
    | Writing(id: nat)
    | Stamping(id: nat)
    | Releasing(id: nat, raised: bool)
  {
    predicate Holds() { Probing? || Writing? || Stamping? || Releasing? }

    /** The most steps of its own the thread still takes. */
    function Remaining(): nat {
      match this
      case Idle => 0
      case Checking(_, _) => 6
      case Acquiring => 5
      case Probing(_) => 4
      case Writing(_) => 3
      case Stamping(_) => 2
      case _ => 1
    }
  }

  datatype How = Fast(tag: nat, force: bool, age: real) | Busy | Fresh

  /** A value handed to a caller: by which path, and from which probe. */
  datatype Served = Served(how: How, id: nat)

  /** `tag` is the probe whose end `ts` records. */
  datatype State = State(
    pcs: seq<Pc>, value: nat, ts: real, tag: nat, holder: Option<nat>, started: nat, log: seq<Served>)

  /** A thread enters the call, or takes its next step; the clock reading and whether a probe raises are chosen by
      the environment, and the clock may go backwards. */
  datatype Action = Enter(t: nat, force: bool, now: real) | Advance(t: nat, clock: real, raises: bool)

  /** Which of the two cache fields a probe writes first; the code writes the value. */
  datatype Order = ValueFirst | StampFirst

  function Start(threads: nat): State {
    State(seq(threads, _ => Idle), 0, 0.0, 0, None, 0, [])
  }

  function At(s: State, t: nat, pc: Pc): State
    requires t < |s.pcs|
  {
    s.(pcs := s.pcs[t := pc])
  }

  function Step(s: State, a: Action, ttl: real, order: Order): (r: State)
    ensures |r.pcs| == |s.pcs|
  {
    if a.t >= |s.pcs| then s
    else if a.Enter? then
      if s.pcs[a.t].Idle? then At(s, a.t, Checking(a.force, a.now)) else s
    else
      match s.pcs[a.t]
      case Idle => s
      case Checking(force, now) => At(s, a.t, if !force && now - s.ts < ttl then FastRead(s.tag, force, now - s.ts) else Acquiring)
      case FastRead(tag, force, age) => At(s, a.t, Idle).(log := s.log + [Served(Fast(tag, force, age), s.value)])
      case Acquiring =>
        if s.holder.Some? then At(s, a.t, BusyRead)
        else At(s, a.t, Probing(s.started + 1)).(holder := Some(a.t), started := s.started + 1)
      case BusyRead => At(s, a.t, Idle).(log := s.log + [Served(Busy, s.value)])
      case Probing(id) => At(s, a.t, if a.raises then Releasing(id, true) else Writing(id))
      case Writing(id) =>
        if order == ValueFirst then At(s, a.t, Stamping(id)).(value := id)
        else At(s, a.t, Stamping(id)).(ts := a.clock, tag := id)
      case Stamping(id) =>
        if order == ValueFirst then At(s, a.t, Releasing(id, false)).(ts := a.clock, tag := id)
        else At(s, a.t, Releasing(id, false)).(value := id)
      case Releasing(id, raised) =>
        At(s, a.t, Idle).(holder := None, log := if raised then s.log else s.log + [Served(Fresh, id)])
  }

  function Run(s: State, acts: seq<Action>, ttl: real, order: Order): (r: State)
    ensures |r.pcs| == |s.pcs|
  {
    if acts == [] then s else Step(Run(s, acts[..|acts| - 1], ttl, order), acts[|acts| - 1], ttl, order)
  }

  // ---- what every step keeps -----------------------------------------------------------------------

  /** The lock is held exactly by the thread that is between acquire and release; it runs the latest probe. */
  predicate SingleFlight(s: State) {
    && (forall t | 0 <= t < |s.pcs| :: s.pcs[t].Holds() <==> s.holder == Some(t))
    && (forall t | 0 <= t < |s.pcs| :: s.pcs[t].Holds() ==> s.pcs[t].id == s.started)
    && (s.holder.Some? ==> s.holder.value < |s.pcs|)
  }

  /** The cached value is never older than the timestamp beside it, nor than any timestamp a reader still acts on. */
  predicate ValueLeads(s: State) {
    && s.tag <= s.value <= s.started
    && (forall t | 0 <= t < |s.pcs| && s.pcs[t].FastRead? :: s.pcs[t].tag <= s.value)
    && (forall t | 0 <= t < |s.pcs| && (s.pcs[t].Stamping? || (s.pcs[t].Releasing? && !s.pcs[t].raised)) ::
          s.pcs[t].id == s.value)
  }

  /** Everything handed out so far: never an older result after a newer one, and the fast path keeps its word. */
  predicate GoodLog(s: State) {
    && (forall i, j | 0 <= i < j < |s.log| :: s.log[i].id <= s.log[j].id)
    && (forall i | 0 <= i < |s.log| :: s.log[i].id <= s.value)
    && (forall i | 0 <= i < |s.log| && s.log[i].how.Fast? :: s.log[i].how.tag <= s.log[i].id)
  }

  lemma StepKeepsSingleFlight(s: State, a: Action, ttl: real, order: Order)
    requires SingleFlight(s)
    ensures SingleFlight(Step(s, a, ttl, order))
  {
  }

  lemma StepKeepsValue(s: State, a: Action, ttl: real)
    requires SingleFlight(s) && ValueLeads(s)
    ensures ValueLeads(Step(s, a, ttl, ValueFirst))
    ensures s.value <= Step(s, a, ttl, ValueFirst).value
  {
    if a.t < |s.pcs| && a.Advance? && s.pcs[a.t].Holds() {
      assert s.holder == Some(a.t);
    }
  }

  lemma StepKeepsLog(s: State, a: Action, ttl: real)
    requires ValueLeads(s) && GoodLog(s) && s.value <= Step(s, a, ttl, ValueFirst).value
    ensures GoodLog(Step(s, a, ttl, ValueFirst))
  {
    var r := Step(s, a, ttl, ValueFirst);
    assert r.log == s.log || (r.log == s.log + [r.log[|s.log|]] && r.log[|s.log|].id == s.value);
  }

  /** In every interleaving of any number of threads: at most one probe is in flight, the value leads the timestamp,
      and what callers were given never went back in time; on the fast path it comes from a probe at least as
      recent as the one whose timestamp was checked. */
  lemma {:induction false} EveryInterleaving(threads: nat, acts: seq<Action>, ttl: real)
    ensures var s := Run(Start(threads), acts, ttl, ValueFirst); SingleFlight(s) && ValueLeads(s) && GoodLog(s)
  {
    if acts != [] {
      var front := acts[..|acts| - 1];
      EveryInterleaving(threads, front, ttl);
      var s := Run(Start(threads), front, ttl, ValueFirst);
      hide Step;
      StepKeepsSingleFlight(s, acts[|acts| - 1], ttl, ValueFirst);
      StepKeepsValue(s, acts[|acts| - 1], ttl);
      StepKeepsLog(s, acts[|acts| - 1], ttl);
    }
  }

  /** Whoever is on the fast path, or was served by it, did not force the call and found the timestamp younger than the
      time to live. */
  predicate FastIsWarm(s: State, ttl: real) {
    && (forall t | 0 <= t < |s.pcs| && s.pcs[t].FastRead? :: !s.pcs[t].force && s.pcs[t].age < ttl)
    && (forall i | 0 <= i < |s.log| && s.log[i].how.Fast? :: !s.log[i].how.force && s.log[i].how.age < ttl)
  }

  lemma {:induction false} ForcedOrColdNeverFast(threads: nat, acts: seq<Action>, ttl: real, order: Order)
    ensures FastIsWarm(Run(Start(threads), acts, ttl, order), ttl)
  {
    if acts != [] { ForcedOrColdNeverFast(threads, acts[..|acts| - 1], ttl, order); }
  }

  /** The check of a call: a forced call, or one that finds the timestamp `ttl` old or older, goes for the lock; with the
      lock free it starts the next probe, otherwise it takes the last value without waiting. Any other call takes the
      fast path. */
  lemma CallPath(s: State, ttl: real, t: nat, clock: real, raises: bool)
    requires t < |s.pcs|
    ensures s.pcs[t].Checking? ==>
      var r := Step(s, Advance(t, clock, raises), ttl, ValueFirst);
      && (r.pcs[t].Acquiring? <==> s.pcs[t].force || s.pcs[t].now >= s.ts + ttl)
      && (r.pcs[t].Acquiring? || r.pcs[t] == FastRead(s.tag, false, s.pcs[t].now - s.ts))
      && r.log == s.log && r.started == s.started
    ensures s.pcs[t].Acquiring? ==>
      var r := Step(s, Advance(t, clock, raises), ttl, ValueFirst);
      if s.holder.None? then r.pcs[t] == Probing(s.started + 1) && r.holder == Some(t) && r.started == s.started + 1
      else r.pcs[t] == BusyRead && r.started == s.started
    ensures s.pcs[t].Probing? ==>
      var r := Step(s, Advance(t, clock, raises), ttl, ValueFirst);
      r.pcs[t] == (if raises then Releasing(s.pcs[t].id, true) else Writing(s.pcs[t].id)) && r.value == s.value && r.ts == s.ts
    ensures s.pcs[t].Stamping? ==>
      var r := Step(s, Advance(t, clock, raises), ttl, ValueFirst); r.ts == clock && r.tag == s.pcs[t].id && r.pcs[t] == Releasing(s.pcs[t].id, false)
    ensures s.pcs[t].Releasing? ==>
      var r := Step(s, Advance(t, clock, raises), ttl, ValueFirst);
      r.holder.None? && r.log == if s.pcs[t].raised then s.log else s.log + [Served(Fresh, s.pcs[t].id)]
  {
  }

  /** Two threads are never probing at once. */
  lemma AtMostOneProbe(threads: nat, acts: seq<Action>, ttl: real, t: nat, u: nat)
    requires t < threads && u < threads
    requires Run(Start(threads), acts, ttl, ValueFirst).pcs[t].Probing?
    requires Run(Start(threads), acts, ttl, ValueFirst).pcs[u].Probing?
    ensures t == u
  {
    hide Run, Step;
    EveryInterleaving(threads, acts, ttl);
  }

  // ---- every call ends -----------------------------------------------------------------------------

  function OwnSteps(acts: seq<Action>, t: nat): nat {
    if acts == [] then 0
    else OwnSteps(acts[1..], t) + (if acts[0].Advance? && acts[0].t == t then 1 else 0)
  }

  lemma OneStepCloser(s: State, a: Action, ttl: real, order: Order, t: nat)
    requires t < |s.pcs| && !s.pcs[t].Idle?
    ensures var r := Step(s, a, ttl, order);
      if a.Advance? && a.t == t then r.pcs[t].Remaining() < s.pcs[t].Remaining() else r.pcs[t] == s.pcs[t]
  {
  }

  lemma {:induction false} RunFront(s: State, acts: seq<Action>, ttl: real, order: Order)
    requires acts != []
    ensures Run(s, acts, ttl, order) == Run(Step(s, acts[0], ttl, order), acts[1..], ttl, order)
  {
    hide Step;
    if |acts| == 1 {
      assert acts[..0] == [] == acts[1..];
      assert Run(s, [], ttl, order) == s;
    } else {
      var front := acts[..|acts| - 1];
      RunFront(s, front, ttl, order);
      assert acts[1..][..|acts| - 2] == front[1..];
    }
  }

  /** No thread can keep another from finishing: from any state, a call is over after as many of its own steps as it
      has left, whatever the others do in between. */
  lemma {:induction false} CallEnds(s: State, acts: seq<Action>, ttl: real, order: Order, t: nat) returns (k: nat)
    requires t < |s.pcs| && OwnSteps(acts, t) >= s.pcs[t].Remaining()
    ensures k <= |acts| && Run(s, acts[..k], ttl, order).pcs[t].Idle?
    decreases |acts|
  {
    hide Step;
    if s.pcs[t].Idle? {
      k := 0;
    } else {
      OneStepCloser(s, acts[0], ttl, order, t);
      k := CallEnds(Step(s, acts[0], ttl, order), acts[1..], ttl, order, t);
      k := k + 1;
      RunFront(s, acts[..k], ttl, order);
      assert acts[..k][1..] == acts[1..][..k - 1];
    }
  }

  /** The lock is always released: a holder lets go within four steps of its own, also when the probe raises. */
  lemma LockIsReleased(threads: nat, before: seq<Action>, after: seq<Action>, ttl: real, t: nat) returns (k: nat)
    requires Run(Start(threads), before, ttl, ValueFirst).holder == Some(t) && OwnSteps(after, t) >= 4
    ensures k <= |after| && Run(Start(threads), before + after[..k], ttl, ValueFirst).holder != Some(t)
  {
    hide Run, Step;
    EveryInterleaving(threads, before, ttl);
    var s := Run(Start(threads), before, ttl, ValueFirst);
    assert s.pcs[t].Holds();
    k := CallEnds(s, after, ttl, ValueFirst, t);
    RunAppend(Start(threads), before, after[..k], ttl, ValueFirst);
    EveryInterleaving(threads, before + after[..k], ttl);
  }

  lemma {:induction false} RunAppend(s: State, xs: seq<Action>, ys: seq<Action>, ttl: real, order: Order)
    ensures Run(s, xs + ys, ttl, order) == Run(Run(s, xs, ttl, order), ys, ttl, order)
  {
    hide Step;
    if ys == [] {
      assert xs + ys == xs;
    } else {
      RunAppend(s, xs, ys[..|ys| - 1], ttl, order);
      assert (xs + ys)[..|xs + ys| - 1] == xs + ys[..|ys| - 1];
    }
  }

  // ---- why the value is written first --------------------------------------------------------------

  predicate FastServes(s: State) {
    forall i | 0 <= i < |s.log| && s.log[i].how.Fast? :: s.log[i].how.tag <= s.log[i].id
  }

  function Racing(): seq<Action> {
    [ Enter(0, true, 0.0), Advance(0, 0.0, false), Advance(0, 0.0, false), Advance(0, 0.0, false),
      Advance(0, 100.0, false), Enter(1, false, 100.0), Advance(1, 0.0, false), Advance(1, 0.0, false) ]
  }

  lemma {:induction false} ReplayFrom(s: State, acts: seq<Action>, n: nat, ttl: real, order: Order)
    requires n < |acts|
    ensures Run(s, acts[..n + 1], ttl, order) == Step(Run(s, acts[..n], ttl, order), acts[n], ttl, order)
  {
    assert acts[..n + 1][..n] == acts[..n];
  }

  /** After five steps the first thread has stamped the cache but not yet written the value. */
  lemma Stamped(ttl: real)
    requires ttl > 0.0
    ensures Run(Start(2), Racing()[..5], ttl, StampFirst) == State([Stamping(1), Idle], 0, 100.0, 1, Some(0), 1, [])
  {
    var acts, s0 := Racing(), Start(2);
    assert Run(s0, acts[..0], ttl, StampFirst) == s0;
    var s1 := Step(s0, acts[0], ttl, StampFirst);
    var s2 := Step(s1, acts[1], ttl, StampFirst);
    var s3 := Step(s2, acts[2], ttl, StampFirst);
    assert s1 == State([Checking(true, 0.0), Idle], 0, 0.0, 0, None, 0, []);
    assert s2 == State([Acquiring, Idle], 0, 0.0, 0, None, 0, []);
    assert s3 == State([Probing(1), Idle], 0, 0.0, 0, Some(0), 1, []);
    var s4 := Step(s3, acts[3], ttl, StampFirst);
    assert s4 == State([Writing(1), Idle], 0, 0.0, 0, Some(0), 1, []);
    assert Step(s4, acts[4], ttl, StampFirst) == State([Stamping(1), Idle], 0, 100.0, 1, Some(0), 1, []);
    hide Step, Run;
    ReplayFrom(s0, acts, 0, ttl, StampFirst);
    ReplayFrom(s0, acts, 1, ttl, StampFirst);
    ReplayFrom(s0, acts, 2, ttl, StampFirst);
    ReplayFrom(s0, acts, 3, ttl, StampFirst);
    ReplayFrom(s0, acts, 4, ttl, StampFirst);
  }

  lemma StampFirstServesStale(ttl: real)
    requires ttl > 0.0
    ensures Run(Start(2), Racing(), ttl, StampFirst).log == [Served(Fast(1, false, 0.0), 0)]
  {
    var acts := Racing();
    Stamped(ttl);
    var s5 := State([Stamping(1), Idle], 0, 100.0, 1, Some(0), 1, []);
    var s6 := Step(s5, acts[5], ttl, StampFirst);
    var s7 := Step(s6, acts[6], ttl, StampFirst);
    assert Step(s7, acts[7], ttl, StampFirst).log == [Served(Fast(1, false, 0.0), 0)];
    hide Step, Run;
    ReplayFrom(Start(2), acts, 5, ttl, StampFirst);
    ReplayFrom(Start(2), acts, 6, ttl, StampFirst);
    ReplayFrom(Start(2), acts, 7, ttl, StampFirst);
    assert acts[..8] == acts;
  }

  /** The fast path keeps its word in every interleaving exactly because the value is written first. */
  lemma OrderMatters(ttl: real, order: Order)
    requires ttl > 0.0
    ensures (forall threads: nat, acts: seq<Action> :: FastServes(Run(Start(threads), acts, ttl, order)))
      <==> order == ValueFirst
  {
    hide Step, Run;
    if order == ValueFirst {
      forall threads: nat, acts: seq<Action> ensures FastServes(Run(Start(threads), acts, ttl, order)) {
        EveryInterleaving(threads, acts, ttl);
      }
    } else {
      StampFirstServesStale(ttl);
      var s := Run(Start(2), Racing(), ttl, StampFirst);
      assert s.log[0] == Served(Fast(1, false, 0.0), 0);
      assert !FastServes(s);
    }
  }
}
