/** The bridge's bounded queue: one producer that drops the oldest item when the queue stays full, one consumer,
    interleaved at every queue operation. */
module DropOldestQueue {
  import Json

  /** An event of the bridge. */
  type Item = Json.Json

  /** Where the producer is in `_queue_put_drop_oldest`. */
  datatype Pc = Ready | Putting(item: Item) | Evicting(item: Item) | Retrying(item: Item)
  {
    function InFlight(): seq<Item> { if Ready? then [] else [item] }
  }

  /** `evicted` left through the producer's drop, `abandoned` never entered the queue. */
  datatype State = State(
    queue: seq<Item>, pc: Pc, offered: seq<Item>, delivered: seq<Item>, evicted: seq<Item>, abandoned: seq<Item>)

  /** `TimeOut` is the timed put giving up; the other producer steps are one queue operation each. */
  datatype Action = Offer(item: Item) | Put | TimeOut | Evict | Retry | Consume

  function Start(): State { State([], Ready, [], [], [], []) }

  predicate Enabled(s: State, a: Action, bound: nat) {
    match a
    case Offer(_) => s.pc.Ready?
    case Put => s.pc.Putting? && |s.queue| < bound
    case TimeOut => s.pc.Putting? && |s.queue| >= bound
    case Evict => s.pc.Evicting?
    case Retry => s.pc.Retrying?
    case Consume => s.queue != []
  }

  function Step(s: State, a: Action, bound: nat): State
    requires Enabled(s, a, bound)
  {
    match a
    case Offer(item) => s.(pc := Putting(item), offered := s.offered + [item])
    case Put => s.(pc := Ready, queue := s.queue + [s.pc.item])
    case TimeOut => s.(pc := Evicting(s.pc.item))
    case Evict =>
      if s.queue == [] then s.(pc := Ready, abandoned := s.abandoned + [s.pc.item])
      else s.(pc := Retrying(s.pc.item), queue := s.queue[1..], evicted := s.evicted + [s.queue[0]])
    case Retry =>
      if |s.queue| >= bound then s.(pc := Ready, abandoned := s.abandoned + [s.pc.item])
      else s.(pc := Ready, queue := s.queue + [s.pc.item])
    case Consume => s.(queue := s.queue[1..], delivered := s.delivered + [s.queue[0]])
  }

  /** A run takes only enabled steps. */
  predicate IsRun(run: seq<State>, acts: seq<Action>, bound: nat) {
    && |run| == |acts| + 1 && run[0] == Start()
    && forall i | 0 <= i < |acts| :: Enabled(run[i], acts[i], bound) && run[i + 1] == Step(run[i], acts[i], bound)
  }

  // ---- order ---------------------------------------------------------------------------------------

  /** `xs` is `ys` with some elements left out. */
  predicate Subsequence(xs: seq<Item>, ys: seq<Item>) {
    if xs == [] then true
    else if ys == [] then false
    else
      var x, y := xs[|xs| - 1], ys[|ys| - 1];
      || Subsequence(xs, ys[..|ys| - 1])
      || (x == y && Subsequence(xs[..|xs| - 1], ys[..|ys| - 1]))
  }

  lemma GrowBoth(xs: seq<Item>, ys: seq<Item>, z: Item)
    requires Subsequence(xs, ys)
    ensures Subsequence(xs + [z], ys + [z])
  {
    assert (xs + [z])[..|xs|] == xs && (ys + [z])[..|ys|] == ys;
  }

  lemma GrowRight(xs: seq<Item>, ys: seq<Item>, z: Item)
    requires Subsequence(xs, ys)
    ensures Subsequence(xs, ys + [z])
  {
    assert (ys + [z])[..|ys|] == ys;
  }

  lemma {:induction false} LeaveOut(xs: seq<Item>, i: nat, ys: seq<Item>)
    requires i < |xs| && Subsequence(xs, ys)
    ensures Subsequence(xs[..i] + xs[i + 1..], ys)
    decreases |ys|
  {
    var less := xs[..i] + xs[i + 1..];
    var n := |xs| - 1;
    var shorter := ys[..|ys| - 1];
    if Subsequence(xs, shorter) {
      LeaveOut(xs, i, shorter);
      GrowRight(less, shorter, ys[|ys| - 1]);
      assert shorter + [ys[|ys| - 1]] == ys;
    } else if i == n {
      assert less == xs[..n];
      GrowRight(less, shorter, ys[|ys| - 1]);
      assert shorter + [ys[|ys| - 1]] == ys;
    } else {
      LeaveOut(xs[..n], i, shorter);
      var front := xs[..n][..i] + xs[..n][i + 1..];
      assert less == front + [xs[n]];
      GrowBoth(front, shorter, xs[n]);
      assert shorter + [xs[n]] == ys;
    }
  }

  // ---- what every step keeps -----------------------------------------------------------------------

  /** What was delivered and what is queued are offered items in the order of offering, all offered before the one
      the producer still holds. */
  predicate InOrder(s: State) {
    var n := |s.offered| - |s.pc.InFlight()|;
    && n >= 0 && s.offered[n..] == s.pc.InFlight()
    && Subsequence(s.delivered + s.queue, s.offered[..n])
  }

  /** The bound holds, and strictly after an eviction: only the producer adds items. */
  predicate Bounded(s: State, bound: nat) {
    |s.queue| <= bound && (s.pc.Retrying? ==> |s.queue| < bound)
  }

  /** Everywhere an offered item can be. */
  function Places(s: State): multiset<Item> {
    multiset(s.delivered) + multiset(s.queue) + multiset(s.pc.InFlight()) + multiset(s.evicted) + multiset(s.abandoned)
  }

  /** Nothing is lost or made up: every offered item is in exactly one place. */
  predicate Conserved(s: State) { multiset(s.offered) == Places(s) }

  lemma StepKeepsBound(s: State, a: Action, bound: nat)
    requires Enabled(s, a, bound) && Bounded(s, bound)
    ensures Bounded(Step(s, a, bound), bound)
  {
  }

  lemma CountHead(s: seq<Item>, x: Item)
    requires s != []
    ensures Times(s, x) == Times(s[1..], x) + Times([s[0]], x)
  {
    assert s == [s[0]] + s[1..];
  }

  lemma CountAppend(s: seq<Item>, y: Item, x: Item)
    ensures Times(s + [y], x) == Times(s, x) + Times([y], x)
  {
  }

  /** How often `x` occurs in `s`. */
  function Times(s: seq<Item>, x: Item): nat { multiset(s)[x] }

  lemma PlacesAt(s: State, x: Item)
    ensures Places(s)[x] == Times(s.delivered, x) + Times(s.queue, x) + Times(s.pc.InFlight(), x)
      + Times(s.evicted, x) + Times(s.abandoned, x)
  {
  }

  lemma PlacesStep(s: State, a: Action, bound: nat, x: Item)
    requires Enabled(s, a, bound)
    ensures Places(Step(s, a, bound))[x] == Places(s)[x] + Times(Offered(a), x)
  {
    hide Places, Times;
    PlacesAt(s, x);
    PlacesAt(Step(s, a, bound), x);
    CountNone(x);
    match a
    case Offer(item) =>
    case Put => CountAppend(s.queue, s.pc.item, x);
    case TimeOut =>
    case Evict =>
      if s.queue == [] {
        CountAppend(s.abandoned, s.pc.item, x);
      } else {
        CountHead(s.queue, x);
        CountAppend(s.evicted, s.queue[0], x);
      }
    case Retry =>
      CountAppend(s.queue, s.pc.item, x);
      CountAppend(s.abandoned, s.pc.item, x);
    case Consume =>
      CountHead(s.queue, x);
      CountAppend(s.delivered, s.queue[0], x);
  }

  lemma CountNone(x: Item)
    ensures Times([], x) == 0
  {
  }

  function Offered(a: Action): seq<Item> { if a.Offer? then [a.item] else [] }

  lemma OfferedStep(s: State, a: Action, bound: nat)
    requires Enabled(s, a, bound)
    ensures Step(s, a, bound).offered == s.offered + Offered(a)
  {
  }

  lemma StepConserves(s: State, a: Action, bound: nat)
    requires Enabled(s, a, bound) && Conserved(s)
    ensures Conserved(Step(s, a, bound))
  {
    hide Step, Places, Offered, Enabled;
    OfferedStep(s, a, bound);
    var was, more := multiset(s.offered), multiset(Offered(a));
    assert multiset(Step(s, a, bound).offered) == was + more;
    forall x ensures (was + more)[x] == Places(Step(s, a, bound))[x] { PlacesStep(s, a, bound, x); }
    assert was + more == Places(Step(s, a, bound));
  }

  lemma StepKeepsOrder(s: State, a: Action, bound: nat)
    requires Enabled(s, a, bound) && InOrder(s)
    ensures InOrder(Step(s, a, bound))
  {
    hide Subsequence;
    var r := Step(s, a, bound);
    var n := |s.offered| - |s.pc.InFlight()|;
    var sent, before := s.delivered + s.queue, s.offered[..n];
    assert !s.pc.Ready? ==> s.offered == before + [s.pc.item];
    match a
    case Offer(item) =>
      assert r.offered[..n] == before;
    case TimeOut =>
    case Put =>
      Entered(s, r);
    case Retry =>
      if r.abandoned == s.abandoned { Entered(s, r); } else { Left(s, r); }
    case Evict =>
      if s.queue == [] {
        Left(s, r);
      } else {
        LeaveOut(sent, |s.delivered|, before);
        assert sent[..|s.delivered|] + sent[|s.delivered| + 1..] == r.delivered + r.queue;
      }
    case Consume =>
      assert r.delivered + r.queue == sent;
  }

  lemma Entered(s: State, r: State)
    requires InOrder(s) && !s.pc.Ready? && r.pc.Ready? && r.offered == s.offered
    requires r.delivered == s.delivered && r.queue == s.queue + [s.pc.item]
    ensures InOrder(r)
  {
    hide Subsequence;
    var before := s.offered[..|s.offered| - 1];
    assert s.offered == before + s.offered[|s.offered| - 1..];
    assert r.offered[..|r.offered|] == before + [s.pc.item];
    GrowBoth(s.delivered + s.queue, before, s.pc.item);
    assert r.delivered + r.queue == s.delivered + s.queue + [s.pc.item];
  }

  lemma Left(s: State, r: State)
    requires InOrder(s) && !s.pc.Ready? && r.pc.Ready? && r.offered == s.offered
    requires r.delivered == s.delivered && r.queue == s.queue
    ensures InOrder(r)
  {
    hide Subsequence;
    var before := s.offered[..|s.offered| - 1];
    assert s.offered == before + s.offered[|s.offered| - 1..];
    assert r.offered[..|r.offered|] == before + [s.pc.item];
    GrowRight(s.delivered + s.queue, before, s.pc.item);
  }

  /** In every interleaving, at every moment: delivered and queued items are offered items in their order, the queue
      is within its bound, and every offered item is accounted for. */
  lemma {:induction false} EveryInterleaving(run: seq<State>, acts: seq<Action>, bound: nat, k: nat)
    requires IsRun(run, acts, bound) && k < |run|
    ensures InOrder(run[k]) && Bounded(run[k], bound) && Conserved(run[k])
  {
    if k > 0 {
      EveryInterleaving(run, acts, bound, k - 1);
      assert Enabled(run[k - 1], acts[k - 1], bound) && run[k - 1 + 1] == Step(run[k - 1], acts[k - 1], bound);
      hide InOrder, Bounded, Conserved, Step, IsRun;
      StepKeepsOrder(run[k - 1], acts[k - 1], bound);
      StepKeepsBound(run[k - 1], acts[k - 1], bound);
      StepConserves(run[k - 1], acts[k - 1], bound);
    }
  }

  /** The put after an eviction cannot fail, whatever the consumer does in between. */
  lemma RetryAlwaysEnters(run: seq<State>, acts: seq<Action>, bound: nat, k: nat)
    requires IsRun(run, acts, bound) && k < |acts| && acts[k] == Retry
    ensures run[k + 1].queue == run[k].queue + [run[k].pc.item] && run[k + 1].abandoned == run[k].abandoned
  {
    hide InOrder, Conserved;
    EveryInterleaving(run, acts, bound, k);
    assert Enabled(run[k], acts[k], bound) && run[k + 1] == Step(run[k], acts[k], bound);
  }

  /** A new item is lost exactly when the consumer emptied the queue between the failed put and the eviction. */
  lemma AbandonedExactlyWhenEmpty(run: seq<State>, acts: seq<Action>, bound: nat, k: nat)
    requires IsRun(run, acts, bound) && k < |acts|
    ensures run[k + 1].abandoned != run[k].abandoned <==> acts[k] == Evict && run[k].queue == []
  {
    hide InOrder, Conserved;
    EveryInterleaving(run, acts, bound, k);
    assert Enabled(run[k], acts[k], bound) && run[k + 1] == Step(run[k], acts[k], bound);
  }

  /** That race is real: with a bound of one, the second item is dropped and the queue is left empty. */
  lemma DroppedThoughEmpty(x: Item, y: Item) returns (run: seq<State>, acts: seq<Action>)
    ensures IsRun(run, acts, 1)
    ensures var s := run[|run| - 1]; s.queue == [] && s.pc.Ready? && s.delivered == [x] && s.abandoned == [y]
  {
    acts := [Offer(x), Put, Offer(y), TimeOut, Consume, Evict];
    var s0 := Start();
    var s1 := Step(s0, acts[0], 1);
    var s2 := Step(s1, acts[1], 1);
    var s3 := Step(s2, acts[2], 1);
    var s4 := Step(s3, acts[3], 1);
    var s5 := Step(s4, acts[4], 1);
    run := [s0, s1, s2, s3, s4, s5, Step(s5, acts[5], 1)];
  }

  // ---- without a consumer in between ---------------------------------------------------------------

  function LastN(s: seq<Item>, n: nat): seq<Item> { if |s| > n then s[|s| - n..] else s }

  /** The producer's whole call, no consumer step in between. */
  function PutDropOldest(s: State, item: Item, bound: nat): State
    requires s.pc.Ready?
  {
    var s1 := Step(s, Offer(item), bound);
    if |s1.queue| < bound then Step(s1, Put, bound)
    else
      var s2 := Step(Step(s1, TimeOut, bound), Evict, bound);
      if s2.pc.Ready? then s2 else Step(s2, Retry, bound)
  }

  /** An undisturbed call leaves the newest `bound` of the queued items and the new one. */
  lemma UndisturbedKeepsTheNewest(s: State, item: Item, bound: nat)
    requires s.pc.Ready? && 1 <= bound && |s.queue| <= bound
    ensures var r := PutDropOldest(s, item, bound);
      r.queue == LastN(s.queue + [item], bound) && r.pc.Ready? && r.abandoned == s.abandoned
  {
    if |s.queue| == bound { assert s.queue[1..] + [item] == (s.queue + [item])[1..]; }
  }
}
