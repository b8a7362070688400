/** Press-and-hold confirmation: what has to happen before a hold can complete. */
module HoldGesture {
  import opened Options

  const HOLD_MS := 1200.0
  const FRAME_CAP_MS := 100.0

  datatype Progress = Progress(lastMs: real, elapsedMs: real, progress: real, done: bool)

  function Min(a: real, b: real): real { if a < b then a else b }
  function Max(a: real, b: real): real { if a < b then b else a }

  /** What one frame adds: the time since the last one, never negative and never more than the cap. */
  function Credit(last: real, now: real): real { Max(0.0, Min(FRAME_CAP_MS, now - last)) }

  function AdvanceHold(st: Option<Progress>, now: real): Progress {
    var elapsed := if st.Some? then st.value.elapsedMs + Credit(st.value.lastMs, now) else 0.0;
    Progress(now, elapsed, Min(1.0, elapsed / HOLD_MS), elapsed >= HOLD_MS)
  }

  // ---- the hold object -----------------------------------------------------------------------------

  datatype Act = Start(t: real) | Frame(t: real) | Cancel

  /** The hold after one action; a finished or cancelled hold is absent. */
  function Step(st: Option<Progress>, a: Act): Option<Progress> {
    match a
    case Start(t) => Some(AdvanceHold(None, t))
    case Frame(t) => if st.Some? && !AdvanceHold(st, t).done then Some(AdvanceHold(st, t)) else None
    case Cancel => None
  }

  class Hold {
    var st: Option<Progress>

    constructor ()
      ensures st == None
    {
      st := None;
    }

    method Start(t: real) returns (r: Progress)
      modifies this
      ensures st == Step(old(st), Act.Start(t)) && Some(r) == st && r.elapsedMs == 0.0
    {
      st := Some(AdvanceHold(None, t));
      r := st.value;
    }

    method Frame(t: real) returns (r: Option<Progress>)
      modifies this
      ensures st == Step(old(st), Act.Frame(t))
      ensures r.Some? <==> old(st).Some?
      ensures r.Some? ==> r.value == AdvanceHold(old(st), t) && (r.value.done <==> st.None?)
    {
      if st.None? {
        return None;
      }
      st := Some(AdvanceHold(st, t));
      r := st;
      if st.value.done {
        st := None;
      }
    }

    method Cancel() returns (was: bool)
      modifies this
      ensures st == Step(old(st), Act.Cancel) && was == old(st).Some?
    {
      was := st.Some?;
      st := None;
    }

    method Active() returns (b: bool)
      ensures b == st.Some?
    {
      b := st.Some?;
    }
  }

  // ---- runs ----------------------------------------------------------------------------------------

  /** The hold after any sequence of actions on a new object. */
  function After(acts: seq<Act>): Option<Progress> {
    if acts == [] then None else Step(After(acts[..|acts| - 1]), acts[|acts| - 1])
  }

  /** The action at `j` is a frame that completes the hold. */
  predicate Completes(acts: seq<Act>, j: nat)
    requires j < |acts|
  {
    acts[j].Frame? && After(acts[..j]).Some? && AdvanceHold(After(acts[..j]), acts[j].t).done
  }

  /** A press at `i` followed by frames only, up to but not including `n`. */
  ghost predicate PressedFrom(acts: seq<Act>, i: nat, n: nat) {
    i < n <= |acts| && acts[i].Start? && forall k | i < k < n :: acts[k].Frame?
  }

  /** The observed frame time from the press at `i` to the action at `j`. */
  ghost function Observed(acts: seq<Act>, i: nat, j: nat): real
    requires PressedFrom(acts, i, j + 1)
    decreases j
  {
    if j == i then 0.0 else Observed(acts, i, j - 1) + Credit(acts[j - 1].t, acts[j].t)
  }

  lemma AfterPrefix(acts: seq<Act>, n: nat)
    requires n < |acts|
    ensures After(acts[..n + 1]) == Step(After(acts[..n]), acts[n])
  {
    assert acts[..n + 1][..n] == acts[..n];
  }

  /** An active hold goes back to one press, with only frames since, none of which completed it; its elapsed time
      is the observed frame time. */
  lemma {:induction false} ActiveSince(acts: seq<Act>, n: nat) returns (i: nat)
    requires n <= |acts| && After(acts[..n]).Some?
    ensures PressedFrom(acts, i, n)
    ensures After(acts[..n]).value.elapsedMs == Observed(acts, i, n - 1) < 1200.0
    ensures After(acts[..n]).value.lastMs == acts[n - 1].t
    ensures forall k | i < k < n :: !Completes(acts, k)
  {
    AfterPrefix(acts, n - 1);
    if acts[n - 1].Start? {
      i := n - 1;
    } else {
      i := ActiveSince(acts, n - 1);
    }
  }

  lemma {:induction false} ObservedBounds(acts: seq<Act>, i: nat, j: nat)
    requires PressedFrom(acts, i, j + 1)
    ensures 0.0 <= Observed(acts, i, j) <= 100.0 * (j - i) as real
    ensures (forall k | i < k <= j :: acts[k - 1].t <= acts[k].t) ==> Observed(acts, i, j) <= acts[j].t - acts[i].t
    decreases j
  {
    if j > i { ObservedBounds(acts, i, j - 1); }
  }

  /** A completed hold was pressed once, at `i`, and since then saw nothing but frames, at least twelve of them,
      and, if the clock did not go back, at least 1200 ms; no earlier frame of that press completed it. */
  lemma CompletionNeedsAHold(acts: seq<Act>, j: nat) returns (i: nat)
    requires j < |acts| && Completes(acts, j)
    ensures PressedFrom(acts, i, j + 1)
    ensures j - i >= 12
    ensures (forall k | i < k <= j :: acts[k - 1].t <= acts[k].t) ==> acts[j].t - acts[i].t >= 1200.0
    ensures forall k | i < k < j :: !Completes(acts, k)
  {
    i := ActiveSince(acts, j);
    assert Observed(acts, i, j) >= 1200.0;
    ObservedBounds(acts, i, j);
  }

  /** While only frames follow a press, the frame at `j` completes it exactly when it is the first to bring the
      observed frame time to 1200 ms. */
  lemma {:induction false} CompletesExactlyWhen(acts: seq<Act>, i: nat, j: nat)
    requires i < j < |acts| && PressedFrom(acts, i, j + 1)
    ensures Completes(acts, j) <==> Observed(acts, i, j - 1) < 1200.0 <= Observed(acts, i, j)
    ensures Observed(acts, i, j) < 1200.0 ==> After(acts[..j + 1]).Some?
    ensures Observed(acts, i, j) < 1200.0 ==>
              After(acts[..j + 1]).value.elapsedMs == Observed(acts, i, j) && After(acts[..j + 1]).value.lastMs == acts[j].t
    ensures Observed(acts, i, j) >= 1200.0 ==> After(acts[..j + 1]).None?
    decreases j
  {
    AfterPrefix(acts, j);
    AfterPrefix(acts, j - 1);
    if j - 1 > i { CompletesExactlyWhen(acts, i, j - 1); }
  }

  /** Two completions belong to two presses: between them there is another start. */
  lemma OneCompletionPerPress(acts: seq<Act>, j: nat, k: nat)
    requires j < k < |acts| && Completes(acts, j) && Completes(acts, k)
    ensures exists i :: j < i < k && acts[i].Start?
  {
    var i := CompletionNeedsAHold(acts, k);
    assert j < i;
  }

  /** After a cancel nothing completes before a new press. */
  lemma NoCompletionAfterCancel(acts: seq<Act>, c: nat, k: nat)
    requires c < k < |acts| && acts[c].Cancel? && Completes(acts, k)
    ensures exists i :: c < i < k && acts[i].Start?
  {
    var i := CompletionNeedsAHold(acts, k);
    assert i > c;
  }

  /** One frame in numbers: it adds the time since the last one, none if the clock went back and at most 100 ms; the
      shown progress is the part of 1200 ms observed, at most 1. */
  lemma FrameAdds(p: Progress, now: real)
    ensures var q := AdvanceHold(Some(p), now);
      && q.lastMs == now
      && (now <= p.lastMs ==> q.elapsedMs == p.elapsedMs)
      && (p.lastMs <= now <= p.lastMs + 100.0 ==> q.elapsedMs == p.elapsedMs + (now - p.lastMs))
      && (now >= p.lastMs + 100.0 ==> q.elapsedMs == p.elapsedMs + 100.0)
      && (q.done <==> q.elapsedMs >= 1200.0)
      && (q.done ==> q.progress == 1.0) && (!q.done ==> 1200.0 * q.progress == q.elapsedMs)
  {
  }
}
