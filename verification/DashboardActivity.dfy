/** Alert activity of the dashboard: two bucketings of the same rows, and the alert queues they must agree with. */
module DashboardActivity {
  import opened Options

  /** A normalised alert row; times are seconds since the epoch. */
  datatype Row = Row(ts: real, risk: int)

  datatype Band = Calm | Watch | Critical

  datatype Thresholds = Thresholds(critical: int, watch: int)

  function Max(a: int, b: int): int { if a < b then b else a }
  function Min(a: int, b: int): int { if a < b then a else b }

  /** The configured thresholds, forced into 0 <= watch <= critical <= 100. */
  function Clamped(critical: int, watch: int): (t: Thresholds)
    ensures 0 <= t.watch <= t.critical <= 100
  {
    var c := Max(0, Min(100, critical));
    Thresholds(c, Max(0, Min(c, watch)))
  }

  function BandOf(risk: int, t: Thresholds): Band {
    if risk >= t.critical then Critical else if risk >= t.watch then Watch else Calm
  }

  // ---- buckets -------------------------------------------------------------------------------------

  datatype Counts = Counts(calm: nat, watch: nat, critical: nat) {
    function Of(b: Band): nat {
      match b
      case Calm => calm
      case Watch => watch
      case Critical => critical
    }

    function Add(b: Band): Counts {
      match b
      case Calm => this.(calm := calm + 1)
      case Watch => this.(watch := watch + 1)
      case Critical => this.(critical := critical + 1)
    }
  }

  /** A window cut into equal buckets, the newest last. */
  datatype View = View(window: nat, bucket: nat) {
    predicate Valid() { 0 < bucket && bucket <= window && window % bucket == 0 }

    function Count(): nat
      requires 0 < bucket
    {
      Max(1, window / bucket)
    }
  }

  const LAST_HOUR := View(3600, 120)
  const SIX_HOURS := View(21600, 1200)

  predicate InWindow(r: Row, now: real, v: View) {
    r.ts > 0.0 && 0.0 <= now - r.ts < v.window as real
  }

  /** The bucket a row is counted in, if any. */
  function Slot(r: Row, now: real, v: View): Option<nat>
    requires 0 < v.bucket
  {
    var index := v.Count() - 1 - ((now - r.ts) / v.bucket as real).Floor;
    if InWindow(r, now, v) && 0 <= index < v.Count() then Some(index) else None
  }

  predicate Counted(r: Row, now: real, v: View, i: nat, b: Band, t: Thresholds)
    requires 0 < v.bucket
  {
    Slot(r, now, v) == Some(i) && BandOf(r.risk, t) == b
  }

  /** How many rows fall in bucket `i` with band `b`. */
  function Tally(rows: seq<Row>, now: real, v: View, i: nat, b: Band, t: Thresholds): nat
    requires 0 < v.bucket
  {
    if rows == [] then 0
    else
      Tally(rows[..|rows| - 1], now, v, i, b, t) +
      (if Counted(rows[|rows| - 1], now, v, i, b, t) then 1 else 0)
  }

  /** How many rows are in the window at all, and how many of those are above the calm band. */
  function InWindowCount(rows: seq<Row>, now: real, v: View, t: Thresholds, signalsOnly: bool): nat {
    if rows == [] then 0
    else
      var r := rows[|rows| - 1];
      InWindowCount(rows[..|rows| - 1], now, v, t, signalsOnly) +
      (if InWindow(r, now, v) && (!signalsOnly || BandOf(r.risk, t) != Calm) then 1 else 0)
  }

  // ---- indices stay in range -----------------------------------------------------------------------

  lemma FloorBounds(age: real, v: View)
    requires v.Valid() && 0.0 <= age < v.window as real
    ensures 0 <= (age / v.bucket as real).Floor < v.window / v.bucket
  {
    var q := (age / v.bucket as real).Floor;
    var n := v.window / v.bucket;
    assert n * v.bucket == v.window;
    assert q as real <= age / v.bucket as real;
    assert q as real * v.bucket as real <= age;
    assert q as real * v.bucket as real == (q * v.bucket) as real;
    assert q * v.bucket < n * v.bucket;
    assert age / v.bucket as real >= 0.0;
  }

  /** A row inside the window always has a bucket: the code's second range check never rejects one. */
  lemma EveryRowHasASlot(r: Row, now: real, v: View)
    requires v.Valid()
    ensures Slot(r, now, v).Some? <==> InWindow(r, now, v)
  {
    if InWindow(r, now, v) { FloorBounds(now - r.ts, v); }
  }

  // ---- sums over buckets ---------------------------------------------------------------------------

  /** The rows of band `b` in the `n` buckets from `lo` on. */
  function TallyRange(rows: seq<Row>, now: real, v: View, lo: nat, n: nat, b: Band, t: Thresholds): nat
    requires 0 < v.bucket
  {
    if n == 0 then 0
    else TallyRange(rows, now, v, lo, n - 1, b, t) + Tally(rows, now, v, lo + n - 1, b, t)
  }

  predicate InRange(r: Row, now: real, v: View, lo: nat, n: nat, b: Band, t: Thresholds)
    requires 0 < v.bucket
  {
    var s := Slot(r, now, v);
    s.Some? && lo <= s.value < lo + n && BandOf(r.risk, t) == b
  }

  lemma {:induction false} RangeEmpty(now: real, v: View, lo: nat, n: nat, b: Band, t: Thresholds)
    requires 0 < v.bucket
    ensures TallyRange([], now, v, lo, n, b, t) == 0
  {
    if n > 0 { RangeEmpty(now, v, lo, n - 1, b, t); }
  }

  lemma {:induction false} RangeStep(rows: seq<Row>, r: Row, now: real, v: View, lo: nat, n: nat, b: Band, t: Thresholds)
    requires 0 < v.bucket
    ensures TallyRange(rows + [r], now, v, lo, n, b, t) ==
            TallyRange(rows, now, v, lo, n, b, t) + (if InRange(r, now, v, lo, n, b, t) then 1 else 0)
    decreases n
  {
    hide Slot;
    if n > 0 {
      RangeStep(rows, r, now, v, lo, n - 1, b, t);
      assert (rows + [r])[..|rows|] == rows;
    }
  }

  // ---- the two views agree -------------------------------------------------------------------------

  lemma FloorOfFloor(age: real)
    requires 0.0 <= age
    ensures (age / 1200.0).Floor == (age / 120.0).Floor / 10
  {
    var q := (age / 120.0).Floor;
    var d := q / 10;
    assert 10 * d <= q <= 10 * d + 9;
    assert d as real <= age / 1200.0 < d as real + 1.0;
  }

  /** A row of a six-hour bucket of the last hour is in one of its ten two-minute buckets, and the other way round. */
  lemma SameRows(r: Row, now: real, j: nat, b: Band, t: Thresholds)
    requires 15 <= j < 18
    ensures Counted(r, now, SIX_HOURS, j, b, t) <==> InRange(r, now, LAST_HOUR, 10 * (j - 15), 10, b, t)
  {
    var age := now - r.ts;
    if r.ts > 0.0 && 0.0 <= age {
      FloorOfFloor(age);
      EveryRowHasASlot(r, now, LAST_HOUR);
      EveryRowHasASlot(r, now, SIX_HOURS);
      assert age / SIX_HOURS.bucket as real == age / 1200.0 && age / LAST_HOUR.bucket as real == age / 120.0;
    }
  }

  /** Re-bucketing: each 20-minute bucket of the last hour is, band by band, the sum of its ten 2-minute buckets. */
  lemma {:induction false} Rebucketing(rows: seq<Row>, now: real, j: nat, b: Band, t: Thresholds)
    requires 15 <= j < 18
    ensures Tally(rows, now, SIX_HOURS, j, b, t) == TallyRange(rows, now, LAST_HOUR, 10 * (j - 15), 10, b, t)
    decreases |rows|
  {
    hide Slot, TallyRange;
    if rows == [] {
      RangeEmpty(now, LAST_HOUR, 10 * (j - 15), 10, b, t);
    } else {
      var init, r := rows[..|rows| - 1], rows[|rows| - 1];
      Rebucketing(init, now, j, b, t);
      RangeStep(init, r, now, LAST_HOUR, 10 * (j - 15), 10, b, t);
      assert init + [r] == rows;
      SameRows(r, now, j, b, t);
    }
  }

  /** Nothing is lost: all buckets together hold exactly the rows in the window, and the bands above calm exactly
      the signals. */
  lemma {:induction false} BucketsHoldTheWindow(rows: seq<Row>, now: real, v: View, t: Thresholds)
    requires v.Valid()
    ensures TallyRange(rows, now, v, 0, v.Count(), Watch, t) + TallyRange(rows, now, v, 0, v.Count(), Critical, t) ==
            InWindowCount(rows, now, v, t, true)
    ensures TallyRange(rows, now, v, 0, v.Count(), Calm, t) + InWindowCount(rows, now, v, t, true) ==
            InWindowCount(rows, now, v, t, false)
    decreases |rows|
  {
    hide TallyRange;
    if rows == [] {
      RangeEmpty(now, v, 0, v.Count(), Calm, t);
      RangeEmpty(now, v, 0, v.Count(), Watch, t);
      RangeEmpty(now, v, 0, v.Count(), Critical, t);
    } else {
      var init, r := rows[..|rows| - 1], rows[|rows| - 1];
      BucketsHoldTheWindow(init, now, v, t);
      EveryRowHasASlot(r, now, v);
      RangeStep(init, r, now, v, 0, v.Count(), Calm, t);
      RangeStep(init, r, now, v, 0, v.Count(), Watch, t);
      RangeStep(init, r, now, v, 0, v.Count(), Critical, t);
      assert init + [r] == rows;
    }
  }

  // ---- the code ------------------------------------------------------------------------------------

  ghost predicate Holds(buckets: seq<Counts>, rows: seq<Row>, now: real, v: View, t: Thresholds)
    requires 0 < v.bucket
  {
    && |buckets| == v.Count()
    && forall i, b | 0 <= i < |buckets| :: buckets[i].Of(b) == Tally(rows, now, v, i, b, t)
  }

  method Build(rows: seq<Row>, now: real, v: View, t: Thresholds) returns (buckets: seq<Counts>, events: nat, signals: nat)
    requires v.Valid()
    ensures Holds(buckets, rows, now, v, t)
    ensures events == InWindowCount(rows, now, v, t, false) && signals == InWindowCount(rows, now, v, t, true)
  {
    buckets := seq(v.Count(), _ => Counts(0, 0, 0));
    events, signals := 0, 0;
    for k := 0 to |rows|
      invariant Holds(buckets, rows[..k], now, v, t)
      invariant events == InWindowCount(rows[..k], now, v, t, false)
      invariant signals == InWindowCount(rows[..k], now, v, t, true)
    {
      assert rows[..k + 1][..k] == rows[..k];
      var r := rows[k];
      EveryRowHasASlot(r, now, v);
      var age := now - r.ts;
      if r.ts > 0.0 && 0.0 <= age < v.window as real {
        var idx := v.Count() - 1 - (age / v.bucket as real).Floor;
        var band := BandOf(r.risk, t);
        buckets := buckets[idx := buckets[idx].Add(band)];
        events := events + 1;
        if band != Calm {
          signals := signals + 1;
        }
      }
    }
    assert rows[..|rows|] == rows;
  }

  function SumOf(buckets: seq<Counts>, b: Band): nat {
    if buckets == [] then 0 else SumOf(buckets[..|buckets| - 1], b) + buckets[|buckets| - 1].Of(b)
  }

  lemma {:induction false} SumIsRange(buckets: seq<Counts>, rows: seq<Row>, now: real, v: View, t: Thresholds, lo: nat, n: nat, b: Band)
    requires v.Valid() && Holds(buckets, rows, now, v, t) && lo + n <= |buckets|
    ensures SumOf(buckets[lo..lo + n], b) == TallyRange(rows, now, v, lo, n, b, t)
    decreases n
  {
    if n > 0 {
      SumIsRange(buckets, rows, now, v, t, lo, n - 1, b);
      assert buckets[lo..lo + n][..n - 1] == buckets[lo..lo + n - 1];
    }
  }

  datatype Activity = Activity(buckets: seq<Counts>, events: nat, signals: nat)

  /** Both strips of the dashboard, with the agreement between them stated on the numbers they show. */
  method ActivityPayload(rows: seq<Row>, now: real, critical: int, watch: int)
    returns (h1: Activity, h6: Activity, t: Thresholds)
    ensures t == Clamped(critical, watch)
    ensures |h1.buckets| == 30 && |h6.buckets| == 18
    ensures forall j, b | 15 <= j < 18 :: h6.buckets[j].Of(b) == SumOf(h1.buckets[10 * (j - 15)..10 * (j - 15) + 10], b)
    ensures forall h | h in [h1, h6] ::
              && h.signals == SumOf(h.buckets, Watch) + SumOf(h.buckets, Critical)
              && h.events == SumOf(h.buckets, Calm) + h.signals
  {
    hide Slot;
    t := Clamped(critical, watch);
    var b1, e1, s1 := Build(rows, now, LAST_HOUR, t);
    var b6, e6, s6 := Build(rows, now, SIX_HOURS, t);
    h1, h6 := Activity(b1, e1, s1), Activity(b6, e6, s6);
    Totals(b1, rows, now, LAST_HOUR, t);
    Totals(b6, rows, now, SIX_HOURS, t);
    forall j, b | 15 <= j < 18 ensures b6[j].Of(b) == SumOf(b1[10 * (j - 15)..10 * (j - 15) + 10], b) {
      Rebucketing(rows, now, j, b, t);
      SumIsRange(b1, rows, now, LAST_HOUR, t, 10 * (j - 15), 10, b);
    }
  }

  lemma Totals(buckets: seq<Counts>, rows: seq<Row>, now: real, v: View, t: Thresholds)
    requires v.Valid() && Holds(buckets, rows, now, v, t)
    ensures SumOf(buckets, Watch) + SumOf(buckets, Critical) == InWindowCount(rows, now, v, t, true)
    ensures SumOf(buckets, Calm) + InWindowCount(rows, now, v, t, true) == InWindowCount(rows, now, v, t, false)
  {
    assert buckets[0..|buckets|] == buckets;
    SumIsRange(buckets, rows, now, v, t, 0, |buckets|, Calm);
    SumIsRange(buckets, rows, now, v, t, 0, |buckets|, Watch);
    SumIsRange(buckets, rows, now, v, t, 0, |buckets|, Critical);
    BucketsHoldTheWindow(rows, now, v, t);
  }

  // ---- the alert queues ----------------------------------------------------------------------------

  /** The rows of one band, in order. */
  function OfBand(rows: seq<Row>, b: Band, t: Thresholds): seq<Row> {
    if rows == [] then []
    else
      var init := OfBand(rows[..|rows| - 1], b, t);
      if BandOf(rows[|rows| - 1].risk, t) == b then init + [rows[|rows| - 1]] else init
  }

  /** The now, watch and backlog queues hold exactly the rows of the critical, watch and calm bands, in order. */
  method AlertQueues(rows: seq<Row>, t: Thresholds) returns (urgent: seq<Row>, watch: seq<Row>, backlog: seq<Row>)
    ensures urgent == OfBand(rows, Critical, t) && watch == OfBand(rows, Watch, t) && backlog == OfBand(rows, Calm, t)
  {
    urgent, watch, backlog := [], [], [];
    for k := 0 to |rows|
      invariant urgent == OfBand(rows[..k], Critical, t)
      invariant watch == OfBand(rows[..k], Watch, t)
      invariant backlog == OfBand(rows[..k], Calm, t)
    {
      assert rows[..k + 1][..k] == rows[..k];
      if rows[k].risk >= t.critical {
        urgent := urgent + [rows[k]];
      } else if rows[k].risk >= t.watch {
        watch := watch + [rows[k]];
      } else {
        backlog := backlog + [rows[k]];
      }
    }
    assert rows[..|rows|] == rows;
  }

  /** The strips and the queues classify alike: when every row is in the window, each queue has as many rows as
      its band has in all the buckets together; otherwise the strip shows the part of it that is in the window. */
  lemma {:induction false} QueuesMatchBands(rows: seq<Row>, now: real, v: View, b: Band, t: Thresholds)
    requires v.Valid()
    ensures TallyRange(rows, now, v, 0, v.Count(), b, t) <= |OfBand(rows, b, t)|
    ensures TallyRange(rows, now, v, 0, v.Count(), b, t) == |OfBand(rows, b, t)| <==>
              forall r | r in OfBand(rows, b, t) :: InWindow(r, now, v)
    decreases |rows|
  {
    hide TallyRange, Slot;
    if rows == [] {
      RangeEmpty(now, v, 0, v.Count(), b, t);
    } else {
      var init, r := rows[..|rows| - 1], rows[|rows| - 1];
      QueuesMatchBands(init, now, v, b, t);
      EveryRowHasASlot(r, now, v);
      RangeStep(init, r, now, v, 0, v.Count(), b, t);
      SlotInRange(r, now, v);
      assert init + [r] == rows;
      if BandOf(r.risk, t) == b {
        assert forall x :: x in OfBand(rows, b, t) <==> x in OfBand(init, b, t) || x == r;
      }
    }
  }

  lemma SlotInRange(r: Row, now: real, v: View)
    requires 0 < v.bucket
    ensures Slot(r, now, v).Some? ==> Slot(r, now, v).value < v.Count()
  {
  }

  // ---- thresholds, bands and buckets in numbers ----------------------------------------------------

  /** The critical threshold is the configured one, brought into 0..100; the watch threshold the configured one, brought
      into 0..critical. A risk at or above critical is critical, below watch calm, and watch in between. */
  lemma BandsMean(critical: int, watch: int, risk: int)
    ensures var t := Clamped(critical, watch);
      && (0 <= critical <= 100 ==> t.critical == critical)
      && (critical < 0 ==> t.critical == 0) && (critical > 100 ==> t.critical == 100)
      && (0 <= watch <= t.critical ==> t.watch == watch)
      && (watch < 0 ==> t.watch == 0) && (watch > t.critical ==> t.watch == t.critical)
      && (BandOf(risk, t) == Critical <==> t.critical <= risk)
      && (BandOf(risk, t) == Watch <==> t.watch <= risk < t.critical)
      && (BandOf(risk, t) == Calm <==> risk < t.watch)
  {
  }

  /** The buckets by age: the last of thirty holds the latest two minutes, and so on back to an hour; the last of eighteen
      the latest twenty minutes, and so on back to six hours. */
  lemma BucketsByAge(r: Row, now: real, i: nat)
    ensures Slot(r, now, LAST_HOUR) == Some(i) <==>
      i < 30 && r.ts > 0.0 && (120 * (29 - i)) as real <= now - r.ts < (120 * (30 - i)) as real
    ensures Slot(r, now, SIX_HOURS) == Some(i) <==>
      i < 18 && r.ts > 0.0 && (1200 * (17 - i)) as real <= now - r.ts < (1200 * (18 - i)) as real
  {
    var age := now - r.ts;
    FloorIs(age, 120, 29 - i);
    FloorIs(age, 1200, 17 - i);
    assert LAST_HOUR.Count() == 30 && SIX_HOURS.Count() == 18;
  }

  lemma FloorIs(age: real, width: int, k: int)
    requires width == 120 || width == 1200
    ensures (age / width as real).Floor == k <==> (width * k) as real <= age < (width * (k + 1)) as real
  {
  }

  /** A queue holds the rows of its band as often as they are listed. */
  lemma {:induction false} QueueHolds(rows: seq<Row>, b: Band, t: Thresholds, x: Row)
    ensures multiset(OfBand(rows, b, t))[x] == if BandOf(x.risk, t) == b then multiset(rows)[x] else 0
  {
    if rows != [] {
      QueueHolds(rows[..|rows| - 1], b, t, x);
      assert rows == rows[..|rows| - 1] + [rows[|rows| - 1]];
    }
  }
}
