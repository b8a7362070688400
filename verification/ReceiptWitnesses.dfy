/** Concrete envelopes on which two plausible guarantees fail: the projection does not return for every JSON input,
    and a displayed envelope is not always a fixed point of the display. */
module ReceiptWitnesses {
  import opened Options
  import opened Json
  import opened ReceiptProjection
  import opened ReceiptTheorems
  import opened ReceiptStability

  const EVENT := "a1b2c3d4e5f60718293a4b5c"

  function SampleEdge(): Fields {
    map[Action := Str("notify"), Mode := Str("dry_run"), ResultKey := Str("applied"), TraceId := Str("e")]
  }

  function SampleAdvisory(): Fields { map[TraceId := Str("m"), FrameId := Str("f")] }

  function SampleBinding(generation: string): Fields {
    map[Status := Str("matched"), Valid := Bool(true), Generation := Str(generation), EventKey := Str(EVENT),
        EdgeTraceId := Str("e"), EdgeAction := Str("notify"), EdgeMode := Str("dry_run"), EdgeResult := Str("applied"),
        MioTraceId := Str("m"), FrameId := Str("f")]
  }

  /** A current, producer-bound envelope with a free generation, model analysis and receipt. */
  function Sample(generation: string, model: Fields, receipt: Json): Fields {
    map[Status := Str("complete"), IsCurrent := Bool(true), Generation := Str(generation),
        CompletedAt := Str("c"), MaxAgeSeconds := Int(10), TraceId := Str("e"),
        SourceContext := Obj(map[EventKey := Str(EVENT)]), Advisory := Obj(SampleAdvisory()),
        EdgeEvent := Obj(SampleEdge()), HandoffBinding := Obj(SampleBinding(generation)), ModelAnalysis := Obj(model),
        KnowledgeAnalysis := receipt]
  }

  const NOON := Clocks(101.0, 101000, (s: string) => Some(100.0))

  lemma SampleWords()
    ensures Listed(EdgeActions, "notify") && Listed(EdgeModes, "dry_run") && Listed(EdgeResults, "applied")
    ensures FullMatch(Identifier, "e")
  {
  }

  lemma SampleParts(generation: string, model: Fields, receipt: Json)
    ensures var p := Sample(generation, model, receipt);
            && Get(p, Status) == Str("complete") && Get(p, Generation) == Str(generation) && Get(p, TraceId) == Str("e")
            && Get(p, SourceContext) == Obj(map[EventKey := Str(EVENT)]) && Get(p, Advisory) == Obj(SampleAdvisory())
            && Get(p, EdgeEvent) == Obj(SampleEdge()) && Get(p, HandoffBinding) == Obj(SampleBinding(generation))
            && Get(p, ModelAnalysis) == Obj(model) && Get(p, KnowledgeAnalysis) == receipt
  {
  }

  lemma PartsOfParts(generation: string)
    ensures var b := SampleBinding(generation);
            && Get(b, Status) == Str("matched") && Get(b, Valid) == Bool(true) && Get(b, Generation) == Str(generation)
            && Get(b, EventKey) == Str(EVENT) && Get(b, EdgeTraceId) == Str("e") && Get(b, EdgeAction) == Str("notify")
            && Get(b, EdgeMode) == Str("dry_run") && Get(b, EdgeResult) == Str("applied")
            && Get(b, MioTraceId) == Str("m") && Get(b, FrameId) == Str("f")
    ensures Get(SampleEdge(), Action) == Str("notify") && Get(SampleEdge(), Mode) == Str("dry_run")
    ensures Get(SampleEdge(), ResultKey) == Str("applied") && Get(SampleEdge(), TraceId) == Str("e")
    ensures Get(SampleAdvisory(), TraceId) == Str("m") && Get(SampleAdvisory(), FrameId) == Str("f")
    ensures Get(map[EventKey := Str(EVENT)], EventKey) == Str(EVENT)
  {
  }

  lemma SampleIsBound(generation: string, model: Fields, receipt: Json)
    ensures ProducerBound(Sample(generation, model, receipt))
  {
    hide Listed, FullMatch, PyEq, Sample, SampleBinding, SampleEdge, SampleAdvisory, Get;
    SampleWords();
    SampleParts(generation, model, receipt);
    PartsOfParts(generation);
    PyEqText(Str(generation), Str(generation)); PyEqText(Str(EVENT), Str(EVENT)); PyEqText(Str("e"), Str("e"));
    PyEqText(Str("notify"), Str("notify")); PyEqText(Str("dry_run"), Str("dry_run"));
    PyEqText(Str("applied"), Str("applied")); PyEqText(Str("m"), Str("m")); PyEqText(Str("f"), Str("f"));
    assert Truthy(Str(EVENT));
  }

  lemma SampleIsCurrent(generation: string, model: Fields, receipt: Json)
    ensures FastCurrent(Sample(generation, model, receipt), NOON)
  {
    hide ProducerBound;
    SampleIsBound(generation, model, receipt);
  }

  /** A current envelope whose model status is a list makes the projection raise instead of answer: the status
      test looks the value up in a set, and a list cannot be hashed. */
  lemma ListStatusRaises()
    ensures OperatorView(Obj(Sample("g", map[Status := List([])], Null)), NOON).Raised?
  {
    hide FastCurrent, DisplayedEnvelope;
    SampleIsCurrent("g", map[Status := List([])], Null);
  }

  /** The receipt of a completed, bound envelope offers a last report that expires 1000 * FLOAT_LIMIT ms or more from
      now, in the future or in the past. */
  ghost predicate FarExpiry(p: Fields, nowMs: int) {
    var receipt := Get(p, KnowledgeAnalysis);
    && ReceiptReadable(receipt) && Get(receipt.m, Status) == Str("projected")
    && Get(receipt.m, ReportState) == Str("last_report") && Get(receipt.m, IsCurrent) == Bool(false)
    && Get(p, Status) == Str("complete") && ProducerBound(p)
    && ReportTimed(receipt.m)
    && !(-1000 * FLOAT_LIMIT < Get(receipt.m, ReportExpiresAtMs).i - nowMs < 1000 * FLOAT_LIMIT)
  }

  /** There are exactly two ways it raises: a current envelope whose model status cannot be looked up in a set, and an
      envelope that is not current whose last report has an expiry no float can hold the distance to. */
  lemma RaisesIff(payload: Json, clocks: Clocks)
    ensures OperatorView(payload, clocks).Raised? <==>
              (&& payload.Obj?
               && if FastCurrent(payload.m, clocks)
                  then Get(payload.m, ModelAnalysis).Obj? && Unhashable(Get(payload.m[ModelAnalysis].m, Status))
                  else FarExpiry(payload.m, clocks.nowMs))
  {
    hide FastCurrent, DisplayedEnvelope, KnowledgeShown, Degraded, ProducerBound, ReportTimed, Listed;
    if payload.Obj? && ProducerBound(payload.m) && Get(payload.m, Status) == Str("complete") {
      BoundHasObjects(payload.m);
    }
  }

  /** A last report that expires too far away makes the projection of an expired envelope raise. */
  lemma FarExpiryRaises()
    ensures OperatorView(Obj(Sample("g", map[], Obj(FarReceipt()))), LATER).Raised?
  {
    hide Sample, FarReceipt, SampleReceipt, ReceiptReadable, ProducerBound, OperatorView, Get;
    var p := Sample("g", map[], Obj(FarReceipt()));
    SampleIsBound("g", map[], Obj(FarReceipt()));
    SampleParts("g", map[], Obj(FarReceipt()));
    SampleIsOld("g", map[], Obj(FarReceipt()));
    FarReceiptParts();
    RaisesIff(Obj(p), LATER);
  }

  lemma SampleIsOld(generation: string, model: Fields, receipt: Json)
    ensures !FastCurrent(Sample(generation, model, receipt), LATER)
  {
    hide ProducerBound;
  }

  const LATER := Clocks(200.0, 200000, (s: string) => Some(100.0))

  function FarReceipt(): Fields {
    SampleReceipt()[IsCurrent := Bool(false)][ReportState := Str("last_report")][ReportAgeSeconds := Int(0)]
      [MaxAgeSeconds := Int(10)][ReportExpiresAtMs := Int(200000 + 1000 * FLOAT_LIMIT)]
  }

  lemma FarReceiptParts()
    ensures var r := FarReceipt();
            && ReceiptReadable(Obj(r)) && Get(r, Status) == Str("projected") && Get(r, ReportState) == Str("last_report")
            && Get(r, IsCurrent) == Bool(false) && ReportTimed(r)
            && Get(r, ReportExpiresAtMs) == Int(200000 + 1000 * FLOAT_LIMIT)
  {
    hide Listed, SampleReceipt;
    ReceiptParts();
    ReceiptWords();
  }

  /** A model analysis bound to a generation the display drops (here a blank) reads as current the first time
      and as not current when the displayed envelope is displayed again. */
  lemma BlankGenerationIsNotStable()
    ensures var model := map[IsCurrent := Bool(true), FastGeneration := Str(" "), FrameId := Str("f"), TraceId := Str("m")];
            && FastCurrent(Sample(" ", model, Null), NOON)
            && DisplayedEnvelope(DisplayedEnvelope(Sample(" ", model, Null))) != DisplayedEnvelope(Sample(" ", model, Null))
  {
    var model := map[IsCurrent := Bool(true), FastGeneration := Str(" "), FrameId := Str("f"), TraceId := Str("m")];
    hide FastCurrent, DisplayedEnvelope, ModelRebinds;
    SampleIsCurrent(" ", model, Null);
    BlankDoesNotRebind(model);
    SampleParts(" ", model, Null);
    DisplayTwiceIff(Sample(" ", model, Null));
  }

  lemma BlankDoesNotRebind(model: Fields)
    requires model == map[IsCurrent := Bool(true), FastGeneration := Str(" "), FrameId := Str("f"), TraceId := Str("m")]
    ensures !ModelRebinds(Sample(" ", model, Null))
  {
    hide FullMatch, Sample, SampleAdvisory, SampleEdge, SampleBinding;
    BlankIsNoId();
    SampleParts(" ", model, Null);
    PartsOfParts(" ");
    BlankIsCurrent(model, Sample(" ", model, Null));
    hide Get;
  }

  lemma BlankIsNoId()
    ensures !FullMatch(Identifier, " ")
  {
    assert " "[0] == ' ';
  }

  lemma BlankIsCurrent(model: Fields, p: Fields)
    requires model == map[IsCurrent := Bool(true), FastGeneration := Str(" "), FrameId := Str("f"), TraceId := Str("m")]
    requires Get(p, Generation) == Str(" ") && Get(p, Advisory) == Obj(SampleAdvisory())
    ensures ModelIsCurrent(model, p)
  {
    hide SampleAdvisory;
    PartsOfParts(" ");
    assert "f" != "" && "m" != "";
  }

  // ---- currency can be reached ---------------------------------------------------------------------

  function SampleReferences(): Fields {
    map[ClaimStatus := Str("reported_unverified"), Trust := Str("unverified_advisory_only"),
        AttackTechniques := List([]), SourceGroups := List([])]
  }

  function SampleReceipt(): Fields {
    map[SchemaVersion := Str("azazel.mio_knowledge_analysis.v1"), Authority := Str("read_only_advisory"),
        UsageStatus := Str("not_applicable"), Status := Str("projected"), IsCurrent := Bool(true),
        Generation := Str("g"), FrameGeneration := Str("g"), SourceTraceId := Str("e"), EventKey := Str(EVENT),
        TraceId := Str("m"), FrameId := Str("f"), Projection := Obj(SampleReferences())]
  }

  lemma ReceiptParts()
    ensures var r := SampleReceipt();
            && Get(r, SchemaVersion) == Str("azazel.mio_knowledge_analysis.v1") && Get(r, Authority) == Str("read_only_advisory")
            && Get(r, UsageStatus) == Str("not_applicable") && Get(r, Status) == Str("projected")
            && Get(r, IsCurrent) == Bool(true) && Get(r, Generation) == Str("g") && Get(r, FrameGeneration) == Str("g")
            && Get(r, SourceTraceId) == Str("e") && Get(r, EventKey) == Str(EVENT) && Get(r, TraceId) == Str("m")
            && Get(r, FrameId) == Str("f") && Get(r, Projection) == Obj(SampleReferences())
  {
  }

  lemma ReferencesAreUsable()
    ensures ReferencesUsable(Obj(SampleReferences()))
  {
  }

  lemma ReceiptWords()
    ensures FullMatch(Identifier, "g") && FullMatch(Identifier, "e") && FullMatch(Identifier, "m")
    ensures FullMatch(Identifier, "f") && FullMatch(EventKeyText, EVENT) && Listed(LaneStatuses, "projected")
  {
  }

  lemma ReceiptFits()
    ensures ReceiptReadable(Obj(SampleReceipt()))
    ensures IdentifiersBound(Sample("g", map[], Obj(SampleReceipt())), SampleReceipt())
    ensures KnowledgeCurrent(Sample("g", map[], Obj(SampleReceipt())), SampleReceipt())
  {
    hide FullMatch, Listed, SampleReceipt, SampleReferences, Sample, SampleAdvisory, ReferencesUsable, Get;
    SampleParts("g", map[], Obj(SampleReceipt()));
    PartsOfParts("g");
    ReceiptParts();
    ReferencesAreUsable();
    ReceiptWords();
  }

  /** The theorem about current Knowledge is not about nothing: here is an envelope whose output marks it current. */
  lemma KnowledgeCanBeCurrent()
    ensures var view := OperatorView(Obj(Sample("g", map[], Obj(SampleReceipt()))), NOON);
            view.Shown? && MarksKnowledgeCurrent(view.fields)
  {
    hide FastCurrent, SampleReceipt, Sample, ReceiptReadable, KnowledgeCurrent, OperatorView, MarksKnowledgeCurrent, Get;
    var p := Sample("g", map[], Obj(SampleReceipt()));
    SampleIsCurrent("g", map[], Obj(SampleReceipt()));
    SampleParts("g", map[], Obj(SampleReceipt()));
    ReceiptParts();
    ReceiptFits();
    Present(p, ModelAnalysis);
    Present(p, KnowledgeAnalysis);
    NoStatus();
    RaisesIff(Obj(p), NOON);
    KnowledgeMarkedCurrentIff(Obj(p), NOON);
  }

  lemma Present(m: Fields, k: Key)
    requires Get(m, k) != Null
    ensures k in m && m[k] == Get(m, k)
  {
  }

  lemma NoStatus()
    ensures Get(map[], Status) == Null
  {
  }
}
