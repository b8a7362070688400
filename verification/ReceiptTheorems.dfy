/** What the operator projection guarantees for every envelope. */
module ReceiptTheorems {
  import opened Options
  import opened Text
  import opened Json
  import opened ReceiptProjection

  // ---- 1. a block marked current is proved by the output itself ------------------------------------

  ghost predicate MarksKnowledgeCurrent(out: Fields) {
    var block := Get(out, KnowledgeAnalysis);
    block.Obj? && Get(block.m, IsCurrent) == Bool(true)
  }

  /** Everything the receipt had to satisfy against the envelope, the shown block satisfies against the
      shown envelope: a reader of the output can repeat the check without the input. */
  ghost predicate SelfProving(out: Fields) {
    var block, advisory, context := Get(out, KnowledgeAnalysis), Get(out, Advisory), Get(out, SourceContext);
    && block.Obj? && advisory.Obj? && context.Obj?
    && Get(out, Status) == Str("complete") && Get(out, IsCurrent) == Bool(true)
    && ProducerBound(out)
    && Get(block.m, Generation).Str? && Get(block.m, Generation) == Get(out, Generation)
    && Get(block.m, FrameGeneration) == Get(out, Generation)
    && Get(block.m, SourceTraceId).Str? && Get(block.m, SourceTraceId) == Get(out, TraceId)
    && Get(block.m, EventKey).Str? && Get(block.m, EventKey) == Get(context.m, EventKey)
    && Get(block.m, TraceId).Str? && Get(block.m, TraceId) == Get(advisory.m, TraceId)
    && Get(block.m, FrameId).Str? && Get(block.m, FrameId) == Get(advisory.m, FrameId)
    && Get(block.m, Status) == Str("projected")
    && Get(block.m, ClaimStatus) == Str("reported_unverified") && Get(block.m, Trust) == Str("unverified_advisory_only")
  }

  lemma ShownMember(p: Fields, k: Key)
    ensures k in DisplayedEnvelope(p) <==> k in p && TopMember(p, k, p[k]).Some?
    ensures k in DisplayedEnvelope(p) ==> DisplayedEnvelope(p)[k] == TopMember(p, k, p[k]).value
  {
    hide Listed, FullMatch, SafeText, TopMember;
  }

  lemma KeptMember(f: (Key, Json) -> Option<Json>, m: Fields, k: Key)
    requires k in m ==> f(k, m[k]) == Some(m[k])
    ensures Get(Project(f, m), k) == Get(m, k)
  {
  }

  /** The block is marked current exactly for a current envelope whose receipt is readable, projected,
      current and bound; anything less shows no reference at all. */
  lemma KnowledgeMarkedCurrentIff(payload: Json, clocks: Clocks)
    requires payload.Obj? && OperatorView(payload, clocks).Shown?
    ensures MarksKnowledgeCurrent(OperatorView(payload, clocks).fields) <==>
              && FastCurrent(payload.m, clocks)
              && ReceiptReadable(Get(payload.m, KnowledgeAnalysis))
              && Get(payload.m[KnowledgeAnalysis].m, Status) == Str("projected")
              && KnowledgeCurrent(payload.m, payload.m[KnowledgeAnalysis].m)
  {
    hide Listed, FullMatch, SafeText, FastCurrent, IdentifiersBound, ReferencesUsable, DisplayedEnvelope, EdgeObservation, FreshnessOf;
    hide ReportShown;
  }

  lemma EdgeDisplayKeepsBoundEvent(edge: Json)
    requires edge.Obj? && IsId(Get(edge.m, TraceId)) && IsWord(Get(edge.m, Action), EdgeActions)
    requires IsWord(Get(edge.m, Mode), EdgeModes) && IsWord(Get(edge.m, ResultKey), EdgeResults)
    ensures var shown := EdgeDisplay(edge);
            && Get(shown, TraceId) == Get(edge.m, TraceId) && Get(shown, Action) == Get(edge.m, Action)
            && Get(shown, Mode) == Get(edge.m, Mode) && Get(shown, ResultKey) == Get(edge.m, ResultKey)
  {
    hide Listed, FullMatch, HidesSomething, Lower, Project;
    LowerKeepsActions(Get(edge.m, Action));
    KeptMember(EdgeField, edge.m, Action);
    KeptMember(EdgeField, edge.m, Mode);
    KeptMember(EdgeField, edge.m, ResultKey);
  }

  lemma LowerKeepsActions(v: Json)
    requires IsWord(v, EdgeActions)
    ensures Lower(v.s) == v.s
  {
  }

  lemma PyEqText(a: Json, b: Json)
    requires b.Str?
    ensures PyEq(a, b) <==> a == b
  {
  }

  /** The identities the binding check establishes between the parts of a completed envelope, all text. */
  ghost predicate NamesOneEvent(p: Fields) {
    var binding, edge, context, advisory :=
      Get(p, HandoffBinding), Get(p, EdgeEvent), Get(p, SourceContext), Get(p, Advisory);
    && binding.Obj? && edge.Obj? && context.Obj? && advisory.Obj?
    && IsWord(Get(edge.m, Action), EdgeActions) && IsWord(Get(edge.m, Mode), EdgeModes) && IsWord(Get(edge.m, ResultKey), EdgeResults)
    && IsId(Get(p, Generation)) && IsId(Get(p, TraceId)) && IsMatch(Get(context.m, EventKey), EventKeyText)
    && IsId(Get(advisory.m, TraceId)) && IsId(Get(advisory.m, FrameId))
    && Get(edge.m, TraceId) == Get(p, TraceId)
    && Get(binding.m, Status) == Str("matched") && Get(binding.m, Valid) == Bool(true)
    && Get(binding.m, Generation) == Get(p, Generation)
    && Get(binding.m, EventKey) == Get(context.m, EventKey)
    && Get(binding.m, EdgeTraceId) == Get(p, TraceId)
    && Get(binding.m, EdgeAction) == Get(edge.m, Action)
    && Get(binding.m, EdgeMode) == Get(edge.m, Mode)
    && Get(binding.m, EdgeResult) == Get(edge.m, ResultKey)
    && Get(binding.m, MioTraceId) == Get(advisory.m, TraceId)
    && Get(binding.m, FrameId) == Get(advisory.m, FrameId)
  }

  lemma BoundNamesOneEvent(p: Fields, receipt: Fields)
    requires Get(p, Status) == Str("complete") && ProducerBound(p) && IdentifiersBound(p, receipt)
    ensures NamesOneEvent(p)
  {
    var binding, edge := p[HandoffBinding].m, p[EdgeEvent].m;
    hide Listed, FullMatch, SafeText, PyEq;
    PyEqText(Get(binding, Generation), Get(p, Generation));
    PyEqText(Get(binding, EventKey), Get(p[SourceContext].m, EventKey));
    PyEqText(Get(binding, EdgeTraceId), Get(edge, TraceId));
    PyEqText(Get(binding, EdgeAction), Get(edge, Action));
    PyEqText(Get(binding, EdgeMode), Get(edge, Mode));
    PyEqText(Get(binding, EdgeResult), Get(edge, ResultKey));
    PyEqText(Get(binding, EdgeTraceId), Get(p, TraceId));
    PyEqText(Get(binding, MioTraceId), Get(p[Advisory].m, TraceId));
    PyEqText(Get(binding, FrameId), Get(p[Advisory].m, FrameId));
  }

  lemma OneEventIsBound(p: Fields)
    requires NamesOneEvent(p)
    ensures ProducerBound(p)
  {
    var binding, edge := p[HandoffBinding].m, p[EdgeEvent].m;
    assert Truthy(Get(p[SourceContext].m, EventKey));
    hide Listed, FullMatch, SafeText, PyEq;
    PyEqText(Get(binding, Generation), Get(p, Generation));
    PyEqText(Get(binding, EventKey), Get(p[SourceContext].m, EventKey));
    PyEqText(Get(binding, EdgeTraceId), Get(edge, TraceId));
    PyEqText(Get(binding, EdgeAction), Get(edge, Action));
    PyEqText(Get(binding, EdgeMode), Get(edge, Mode));
    PyEqText(Get(binding, EdgeResult), Get(edge, ResultKey));
    PyEqText(Get(binding, EdgeTraceId), Get(p, TraceId));
    PyEqText(Get(binding, MioTraceId), Get(p[Advisory].m, TraceId));
    PyEqText(Get(binding, FrameId), Get(p[Advisory].m, FrameId));
  }

  /** Each identity survives because each of its two sides is shown unchanged. */
  lemma BindingIdsKept(raw: Fields)
    requires IsId(Get(raw, Generation)) && IsId(Get(raw, EdgeTraceId)) && IsId(Get(raw, MioTraceId)) && IsId(Get(raw, FrameId))
    ensures var shown := Project(BindingField, raw);
            && Get(shown, Generation) == Get(raw, Generation) && Get(shown, EdgeTraceId) == Get(raw, EdgeTraceId)
            && Get(shown, MioTraceId) == Get(raw, MioTraceId) && Get(shown, FrameId) == Get(raw, FrameId)
  {
    hide Listed, FullMatch, Project;
    KeptMember(BindingField, raw, Generation); KeptMember(BindingField, raw, EdgeTraceId);
    KeptMember(BindingField, raw, MioTraceId); KeptMember(BindingField, raw, FrameId);
  }

  lemma BindingWordsKept(raw: Fields)
    requires IsWord(Get(raw, EdgeAction), EdgeActions) && IsWord(Get(raw, EdgeMode), EdgeModes)
    requires IsWord(Get(raw, EdgeResult), EdgeResults)
    ensures var shown := Project(BindingField, raw);
            && Get(shown, EdgeAction) == Get(raw, EdgeAction)
            && Get(shown, EdgeMode) == Get(raw, EdgeMode) && Get(shown, EdgeResult) == Get(raw, EdgeResult)
  {
    hide Listed, FullMatch, Project;
    KeptMember(BindingField, raw, EdgeAction);
    KeptMember(BindingField, raw, EdgeMode); KeptMember(BindingField, raw, EdgeResult);
  }

  lemma BindingMarkersKept(raw: Fields)
    requires Get(raw, Status) == Str("matched") && Get(raw, Valid) == Bool(true)
    requires IsMatch(Get(raw, EventKey), EventKeyText)
    ensures var shown := Project(BindingField, raw);
            && Get(shown, Status) == Get(raw, Status) && Get(shown, Valid) == Get(raw, Valid)
            && Get(shown, EventKey) == Get(raw, EventKey)
  {
    hide Listed, FullMatch, Project;
    KeptMember(BindingField, raw, Status); KeptMember(BindingField, raw, Valid);
    KeptMember(BindingField, raw, EventKey);
  }

  lemma BindingKept(p: Fields)
    requires NamesOneEvent(p)
    ensures HandoffBinding in DisplayedEnvelope(p)
    ensures DisplayedEnvelope(p)[HandoffBinding] == Obj(Project(BindingField, p[HandoffBinding].m))
  {
    hide Listed, FullMatch, DisplayedEnvelope, Project, TopScalar;
    ShownMember(p, HandoffBinding);
  }

  lemma ScalarKept(p: Fields, k: Key)
    requires k in {Status, IsCurrent, Generation, TraceId, CompletedAt, MaxAgeSeconds}
    requires TopScalar(k, Get(p, k))
    ensures Get(DisplayedEnvelope(p), k) == Get(p, k)
  {
    hide Listed, FullMatch, SafeText, DisplayedEnvelope, BoundedNumber;
    ShownMember(p, k);
  }

  lemma EdgeKept(p: Fields)
    requires Get(p, EdgeEvent).Obj?
    ensures Get(DisplayedEnvelope(p), EdgeEvent) == Obj(EdgeDisplay(p[EdgeEvent]))
  {
    hide Listed, FullMatch, DisplayedEnvelope, EdgeDisplay, TopScalar;
    ShownMember(p, EdgeEvent);
  }

  lemma ContextKept(p: Fields)
    requires Get(p, SourceContext).Obj? && IsMatch(Get(p[SourceContext].m, EventKey), EventKeyText)
    ensures Get(DisplayedEnvelope(p), SourceContext).Obj?
    ensures Get(DisplayedEnvelope(p)[SourceContext].m, EventKey) == Get(p[SourceContext].m, EventKey)
  {
    hide Listed, FullMatch, DisplayedEnvelope, TopScalar, Project;
    ShownMember(p, SourceContext);
    KeptMember(ContextField, p[SourceContext].m, EventKey);
  }

  lemma AdvisoryKept(p: Fields)
    requires Get(p, Advisory).Obj?
    requires IsId(Get(p[Advisory].m, TraceId)) && IsId(Get(p[Advisory].m, FrameId))
    ensures Get(DisplayedEnvelope(p), Advisory).Obj?
    ensures Get(DisplayedEnvelope(p)[Advisory].m, TraceId) == Get(p[Advisory].m, TraceId)
    ensures Get(DisplayedEnvelope(p)[Advisory].m, FrameId) == Get(p[Advisory].m, FrameId)
  {
    hide Listed, FullMatch, SafeText, DisplayedEnvelope, TopScalar, Project;
    ShownMember(p, Advisory);
    KeptMember(AdvisoryField, p[Advisory].m, TraceId);
    KeptMember(AdvisoryField, p[Advisory].m, FrameId);
  }

  /** An envelope that names one event by displayable identifiers still does so once displayed. */
  lemma OneEventSurvivesDisplay(p: Fields)
    requires NamesOneEvent(p)
    ensures var out := DisplayedEnvelope(p);
            && NamesOneEvent(out)
            && Get(out, Generation) == Get(p, Generation) && Get(out, TraceId) == Get(p, TraceId)
            && Get(out[SourceContext].m, EventKey) == Get(p[SourceContext].m, EventKey)
            && Get(out[Advisory].m, TraceId) == Get(p[Advisory].m, TraceId)
            && Get(out[Advisory].m, FrameId) == Get(p[Advisory].m, FrameId)
  {
    hide Listed, FullMatch, SafeText, DisplayedEnvelope, EdgeDisplay, Project, BoundedNumber;
    ScalarKept(p, Generation); ScalarKept(p, TraceId);
    EdgeKept(p); ContextKept(p); AdvisoryKept(p); BindingKept(p);
    EdgeDisplayKeepsBoundEvent(p[EdgeEvent]);
    BindingIdsKept(p[HandoffBinding].m); BindingWordsKept(p[HandoffBinding].m); BindingMarkersKept(p[HandoffBinding].m);
  }

  /** Whenever the output marks Knowledge current, the output alone proves it; and the whole currency check
      can be repeated on it, unless the completion text is one the display drops. */
  lemma CurrentKnowledgeIsSelfProving(payload: Json, clocks: Clocks)
    requires OperatorView(payload, clocks).Shown?
    requires MarksKnowledgeCurrent(OperatorView(payload, clocks).fields)
    ensures SelfProving(OperatorView(payload, clocks).fields)
    ensures IsText(Get(payload.m, CompletedAt), 64) ==> FastCurrent(OperatorView(payload, clocks).fields, clocks)
  {
    hide Listed, FullMatch, SafeText, OperatorView, DisplayedEnvelope, CurrentBlock, WithinAge, ProducerBound;
    hide IdentifiersBound, NamesOneEvent, ReferencesUsable;
    CurrentView(payload, clocks);
    var p, out := payload.m, OperatorView(payload, clocks).fields;
    var receipt := p[KnowledgeAnalysis].m;
    BoundNamesOneEvent(p, receipt);
    BlockIsBound(p, receipt, out);
    StatusKept(p);
    if IsText(Get(p, CompletedAt), 64) {
      AgeKept(p, clocks);
      AgeIsOutside(DisplayedEnvelope(p), out[KnowledgeAnalysis], clocks);
    }
  }

  lemma CurrentView(payload: Json, clocks: Clocks)
    requires OperatorView(payload, clocks).Shown?
    requires MarksKnowledgeCurrent(OperatorView(payload, clocks).fields)
    ensures payload.Obj? && FastCurrent(payload.m, clocks) && Get(payload.m, KnowledgeAnalysis).Obj?
    ensures KnowledgeCurrent(payload.m, payload.m[KnowledgeAnalysis].m)
    ensures OperatorView(payload, clocks).fields ==
            DisplayedEnvelope(payload.m)[KnowledgeAnalysis := Obj(CurrentBlock(payload.m[KnowledgeAnalysis].m))]
  {
    hide Listed, FullMatch, SafeText, FastCurrent, IdentifiersBound, ReferencesUsable, DisplayedEnvelope, EdgeObservation, FreshnessOf;
    hide ReportShown;
  }

  lemma AgeIsOutside(m: Fields, block: Json, clocks: Clocks)
    ensures WithinAge(m[KnowledgeAnalysis := block], clocks) == WithinAge(m, clocks)
  {
    hide BoundedNumber;
  }

  lemma AgeKept(p: Fields, clocks: Clocks)
    requires WithinAge(p, clocks) && IsText(Get(p, CompletedAt), 64)
    ensures WithinAge(DisplayedEnvelope(p), clocks)
  {
    hide Listed, FullMatch, SafeText, DisplayedEnvelope;
    ScalarKept(p, CompletedAt); ScalarKept(p, MaxAgeSeconds);
  }

  lemma CompleteIsListed()
    ensures Listed(EnvelopeStatuses, "complete")
  {
  }

  lemma StatusKept(p: Fields)
    requires Get(p, Status) == Str("complete") && Get(p, IsCurrent) == Bool(true)
    ensures Get(DisplayedEnvelope(p), Status) == Str("complete") && Get(DisplayedEnvelope(p), IsCurrent) == Bool(true)
  {
    CompleteIsListed();
    hide Listed, FullMatch, SafeText, DisplayedEnvelope, BoundedNumber;
    ScalarKept(p, Status); ScalarKept(p, IsCurrent);
  }

  lemma BlockIsBound(p: Fields, receipt: Fields, out: Fields)
    requires KnowledgeCurrent(p, receipt) && NamesOneEvent(p)
    requires out == DisplayedEnvelope(p)[KnowledgeAnalysis := Obj(CurrentBlock(receipt))]
    ensures out[KnowledgeAnalysis].Obj? && ProducerBound(out)
    ensures Get(out, Status) == Str("complete") && Get(out, IsCurrent) == Bool(true) ==> SelfProving(out)
  {
    hide Listed, FullMatch, SafeText, DisplayedEnvelope, FreshnessOf, ReferencesUsable;
    hide BindingMatches;
    OneEventSurvivesDisplay(p);
    OneEventIsBound(out);
  }

  // ---- 2. what an envelope that is not current can reveal ------------------------------------------

  ghost predicate ShowsReport(out: Fields) {
    var block := Get(out, KnowledgeAnalysis);
    block.Obj? && ReportState in block.m
  }

  /** The lane status that stands for a receipt. */
  ghost function LaneOf(receipt: Json): string {
    if ReceiptReadable(receipt) then receipt.m[Status].s else "unavailable"
  }

  lemma DegradedShape(p: Fields, nowMs: int)
    ensures var out, base := Degraded(p, nowMs), StatusOnly(p, LaneOf(Get(p, KnowledgeAnalysis)));
            && out - {KnowledgeAnalysis} == base - {KnowledgeAnalysis}
            && out.Keys == {Status, IsCurrent, MaxAgeSeconds, EdgeEvent, KnowledgeAnalysis}
            && (!ShowsReport(out) ==> out == base)
            && (ShowsReport(out) ==>
                  && ReceiptReadable(Get(p, KnowledgeAnalysis))
                  && ReferencesUsable(Get(Get(p, KnowledgeAnalysis).m, Projection))
                  && out == base[KnowledgeAnalysis := Obj(ReportBlock(Get(p, KnowledgeAnalysis).m))])
            && !MarksKnowledgeCurrent(out)
  {
    hide Listed, FullMatch, EdgeObservation, FreshnessOf, ReportOffered, ReportInTime, IdentifiersBound;
    hide ReceiptReadable, ReferencesUsable;
  }

  /** Two envelopes that are not current and agree on the Edge event and on the receipt show the same
      thing, whatever their advisory, model, context or comparison members hold and whatever the clocks
      say, up to the presence of the last report; and two reports shown for one receipt are one report.
      An answer exists unless the report's expiry is beyond what a float can hold. */
  lemma NotCurrentNonInterference(a: Fields, b: Fields, atA: Clocks, atB: Clocks)
    requires !FastCurrent(a, atA) && !FastCurrent(b, atB)
    requires Get(a, EdgeEvent) == Get(b, EdgeEvent) && Get(a, KnowledgeAnalysis) == Get(b, KnowledgeAnalysis)
    ensures OperatorView(Obj(a), atA).Shown? <==> !DegradingRaises(a, atA.nowMs)
    ensures OperatorView(Obj(b), atB).Shown? <==> !DegradingRaises(b, atB.nowMs)
    ensures OperatorView(Obj(a), atA).Shown? && OperatorView(Obj(b), atB).Shown? ==>
            var x, y := OperatorView(Obj(a), atA).fields, OperatorView(Obj(b), atB).fields;
            && x - {KnowledgeAnalysis} == y - {KnowledgeAnalysis}
            && x.Keys == {Status, IsCurrent, MaxAgeSeconds, EdgeEvent, KnowledgeAnalysis}
            && (ShowsReport(x) == ShowsReport(y) ==> x == y)
            && !MarksKnowledgeCurrent(x)
  {
    hide Listed, FullMatch, FastCurrent, DisplayedEnvelope, KnowledgeShown, Degraded, ReceiptReadable, ReferencesUsable;
    hide ReportBlock, EdgeObservation, ShowsReport, MarksKnowledgeCurrent, LaneOf, DegradingRaises;
    DegradedShape(a, atA.nowMs);
    DegradedShape(b, atB.nowMs);
    var lane := LaneOf(Get(a, KnowledgeAnalysis));
    assert StatusOnly(a, lane) == StatusOnly(b, lane);
    hide StatusOnly;
  }

  /** The answer calls the envelope current exactly when it is: a completed envelope, marked current and bound by its
      producer, at most its own limit of ten seconds or less after its completion. */
  lemma CalledCurrentIff(payload: Json, clocks: Clocks)
    requires payload.Obj? && OperatorView(payload, clocks).Shown?
    ensures Get(OperatorView(payload, clocks).fields, IsCurrent) == Bool(true) <==> CurrentNow(payload.m, clocks)
  {
    hide Listed, FullMatch, SafeText, DisplayedEnvelope, KnowledgeShown, ReportShown, ReportBlock, EdgeObservation, ProducerBound;
    CurrentMeans(payload.m, clocks);
    if FastCurrent(payload.m, clocks) { StatusKept(payload.m); }
  }

  ghost predicate CurrentNow(p: Fields, clocks: Clocks) {
    && Get(p, Status) == Str("complete") && Get(p, IsCurrent) == Bool(true) && ProducerBound(p)
    && Get(p, CompletedAt).Str? && clocks.stamp(Get(p, CompletedAt).s).Some?
    && (Get(p, MaxAgeSeconds).Int? || Get(p, MaxAgeSeconds).Float?)
    && 0.0 < Number(Get(p, MaxAgeSeconds)) <= 10.0
    && var completed := clocks.stamp(Get(p, CompletedAt).s).value;
       completed <= clocks.now <= completed + Number(Get(p, MaxAgeSeconds))
  }

  lemma CurrentMeans(p: Fields, clocks: Clocks)
    ensures FastCurrent(p, clocks) <==> CurrentNow(p, clocks)
  {
    hide ProducerBound;
  }

  /** What the answer says of an envelope that is not current. */
  lemma NotCurrentSays(p: Fields, clocks: Clocks)
    requires !CurrentNow(p, clocks) && OperatorView(Obj(p), clocks).Shown?
    ensures var out, receipt := OperatorView(Obj(p), clocks).fields, Get(p, KnowledgeAnalysis);
      && Get(out, Status) == Str("unavailable") && Get(out, IsCurrent) == Bool(false)
      && Get(out, MaxAgeSeconds) == Int(0) && Get(out, EdgeEvent) == Obj(EdgeObservation(Get(p, EdgeEvent)))
      && Get(out, KnowledgeAnalysis).Obj?
      && Get(out[KnowledgeAnalysis].m, IsCurrent) == Bool(false)
      && Get(out[KnowledgeAnalysis].m, Status) == if ReadableReceipt(receipt) then Get(receipt.m, Status) else Str("unavailable")
  {
    hide FullMatch, SafeText, DisplayedEnvelope, KnowledgeShown, EdgeObservation, ProducerBound, CurrentNow, Listed, ReadableReceipt;
    hide StatusOnly, ReportBlock, ReportShown;
    CurrentMeans(p, clocks);
    var receipt := Get(p, KnowledgeAnalysis);
    ReadableMeans(receipt);
    hide FastCurrent;
    UnavailableIsListed();
    StatusOnlySays(p, if ReceiptReadable(receipt) then receipt.m[Status].s else "unavailable");
    if ReceiptReadable(receipt) && ReportShown(p, receipt.m, clocks.nowMs) { ReportBlockSays(p, receipt.m, clocks.nowMs); }
  }

  lemma StatusOnlySays(p: Fields, status: string)
    requires Listed(LaneStatuses, status)
    ensures var out := StatusOnly(p, status);
      && Get(out, Status) == Str("unavailable") && Get(out, IsCurrent) == Bool(false)
      && Get(out, MaxAgeSeconds) == Int(0) && Get(out, EdgeEvent) == Obj(EdgeObservation(Get(p, EdgeEvent)))
      && Get(out, KnowledgeAnalysis).Obj?
      && Get(out[KnowledgeAnalysis].m, IsCurrent) == Bool(false) && Get(out[KnowledgeAnalysis].m, Status) == Str(status)
      && ReportState !in out[KnowledgeAnalysis].m
  {
    hide Listed, EdgeObservation;
  }

  lemma ReportBlockSays(p: Fields, receipt: Fields, nowMs: int)
    requires ReportShown(p, receipt, nowMs)
    ensures var block := ReportBlock(receipt);
      && Get(block, IsCurrent) == Bool(false) && Get(block, Status) == Str("projected")
      && Get(block, ReportState) == Str("last_report")
      && Get(block, ClaimStatus) == Str("reported_unverified") && Get(block, Trust) == Str("unverified_advisory_only")
      && Get(block, ReportAgeSeconds) == Get(receipt, ReportAgeSeconds)
      && Get(block, MaxAgeSeconds) == Get(receipt, MaxAgeSeconds)
      && Get(block, ReportExpiresAtMs) == Get(receipt, ReportExpiresAtMs)
      && Get(block, AttackTechniques) == Get(Get(receipt, Projection).m, AttackTechniques)
      && Get(block, SourceGroups) == Get(Get(receipt, Projection).m, SourceGroups)
  {
    hide FullMatch, FreshnessOf, ProducerBound, AllOf;
  }

  /** The receipt's last report belongs to this completed envelope, and this is a moment at which it may be shown. */
  ghost predicate ReportDue(p: Fields, receipt: Fields, nowMs: int) {
    var age, limit := Get(receipt, ReportAgeSeconds), Get(receipt, MaxAgeSeconds);
    var advisory, context, references := Get(p, Advisory), Get(p, SourceContext), Get(receipt, Projection);
    && Get(receipt, ReportState) == Str("last_report") && Get(receipt, IsCurrent) == Bool(false)
    && Get(p, Status) == Str("complete") && ProducerBound(p) && advisory.Obj? && context.Obj?
    && (age.Int? || age.Float?) && (limit.Int? || limit.Float?) && Get(receipt, ReportExpiresAtMs).Int?
    && 0.0 <= Number(age) <= Number(limit) && 0.1 <= Number(limit) <= 10.0
    && 0.0 < (Get(receipt, ReportExpiresAtMs).i - nowMs) as real <= 1000.0 * (Number(limit) - Number(age)) + 100.0
    && IsId(Get(receipt, Generation)) && Get(receipt, Generation) == Get(p, Generation)
    && Get(receipt, FrameGeneration) == Get(p, Generation)
    && IsId(Get(receipt, SourceTraceId)) && Get(receipt, SourceTraceId) == Get(p, TraceId)
    && IsMatch(Get(receipt, EventKey), EventKeyText) && Get(receipt, EventKey) == Get(context.m, EventKey)
    && IsId(Get(receipt, TraceId)) && Get(receipt, TraceId) == Get(advisory.m, TraceId)
    && IsId(Get(receipt, FrameId)) && Get(receipt, FrameId) == Get(advisory.m, FrameId)
    && references.Obj? && Get(references.m, ClaimStatus) == Str("reported_unverified")
    && Get(references.m, Trust) == Str("unverified_advisory_only")
    && AllOf(Get(references.m, AttackTechniques), 16, Technique) && AllOf(Get(references.m, SourceGroups), 16, SourceGroup)
  }

  lemma ReportShownIff(p: Fields, receipt: Fields, nowMs: int)
    ensures ReportShown(p, receipt, nowMs) <==> ReportDue(p, receipt, nowMs)
  {
    hide FullMatch, ProducerBound, AllOf;
  }

  /** An envelope that is not current shows a last report exactly for a readable, projected receipt whose report is due. */
  lemma ReportedIff(p: Fields, clocks: Clocks)
    requires !CurrentNow(p, clocks) && OperatorView(Obj(p), clocks).Shown?
    ensures var receipt := Get(p, KnowledgeAnalysis);
      ShowsReport(OperatorView(Obj(p), clocks).fields) <==>
        && ReadableReceipt(receipt) && Get(receipt.m, Status) == Str("projected")
        && ReportDue(p, receipt.m, clocks.nowMs)
  {
    hide FullMatch, ReportShown, ReportDue, DisplayedEnvelope, EdgeObservation, CurrentNow, KnowledgeShown, Listed, ReadableReceipt;
    hide StatusOnly, ReportBlock;
    CurrentMeans(p, clocks);
    hide FastCurrent;
    var receipt := Get(p, KnowledgeAnalysis);
    ReadableMeans(receipt);
    UnavailableIsListed();
    StatusOnlySays(p, if ReceiptReadable(receipt) then receipt.m[Status].s else "unavailable");
    if ReceiptReadable(receipt) {
      ReportShownIff(p, receipt.m, clocks.nowMs);
      if ReportShown(p, receipt.m, clocks.nowMs) { ReportBlockSays(p, receipt.m, clocks.nowMs); }
    }
  }

  ghost predicate ReadableReceipt(receipt: Json) {
    && receipt.Obj?
    && Get(receipt.m, SchemaVersion) == Str("azazel.mio_knowledge_analysis.v1")
    && Get(receipt.m, Authority) == Str("read_only_advisory")
    && Get(receipt.m, UsageStatus) == Str("not_applicable")
    && Get(receipt.m, Status).Str?
    && Get(receipt.m, Status).s in {
         "starting", "queued", "disabled", "missing_token", "invalid_configuration", "unavailable", "timeout", "oversized",
         "redirect_rejected", "auth_rejected", "scope_rejected", "malformed", "received", "superseded", "projected",
         "rejected" }
  }

  lemma ReadableMeans(receipt: Json)
    ensures ReceiptReadable(receipt) <==> ReadableReceipt(receipt)
  {
  }

  /** What the answer says of Knowledge for a current envelope that does not show a reference. */
  lemma CurrentWithoutReference(p: Fields, clocks: Clocks)
    requires CurrentNow(p, clocks) && OperatorView(Obj(p), clocks).Shown?
    requires !MarksKnowledgeCurrent(OperatorView(Obj(p), clocks).fields)
    ensures var receipt := Get(p, KnowledgeAnalysis);
      Get(OperatorView(Obj(p), clocks).fields, KnowledgeAnalysis) == Obj(map[
        Status := if ReadableReceipt(receipt) then Get(receipt.m, Status) else Str("unavailable"), IsCurrent := Bool(false)])
  {
    hide FullMatch, SafeText, DisplayedEnvelope, CurrentNow, KnowledgeCurrent, ReferencesUsable, ReadableReceipt, Listed;
    CurrentMeans(p, clocks);
    ReadableMeans(Get(p, KnowledgeAnalysis));
    hide FastCurrent;
  }

  ghost predicate CurrentExactlyWithin(envelope: Fields, stamp: string -> Option<real>, from: real, to: real) {
    forall now: real, ms: int :: FastCurrent(envelope, Clocks(now, ms, stamp)) <==> from <= now <= to
  }

  /** The moments at which one envelope is current form one closed interval of at most ten seconds. */
  lemma CurrentForAtMostTenSeconds(envelope: Fields, stamp: string -> Option<real>)
    ensures exists from: real, to: real :: CurrentExactlyWithin(envelope, stamp, from, to) && to - from <= 10.0
  {
    hide Listed, FullMatch, ProducerBound;
    var completed, limit := Get(envelope, CompletedAt), Get(envelope, MaxAgeSeconds);
    if && completed.Str? && stamp(completed.s).Some? && BoundedNumber(limit, 0.0, 10.0) && Seconds(limit) != 0.0
       && Get(envelope, Status) == Str("complete") && Get(envelope, IsCurrent) == Bool(true) && ProducerBound(envelope)
    {
      var from := stamp(completed.s).value;
      assert CurrentExactlyWithin(envelope, stamp, from, from + Seconds(limit));
    } else {
      assert CurrentExactlyWithin(envelope, stamp, 0.0, -1.0);
    }
  }

  ghost predicate ReportExactlyWithin(envelope: Fields, receipt: Fields, from: int, to: int) {
    forall ms: int :: ReportShown(envelope, receipt, ms) <==> from <= ms < to
  }

  /** The moments at which a last report may be shown form one interval that ends before its expiry and is never
      longer than its remaining limit and a tenth of a second: 10.1 seconds at most. */
  lemma ReportForAtMostTenSeconds(envelope: Fields, receipt: Fields)
    ensures exists from: int, to: int :: ReportExactlyWithin(envelope, receipt, from, to) && to - from <= 10100
  {
    hide Listed, FullMatch, ReportOffered, IdentifiersBound, ReferencesUsable;
    if ReportOffered(envelope, receipt) && ReportTimed(receipt) && IdentifiersBound(envelope, receipt)
       && ReferencesUsable(Get(receipt, Projection))
    {
      var left := Number(Get(receipt, MaxAgeSeconds)) - Number(Get(receipt, ReportAgeSeconds)) + 0.1;
      var expires, span := Get(receipt, ReportExpiresAtMs).i, (1000.0 * left).Floor;
      assert span <= 10100;
      forall ms: int ensures ReportShown(envelope, receipt, ms) <==> expires - span <= ms < expires {
        RemainingIs(expires - ms, left);
      }
      assert ReportExactlyWithin(envelope, receipt, expires - span, expires);
    } else {
      assert ReportExactlyWithin(envelope, receipt, 0, 0);
    }
  }

  lemma RemainingIs(ms: int, left: real)
    ensures 0.0 < ms as real / 1000.0 <= left <==> 0 < ms <= (1000.0 * left).Floor
  {
    assert ms as real / 1000.0 <= left <==> ms as real <= 1000.0 * left;
  }

  // ---- 3. model prose ------------------------------------------------------------------------------

  /** Model prose appears only for a model bound to the outer generation and the advisory's frame and trace. */
  lemma ModelProseIsBound(payload: Json, clocks: Clocks, k: Key)
    requires OperatorView(payload, clocks).Shown?
    requires k in MODEL_PROSE && Get(OperatorView(payload, clocks).fields, ModelAnalysis).Obj?
    requires k in OperatorView(payload, clocks).fields[ModelAnalysis].m
    ensures payload.Obj? && Get(payload.m, ModelAnalysis).Obj?
    ensures ModelIsCurrent(payload.m[ModelAnalysis].m, payload.m)
    ensures Get(OperatorView(payload, clocks).fields[ModelAnalysis].m, IsCurrent) == Bool(true)
  {
    ViewOfModel(payload, clocks);
    hide OperatorView;
    ProseNeedsBinding(payload.m[ModelAnalysis].m, payload.m, k);
  }

  lemma ViewOfModel(payload: Json, clocks: Clocks)
    requires OperatorView(payload, clocks).Shown?
    requires Get(OperatorView(payload, clocks).fields, ModelAnalysis).Obj?
    ensures payload.Obj? && Get(payload.m, ModelAnalysis).Obj?
    ensures OperatorView(payload, clocks).fields[ModelAnalysis] == Obj(ModelProjection(payload.m[ModelAnalysis].m, payload.m))
  {
    hide Listed, FullMatch, FastCurrent, DisplayedEnvelope, KnowledgeShown, ModelProjection, ReceiptReadable, TopScalar;
    hide Degraded, StatusOnly, ShowsReport, ReferencesUsable, ReportBlock, MarksKnowledgeCurrent;
    if payload.Obj? {
      ShownMember(payload.m, ModelAnalysis);
      DegradedShape(payload.m, clocks.nowMs);
    }
  }

  lemma ProseNeedsBinding(value: Fields, envelope: Fields, k: Key)
    requires k in MODEL_PROSE && k in ModelProjection(value, envelope)
    ensures ModelIsCurrent(value, envelope)
    ensures Get(ModelProjection(value, envelope), IsCurrent) == Bool(true)
  {
    hide Listed, FullMatch, SafeText, ModelFields;
    assert HasProse(ModelFields(value)) by { assert k in ModelFields(value); }
    hide HasProse, WithoutProse;
    CurrentIsShown(value);
  }

  lemma CurrentIsShown(value: Fields)
    requires Get(value, IsCurrent) == Bool(true)
    ensures Get(ModelFields(value), IsCurrent) == Bool(true)
  {
    hide ModelField, Project;
    CurrentIsKept(Get(value, IsCurrent));
    KeptMember(ModelField, value, IsCurrent);
    assert IsCurrent !in UnknownsOf(value);
  }

  lemma CurrentIsKept(v: Json)
    ensures ModelField(IsCurrent, v) == Keep(v.Bool?, v)
  {
    hide ListOf, IsText, IsCount, FullMatch;
  }
}
