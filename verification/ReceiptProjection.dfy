/** The operator projection as a function of the envelope: which members survive, and in what form.
    The dict-filling code is in `ReceiptDisplay`; the theorems are in `ReceiptTheorems`. */
module ReceiptProjection {
  import opened Options
  import opened Text
  import opened Json

  // ---- combinators -------------------------------------------------------------------------------

  /** Keep the members `f` accepts, each replaced by what `f` makes of it. */
  function Project(f: (Key, Json) -> Option<Json>, m: Fields): Fields {
    map k | k in m && f(k, m[k]).Some? :: f(k, m[k]).value
  }

  /** Keep the items `f` accepts, in order. */
  function FilterMap(f: Json -> Option<Json>, xs: seq<Json>): seq<Json> {
    if xs == [] then []
    else
      var rest := FilterMap(f, xs[..|xs| - 1]);
      var last := f(xs[|xs| - 1]);
      if last.Some? then rest + [last.value] else rest
  }

  function Take(xs: seq<Json>, n: nat): seq<Json> {
    if |xs| <= n then xs else xs[..n]
  }

  function Keep(ok: bool, v: Json): Option<Json> {
    if ok then Some(v) else None
  }

  function NonEmptyObj(m: Fields): Option<Json> {
    Keep(m != map[], Obj(m))
  }

  // ---- value checks ------------------------------------------------------------------------------

  predicate IsText(v: Json, limit: nat) { v.Str? && |v.s| <= limit && SafeText(v.s) }

  predicate IsMatch(v: Json, p: Pattern) { v.Str? && FullMatch(p, v.s) }

  predicate IsId(v: Json) { IsMatch(v, Identifier) }

  predicate IsWord(v: Json, words: Vocabulary) { v.Str? && Listed(words, v.s) }

  predicate IsCount(v: Json, cap: int) { v.Int? && 0 <= v.i <= cap }

  /** An int or a finite float within the bounds; never a boolean. */
  predicate BoundedNumber(v: Json, low: real, high: real) {
    match v
    case Int(i) => low <= i as real <= high
    case Float(x) => low <= x <= high
    case _ => false
  }

  // ---- fixed vocabularies ------------------------------------------------------------------------

  datatype Vocabulary =
    | LaneStatuses | EnvelopeStatuses | Reasons | EdgeActions | EdgeModes | EdgeResults | Outcomes
    | ObservationStatuses | FinishedStatuses

  predicate Listed(words: Vocabulary, s: string) {
    match words
    case LaneStatuses => s in {
      "starting", "queued", "disabled", "missing_token", "invalid_configuration", "unavailable", "timeout",
      "oversized", "redirect_rejected", "auth_rejected", "scope_rejected", "malformed", "received", "superseded",
      "projected", "rejected" }
    case EnvelopeStatuses => s in { "starting", "pending", "complete", "queued", "degraded", "unavailable" }
    case Reasons => s in {
      "starting", "pending", "queued", "queue_full", "package_unavailable", "stale_job",
      "invalid_knowledge_status", "result_too_large" }
    case EdgeActions => s in { "observe", "notify", "throttle", "redirect", "isolate" }
    case EdgeModes => s in { "disabled", "dry_run", "policy_gated", "release_guard_failed", "enforced" }
    case EdgeResults => s in {
      "no_disruptive_action", "planned_not_applied", "extended", "already_held", "applied", "failed", "uncertain" }
    case Outcomes => s in { "allowed", "blocked", "drop", "rejected" }
    case ObservationStatuses => s in { "observed", "unavailable" }
    case FinishedStatuses => s in { "complete", "partial" }
  }

  const FRESHNESS_VERIFICATION := "reported_unverified_at_lookup"
  const PROVENANCE := "rust_core_normalized_event"

  // ---- source context ----------------------------------------------------------------------------

  const SOURCE_FIELDS := {EventType, AttackType, Category, Protocol, Ts, Sid, Severity, TargetPort,
                          TechniqueIds, NormalizedOutcome}

  function TechniqueItem(v: Json): Option<Json> { Keep(IsMatch(v, Technique), v) }

  function LabelLimit(name: Key): nat {
    if name.EventType? then 32
    else if name.AttackType? then 96
    else if name.Category? then 64
    else 16
  }

  predicate IsLabel(name: Key, raw: Json) {
    && raw.Str? && |raw.s| <= LabelLimit(name) && FullMatch(Label, raw.s)
    && Lower(Strip(raw.s)) != "unknown"
  }

  /** What is shown of one observed value. */
  function ObservedValue(name: Key, raw: Json): Option<Json> {
    if name.TechniqueIds? then
      Some(List(if raw.List? then FilterMap(TechniqueItem, Take(raw.items, 16)) else []))
    else if raw.Null? then Some(Null)
    else
      if name.Sid? then Keep(raw.Int? && 1 <= raw.i <= 0x7fff_ffff, raw)
      else if name.Severity? then Keep(raw.Int? && 0 <= raw.i <= 10, raw)
      else if name.TargetPort? then Keep(raw.Int? && 1 <= raw.i <= 65535, raw)
      else if name.Ts? then Keep(IsMatch(raw, Timestamp), raw)
      else if name.Protocol? then Keep(IsMatch(raw, ProtocolText) || IsLabel(name, raw), raw)
      else if name.EventType? then Keep(IsLabel(name, raw), raw)
      else if name.AttackType? then Keep(IsLabel(name, raw), raw)
      else if name.Category? then Keep(IsLabel(name, raw), raw)
      else if name.NormalizedOutcome? then Keep(IsWord(raw, Outcomes), raw)
      else None
  }

  function ObservedField(name: Key, item: Json): Option<Json> {
    if name in SOURCE_FIELDS && item.Obj?
       && IsWord(Get(item.m, Status), ObservationStatuses) && Get(item.m, Provenance) == Str(PROVENANCE)
    then
      var shown := ObservedValue(name, Get(item.m, ValueKey));
      if shown.Some? then
        Some(Obj(map[ValueKey := shown.value, Status := item.m[Status], Provenance := item.m[Provenance]]))
      else None
    else None
  }

  function ContextField(k: Key, v: Json): Option<Json> {
    if k.EventKey? then Some(v)
    else if k.FieldsKey? then Some(Obj(if v.Obj? then Project(ObservedField, v.m) else map[]))
    else None
  }

  function ContextProjection(v: Json): Option<Json> {
    if v.Obj? && EventKey in v.m && v.m[EventKey].Str? && (v.m[EventKey].s == "" || FullMatch(EventKeyText, v.m[EventKey].s))
    then Some(Obj(Project(ContextField, v.m)))
    else None
  }

  // ---- advisory ----------------------------------------------------------------------------------

  function TextItem(size: nat): Json -> Option<Json> {
    (v: Json) => Keep(IsText(v, size), v)
  }

  /** A hypothesis may also be an object, of which only the statement is shown. */
  function HypothesisItem(size: nat): Json -> Option<Json> {
    (v: Json) => if v.Obj? then
           if IsText(Get(v.m, Statement), size) then Some(Obj(map[Statement := v.m[Statement]])) else None
         else Keep(IsText(v, size), v)
  }

  predicate HandoffScalar(k: Key, v: Json) {
    if k.Summary? then IsText(v, 480)
    else if k.OperatorNote? then IsText(v, 480)
    else if k.Status? then IsText(v, 64)
    else false
  }

  function HandoffField(k: Key, v: Json): Option<Json> {
    if k.CheckNext? then
      if v.List? then Some(List(if |v.items| <= 4 then FilterMap(TextItem(200), v.items) else [])) else None
    else Keep(HandoffScalar(k, v), v)
  }

  function HandoffProjection(v: Json): Option<Json> {
    if v.Obj? then Some(Obj(Project(HandoffField, v.m))) else None
  }

  predicate RecommendationScalar(k: Key, v: Json) {
    if k.Summary? then IsText(v, 480)
    else if k.RecommendedAction? then IsText(v, 240)
    else false
  }

  function RecommendationField(k: Key, v: Json): Option<Json> { Keep(RecommendationScalar(k, v), v) }

  predicate AdvisoryScalar(k: Key, v: Json) {
    if k.SchemaVersion? then IsText(v, 48)
    else if k.TraceId? then IsId(v)
    else if k.FrameId? then IsId(v)
    else if k.Summary? then IsText(v, 480)
    else if k.GenerationMethod? then IsText(v, 32)
    else if k.StateKey? then IsText(v, 48)
    else if k.CycleDisposition? then IsText(v, 32)
    else false
  }

  function AdvisoryField(k: Key, v: Json): Option<Json> {
    if k.Recommendation? then
      if v.Obj? then NonEmptyObj(Project(RecommendationField, v.m)) else Keep(IsText(v, 480), v)
    else if k.Handoff? then HandoffProjection(v)
    else if k.Hypotheses? then ListOf(HypothesisItem(360), v, 4)
    else if k.Unknowns? then ListOf(TextItem(160), v, 12)
    else if k.Observations? then ListOf(TextItem(480), v, 16)
    else if k.NextChecks? then ListOf(TextItem(200), v, 4)
    else Keep(AdvisoryScalar(k, v), v)
  }

  function ListOf(f: Json -> Option<Json>, v: Json, count: nat): Option<Json> {
    if v.List? then Some(List(FilterMap(f, Take(v.items, count)))) else None
  }

  function AdvisoryProjection(v: Json): Option<Json> {
    if v.Obj? then Some(Obj(Project(AdvisoryField, v.m))) else None
  }

  // ---- model analysis ----------------------------------------------------------------------------

  const MODEL_PROSE := {Summary, Hypotheses, NextChecks, Unknowns, UnknownsTotal, Uncertainties, FrameId,
                        TraceId, GenerationMethod}

  function StatementOf(v: Json): Json {
    if v.Obj? then Get(v.m, Statement) else v
  }

  /** A model hypothesis is always shown as an object holding its statement. */
  function StatementItem(size: nat): Json -> Option<Json> {
    (v: Json) => if IsText(StatementOf(v), size) then Some(Obj(map[Statement := StatementOf(v)])) else None
  }

  function PlainItem(size: nat): Json -> Option<Json> {
    (v: Json) => if IsText(StatementOf(v), size) then Some(StatementOf(v)) else None
  }

  /** The longest text of a model member; 0 for a member that is not text. */
  function ModelTextLimit(k: Key): nat {
    if k.SchemaVersion? then 48
    else if k.Status? then 24
    else if k.Summary? then 480
    else if k.MioState? then 48
    else if k.Model? then 96
    else if k.UsageStatus? then 16
    else if k.Outcome? then 32
    else if k.GenerationMethod? then 32
    else if k.ValidationRejection? then 48
    else if k.FrameId? then 96
    else if k.TraceId? then 96
    else if k.Reason? then 64
    else 0
  }

  /** The largest count of a model member; 0 for a member that is not a count. */
  function ModelCountCap(k: Key): nat {
    if k.DurationMs? || k.LoadDurationMs? then 600000
    else if k.PromptTokens? || k.CompletionTokens? then 400000
    else if k.RequestCount? || k.MeteredRequestCount? || k.UnknownUsageRequestCount? || k.TruncatedCount? then 4
    else 0
  }

  predicate ModelScalar(k: Key, v: Json) {
    if ModelTextLimit(k) > 0 then IsText(v, ModelTextLimit(k))
    else if ModelCountCap(k) > 0 then IsCount(v, ModelCountCap(k))
    else (k.FastGeneration? && IsId(v)) || (k.IsCurrent? && v.Bool?)
  }

  function ModelField(k: Key, v: Json): Option<Json> {
    if k.Hypotheses? then ListOf(StatementItem(360), v, 4)
    else if k.NextChecks? then ListOf(PlainItem(200), v, 4)
    else if k.Uncertainties? then ListOf(PlainItem(100), v, 3)
    else Keep(ModelScalar(k, v), v)
  }

  /** The reported total of unknowns; a list shorter than the cap counts itself when no total is given. */
  function UnknownTotal(value: Fields, listed: nat): Json {
    if UnknownsTotal !in value && listed < 12 then Int(listed) else Get(value, UnknownsTotal)
  }

  predicate AllTexts(xs: seq<Json>, size: nat) { forall i | 0 <= i < |xs| :: IsText(xs[i], size) }

  /** The list of unknowns is shown whole or not at all, so a rejected item never reads as "no gap". */
  function UnknownsOf(value: Fields): Fields {
    var raw := Get(value, Unknowns);
    if raw.List? && |raw.items| <= 100 && AllTexts(Take(raw.items, 12), 160) then
      var total := UnknownTotal(value, |raw.items|);
      if total.Int? && |raw.items| <= total.i <= 100
      then map[Unknowns := List(Take(raw.items, 12)), UnknownsTotal := total]
      else map[]
    else map[]
  }

  function ModelFields(value: Fields): Fields {
    Project(ModelField, value) + UnknownsOf(value)
  }

  /** Bound to the outer generation and to the current advisory's frame and trace. */
  predicate ModelIsCurrent(value: Fields, envelope: Fields) {
    var advisory := Get(envelope, Advisory);
    && Get(value, IsCurrent) == Bool(true) && advisory.Obj?
    && Get(envelope, Generation).Str? && Get(value, FastGeneration) == Get(envelope, Generation)
    && NamesSame(value, advisory.m, FrameId) && NamesSame(value, advisory.m, TraceId)
  }

  predicate NamesSame(value: Fields, advisory: Fields, k: Key) {
    Get(advisory, k).Str? && Get(advisory, k).s != "" && Get(value, k) == Get(advisory, k)
  }

  predicate HasProse(m: Fields) { exists k | k in MODEL_PROSE :: k in m }

  function WithoutProse(m: Fields): Fields {
    (m - MODEL_PROSE)[IsCurrent := Bool(false)]
  }

  /** The status test puts the value in a set lookup, which a list or a dict cannot take part in. */
  predicate Unhashable(v: Json) { v.List? || v.Obj? }

  function ModelProjection(value: Fields, envelope: Fields): Fields {
    var shown := ModelFields(value);
    if (IsWord(Get(value, Status), FinishedStatuses) || Get(value, IsCurrent) == Bool(true) || HasProse(shown))
       && !ModelIsCurrent(value, envelope)
    then WithoutProse(shown)
    else shown
  }

  // ---- other members of the envelope -------------------------------------------------------------

  predicate BindingScalar(k: Key, v: Json) {
    if k.Status? then v == Str("matched")
    else if k.Valid? then v.Bool?
    else if k.Generation? then IsId(v)
    else if k.EventKey? then IsMatch(v, EventKeyText)
    else if k.EdgeTraceId? then IsId(v)
    else if k.MioTraceId? then IsId(v)
    else if k.FrameId? then IsId(v)
    else if k.EdgeAction? then IsWord(v, EdgeActions)
    else if k.EdgeMode? then IsWord(v, EdgeModes)
    else if k.EdgeResult? then IsWord(v, EdgeResults)
    else false
  }

  function BindingField(k: Key, v: Json): Option<Json> { Keep(BindingScalar(k, v), v) }

  function BindingProjection(v: Json): Option<Json> {
    if v.Obj? then Some(Obj(Project(BindingField, v.m))) else None
  }

  predicate ComparisonScalar(k: Key, v: Json) {
    if k.SchemaVersion? then IsText(v, 48)
    else if k.Status? then IsText(v, 24)
    else if k.Authority? then IsText(v, 32)
    else if k.Generation? then IsId(v)
    else if k.TraceId? then IsId(v)
    else if k.EdgeScore? then IsCount(v, 100)
    else if k.MioScore? then IsCount(v, 100)
    else if k.Matches? then v.Bool?
    else false
  }

  function ComparisonField(k: Key, v: Json): Option<Json> { Keep(ComparisonScalar(k, v), v) }

  predicate AllOf(v: Json, count: nat, p: Pattern) {
    v.List? && |v.items| <= count && forall i | 0 <= i < |v.items| :: IsMatch(v.items[i], p)
  }

  predicate IsFeedAge(v: Json) { v.Null? || BoundedNumber(v, 0.0, 36500.0) }

  predicate IsVersion(v: Json) { v.Null? || (IsMatch(v, Version)) }

  function FreshnessPair(v: Json): Option<Json> {
    if v.Obj? && OldestFeedDays in v.m && AttackVersion in v.m
       && IsFeedAge(v.m[OldestFeedDays]) && IsVersion(v.m[AttackVersion])
    then Some(Obj(map[OldestFeedDays := v.m[OldestFeedDays], AttackVersion := v.m[AttackVersion]]))
    else None
  }

  /** The longest text of a sidecar member; 0 for a member that is not text. */
  function SidecarTextLimit(k: Key): nat {
    if k.SchemaVersion? then 48
    else if k.Status? then 24
    else if k.Authority? || k.ClaimStatus? || k.Trust? then 32
    else 0
  }

  predicate SidecarMember(k: Key, v: Json) {
    if SidecarTextLimit(k) > 0 then IsText(v, SidecarTextLimit(k))
    else if k.Generation? || k.TraceId? then IsId(v)
    else (k.SourceGroups? && AllOf(v, 16, SourceGroup)) || (k.AttackTechniques? && AllOf(v, 32, Technique))
  }

  function SidecarField(k: Key, v: Json): Option<Json> {
    if k.SourceFreshness? then FreshnessPair(v) else Keep(SidecarMember(k, v), v)
  }

  function KnowledgeLane(v: Json): Option<Json> {
    if v.Obj? && IsText(Get(v.m, Status), 32) then Some(Obj(map[Status := v.m[Status]])) else None
  }

  // ---- Edge observation (producer side) ----------------------------------------------------------

  const EDGE_KEYS := {Action, Mode, ResultKey, TraceId, UnknownFields}

  predicate IsAction(v: Json) { v.Str? && IsWord(Str(Lower(v.s)), EdgeActions) }

  /** A member that is present but not shown, or not one of the known members, raises the marker. */
  predicate HidesSomething(edge: Fields) {
    || (UnknownFields in edge && edge[UnknownFields] != Bool(false))
    || (exists k | k in edge :: k !in EDGE_KEYS)
    || (!Get(edge, Action).Null? && !IsAction(Get(edge, Action)))
    || (!Get(edge, Mode).Null? && !IsWord(Get(edge, Mode), EdgeModes))
    || (!Get(edge, ResultKey).Null? && !IsWord(Get(edge, ResultKey), EdgeResults))
  }

  function EdgeField(k: Key, v: Json): Option<Json> {
    if k.Action? then if IsAction(v) then Some(Str(Lower(v.s))) else None
    else if k.Mode? then Keep(IsWord(v, EdgeModes), v)
    else if k.ResultKey? then Keep(IsWord(v, EdgeResults), v)
    else None
  }

  function EdgeObservation(v: Json): Fields {
    if !v.Obj? then map[]
    else
      var shown := Project(EdgeField, v.m);
      if HidesSomething(v.m) then shown[UnknownFields := Bool(true)] else shown
  }

  /** The observation shown in a current envelope also carries a safe trace identifier. */
  function EdgeDisplay(v: Json): Fields {
    if v.Obj? && IsId(Get(v.m, TraceId)) then EdgeObservation(v)[TraceId := v.m[TraceId]] else EdgeObservation(v)
  }

  /** The completed envelope and the handoff name one event. */
  predicate BindingMatches(envelope: Fields) {
    var binding, edge, context := Get(envelope, HandoffBinding), Get(envelope, EdgeEvent), Get(envelope, SourceContext);
    && binding.Obj? && edge.Obj? && context.Obj?
    && Truthy(Get(context.m, EventKey))
    && IsId(Get(edge.m, TraceId)) && IsWord(Get(edge.m, Action), EdgeActions)
    && IsWord(Get(edge.m, Mode), EdgeModes) && IsWord(Get(edge.m, ResultKey), EdgeResults)
    && PyEq(Get(binding.m, Generation), Get(envelope, Generation))
    && PyEq(Get(binding.m, EventKey), Get(context.m, EventKey))
    && PyEq(Get(binding.m, EdgeTraceId), Get(edge.m, TraceId))
    && PyEq(Get(binding.m, EdgeAction), Get(edge.m, Action))
    && PyEq(Get(binding.m, EdgeMode), Get(edge.m, Mode))
    && PyEq(Get(binding.m, EdgeResult), Get(edge.m, ResultKey))
    && PyEq(Get(binding.m, EdgeTraceId), Get(envelope, TraceId))
    && (Get(envelope, Status) == Str("complete") ==>
          var advisory := Get(envelope, Advisory);
          && advisory.Obj?
          && PyEq(Get(binding.m, MioTraceId), Get(advisory.m, TraceId))
          && PyEq(Get(binding.m, FrameId), Get(advisory.m, FrameId)))
    && Get(binding.m, Status) == Str("matched")
  }

  // ---- the envelope ------------------------------------------------------------------------------

  predicate TopScalar(k: Key, v: Json) {
    if k.Status? then IsWord(v, EnvelopeStatuses)
    else if k.IsCurrent? then v.Bool?
    else if k.Generation? then IsId(v)
    else if k.TraceId? then IsId(v)
    else if k.CompletedAt? then IsText(v, 64)
    else if k.MaxAgeSeconds? then BoundedNumber(v, 0.0, 10.0)
    else if k.Reason? then IsWord(v, Reasons) || IsMatch(v, FailureReason)
    else false
  }

  function TopMember(envelope: Fields, k: Key, v: Json): Option<Json> {
    if k.EdgeEvent? then Some(Obj(EdgeDisplay(v)))
    else if k.SourceContext? then ContextProjection(v)
    else if k.HandoffBinding? then BindingProjection(v)
    else if k.Advisory? then AdvisoryProjection(v)
    else if k.ModelAnalysis? then if v.Obj? then Some(Obj(ModelProjection(v.m, envelope))) else None
    else if k.Knowledge? then KnowledgeLane(v)
    else if k.EdgeScoreComparison? then if v.Obj? then NonEmptyObj(Project(ComparisonField, v.m)) else None
    else if k.EdgeKnowledgeAdvisory? then if v.Obj? then NonEmptyObj(Project(SidecarField, v.m)) else None
    else Keep(TopScalar(k, v), v)
  }

  function TopField(envelope: Fields): (Key, Json) -> Option<Json> {
    (k: Key, v: Json) => TopMember(envelope, k, v)
  }

  function DisplayedEnvelope(envelope: Fields): Fields {
    Project(TopField(envelope), envelope)
  }

  /** Displaying the envelope raises on a model status that cannot be looked up in a set. */
  predicate DisplayRaises(envelope: Fields) {
    var model := Get(envelope, ModelAnalysis);
    model.Obj? && Unhashable(Get(model.m, Status))
  }

  const NO_FRESHNESS := Obj(map[Status := Str("unavailable"), OldestFeedDays := Null, AttackVersion := Null])

  function StatusOnly(envelope: Fields, status: string): Fields {
    map[Status := Str("unavailable"), IsCurrent := Bool(false), MaxAgeSeconds := Int(0),
        EdgeEvent := Obj(EdgeObservation(Get(envelope, EdgeEvent))),
        KnowledgeAnalysis := Obj(map[
          Status := Str(if IsWord(Str(status), LaneStatuses) then status else "unavailable"),
          IsCurrent := Bool(false), SourceFreshness := NO_FRESHNESS])]
  }

  // ---- clocks and currency -----------------------------------------------------------------------

  /** `now` is seconds since the epoch, `nowMs` the same wall clock in whole milliseconds as the report
      check reads it; `stamp` turns ISO text that carries a UTC offset into seconds. */
  datatype Clocks = Clocks(now: real, nowMs: int, stamp: string -> Option<real>)

  /** The number of seconds a limit allows. */
  function Seconds(v: Json): real
    requires BoundedNumber(v, 0.0, 10.0)
  {
    Number(v)
  }

  /** The handoff the producer itself marked as valid and that still names this envelope. */
  predicate ProducerBound(envelope: Fields) {
    var binding := Get(envelope, HandoffBinding);
    binding.Obj? && Get(binding.m, Valid) == Bool(true) && BindingMatches(envelope)
  }

  predicate WithinAge(envelope: Fields, clocks: Clocks) {
    var completed, limit := Get(envelope, CompletedAt), Get(envelope, MaxAgeSeconds);
    && completed.Str? && clocks.stamp(completed.s).Some?
    && BoundedNumber(limit, 0.0, 10.0) && Seconds(limit) != 0.0
    && 0.0 <= clocks.now - clocks.stamp(completed.s).value <= Seconds(limit)
  }

  predicate FastCurrent(envelope: Fields, clocks: Clocks) {
    && Get(envelope, Status) == Str("complete") && Get(envelope, IsCurrent) == Bool(true)
    && WithinAge(envelope, clocks) && ProducerBound(envelope)
  }

  // ---- knowledge receipt -------------------------------------------------------------------------

  /** The receipt schema is the one this projection reads. */
  predicate ReceiptReadable(receipt: Json) {
    && receipt.Obj?
    && Get(receipt.m, SchemaVersion) == Str("azazel.mio_knowledge_analysis.v1")
    && Get(receipt.m, Authority) == Str("read_only_advisory")
    && Get(receipt.m, UsageStatus) == Str("not_applicable")
    && Get(receipt.m, Status).Str? && IsWord(Get(receipt.m, Status), LaneStatuses)
  }

  /** All six identifiers of the receipt are well-formed and name the enclosing envelope. */
  predicate IdentifiersBound(envelope: Fields, receipt: Fields) {
    var advisory, context := Get(envelope, Advisory), Get(envelope, SourceContext);
    && advisory.Obj? && context.Obj?
    && IsId(Get(receipt, Generation)) && IsId(Get(receipt, FrameGeneration)) && IsId(Get(receipt, SourceTraceId))
    && IsId(Get(receipt, TraceId)) && IsId(Get(receipt, FrameId))
    && IsMatch(Get(receipt, EventKey), EventKeyText)
    && Get(receipt, Generation) == Get(envelope, Generation)
    && Get(receipt, FrameGeneration) == Get(envelope, Generation)
    && Get(receipt, SourceTraceId) == Get(envelope, TraceId)
    && Get(receipt, EventKey) == Get(context.m, EventKey)
    && Get(receipt, TraceId) == Get(advisory.m, TraceId)
    && Get(receipt, FrameId) == Get(advisory.m, FrameId)
  }

  /** The references are labelled as unverified and are well-formed. */
  predicate ReferencesUsable(projection: Json) {
    && projection.Obj?
    && Get(projection.m, ClaimStatus) == Str("reported_unverified")
    && Get(projection.m, Trust) == Str("unverified_advisory_only")
    && AllOf(Get(projection.m, AttackTechniques), 16, Technique)
    && AllOf(Get(projection.m, SourceGroups), 16, SourceGroup)
  }

  function FreshnessOf(projection: Fields, receipt: Fields): Json {
    var value := Get(projection, SourceFreshness);
    if && value.Obj? && value.m.Keys == {OldestFeedDays, AttackVersion}
       && Get(receipt, SourceFreshnessVerification) == Str(FRESHNESS_VERIFICATION)
       && IsFeedAge(value.m[OldestFeedDays]) && IsVersion(value.m[AttackVersion])
    then Obj(map[Status := Str(FRESHNESS_VERIFICATION), OldestFeedDays := value.m[OldestFeedDays],
                 AttackVersion := value.m[AttackVersion]])
    else NO_FRESHNESS
  }

  /** 2^97, and from it the smallest magnitude that rounds past the largest double: (2^54 - 1) * 2^970. */
  const TWO_97: nat := 0x2_0000_0000_0000_0000_0000_0000
  const TWO_485: nat := TWO_97 * TWO_97 * TWO_97 * TWO_97 * TWO_97
  const FLOAT_LIMIT: nat := 0x3F_FFFF_FFFF_FFFF * TWO_485 * TWO_485

  /** Dividing this many milliseconds by 1000 has no floating-point result: Python raises. */
  predicate DivisionOverflows(ms: int) { ms >= 1000 * FLOAT_LIMIT || ms <= -1000 * FLOAT_LIMIT }

  /** The receipt offers a last report for this completed, producer-bound envelope. */
  predicate ReportOffered(envelope: Fields, receipt: Fields) {
    && Get(receipt, ReportState) == Str("last_report") && Get(receipt, IsCurrent) == Bool(false)
    && Get(envelope, Status) == Str("complete")
    && ProducerBound(envelope)
    && Get(envelope, Advisory).Obj? && Get(envelope, SourceContext).Obj?
  }

  /** The report's age and limit are in range and its expiry is an integer, of whatever size. */
  predicate ReportTimed(receipt: Fields) {
    var age, limit := Get(receipt, ReportAgeSeconds), Get(receipt, MaxAgeSeconds);
    && BoundedNumber(age, 0.0, 10.0) && BoundedNumber(limit, 0.1, 10.0) && Number(age) <= Number(limit)
    && Get(receipt, ReportExpiresAtMs).Int?
  }

  /** Reading the time that remains raises. */
  predicate ReportOverflows(envelope: Fields, receipt: Fields, nowMs: int) {
    ReportOffered(envelope, receipt) && ReportTimed(receipt)
    && DivisionOverflows(Get(receipt, ReportExpiresAtMs).i - nowMs)
  }

  /** The report's own age and expiry allow it to be shown at this moment. */
  predicate ReportInTime(receipt: Fields, nowMs: int) {
    && ReportTimed(receipt)
    && 0.0 < (Get(receipt, ReportExpiresAtMs).i - nowMs) as real / 1000.0
         <= Number(Get(receipt, MaxAgeSeconds)) - Number(Get(receipt, ReportAgeSeconds)) + 0.1
  }

  predicate ReportShown(envelope: Fields, receipt: Fields, nowMs: int) {
    && ReportOffered(envelope, receipt)
    && ReportInTime(receipt, nowMs)
    && IdentifiersBound(envelope, receipt)
    && ReferencesUsable(Get(receipt, Projection))
  }

  /** The report block is a function of the receipt alone. */
  function ReportBlock(receipt: Fields): Fields
    requires ReferencesUsable(Get(receipt, Projection))
  {
    var projection := Get(receipt, Projection).m;
    map[Status := Str("projected"), IsCurrent := Bool(false), ReportState := Str("last_report"),
        ClaimStatus := Str("reported_unverified"), Trust := Str("unverified_advisory_only"),
        AttackTechniques := Get(projection, AttackTechniques), SourceGroups := Get(projection, SourceGroups),
        ReportAgeSeconds := Get(receipt, ReportAgeSeconds), MaxAgeSeconds := Get(receipt, MaxAgeSeconds),
        ReportExpiresAtMs := Get(receipt, ReportExpiresAtMs),
        SourceFreshness := FreshnessOf(projection, receipt)]
  }

  predicate KnowledgeCurrent(envelope: Fields, receipt: Fields) {
    && Get(receipt, IsCurrent) == Bool(true)
    && IdentifiersBound(envelope, receipt)
    && ReferencesUsable(Get(receipt, Projection))
  }

  function CurrentBlock(receipt: Fields): Fields
    requires ReferencesUsable(Get(receipt, Projection))
  {
    var projection := Get(receipt, Projection).m;
    map[Status := Str("projected"), IsCurrent := Bool(true),
        ClaimStatus := Str("reported_unverified"), Trust := Str("unverified_advisory_only"),
        Generation := Get(receipt, Generation), FrameGeneration := Get(receipt, FrameGeneration),
        SourceTraceId := Get(receipt, SourceTraceId), EventKey := Get(receipt, EventKey),
        TraceId := Get(receipt, TraceId), FrameId := Get(receipt, FrameId),
        AttackTechniques := Get(projection, AttackTechniques), SourceGroups := Get(projection, SourceGroups),
        SourceFreshness := FreshnessOf(projection, receipt)]
  }

  function LaneOnly(status: string): Json {
    Obj(map[Status := Str(status), IsCurrent := Bool(false)])
  }

  /** What a current envelope says about Knowledge. */
  function KnowledgeShown(envelope: Fields): Json {
    var receipt := Get(envelope, KnowledgeAnalysis);
    if !ReceiptReadable(receipt) then LaneOnly("unavailable")
    else if receipt.m[Status] == Str("projected") && KnowledgeCurrent(envelope, receipt.m)
    then Obj(CurrentBlock(receipt.m))
    else LaneOnly(receipt.m[Status].s)
  }

  /** What an envelope that is not current shows: lane status, Edge observation, perhaps one last report. */
  function Degraded(envelope: Fields, nowMs: int): Fields {
    var receipt := Get(envelope, KnowledgeAnalysis);
    if !ReceiptReadable(receipt) then StatusOnly(envelope, "unavailable")
    else
      var base := StatusOnly(envelope, receipt.m[Status].s);
      if receipt.m[Status] == Str("projected") && ReportShown(envelope, receipt.m, nowMs)
      then base[KnowledgeAnalysis := Obj(ReportBlock(receipt.m))]
      else base
  }

  /** Degrading the envelope raises: the projected receipt's last report has an expiry no float can hold. */
  predicate DegradingRaises(envelope: Fields, nowMs: int) {
    var receipt := Get(envelope, KnowledgeAnalysis);
    && ReceiptReadable(receipt) && receipt.m[Status] == Str("projected")
    && ReportOverflows(envelope, receipt.m, nowMs)
  }

  datatype Display = Raised | Shown(fields: Fields)

  /** The whole operator projection. */
  function OperatorView(payload: Json, clocks: Clocks): Display {
    if !payload.Obj? then Shown(map[])
    else if FastCurrent(payload.m, clocks) then
      if DisplayRaises(payload.m) then Raised
      else Shown(DisplayedEnvelope(payload.m)[KnowledgeAnalysis := KnowledgeShown(payload.m)])
    else if DegradingRaises(payload.m, clocks.nowMs) then Raised
    else Shown(Degraded(payload.m, clocks.nowMs))
  }

  lemma BoundHasObjects(p: Fields)
    requires ProducerBound(p) && Get(p, Status) == Str("complete")
    ensures Get(p, Advisory).Obj? && Get(p, SourceContext).Obj?
  {
    hide Listed, FullMatch, PyEq;
  }

  lemma UnavailableIsListed()
    ensures Listed(LaneStatuses, "unavailable")
  {
  }
}
