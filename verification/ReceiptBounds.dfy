/** The operator projection is closed and bounded: for every JSON input, whatever is shown uses a fixed set
    of member names, short safe text, short lists and shallow nesting. */
module ReceiptBounds {
  import opened Options
  import opened Text
  import opened Json
  import opened ReceiptProjection

  /** Names that can appear in the output: none outside the fixed vocabulary, and none that only the
      producer's receipt or the AI gate uses. */
  predicate DisplayKey(k: Key) {
    && !k.Other? && !k.Projection? && !k.SourceFreshnessVerification? && !k.Ai?
  }

  /** Text short and safe enough to show. */
  predicate Plain(s: string) { |s| <= 480 && SafeText(s) }

  /** Plain text, lists of at most 32 items, display names, finite numbers, and at most `depth` containers
      inside one another: so the whole value has bounded size. */
  ghost predicate Bounded(j: Json, depth: nat)
    decreases depth
  {
    match j
    case Str(s) => Plain(s)
    case List(xs) => depth > 0 && |xs| <= 32 && forall x | x in xs :: Bounded(x, depth - 1)
    case Obj(m) => depth > 0 && forall k | k in m :: DisplayKey(k) && Bounded(m[k], depth - 1)
    case Infinite(_) => false
    case NaN => false
    case _ => true
  }

  // ---- text ----------------------------------------------------------------------------------------

  lemma LaneWordsPlain()
    ensures Plain("starting") && Plain("queued") && Plain("disabled") && Plain("missing_token")
    ensures Plain("invalid_configuration") && Plain("unavailable") && Plain("timeout") && Plain("oversized")
  {
  }

  lemma MoreLaneWordsPlain()
    ensures Plain("redirect_rejected") && Plain("auth_rejected") && Plain("scope_rejected") && Plain("malformed")
    ensures Plain("received") && Plain("superseded") && Plain("projected") && Plain("rejected")
  {
  }

  lemma EnvelopeWordsPlain()
    ensures Plain("pending") && Plain("complete") && Plain("degraded") && Plain("observed") && Plain("allowed")
    ensures Plain("blocked") && Plain("drop") && Plain("partial")
  {
  }

  lemma ReasonWordsPlain()
    ensures Plain("queue_full") && Plain("package_unavailable") && Plain("stale_job")
    ensures Plain("invalid_knowledge_status") && Plain("result_too_large")
  {
  }

  lemma EdgeWordsPlain()
    ensures Plain("observe") && Plain("notify") && Plain("throttle") && Plain("redirect") && Plain("isolate")
    ensures Plain("dry_run") && Plain("policy_gated")
  {
  }

  lemma MoreEdgeWordsPlain()
    ensures Plain("release_guard_failed") && Plain("enforced") && Plain("no_disruptive_action")
    ensures Plain("planned_not_applied") && Plain("extended")
  {
  }

  lemma ResultWordsPlain()
    ensures Plain("already_held") && Plain("applied") && Plain("failed") && Plain("uncertain") && Plain("matched")
    ensures Plain("last_report")
  {
  }

  lemma LabelsPlain()
    ensures Plain(FRESHNESS_VERIFICATION) && Plain(PROVENANCE)
    ensures Plain("reported_unverified") && Plain("unverified_advisory_only")
  {
    hide Plain;
    VerificationPlain();
    ProvenancePlain();
    TrustLabelsPlain();
  }

  lemma VerificationPlain()
    ensures Plain(FRESHNESS_VERIFICATION)
  {
  }

  lemma ProvenancePlain()
    ensures Plain(PROVENANCE)
  {
  }

  lemma TrustLabelsPlain()
    ensures Plain("reported_unverified") && Plain("unverified_advisory_only")
  {
  }

  /** Every word of every vocabulary is plain. */
  lemma ListedIsPlain(words: Vocabulary, s: string)
    requires Listed(words, s)
    ensures Plain(s)
  {
    hide Plain;
    LaneWordsPlain(); MoreLaneWordsPlain(); EnvelopeWordsPlain(); ReasonWordsPlain();
    EdgeWordsPlain(); MoreEdgeWordsPlain(); ResultWordsPlain();
  }

  lemma VersionsAreShort(s: string, more: nat)
    requires VersionParts(s, more)
    ensures |s| <= 3 + 4 * more && forall i | 0 <= i < |s| :: IsDigit(s[i]) || s[i] == '.'
    decreases more
  {
    var k :| 1 <= k <= 3 && k <= |s| && Digits(s[..k])
             && (k == |s| || (more > 0 && s[k] == '.' && VersionParts(s[k + 1..], more - 1)));
    forall i | 0 <= i < k ensures IsDigit(s[i]) { assert s[..k][i] == s[i]; }
    if k < |s| {
      VersionsAreShort(s[k + 1..], more - 1);
      forall i | k < i < |s| ensures IsDigit(s[i]) || s[i] == '.' { assert s[k + 1..][i - k - 1] == s[i]; }
    }
  }

  lemma TechniqueIsPlain(s: string)
    requires IsTechnique(s)
    ensures Plain(s)
  {
    forall i | 0 <= i < |s| ensures SafeChar(s[i]) {
      if 1 <= i < 5 { assert s[1..5][i - 1] == s[i]; }
      if 6 <= i { assert s[6..][i - 6] == s[i]; }
    }
  }

  lemma FailureReasonIsPlain(s: string)
    requires IsFailureReason(s)
    ensures Plain(s)
  {
    forall i | 0 <= i < |s| ensures SafeChar(s[i]) {
      if i < 12 { assert s[i] == "mio_failure:"[i]; }
    }
  }

  /** Every pattern admits plain text only. */
  lemma MatchIsPlain(p: Pattern, s: string)
    requires FullMatch(p, s)
    ensures Plain(s)
  {
    if p == Technique {
      TechniqueIsPlain(s);
    } else if p == Version {
      VersionsAreShort(s, 2);
    } else if p == FailureReason {
      FailureReasonIsPlain(s);
    }
  }

  /** Text that passed any of the checks is plain. */
  lemma CheckedTextIsPlain(v: Json, depth: nat)
    requires v.Str?
    requires || (exists words :: IsWord(v, words)) || (exists p :: IsMatch(v, p))
             || (exists limit: nat :: limit <= 480 && IsText(v, limit))
    ensures Bounded(v, depth)
  {
    hide Listed, FullMatch;
    if words :| IsWord(v, words) { ListedIsPlain(words, v.s); }
    else if p :| IsMatch(v, p) { MatchIsPlain(p, v.s); }
  }

  lemma PlainBounded(s: string, depth: nat)
    requires Plain(s)
    ensures Bounded(Str(s), depth)
  {
  }

  lemma ScalarBounded(v: Json, depth: nat)
    requires v.Null? || v.Bool? || v.Int? || v.Float?
    ensures Bounded(v, depth)
  {
  }

  lemma ObjBounded(m: Fields, depth: nat)
    requires forall k | k in m :: DisplayKey(k) && Bounded(m[k], depth)
    ensures Bounded(Obj(m), depth + 1)
  {
    hide DisplayKey, Plain;
  }

  // ---- objects and lists ---------------------------------------------------------------------------

  /** What a member projection must promise for its object to be bounded. */
  ghost predicate FieldsBounded(f: (Key, Json) -> Option<Json>, depth: nat) {
    forall k, v :: f(k, v).Some? ==> DisplayKey(k) && Bounded(f(k, v).value, depth)
  }

  lemma ProjectBounded(f: (Key, Json) -> Option<Json>, m: Fields, depth: nat)
    requires FieldsBounded(f, depth)
    ensures Bounded(Obj(Project(f, m)), depth + 1)
  {
    hide DisplayKey, Plain;
    var out := Project(f, m);
    forall k | k in out ensures DisplayKey(k) && Bounded(out[k], depth) {
      assert f(k, m[k]).Some?;
    }
  }

  lemma {:induction false} FilterMapBounded(f: Json -> Option<Json>, xs: seq<Json>, depth: nat)
    requires forall v :: f(v).Some? ==> Bounded(f(v).value, depth)
    ensures |FilterMap(f, xs)| <= |xs|
    ensures forall x | x in FilterMap(f, xs) :: Bounded(x, depth)
  {
    if xs != [] {
      FilterMapBounded(f, xs[..|xs| - 1], depth);
    }
  }

  lemma {:induction false} BoundedDeeper(j: Json, low: nat, high: nat)
    requires low <= high && Bounded(j, low)
    ensures Bounded(j, high)
    decreases low
  {
    hide DisplayKey, Plain;
    match j
    case List(xs) =>
      forall x | x in xs ensures Bounded(x, high - 1) { BoundedDeeper(x, low - 1, high - 1); }
    case Obj(m) =>
      forall k | k in m ensures Bounded(m[k], high - 1) { BoundedDeeper(m[k], low - 1, high - 1); }
    case _ =>
  }

  lemma ListOfBounded(f: Json -> Option<Json>, v: Json, count: nat, depth: nat)
    requires count <= 32 && ListOf(f, v, count).Some?
    requires forall x :: f(x).Some? ==> Bounded(f(x).value, depth)
    ensures Bounded(ListOf(f, v, count).value, depth + 1)
  {
    hide Plain;
    FilterMapBounded(f, Take(v.items, count), depth);
  }

  lemma AllOfBounded(v: Json, count: nat, p: Pattern)
    requires count <= 32 && AllOf(v, count, p)
    ensures Bounded(v, 1)
  {
    hide FullMatch, Plain;
    forall i | 0 <= i < |v.items| ensures Bounded(v.items[i], 0) { CheckedTextIsPlain(v.items[i], 0); }
  }

  lemma TextListBounded(v: Json, count: nat, size: nat)
    requires count <= 32 && size <= 480 && v.List?
    ensures Bounded(ListOf(TextItem(size), v, count).value, 2) && Bounded(ListOf(PlainItem(size), v, count).value, 2)
  {
    assert forall x :: TextItem(size)(x).Some? ==> Bounded(TextItem(size)(x).value, 1);
    assert forall x :: PlainItem(size)(x).Some? ==> Bounded(PlainItem(size)(x).value, 1);
    hide Bounded, TextItem, PlainItem, IsText;
    ListOfBounded(TextItem(size), v, count, 1);
    ListOfBounded(PlainItem(size), v, count, 1);
  }

  lemma StatementListBounded(v: Json, count: nat, size: nat)
    requires count <= 32 && size <= 480 && v.List?
    ensures Bounded(ListOf(HypothesisItem(size), v, count).value, 2)
    ensures Bounded(ListOf(StatementItem(size), v, count).value, 2)
  {
    assert forall x :: HypothesisItem(size)(x).Some? ==> Bounded(HypothesisItem(size)(x).value, 1);
    assert forall x :: StatementItem(size)(x).Some? ==> Bounded(StatementItem(size)(x).value, 1);
    hide Bounded, HypothesisItem, StatementItem;
    ListOfBounded(HypothesisItem(size), v, count, 1);
    ListOfBounded(StatementItem(size), v, count, 1);
  }

  // ---- the parts of the envelope -------------------------------------------------------------------

  lemma ObservedValueBounded(name: Key, raw: Json)
    requires ObservedValue(name, raw).Some?
    ensures Bounded(ObservedValue(name, raw).value, 1)
  {
    hide Listed, FullMatch, Plain, Lower, Strip;
    if name == TechniqueIds {
      if raw.List? {
        forall v | TechniqueItem(v).Some? ensures Bounded(TechniqueItem(v).value, 0) { CheckedTextIsPlain(v, 0); }
        FilterMapBounded(TechniqueItem, Take(raw.items, 16), 0);
      }
    } else if raw.Str? {
      assert IsWord(raw, Outcomes) || IsMatch(raw, Timestamp) || IsMatch(raw, ProtocolText) || IsMatch(raw, Label);
      CheckedTextIsPlain(raw, 0);
    }
  }

  lemma SourceFieldsAreDisplayed(name: Key)
    requires name in SOURCE_FIELDS
    ensures DisplayKey(name) && DisplayKey(ValueKey) && DisplayKey(Status) && DisplayKey(Provenance)
  {
  }

  lemma ObservedFieldBounded(name: Key, item: Json)
    requires ObservedField(name, item).Some?
    ensures DisplayKey(name) && Bounded(ObservedField(name, item).value, 2)
  {
    hide Listed, FullMatch, Plain, ObservedValue, Bounded, DisplayKey;
    SourceFieldsAreDisplayed(name);
    ObservedValueBounded(name, Get(item.m, ValueKey));
    CheckedTextIsPlain(item.m[Status], 1);
    LabelsPlain();
    PlainBounded(PROVENANCE, 1);
    ObservedMapBounded(ObservedValue(name, Get(item.m, ValueKey)).value, item.m[Status], item.m[Provenance]);
  }

  lemma ObservedMapBounded(value: Json, status: Json, provenance: Json)
    requires Bounded(value, 1) && Bounded(status, 1) && Bounded(provenance, 1)
    ensures Bounded(Obj(map[ValueKey := value, Status := status, Provenance := provenance]), 2)
  {
    hide Bounded;
    ObjBounded(map[ValueKey := value, Status := status, Provenance := provenance], 1);
  }

  lemma ContextBounded(v: Json)
    requires ContextProjection(v).Some?
    ensures Bounded(ContextProjection(v).value, 4)
  {
    hide Listed, FullMatch, ObservedField, Project;
    var out := ContextProjection(v).value.m;
    forall k, item | ObservedField(k, item).Some? ensures DisplayKey(k) && Bounded(ObservedField(k, item).value, 2) {
      ObservedFieldBounded(k, item);
    }
    assert FieldsBounded(ObservedField, 2);
    var key := v.m[EventKey];
    assert Bounded(key, 3) by { if key.s != "" { assert IsMatch(key, EventKeyText); CheckedTextIsPlain(key, 3); } }
    ContextMembers(v.m);
    if FieldsKey in v.m && v.m[FieldsKey].Obj? { ProjectBounded(ObservedField, v.m[FieldsKey].m, 2); }
    forall k | k in out ensures DisplayKey(k) && Bounded(out[k], 3) {}
  }

  lemma ContextMembers(m: Fields)
    ensures Project(ContextField, m).Keys <= {EventKey, FieldsKey}
    ensures EventKey in m ==> Get(Project(ContextField, m), EventKey) == m[EventKey]
    ensures FieldsKey in m ==> Get(Project(ContextField, m), FieldsKey) == ContextField(FieldsKey, m[FieldsKey]).value
    ensures FieldsKey !in m ==> FieldsKey !in Project(ContextField, m)
  {
    hide ObservedField;
  }

  lemma HandoffBounded(v: Json)
    requires HandoffProjection(v).Some?
    ensures Bounded(HandoffProjection(v).value, 2)
  {
    hide Project;
    forall k, x | HandoffField(k, x).Some? ensures DisplayKey(k) && Bounded(HandoffField(k, x).value, 1) {
      if k == CheckNext && |x.items| <= 4 {
        assert forall y :: TextItem(200)(y).Some? ==> Bounded(TextItem(200)(y).value, 0);
        FilterMapBounded(TextItem(200), x.items, 0);
      }
    }
    ProjectBounded(HandoffField, v.m, 1);
  }

  lemma AdvisoryScalarBounded(k: Key, v: Json)
    requires AdvisoryScalar(k, v)
    ensures DisplayKey(k) && Bounded(v, 0)
  {
    hide FullMatch, Plain, SafeText;
    CheckedTextIsPlain(v, 0);
  }

  lemma ListKeysAreDisplayed(k: Key)
    requires k in {Hypotheses, Unknowns, Observations, NextChecks}
    ensures DisplayKey(k)
  {
  }

  lemma AdvisoryListBounded(k: Key, v: Json)
    requires k in {Hypotheses, Unknowns, Observations, NextChecks} && AdvisoryField(k, v).Some?
    ensures DisplayKey(k) && Bounded(AdvisoryField(k, v).value, 2)
  {
    hide Bounded, FilterMap, TextItem, HypothesisItem, PlainItem, StatementItem, AdvisoryScalar, Project, HandoffProjection, IsText, DisplayKey, Take;
    ListKeysAreDisplayed(k);
    if k == Hypotheses {
      StatementListBounded(v, 4, 360);
    } else if k == Unknowns {
      TextListBounded(v, 12, 160);
    } else if k == Observations {
      TextListBounded(v, 16, 480);
    } else {
      TextListBounded(v, 4, 200);
    }
  }

  lemma AdvisoryFieldBounded(k: Key, v: Json)
    requires AdvisoryField(k, v).Some?
    ensures DisplayKey(k) && Bounded(AdvisoryField(k, v).value, 2)
  {
    hide FullMatch, AdvisoryScalar, ListOf, Project, HandoffProjection, Bounded, SafeText;
    if k in {Hypotheses, Unknowns, Observations, NextChecks} {
      AdvisoryListBounded(k, v);
    } else if k == Recommendation {
      if v.Obj? { RecommendationBounded(v.m); } else { CheckedTextIsPlain(v, 2); }
    } else if k == Handoff {
      HandoffBounded(v);
    } else {
      AdvisoryScalarBounded(k, v);
      BoundedDeeper(v, 0, 2);
    }
  }

  lemma RecommendationBounded(m: Fields)
    ensures Bounded(Obj(Project(RecommendationField, m)), 2)
  {
    hide Project;
    assert FieldsBounded(RecommendationField, 1);
    ProjectBounded(RecommendationField, m, 1);
  }

  lemma AdvisoryBounded(v: Json)
    requires AdvisoryProjection(v).Some?
    ensures Bounded(AdvisoryProjection(v).value, 3)
  {
    hide AdvisoryField, Project, DisplayKey, Plain;
    forall k, x | AdvisoryField(k, x).Some? ensures DisplayKey(k) && Bounded(AdvisoryField(k, x).value, 2) {
      AdvisoryFieldBounded(k, x);
    }
    ProjectBounded(AdvisoryField, v.m, 2);
  }

  lemma ModelTextsAreDisplayed(k: Key)
    ensures ModelTextLimit(k) > 0 ==> DisplayKey(k)
    ensures ModelTextLimit(k) <= 480
  {
  }

  lemma ModelCountsAreDisplayed(k: Key)
    ensures ModelCountCap(k) > 0 || k.FastGeneration? || k.IsCurrent? ==> DisplayKey(k)
  {
  }

  lemma ModelScalarBounded(k: Key, v: Json)
    requires ModelScalar(k, v)
    ensures DisplayKey(k) && Bounded(v, 0)
  {
    hide FullMatch, Plain, SafeText, ModelTextLimit, ModelCountCap, DisplayKey;
    ModelTextsAreDisplayed(k);
    ModelCountsAreDisplayed(k);
    if v.Str? { CheckedTextIsPlain(v, 0); }
  }

  lemma ModelListBounded(k: Key, v: Json)
    requires k in {Hypotheses, NextChecks, Uncertainties} && ModelField(k, v).Some?
    ensures DisplayKey(k) && Bounded(ModelField(k, v).value, 2)
  {
    hide Bounded, FilterMap, PlainItem, StatementItem, TextItem, HypothesisItem, ModelScalar;
    if k == Hypotheses {
      StatementListBounded(v, 4, 360);
    } else if k == NextChecks {
      TextListBounded(v, 4, 200);
    } else {
      TextListBounded(v, 3, 100);
    }
  }

  lemma ModelFieldBounded(k: Key, v: Json)
    requires ModelField(k, v).Some?
    ensures DisplayKey(k) && Bounded(ModelField(k, v).value, 2)
  {
    hide FullMatch, ModelScalar, ListOf, Bounded;
    if k in {Hypotheses, NextChecks, Uncertainties} {
      ModelListBounded(k, v);
    } else {
      ModelScalarBounded(k, v);
      BoundedDeeper(v, 0, 2);
    }
  }

  lemma ModelBounded(value: Fields, envelope: Fields)
    ensures Bounded(Obj(ModelProjection(value, envelope)), 3)
  {
    hide Listed, ModelField, Project, DisplayKey, Plain, ModelIsCurrent;
    forall k, v | ModelField(k, v).Some? ensures DisplayKey(k) && Bounded(ModelField(k, v).value, 2) {
      ModelFieldBounded(k, v);
    }
    ProjectBounded(ModelField, value, 2);
    UnknownsBounded(value);
    hide UnknownsOf;
    assert DisplayKey(IsCurrent) by { IsCurrentIsDisplayed(); }
  }

  lemma IsCurrentIsDisplayed()
    ensures DisplayKey(IsCurrent)
  {
  }

  lemma UnknownsBounded(value: Fields)
    ensures Bounded(Obj(UnknownsOf(value)), 3)
  {
    var unknowns := UnknownsOf(value);
    if unknowns != map[] {
      var texts := unknowns[Unknowns];
      assert Bounded(texts, 1);
      BoundedDeeper(texts, 1, 2);
    }
  }

  lemma SidecarKeysAreDisplayed(k: Key)
    requires SidecarTextLimit(k) > 0 || k.Generation? || k.TraceId? || k.SourceGroups? || k.AttackTechniques?
    ensures DisplayKey(k) && SidecarTextLimit(k) <= 480
  {
  }

  lemma SidecarMemberBounded(k: Key, v: Json)
    requires SidecarMember(k, v)
    ensures DisplayKey(k) && Bounded(v, 1)
  {
    hide FullMatch, Plain, SafeText, SidecarTextLimit, DisplayKey, AllOf;
    SidecarKeysAreDisplayed(k);
    if SidecarTextLimit(k) > 0 || k.Generation? || k.TraceId? {
      CheckedTextIsPlain(v, 0);
    } else if k == SourceGroups {
      AllOfBounded(v, 16, SourceGroup);
    } else {
      AllOfBounded(v, 32, Technique);
    }
  }

  lemma VersionBounded(v: Json)
    requires IsVersion(v)
    ensures Bounded(v, 0)
  {
    hide FullMatch, Plain;
    if v.Str? { CheckedTextIsPlain(v, 0); }
  }

  lemma PairBounded(v: Json)
    requires FreshnessPair(v).Some?
    ensures Bounded(FreshnessPair(v).value, 1)
  {
    hide IsVersion, Bounded, Plain;
    VersionBounded(v.m[AttackVersion]);
    ScalarBounded(v.m[OldestFeedDays], 0);
    ObjBounded(FreshnessPair(v).value.m, 0);
  }

  lemma SidecarBounded(m: Fields)
    ensures Bounded(Obj(Project(SidecarField, m)), 2)
  {
    hide Project, SidecarMember, FullMatch, FreshnessPair, Bounded;
    forall k, x | SidecarField(k, x).Some? ensures DisplayKey(k) && Bounded(SidecarField(k, x).value, 1) {
      if k == SourceFreshness { PairBounded(x); } else { SidecarMemberBounded(k, x); }
    }
    ProjectBounded(SidecarField, m, 1);
  }

  lemma BindingBounded(m: Fields)
    ensures Bounded(Obj(Project(BindingField, m)), 1)
  {
    hide Project, Listed, FullMatch, Plain;
    hide BindingField, DisplayKey;
    forall k, v | BindingField(k, v).Some? ensures DisplayKey(k) && Bounded(BindingField(k, v).value, 0) {
      BindingFieldBounded(k, v);
    }
    ProjectBounded(BindingField, m, 0);
  }

  lemma BindingFieldBounded(k: Key, v: Json)
    requires BindingField(k, v).Some?
    ensures DisplayKey(k) && Bounded(BindingField(k, v).value, 0)
  {
    hide Listed, FullMatch, Plain, DisplayKey, Bounded;
    BindingKeysAreDisplayed(k);
    ResultWordsPlain();
    PlainBounded("matched", 0);
    if v.Bool? { ScalarBounded(v, 0); } else if !k.Status? { CheckedTextIsPlain(v, 0); }
  }

  lemma BindingKeysAreDisplayed(k: Key)
    ensures k.Status? || k.Valid? || k.Generation? || k.EventKey? || k.EdgeTraceId? || k.MioTraceId? ==> DisplayKey(k)
    ensures k.FrameId? || k.EdgeAction? || k.EdgeMode? || k.EdgeResult? ==> DisplayKey(k)
  {
  }

  lemma ComparisonBounded(m: Fields)
    ensures Bounded(Obj(Project(ComparisonField, m)), 1)
  {
    hide Project, Listed, FullMatch, Plain, SafeText;
    forall k, v | ComparisonField(k, v).Some? ensures DisplayKey(k) && Bounded(ComparisonField(k, v).value, 0) {
      if v.Str? { CheckedTextIsPlain(v, 0); }
    }
    ProjectBounded(ComparisonField, m, 0);
  }

  lemma EdgeBounded(v: Json)
    ensures Bounded(Obj(EdgeObservation(v)), 1) && Bounded(Obj(EdgeDisplay(v)), 1)
  {
    hide Project, Listed, FullMatch, Plain, HidesSomething, Lower;
    if v.Obj? {
      forall k, x | EdgeField(k, x).Some? ensures DisplayKey(k) && Bounded(EdgeField(k, x).value, 0) {
        CheckedTextIsPlain(EdgeField(k, x).value, 0);
      }
      ProjectBounded(EdgeField, v.m, 0);
      if IsId(Get(v.m, TraceId)) { CheckedTextIsPlain(v.m[TraceId], 0); }
    }
  }

  lemma TopScalarBounded(k: Key, v: Json)
    requires TopScalar(k, v)
    ensures DisplayKey(k) && Bounded(v, 0)
  {
    hide Listed, FullMatch, Plain, SafeText, DisplayKey, Bounded;
    TopScalarsAreDisplayed(k);
    if v.Str? { CheckedTextIsPlain(v, 0); } else { ScalarBounded(v, 0); }
  }

  lemma TopScalarsAreDisplayed(k: Key)
    requires k.Status? || k.IsCurrent? || k.Generation? || k.TraceId? || k.CompletedAt? || k.MaxAgeSeconds? || k.Reason?
    ensures DisplayKey(k)
  {
  }

  lemma LaneBounded(v: Json)
    requires KnowledgeLane(v).Some?
    ensures Bounded(KnowledgeLane(v).value, 1)
  {
  }

  lemma ObjectKeysAreDisplayed(k: Key)
    ensures k.EdgeEvent? || k.SourceContext? || k.HandoffBinding? || k.Advisory? ==> DisplayKey(k)
    ensures k.ModelAnalysis? || k.Knowledge? || k.EdgeScoreComparison? || k.EdgeKnowledgeAdvisory? ==> DisplayKey(k)
  {
  }

  lemma TopMemberBounded(envelope: Fields, k: Key, v: Json)
    requires TopMember(envelope, k, v).Some?
    ensures DisplayKey(k) && Bounded(TopMember(envelope, k, v).value, 4)
  {
    hide Listed, FullMatch, TopScalar, ContextProjection, AdvisoryProjection, ModelProjection, EdgeDisplay, Project, KnowledgeLane;
    hide Bounded, DisplayKey;
    var w := TopMember(envelope, k, v).value;
    ObjectKeysAreDisplayed(k);
    if k.EdgeEvent? {
      EdgeBounded(v); BoundedDeeper(w, 1, 4);
    } else if k.SourceContext? {
      ContextBounded(v);
    } else if k.HandoffBinding? {
      BindingBounded(v.m); BoundedDeeper(w, 1, 4);
    } else if k.Advisory? {
      AdvisoryBounded(v); BoundedDeeper(w, 3, 4);
    } else if k.ModelAnalysis? {
      ModelBounded(v.m, envelope); BoundedDeeper(w, 3, 4);
    } else {
      LaneMemberBounded(envelope, k, v);
    }
  }

  lemma LaneMemberBounded(envelope: Fields, k: Key, v: Json)
    requires TopMember(envelope, k, v).Some?
    requires !(k.EdgeEvent? || k.SourceContext? || k.HandoffBinding? || k.Advisory? || k.ModelAnalysis?)
    ensures DisplayKey(k) && Bounded(TopMember(envelope, k, v).value, 4)
  {
    hide Listed, FullMatch, TopScalar, ContextProjection, AdvisoryProjection, ModelProjection, EdgeDisplay, Project, KnowledgeLane;
    hide Bounded, DisplayKey;
    var w := TopMember(envelope, k, v).value;
    ObjectKeysAreDisplayed(k);
    if k.Knowledge? {
      LaneBounded(v); BoundedDeeper(w, 1, 4);
    } else if k.EdgeScoreComparison? {
      ComparisonBounded(v.m); BoundedDeeper(w, 1, 4);
    } else if k.EdgeKnowledgeAdvisory? {
      SidecarBounded(v.m); BoundedDeeper(w, 2, 4);
    } else {
      TopScalarBounded(k, v); BoundedDeeper(w, 0, 4);
    }
  }

  lemma EnvelopeBounded(p: Fields)
    ensures Bounded(Obj(DisplayedEnvelope(p)), 5)
  {
    hide TopMember, Plain, DisplayKey, Project;
    forall k, v | TopField(p)(k, v).Some? ensures DisplayKey(k) && Bounded(TopField(p)(k, v).value, 4) {
      TopMemberBounded(p, k, v);
    }
    ProjectBounded(TopField(p), p, 4);
  }

  // ---- the knowledge block -------------------------------------------------------------------------

  lemma FreshnessBounded(projection: Fields, receipt: Fields)
    ensures Bounded(FreshnessOf(projection, receipt), 1) && Bounded(NO_FRESHNESS, 1)
  {
    hide Plain, IsVersion, Bounded;
    LabelsPlain();
    LaneWordsPlain();
    PlainBounded("unavailable", 0);
    PlainBounded(FRESHNESS_VERIFICATION, 0);
    ScalarBounded(Null, 0);
    ObjBounded(NO_FRESHNESS.m, 0);
    if FreshnessOf(projection, receipt) != NO_FRESHNESS {
      var value := projection[SourceFreshness].m;
      VersionBounded(value[AttackVersion]);
      ScalarBounded(value[OldestFeedDays], 0);
      ObjBounded(FreshnessOf(projection, receipt).m, 0);
    }
  }

  lemma ReferencesBounded(projection: Json)
    requires ReferencesUsable(projection)
    ensures Bounded(Get(projection.m, AttackTechniques), 1) && Bounded(Get(projection.m, SourceGroups), 1)
  {
    hide FullMatch, Plain, AllOf;
    AllOfBounded(Get(projection.m, AttackTechniques), 16, Technique);
    AllOfBounded(Get(projection.m, SourceGroups), 16, SourceGroup);
  }

  lemma ReportBounded(receipt: Fields, nowMs: int)
    requires ReferencesUsable(Get(receipt, Projection)) && ReportInTime(receipt, nowMs)
    ensures Bounded(Obj(ReportBlock(receipt)), 2)
  {
    hide FullMatch, Plain, AllOf, FreshnessOf, Bounded;
    ReferencesBounded(Get(receipt, Projection));
    FreshnessBounded(Get(receipt, Projection).m, receipt);
    LabelsPlain(); MoreLaneWordsPlain(); ResultWordsPlain();
    PlainBounded("projected", 1); PlainBounded("last_report", 1);
    PlainBounded("reported_unverified", 1); PlainBounded("unverified_advisory_only", 1);
    ScalarBounded(Bool(false), 1); ScalarBounded(Get(receipt, ReportAgeSeconds), 1);
    ScalarBounded(Get(receipt, MaxAgeSeconds), 1); ScalarBounded(Get(receipt, ReportExpiresAtMs), 1);
    ObjBounded(ReportBlock(receipt), 1);
  }

  lemma CurrentBlockBounded(envelope: Fields, receipt: Fields)
    requires KnowledgeCurrent(envelope, receipt)
    ensures Bounded(Obj(CurrentBlock(receipt)), 2)
  {
    hide FullMatch, Plain, AllOf, FreshnessOf, Bounded;
    ReferencesBounded(Get(receipt, Projection));
    FreshnessBounded(Get(receipt, Projection).m, receipt);
    LabelsPlain(); MoreLaneWordsPlain();
    PlainBounded("projected", 1); ScalarBounded(Bool(true), 1);
    PlainBounded("reported_unverified", 1); PlainBounded("unverified_advisory_only", 1);
    CheckedTextIsPlain(Get(receipt, Generation), 1); CheckedTextIsPlain(Get(receipt, FrameGeneration), 1);
    CheckedTextIsPlain(Get(receipt, SourceTraceId), 1); CheckedTextIsPlain(Get(receipt, EventKey), 1);
    CheckedTextIsPlain(Get(receipt, TraceId), 1); CheckedTextIsPlain(Get(receipt, FrameId), 1);
    hide IdentifiersBound;
    ObjBounded(CurrentBlock(receipt), 1);
  }

  lemma LaneOnlyBounded(status: string)
    requires Plain(status)
    ensures Bounded(LaneOnly(status), 1)
  {
    hide Plain;
  }

  lemma KnowledgeShownBounded(p: Fields)
    ensures Bounded(KnowledgeShown(p), 2)
  {
    hide Listed, FullMatch, Plain, KnowledgeCurrent, CurrentBlock, LaneOnly, DisplayKey, Bounded;
    var receipt := Get(p, KnowledgeAnalysis);
    LaneWordsPlain();
    if ReceiptReadable(receipt) {
      ListedIsPlain(LaneStatuses, receipt.m[Status].s);
      if KnowledgeCurrent(p, receipt.m) { CurrentBlockBounded(p, receipt.m); }
      LaneOnlyBounded(receipt.m[Status].s);
      BoundedDeeper(LaneOnly(receipt.m[Status].s), 1, 2);
    } else {
      LaneOnlyBounded("unavailable");
      BoundedDeeper(LaneOnly("unavailable"), 1, 2);
    }
  }

  lemma LaneBlockBounded(lane: string)
    requires Plain(lane)
    ensures Bounded(Obj(map[Status := Str(lane), IsCurrent := Bool(false), SourceFreshness := NO_FRESHNESS]), 2)
  {
    hide Plain, Bounded;
    FreshnessBounded(map[], map[]);
    PlainBounded(lane, 1);
    ScalarBounded(Bool(false), 1);
    ObjBounded(map[Status := Str(lane), IsCurrent := Bool(false), SourceFreshness := NO_FRESHNESS], 1);
  }

  lemma StatusOnlyBounded(p: Fields, status: string)
    ensures Bounded(Obj(StatusOnly(p, status)), 3)
  {
    hide Listed, Plain, EdgeObservation, Bounded;
    EdgeBounded(Get(p, EdgeEvent));
    BoundedDeeper(Obj(EdgeObservation(Get(p, EdgeEvent))), 1, 2);
    LaneWordsPlain();
    if Listed(LaneStatuses, status) { ListedIsPlain(LaneStatuses, status); }
    LaneBlockBounded(if Listed(LaneStatuses, status) then status else "unavailable");
    PlainBounded("unavailable", 2);
    StatusMapBounded(Obj(EdgeObservation(Get(p, EdgeEvent))), Get(StatusOnly(p, status), KnowledgeAnalysis));
  }

  lemma StatusMapBounded(edge: Json, lane: Json)
    requires Bounded(edge, 2) && Bounded(lane, 2) && Bounded(Str("unavailable"), 2)
    ensures Bounded(Obj(map[Status := Str("unavailable"), IsCurrent := Bool(false), MaxAgeSeconds := Int(0),
                            EdgeEvent := edge, KnowledgeAnalysis := lane]), 3)
  {
    hide Bounded;
    ScalarBounded(Bool(false), 2);
    ScalarBounded(Int(0), 2);
    ObjBounded(map[Status := Str("unavailable"), IsCurrent := Bool(false), MaxAgeSeconds := Int(0),
                   EdgeEvent := edge, KnowledgeAnalysis := lane], 2);
  }

  lemma DegradedBounded(p: Fields, nowMs: int)
    ensures Bounded(Obj(Degraded(p, nowMs)), 3)
  {
    hide Plain, StatusOnly, ReferencesUsable, ReportBlock, ReportInTime, Listed, FullMatch, IdentifiersBound, ProducerBound;
    var receipt := Get(p, KnowledgeAnalysis);
    StatusOnlyBounded(p, "unavailable");
    if ReceiptReadable(receipt) {
      StatusOnlyBounded(p, receipt.m[Status].s);
      if ReportShown(p, receipt.m, nowMs) { ReportBounded(receipt.m, nowMs); }
    }
  }

  /** For every JSON input and clock, whatever is shown is closed and bounded. */
  lemma OutputIsBounded(payload: Json, clocks: Clocks)
    requires OperatorView(payload, clocks).Shown?
    ensures Bounded(Obj(OperatorView(payload, clocks).fields), 5)
  {
    hide FastCurrent, DisplayedEnvelope, KnowledgeShown, Degraded, Plain, DisplayRaises;
    if payload.Obj? {
      EnvelopeBounded(payload.m);
      KnowledgeShownBounded(payload.m);
      BoundedDeeper(KnowledgeShown(payload.m), 2, 4);
      DegradedBounded(payload.m, clocks.nowMs);
      BoundedDeeper(Obj(Degraded(payload.m, clocks.nowMs)), 3, 5);
    }
  }
}
