/** Displaying an envelope twice: the projection of a projection is itself, except for one family of envelopes
    whose model analysis is bound by identifiers that the display drops. */
module ReceiptStability {
  import opened Options
  import opened Text
  import opened Json
  import opened ReceiptProjection
  import opened ReceiptTheorems

  // ---- stable projections --------------------------------------------------------------------------

  /** Whatever `f` lets through, it lets through again unchanged. */
  ghost predicate Stable(f: (Key, Json) -> Option<Json>) {
    forall k, v :: f(k, v).Some? ==> f(k, f(k, v).value) == f(k, v)
  }

  ghost predicate StableItem(f: Json -> Option<Json>) {
    forall v :: f(v).Some? ==> f(f(v).value) == f(v)
  }

  lemma ProjectStable(f: (Key, Json) -> Option<Json>, m: Fields)
    requires Stable(f)
    ensures Project(f, Project(f, m)) == Project(f, m)
  {
    var out := Project(f, m);
    forall k | k in out ensures f(k, out[k]) == Some(out[k]) {
      assert f(k, m[k]).Some?;
    }
  }

  lemma {:induction false} FilterMapShorter(f: Json -> Option<Json>, xs: seq<Json>)
    ensures |FilterMap(f, xs)| <= |xs|
  {
    if xs != [] { FilterMapShorter(f, xs[..|xs| - 1]); }
  }

  lemma {:induction false} FilterMapStable(f: Json -> Option<Json>, xs: seq<Json>)
    requires StableItem(f)
    ensures FilterMap(f, FilterMap(f, xs)) == FilterMap(f, xs)
  {
    if xs != [] {
      var rest := FilterMap(f, xs[..|xs| - 1]);
      FilterMapStable(f, xs[..|xs| - 1]);
      if f(xs[|xs| - 1]).Some? {
        var out := rest + [f(xs[|xs| - 1]).value];
        assert out[..|out| - 1] == rest;
      }
    }
  }

  lemma ListOfStable(f: Json -> Option<Json>, v: Json, count: nat)
    requires StableItem(f) && ListOf(f, v, count).Some?
    ensures ListOf(f, ListOf(f, v, count).value, count) == ListOf(f, v, count)
  {
    FilterMapShorter(f, Take(v.items, count));
    FilterMapStable(f, Take(v.items, count));
  }

  lemma ItemsStable(size: nat)
    ensures StableItem(TextItem(size)) && StableItem(PlainItem(size))
    ensures StableItem(HypothesisItem(size)) && StableItem(StatementItem(size)) && StableItem(TechniqueItem)
  {
    hide SafeText, FullMatch;
  }

  lemma NonEmptyStable(f: (Key, Json) -> Option<Json>, m: Fields)
    requires Stable(f) && NonEmptyObj(Project(f, m)).Some?
    ensures NonEmptyObj(Project(f, NonEmptyObj(Project(f, m)).value.m)) == NonEmptyObj(Project(f, m))
  {
    ProjectStable(f, m);
    hide Project;
  }

  // ---- the members of the envelope -----------------------------------------------------------------

  lemma HandoffStable(v: Json)
    requires HandoffProjection(v).Some?
    ensures HandoffProjection(HandoffProjection(v).value) == HandoffProjection(v)
  {
    hide SafeText, HandoffScalar, Project, TextItem;
    forall k, x | HandoffField(k, x).Some? ensures HandoffField(k, HandoffField(k, x).value) == HandoffField(k, x) {
      if k == CheckNext && |x.items| <= 4 {
        ItemsStable(200);
        FilterMapShorter(TextItem(200), x.items);
        FilterMapStable(TextItem(200), x.items);
      }
    }
    ProjectStable(HandoffField, v.m);
  }

  lemma AdvisoryListStable(k: Key, v: Json)
    requires k in {Hypotheses, Unknowns, Observations, NextChecks} && AdvisoryField(k, v).Some?
    ensures AdvisoryField(k, AdvisoryField(k, v).value) == AdvisoryField(k, v)
  {
    hide ListOf, TextItem, HypothesisItem, PlainItem, StatementItem, AdvisoryScalar, Project, HandoffProjection, IsText;
    hide StableItem;
    if k == Hypotheses {
      ItemsStable(360); ListOfStable(HypothesisItem(360), v, 4);
    } else if k == Unknowns {
      ItemsStable(160); ListOfStable(TextItem(160), v, 12);
    } else if k == Observations {
      ItemsStable(480); ListOfStable(TextItem(480), v, 16);
    } else {
      ItemsStable(200); ListOfStable(TextItem(200), v, 4);
    }
  }

  lemma RecommendationStable(v: Json)
    requires AdvisoryField(Recommendation, v).Some?
    ensures AdvisoryField(Recommendation, AdvisoryField(Recommendation, v).value) == AdvisoryField(Recommendation, v)
  {
    hide Project, RecommendationScalar, AdvisoryScalar, ListOf, HandoffProjection, SafeText;
    if v.Obj? { NonEmptyStable(RecommendationField, v.m); }
  }

  lemma AdvisoryHandoffStable(v: Json)
    requires AdvisoryField(Handoff, v).Some?
    ensures AdvisoryField(Handoff, AdvisoryField(Handoff, v).value) == AdvisoryField(Handoff, v)
  {
    hide Project, AdvisoryScalar, ListOf, HandoffProjection, SafeText;
    HandoffStable(v);
  }

  lemma AdvisoryScalarStable(k: Key, v: Json)
    requires k !in {Hypotheses, Unknowns, Observations, NextChecks, Recommendation, Handoff}
    requires AdvisoryField(k, v).Some?
    ensures AdvisoryField(k, v) == Some(v)
  {
    hide Project, AdvisoryScalar, ListOf, HandoffProjection, SafeText, NonEmptyObj;
  }

  lemma AdvisoryFieldStable(k: Key, v: Json)
    requires AdvisoryField(k, v).Some?
    ensures AdvisoryField(k, AdvisoryField(k, v).value) == AdvisoryField(k, v)
  {
    hide AdvisoryField;
    if k in {Hypotheses, Unknowns, Observations, NextChecks} {
      AdvisoryListStable(k, v);
    } else if k == Recommendation {
      RecommendationStable(v);
    } else if k == Handoff {
      AdvisoryHandoffStable(v);
    } else {
      AdvisoryScalarStable(k, v);
    }
  }

  lemma AdvisoryStable(v: Json)
    requires AdvisoryProjection(v).Some?
    ensures AdvisoryProjection(AdvisoryProjection(v).value) == AdvisoryProjection(v)
  {
    hide AdvisoryField, Project;
    forall k, x | AdvisoryField(k, x).Some? ensures AdvisoryField(k, AdvisoryField(k, x).value) == AdvisoryField(k, x) {
      AdvisoryFieldStable(k, x);
    }
    ProjectStable(AdvisoryField, v.m);
  }

  lemma ObservedValueStable(name: Key, raw: Json)
    requires ObservedValue(name, raw).Some?
    ensures ObservedValue(name, ObservedValue(name, raw).value) == ObservedValue(name, raw)
  {
    hide Listed, FullMatch, Lower, Strip, FilterMap;
    if name == TechniqueIds {
      ItemsStable(0);
      var items := if raw.List? then Take(raw.items, 16) else [];
      FilterMapShorter(TechniqueItem, items);
      FilterMapStable(TechniqueItem, items);
      EmptyFilterMap(TechniqueItem);
    }
  }

  lemma EmptyFilterMap(f: Json -> Option<Json>)
    ensures FilterMap(f, []) == []
  {
  }

  lemma ObservedFieldStable(name: Key, item: Json)
    requires ObservedField(name, item).Some?
    ensures ObservedField(name, ObservedField(name, item).value) == ObservedField(name, item)
  {
    hide Listed, FullMatch, ObservedValue;
    ObservedValueStable(name, Get(item.m, ValueKey));
  }

  lemma ContextStable(v: Json)
    requires ContextProjection(v).Some?
    ensures ContextProjection(ContextProjection(v).value) == ContextProjection(v)
  {
    hide Listed, FullMatch, ObservedField, Project;
    forall k, item | ObservedField(k, item).Some?
      ensures ObservedField(k, ObservedField(k, item).value) == ObservedField(k, item)
    {
      ObservedFieldStable(k, item);
    }
    assert Stable(ObservedField);
    forall k, x | ContextField(k, x).Some? ensures ContextField(k, ContextField(k, x).value) == ContextField(k, x) {
      if k == FieldsKey { ProjectStable(ObservedField, if x.Obj? then x.m else map[]); EmptyProject(ObservedField); }
    }
    ProjectStable(ContextField, v.m);
    KeptMember(ContextField, v.m, EventKey);
  }

  lemma EmptyProject(f: (Key, Json) -> Option<Json>)
    ensures Project(f, map[]) == map[]
  {
  }

  lemma EdgeFieldStable(k: Key, v: Json)
    requires EdgeField(k, v).Some?
    ensures EdgeField(k, EdgeField(k, v).value) == EdgeField(k, v)
  {
    if k == Action { LowerKeepsActions(Str(Lower(v.s))); }
    hide Listed, Lower;
  }

  /** What was shown of an Edge event hides nothing more than the event did. */
  lemma EdgeMarkerStable(edge: Fields, out: Fields)
    requires out.Keys <= EDGE_KEYS
    requires forall k | k in {Action, Mode, ResultKey} && k in out :: EdgeField(k, out[k]) == Some(out[k])
    requires UnknownFields in out <==> HidesSomething(edge)
    requires UnknownFields in out ==> out[UnknownFields] == Bool(true)
    ensures HidesSomething(out) == HidesSomething(edge)
  {
    hide Listed, Lower;
    assert Action in out ==> EdgeField(Action, out[Action]) == Some(out[Action]);
    assert Mode in out ==> EdgeField(Mode, out[Mode]) == Some(out[Mode]);
    assert ResultKey in out ==> EdgeField(ResultKey, out[ResultKey]) == Some(out[ResultKey]);
  }

  lemma EdgeFieldsShown(m: Fields)
    ensures Project(EdgeField, m).Keys <= {Action, Mode, ResultKey}
    ensures forall k | k in Project(EdgeField, m) :: EdgeField(k, Project(EdgeField, m)[k]) == Some(Project(EdgeField, m)[k])
  {
    hide Listed, Lower, IsAction;
    var shown := Project(EdgeField, m);
    forall k | k in shown ensures k in {Action, Mode, ResultKey} && EdgeField(k, shown[k]) == Some(shown[k]) {
      EdgeFieldStable(k, m[k]);
    }
  }

  lemma MarkersAreNotFields(v: Json)
    ensures EdgeField(UnknownFields, v).None? && EdgeField(TraceId, v).None?
  {
  }

  lemma EdgeDisplayMembers(v: Json)
    requires v.Obj?
    ensures var out := EdgeDisplay(v);
            && out.Keys <= EDGE_KEYS
            && (forall k | k in {Action, Mode, ResultKey} && k in out :: EdgeField(k, out[k]) == Some(out[k]))
            && (UnknownFields in out <==> HidesSomething(v.m))
            && (UnknownFields in out ==> out[UnknownFields] == Bool(true))
            && (TraceId in out <==> IsId(Get(v.m, TraceId)))
            && (TraceId in out ==> out[TraceId] == v.m[TraceId])
            && Project(EdgeField, out) == Project(EdgeField, v.m)
  {
    hide HidesSomething, FullMatch, EdgeField;
    var shown, out := Project(EdgeField, v.m), EdgeDisplay(v);
    EdgeFieldsShown(v.m);
    if UnknownFields in out { MarkersAreNotFields(out[UnknownFields]); }
    if TraceId in out { MarkersAreNotFields(out[TraceId]); }
    forall k ensures k in Project(EdgeField, out) <==> k in shown {
      if k in out && k !in {UnknownFields, TraceId} { assert k in shown && out[k] == shown[k]; }
    }
  }

  lemma EdgeStable(v: Json)
    ensures EdgeDisplay(Obj(EdgeDisplay(v))) == EdgeDisplay(v)
  {
    if v.Obj? {
      EdgeDisplayMembers(v);
      EdgeMarkerStable(v.m, EdgeDisplay(v));
      hide HidesSomething, FullMatch, Project, EdgeField;
    } else {
      EmptyProject(EdgeField);
      hide Project;
    }
  }

  lemma SidecarStable()
    ensures Stable(SidecarField) && Stable(ComparisonField) && Stable(BindingField)
  {
    hide SidecarMember, ComparisonScalar, BindingScalar, IsVersion;
  }

  /** Every member but the model analysis is stable, whatever the envelope around it. */
  lemma TopMemberStable(a: Fields, b: Fields, k: Key, v: Json)
    requires k != ModelAnalysis && TopMember(a, k, v).Some?
    ensures TopMember(b, k, TopMember(a, k, v).value) == TopMember(a, k, v)
  {
    hide TopScalar, ContextProjection, AdvisoryProjection, EdgeDisplay, Project, BindingField, ComparisonField, SidecarField;
    hide SafeText, Stable;
    SidecarStable();
    if k == EdgeEvent {
      EdgeStable(v);
    } else if k == SourceContext {
      ContextStable(v);
    } else if k == HandoffBinding {
      ProjectStable(BindingField, v.m);
    } else if k == Advisory {
      AdvisoryStable(v);
    } else if k == EdgeScoreComparison {
      NonEmptyStable(ComparisonField, v.m);
    } else if k == EdgeKnowledgeAdvisory {
      NonEmptyStable(SidecarField, v.m);
    }
  }

  // ---- the model analysis --------------------------------------------------------------------------

  lemma ModelListStable(k: Key, v: Json)
    requires k in {Hypotheses, NextChecks, Uncertainties} && ModelField(k, v).Some?
    ensures ModelField(k, ModelField(k, v).value) == ModelField(k, v)
  {
    hide ListOf, TextItem, HypothesisItem, PlainItem, StatementItem, ModelScalar, StableItem;
    if k == Hypotheses {
      ItemsStable(360); ListOfStable(StatementItem(360), v, 4);
    } else if k == NextChecks {
      ItemsStable(200); ListOfStable(PlainItem(200), v, 4);
    } else {
      ItemsStable(100); ListOfStable(PlainItem(100), v, 3);
    }
  }

  lemma ModelFieldStable()
    ensures Stable(ModelField)
  {
    hide ListOf, ModelScalar;
    forall k, v | ModelField(k, v).Some? ensures ModelField(k, ModelField(k, v).value) == ModelField(k, v) {
      if k in {Hypotheses, NextChecks, Uncertainties} { ModelListStable(k, v); }
    }
  }

  lemma NoUnknownsInFields(m: Fields)
    ensures Unknowns !in Project(ModelField, m) && UnknownsTotal !in Project(ModelField, m)
  {
    hide ModelField;
    UnknownsAreNoFields(Get(m, Unknowns), Get(m, UnknownsTotal));
  }

  lemma UnknownsAreNoFields(v: Json, w: Json)
    ensures ModelField(Unknowns, v).None? && ModelField(UnknownsTotal, w).None?
  {
    hide ListOf, IsText, FullMatch;
  }

  lemma UnknownsStable(value: Fields, out: Fields)
    requires Get(out, Unknowns) == Get(UnknownsOf(value), Unknowns)
    requires UnknownsTotal in out <==> UnknownsTotal in UnknownsOf(value)
    requires Get(out, UnknownsTotal) == Get(UnknownsOf(value), UnknownsTotal)
    ensures UnknownsOf(out) == UnknownsOf(value)
  {
  }

  lemma ModelFieldsStable(value: Fields)
    ensures ModelFields(ModelFields(value)) == ModelFields(value)
  {
    hide ModelField, UnknownsOf;
    var base, unknowns, out := Project(ModelField, value), UnknownsOf(value), ModelFields(value);
    ModelFieldStable();
    NoUnknownsInFields(value);
    UnknownsShape(value);
    UnknownsStable(value, out);
    ProjectStable(ModelField, value);
    assert Project(ModelField, out) == base by {
      NoUnknownsInFields(out);
      forall k ensures k in Project(ModelField, out) <==> k in base {}
    }
  }

  lemma UnknownsShape(value: Fields)
    ensures UnknownsOf(value) == map[] || UnknownsOf(value).Keys == {Unknowns, UnknownsTotal}
  {
  }

  lemma StrippedStable(value: Fields)
    ensures ModelFields(WithoutProse(ModelFields(value))) == WithoutProse(ModelFields(value))
  {
    hide ModelField, UnknownsOf;
    var fields := ModelFields(value);
    var out := WithoutProse(fields);
    ModelFieldsStable(value);
    ModelFieldStable();
    NoUnknownsInFields(out); NoUnknownsInFields(fields);
    assert UnknownsOf(out) == map[] by { UnknownsAbsent(out); }
    BoolIsKept();
    forall k ensures k in Project(ModelField, out) <==> k in out {
      if k in out && k != IsCurrent { assert out[k] == fields[k]; FieldsAreStable(value, k); }
    }
    forall k | k in out ensures Project(ModelField, out)[k] == out[k] {
      if k != IsCurrent { assert out[k] == fields[k]; FieldsAreStable(value, k); }
    }
  }

  lemma BoolIsKept()
    ensures ModelField(IsCurrent, Bool(false)) == Some(Bool(false))
  {
  }

  lemma FieldsAreStable(value: Fields, k: Key)
    requires k in ModelFields(value) && k !in MODEL_PROSE
    ensures ModelField(k, ModelFields(value)[k]) == Some(ModelFields(value)[k])
  {
    hide ModelField, UnknownsOf;
    UnknownsShape(value);
    ModelFieldStable();
    assert k in Project(ModelField, value);
  }

  lemma UnknownsAbsent(m: Fields)
    requires Unknowns !in m
    ensures UnknownsOf(m) == map[]
  {
  }

  lemma IdIsText(v: Json)
    requires IsId(v)
    ensures IsText(v, 96)
  {
  }

  /** The identifiers that bind the model analysis are ones the display keeps. */
  ghost predicate BindsByShownIds(p: Fields) {
    && IsId(Get(p, Generation)) && Get(p, Advisory).Obj?
    && IsId(Get(p[Advisory].m, FrameId)) && IsId(Get(p[Advisory].m, TraceId))
  }

  /** The check a caller can make before displaying: a model analysis that claims to be current, if any, is
      bound by identifiers made of safe characters only. */
  ghost predicate ModelRebinds(p: Fields) {
    Get(p, ModelAnalysis).Obj? && ModelIsCurrent(p[ModelAnalysis].m, p) ==> BindsByShownIds(p)
  }

  lemma ModelMembers(value: Fields)
    ensures Get(ModelFields(value), IsCurrent) == if Get(value, IsCurrent).Bool? then value[IsCurrent] else Null
    ensures Get(ModelFields(value), FastGeneration) == if IsId(Get(value, FastGeneration)) then value[FastGeneration] else Null
    ensures IsId(Get(value, FrameId)) ==> Get(ModelFields(value), FrameId) == value[FrameId]
    ensures IsId(Get(value, TraceId)) ==> Get(ModelFields(value), TraceId) == value[TraceId]
  {
    hide ModelFields, FullMatch, SafeText;
    ModelMember(value, IsCurrent); ModelMember(value, FastGeneration);
    ModelMember(value, FrameId); ModelMember(value, TraceId);
    if IsId(Get(value, FrameId)) { IdIsText(value[FrameId]); }
    if IsId(Get(value, TraceId)) { IdIsText(value[TraceId]); }
  }

  lemma ModelMember(value: Fields, k: Key)
    requires k in {IsCurrent, FastGeneration, FrameId, TraceId, Status}
    ensures Get(ModelFields(value), k) == if k in value && ModelScalar(k, value[k]) then value[k] else Null
  {
    hide ModelField, ModelScalar, UnknownsOf;
    UnknownsShape(value);
    ScalarMember(k, Get(value, k));
  }

  lemma ScalarMember(k: Key, v: Json)
    requires k in {IsCurrent, FastGeneration, FrameId, TraceId, Status}
    ensures ModelField(k, v) == Keep(ModelScalar(k, v), v)
  {
    hide ListOf, ModelScalar;
  }

  lemma ModelStatus(value: Fields)
    ensures IsWord(Get(ModelFields(value), Status), FinishedStatuses) ==> IsWord(Get(value, Status), FinishedStatuses)
  {
    hide ModelFields, ModelScalar, Listed;
    ModelMember(value, Status);
  }

  /** A displayed advisory names a frame and a trace only by safe identifiers. */
  lemma ShownIds(p: Fields)
    requires var out := DisplayedEnvelope(p);
             && Get(out, Generation).Str? && Get(out, Advisory).Obj?
             && Get(out[Advisory].m, FrameId).Str? && Get(out[Advisory].m, TraceId).Str?
    ensures BindsByShownIds(p)
  {
    hide FullMatch, DisplayedEnvelope, SafeText, Listed;
    ShownMember(p, Generation);
    ShownMember(p, Advisory);
  }

  lemma StillCurrent(p: Fields)
    requires Get(p, ModelAnalysis).Obj? && ModelIsCurrent(p[ModelAnalysis].m, p)
    ensures ModelIsCurrent(ModelFields(p[ModelAnalysis].m), DisplayedEnvelope(p)) <==> BindsByShownIds(p)
  {
    hide FullMatch, DisplayedEnvelope, ModelFields, Listed, SafeText, BoundedNumber;
    var out := DisplayedEnvelope(p);
    if BindsByShownIds(p) {
      ScalarKept(p, Generation);
      AdvisoryKept(p);
      ModelMembers(p[ModelAnalysis].m);
    }
    if ModelIsCurrent(ModelFields(p[ModelAnalysis].m), out) {
      ShownIds(p);
    }
  }

  lemma ModelStableIff(p: Fields)
    requires Get(p, ModelAnalysis).Obj?
    ensures var shown := ModelProjection(p[ModelAnalysis].m, p);
            ModelProjection(shown, DisplayedEnvelope(p)) == shown <==> ModelRebinds(p)
  {
    hide FullMatch, Listed, DisplayedEnvelope, ModelFields, HasProse, BindsByShownIds;
    var value := p[ModelAnalysis].m;
    var shown := ModelProjection(value, p);
    ModelFieldsStable(value);
    StrippedStable(value);
    ModelMembers(value);
    ModelStatus(value);
    if ModelIsCurrent(value, p) {
      StillCurrent(p);
      assert shown == ModelFields(value) && Get(shown, IsCurrent) == Bool(true);
    } else {
      assert Get(shown, IsCurrent) != Bool(true);
      assert HasProse(WithoutProse(ModelFields(value))) ==> false by { NoProseLeft(ModelFields(value)); }
      WithoutProseAgain(ModelFields(value));
    }
  }

  lemma NoProseLeft(m: Fields)
    ensures !HasProse(WithoutProse(m))
  {
  }

  lemma WithoutProseAgain(m: Fields)
    ensures WithoutProse(WithoutProse(m)) == WithoutProse(m)
  {
  }

  // ---- the theorem ---------------------------------------------------------------------------------

  lemma OtherMembersStable(p: Fields, k: Key)
    requires k != ModelAnalysis
    ensures var out := DisplayedEnvelope(p);
            (k in DisplayedEnvelope(out) <==> k in out) && (k in out ==> DisplayedEnvelope(out)[k] == out[k])
  {
    hide TopMember, DisplayedEnvelope;
    var out := DisplayedEnvelope(p);
    ShownMember(p, k);
    ShownMember(out, k);
    if k in out { TopMemberStable(p, out, k, p[k]); }
  }

  lemma ModelMemberShown(p: Fields)
    ensures ModelAnalysis in DisplayedEnvelope(p) <==> Get(p, ModelAnalysis).Obj?
    ensures Get(p, ModelAnalysis).Obj? ==>
              DisplayedEnvelope(p)[ModelAnalysis] == Obj(ModelProjection(p[ModelAnalysis].m, p))
  {
    hide DisplayedEnvelope, ModelProjection, TopScalar;
    ShownMember(p, ModelAnalysis);
  }

  lemma ShownStatusIsText(value: Fields, envelope: Fields)
    ensures !Unhashable(Get(ModelProjection(value, envelope), Status))
  {
    hide ModelIsCurrent, Listed, HasProse, IsText;
    ModelMember(value, Status);
    StatusIsText(Get(value, Status));
    hide ModelFields, ModelScalar;
  }

  lemma StatusIsText(v: Json)
    ensures ModelScalar(Status, v) ==> v.Str?
  {
    hide SafeText;
  }

  lemma DisplayedIsDisplayable(p: Fields)
    ensures !DisplayRaises(DisplayedEnvelope(p))
  {
    hide DisplayedEnvelope, ModelProjection;
    ModelMemberShown(p);
    if Get(p, ModelAnalysis).Obj? { ShownStatusIsText(p[ModelAnalysis].m, p); }
  }

  /** Where the display returns, displaying its result returns too, and changes nothing exactly when a current model
      analysis is bound by identifiers the display keeps. */
  lemma DisplayTwiceIff(p: Fields)
    requires !DisplayRaises(p)
    ensures !DisplayRaises(DisplayedEnvelope(p))
    ensures DisplayedEnvelope(DisplayedEnvelope(p)) == DisplayedEnvelope(p) <==> ModelRebinds(p)
  {
    hide DisplayedEnvelope, ModelProjection, ModelIsCurrent, BindsByShownIds, DisplayRaises;
    DisplayedIsDisplayable(p);
    var out := DisplayedEnvelope(p);
    ModelMemberShown(p);
    ModelMemberShown(out);
    if Get(p, ModelAnalysis).Obj? { ModelStableIff(p); }
    forall k | k != ModelAnalysis
      ensures (k in DisplayedEnvelope(out) <==> k in out) && (k in out ==> DisplayedEnvelope(out)[k] == out[k])
    {
      OtherMembersStable(p, k);
    }
  }
}
