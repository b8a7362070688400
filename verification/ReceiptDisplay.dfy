/** The dict-filling code of the operator projection. Each method fills its result member by member, as the
    display functions do, and is proved to compute the projection stated in `ReceiptProjection`. */
module ReceiptDisplay {
  import opened Options
  import opened Json
  import opened Text
  import opened ReceiptProjection

  // ---- filling a result member by member -----------------------------------------------------------

  /** The part of a projection that is already filled in. */
  ghost function Filled(f: (Key, Json) -> Option<Json>, m: Fields, done: set<Key>): Fields {
    map k | k in m && k in done && f(k, m[k]).Some? :: f(k, m[k]).value
  }

  lemma FillOne(f: (Key, Json) -> Option<Json>, m: Fields, done: set<Key>, k: Key)
    ensures Filled(f, m, done + {k}) ==
            if k in m && f(k, m[k]).Some? then Filled(f, m, done)[k := f(k, m[k]).value] else Filled(f, m, done)
  {
  }

  lemma FilledAll(f: (Key, Json) -> Option<Json>, m: Fields, done: set<Key>)
    requires forall k, v :: f(k, v).Some? ==> k in done
    ensures Filled(f, m, done) == Project(f, m)
  {
  }

  /** A text member with its longest length, an identifier, a count with its cap, a word out of a list. */
  ghost predicate TextRule(f: (Key, Json) -> Option<Json>, k: Key, limit: nat) { forall v :: f(k, v) == Keep(IsText(v, limit), v) }

  ghost predicate IdRule(f: (Key, Json) -> Option<Json>, k: Key) { forall v :: f(k, v) == Keep(IsId(v), v) }

  ghost predicate CountRule(f: (Key, Json) -> Option<Json>, k: Key, cap: int) { forall v :: f(k, v) == Keep(IsCount(v, cap), v) }

  ghost predicate WordRule(f: (Key, Json) -> Option<Json>, k: Key, words: set<string>) {
    forall v :: f(k, v) == Keep(v.Str? && v.s in words, v)
  }

  ghost predicate BoolRule(f: (Key, Json) -> Option<Json>, k: Key) { forall v :: f(k, v) == Keep(v.Bool?, v) }

  ghost function KeysOf<T>(table: seq<(Key, T)>): set<Key> { set i | 0 <= i < |table| :: table[i].0 }

  lemma OneMoreKey<T>(table: seq<(Key, T)>, i: nat)
    requires i < |table|
    ensures KeysOf(table[..i + 1]) == KeysOf(table[..i]) + {table[i].0}
  {
    assert forall j | 0 <= j < i :: table[..i + 1][j] == table[j] && table[..i][j] == table[j];
    assert table[..i + 1][i] == table[i];
  }

  /** `for key, limit in table: copy the text, if it is one` */
  method CopyTexts(value: Fields, table: seq<(Key, nat)>, base: Fields, ghost f: (Key, Json) -> Option<Json>, ghost done: set<Key>)
    returns (result: Fields)
    requires base == Filled(f, value, done)
    requires forall i | 0 <= i < |table| :: TextRule(f, table[i].0, table[i].1)
    ensures result == Filled(f, value, done + KeysOf(table))
  {
    hide Filled, SafeText, KeysOf;
    result := base;
    NoKeys(table, done);
    for i := 0 to |table|
      invariant result == Filled(f, value, done + KeysOf(table[..i]))
    {
      var (k, limit) := table[i];
      FillOne(f, value, done + KeysOf(table[..i]), k);
      OneMoreKey(table, i);
      assert done + KeysOf(table[..i]) + {k} == done + KeysOf(table[..i + 1]);
      assert TextRule(f, k, limit);
      if k in value && value[k].Str? && |value[k].s| <= limit && SafeText(value[k].s) { result := result[k := value[k]]; }
    }
    assert table[..|table|] == table;
  }

  lemma InTable<T>(table: seq<(Key, T)>)
    ensures forall i | 0 <= i < |table| :: table[i].0 in KeysOf(table)
  {
  }

  lemma NoKeys<T>(table: seq<(Key, T)>, done: set<Key>)
    ensures done + KeysOf(table[..0]) == done
  {
  }

  /** `for key in keys: copy the identifier, if it is one` */
  method CopyIds(value: Fields, table: seq<(Key, ())>, base: Fields, ghost f: (Key, Json) -> Option<Json>, ghost done: set<Key>)
    returns (result: Fields)
    requires base == Filled(f, value, done)
    requires forall i | 0 <= i < |table| :: IdRule(f, table[i].0)
    ensures result == Filled(f, value, done + KeysOf(table))
  {
    hide Filled, FullMatch, KeysOf;
    result := base;
    NoKeys(table, done);
    for i := 0 to |table|
      invariant result == Filled(f, value, done + KeysOf(table[..i]))
    {
      var k := table[i].0;
      FillOne(f, value, done + KeysOf(table[..i]), k);
      OneMoreKey(table, i);
      assert done + KeysOf(table[..i]) + {k} == done + KeysOf(table[..i + 1]);
      assert IdRule(f, k);
      if k in value && value[k].Str? && FullMatch(Identifier, value[k].s) { result := result[k := value[k]]; }
    }
    assert table[..|table|] == table;
  }

  /** `for key, cap in table: copy the count, if it is one` */
  method CopyCounts(value: Fields, table: seq<(Key, int)>, base: Fields, ghost f: (Key, Json) -> Option<Json>, ghost done: set<Key>)
    returns (result: Fields)
    requires base == Filled(f, value, done)
    requires forall i | 0 <= i < |table| :: CountRule(f, table[i].0, table[i].1)
    ensures result == Filled(f, value, done + KeysOf(table))
  {
    hide Filled, KeysOf;
    result := base;
    NoKeys(table, done);
    for i := 0 to |table|
      invariant result == Filled(f, value, done + KeysOf(table[..i]))
    {
      var (k, cap) := table[i];
      FillOne(f, value, done + KeysOf(table[..i]), k);
      OneMoreKey(table, i);
      assert done + KeysOf(table[..i]) + {k} == done + KeysOf(table[..i + 1]);
      assert CountRule(f, k, cap);
      if k in value && value[k].Int? && 0 <= value[k].i <= cap { result := result[k := value[k]]; }
    }
    assert table[..|table|] == table;
  }

  /** `for key, words in table: copy the word, if it is one of them` */
  method CopyWords(value: Fields, table: seq<(Key, set<string>)>, base: Fields, ghost f: (Key, Json) -> Option<Json>,
      ghost done: set<Key>) returns (result: Fields)
    requires base == Filled(f, value, done)
    requires forall i | 0 <= i < |table| :: WordRule(f, table[i].0, table[i].1)
    ensures result == Filled(f, value, done + KeysOf(table))
  {
    hide Filled, KeysOf;
    result := base;
    NoKeys(table, done);
    for i := 0 to |table|
      invariant result == Filled(f, value, done + KeysOf(table[..i]))
    {
      var (k, words) := table[i];
      FillOne(f, value, done + KeysOf(table[..i]), k);
      OneMoreKey(table, i);
      assert done + KeysOf(table[..i]) + {k} == done + KeysOf(table[..i + 1]);
      assert WordRule(f, k, words);
      if k in value && value[k].Str? && value[k].s in words { result := result[k := value[k]]; }
    }
    assert table[..|table|] == table;
  }

  /** `if type(value.get(key)) is bool: copy it` */
  method CopyBool(value: Fields, k: Key, base: Fields, ghost f: (Key, Json) -> Option<Json>, ghost done: set<Key>)
    returns (result: Fields)
    requires base == Filled(f, value, done) && BoolRule(f, k)
    ensures result == Filled(f, value, done + {k})
  {
    hide Filled;
    FillOne(f, value, done, k);
    result := base;
    if k in value && value[k].Bool? { result := result[k := value[k]]; }
  }

  lemma FilledNothing(f: (Key, Json) -> Option<Json>, m: Fields)
    ensures Filled(f, m, {}) == map[]
    ensures forall s: set<Key> :: s - s == {}
  {
  }

  /** `for item in raw: append what is shown of it, if anything`. */
  method ShownItems(f: Json -> Option<Json>, raw: seq<Json>) returns (items: seq<Json>)
    ensures items == FilterMap(f, raw)
  {
    items := [];
    for i := 0 to |raw|
      invariant items == FilterMap(f, raw[..i])
    {
      assert raw[..i + 1][..i] == raw[..i];
      var shown := f(raw[i]);
      if shown.Some? {
        items := items + [shown.value];
      }
    }
    assert raw[..|raw|] == raw;
  }

  /** A list member is shown item by item, up to its cap; any other value is not shown. */
  method ShowList(m: Fields, k: Key, f: Json -> Option<Json>, count: nat, base: Fields) returns (result: Fields)
    ensures result == if k in m && ListOf(f, m[k], count).Some? then base[k := ListOf(f, m[k], count).value] else base
  {
    result := base;
    var raw := Get(m, k);
    if raw.List? {
      var items := ShownItems(f, Take(raw.items, count));
      result := result[k := List(items)];
    }
  }

  // ---- handoff -------------------------------------------------------------------------------------

  lemma HandoffTable()
    ensures TextRule(HandoffField, Summary, 480) && TextRule(HandoffField, OperatorNote, 480) && TextRule(HandoffField, Status, 64)
    ensures forall k, v :: HandoffField(k, v).Some? ==> k in {Summary, OperatorNote, Status, CheckNext}
  {
  }

  method DisplayHandoff(value: Json) returns (shown: Option<Json>)
    ensures shown == HandoffProjection(value)
  {
    hide HandoffScalar, FilterMap, TextItem, Project, Filled, IsText, TextRule;
    if !value.Obj? {
      return None;
    }
    HandoffTable();
    FilledNothing(HandoffField, value.m);
    var table := [(Summary, 480), (OperatorNote, 480), (Status, 64)];
    var result := CopyTexts(value.m, table, map[], HandoffField, {});
    InTable(table);
    ghost var done := {} + KeysOf(table);
    FillOne(HandoffField, value.m, done, CheckNext);
    var checks := Get(value.m, CheckNext);
    if checks.List? {
      var items := [];
      if |checks.items| <= 4 {
        items := ShownItems(TextItem(200), checks.items);
      }
      result := result[CheckNext := List(items)];
    }
    assert table[0].0 in done && table[1].0 in done && table[2].0 in done;
    FilledAll(HandoffField, value.m, done + {CheckNext});
    return Some(Obj(result));
  }

  // ---- advisory ------------------------------------------------------------------------------------

  lemma AdvisoryTexts()
    ensures TextRule(AdvisoryField, SchemaVersion, 48) && TextRule(AdvisoryField, Summary, 480)
    ensures TextRule(AdvisoryField, GenerationMethod, 32) && TextRule(AdvisoryField, StateKey, 48)
    ensures TextRule(AdvisoryField, CycleDisposition, 32)
    ensures IdRule(AdvisoryField, TraceId) && IdRule(AdvisoryField, FrameId)
  {
    hide ListOf, Project, HandoffProjection, IsText, FullMatch;
  }

  lemma AdvisoryTable(k: Key, v: Json)
    requires AdvisoryField(k, v).Some?
    ensures || k.SchemaVersion? || k.Summary? || k.GenerationMethod? || k.StateKey? || k.CycleDisposition? || k.TraceId?
            || k.FrameId? || k.Recommendation? || k.Handoff? || k.Hypotheses? || k.Unknowns? || k.Observations? || k.NextChecks?
  {
    hide ListOf, Project, HandoffProjection, IsText, FullMatch, NonEmptyObj;
  }

  lemma RecommendationTable()
    ensures TextRule(RecommendationField, Summary, 480) && TextRule(RecommendationField, RecommendedAction, 240)
    ensures forall k, v :: RecommendationField(k, v).Some? ==> k in {Summary, RecommendedAction}
  {
    hide IsText;
  }

  method DisplayRecommendation(m: Fields) returns (projected: Fields)
    ensures projected == Project(RecommendationField, m)
  {
    hide Filled, Project, RecommendationField, TextRule;
    RecommendationTable();
    FilledNothing(RecommendationField, m);
    var table := [(Summary, 480), (RecommendedAction, 240)];
    projected := CopyTexts(m, table, map[], RecommendationField, {});
    InTable(table);
    assert table[0].0 in KeysOf(table) && table[1].0 in KeysOf(table);
    FilledAll(RecommendationField, m, {} + KeysOf(table));
  }

  /** The recommendation is shown as text or as a non-empty object. */
  method ShowRecommendation(m: Fields, base: Fields) returns (result: Fields)
    ensures result == if Recommendation in m && AdvisoryField(Recommendation, m[Recommendation]).Some?
                      then base[Recommendation := AdvisoryField(Recommendation, m[Recommendation]).value] else base
  {
    hide AdvisoryScalar, ListOf, HandoffProjection, SafeText, Project;
    result := base;
    var item := Get(m, Recommendation);
    if item.Obj? {
      var projected := DisplayRecommendation(item.m);
      if projected != map[] {
        result := result[Recommendation := Obj(projected)];
      }
    } else if IsText(item, 480) {
      result := result[Recommendation := item];
    }
  }

  method ShowHandoff(m: Fields, base: Fields) returns (result: Fields)
    ensures result == if Handoff in m && HandoffProjection(m[Handoff]).Some?
                      then base[Handoff := HandoffProjection(m[Handoff]).value] else base
  {
    result := base;
    if Handoff in m {
      var handoff := DisplayHandoff(m[Handoff]);
      if handoff.Some? {
        result := result[Handoff := handoff.value];
      }
    }
  }

  lemma AdvisoryLists(v: Json)
    ensures AdvisoryField(Hypotheses, v) == ListOf(HypothesisItem(360), v, 4)
    ensures AdvisoryField(Unknowns, v) == ListOf(TextItem(160), v, 12)
  {
    hide AdvisoryScalar, ListOf, HandoffProjection, IsText, Project, HypothesisItem, TextItem, NonEmptyObj, Keep;
  }

  lemma MoreAdvisoryLists(v: Json)
    ensures AdvisoryField(Observations, v) == ListOf(TextItem(480), v, 16)
    ensures AdvisoryField(NextChecks, v) == ListOf(TextItem(200), v, 4)
  {
    hide AdvisoryScalar, ListOf, HandoffProjection, IsText, Project, HypothesisItem, TextItem, NonEmptyObj, Keep;
  }

  lemma AdvisoryHandoff(v: Json)
    ensures AdvisoryField(Handoff, v) == HandoffProjection(v)
  {
    hide AdvisoryScalar, ListOf, HandoffProjection, IsText, Project, NonEmptyObj, Keep;
  }

  method DisplayAdvisory(value: Json) returns (shown: Option<Json>)
    ensures shown == AdvisoryProjection(value)
  {
    hide AdvisoryField, AdvisoryScalar, ListOf, HandoffProjection, HypothesisItem, TextItem, Project, Filled, TextRule, IdRule, KeysOf;
    if !value.Obj? {
      return None;
    }
    var m := value.m;
    AdvisoryTexts();
    FilledNothing(AdvisoryField, m);
    var texts := [(SchemaVersion, 48), (Summary, 480), (GenerationMethod, 32), (StateKey, 48), (CycleDisposition, 32)];
    var ids := [(TraceId, ()), (FrameId, ())];
    var result := CopyTexts(m, texts, map[], AdvisoryField, {});
    result := CopyIds(m, ids, result, AdvisoryField, {} + KeysOf(texts));
    InTable(texts);
    InTable(ids);
    ghost var done := {} + KeysOf(texts) + KeysOf(ids);
    assert texts[0].0 in done && texts[1].0 in done && texts[2].0 in done && texts[3].0 in done && texts[4].0 in done;
    assert ids[0].0 in done && ids[1].0 in done;
    result := ShowRecommendation(m, result);
    FillOne(AdvisoryField, m, done, Recommendation);
    done := done + {Recommendation};
    result := ShowHandoff(m, result);
    AdvisoryHandoff(Get(m, Handoff));
    FillOne(AdvisoryField, m, done, Handoff);
    done := done + {Handoff};
    result := ShowList(m, Hypotheses, HypothesisItem(360), 4, result);
    AdvisoryLists(Get(m, Hypotheses));
    FillOne(AdvisoryField, m, done, Hypotheses);
    done := done + {Hypotheses};
    result := ShowList(m, Unknowns, TextItem(160), 12, result);
    AdvisoryLists(Get(m, Unknowns));
    FillOne(AdvisoryField, m, done, Unknowns);
    done := done + {Unknowns};
    result := ShowList(m, Observations, TextItem(480), 16, result);
    MoreAdvisoryLists(Get(m, Observations));
    FillOne(AdvisoryField, m, done, Observations);
    done := done + {Observations};
    result := ShowList(m, NextChecks, TextItem(200), 4, result);
    MoreAdvisoryLists(Get(m, NextChecks));
    FillOne(AdvisoryField, m, done, NextChecks);
    done := done + {NextChecks};
    forall k, v | AdvisoryField(k, v).Some? ensures k in done { AdvisoryTable(k, v); }
    FilledAll(AdvisoryField, m, done);
    return Some(Obj(result));
  }

  // ---- model analysis ------------------------------------------------------------------------------

  lemma ModelTexts()
    ensures TextRule(ModelField, SchemaVersion, 48) && TextRule(ModelField, Status, 24) && TextRule(ModelField, Summary, 480)
    ensures TextRule(ModelField, MioState, 48) && TextRule(ModelField, Model, 96) && TextRule(ModelField, UsageStatus, 16)
    ensures TextRule(ModelField, Outcome, 32) && TextRule(ModelField, GenerationMethod, 32)
    ensures TextRule(ModelField, ValidationRejection, 48) && TextRule(ModelField, FrameId, 96)
    ensures TextRule(ModelField, TraceId, 96) && TextRule(ModelField, Reason, 64)
  {
    hide ListOf, IsText;
  }

  lemma ModelCounts()
    ensures CountRule(ModelField, DurationMs, 600000) && CountRule(ModelField, LoadDurationMs, 600000)
    ensures CountRule(ModelField, PromptTokens, 400000) && CountRule(ModelField, CompletionTokens, 400000)
    ensures IdRule(ModelField, FastGeneration) && BoolRule(ModelField, IsCurrent)
  {
    hide ListOf, IsText, FullMatch;
  }

  lemma ModelSmallCounts()
    ensures CountRule(ModelField, RequestCount, 4) && CountRule(ModelField, MeteredRequestCount, 4)
    ensures CountRule(ModelField, UnknownUsageRequestCount, 4) && CountRule(ModelField, TruncatedCount, 4)
  {
    hide ListOf, IsText, FullMatch;
  }

  predicate ModelTextKey(k: Key) {
    || k.SchemaVersion? || k.Status? || k.Summary? || k.MioState? || k.Model? || k.UsageStatus? || k.Outcome?
    || k.GenerationMethod? || k.ValidationRejection? || k.FrameId? || k.TraceId? || k.Reason?
  }

  predicate ModelCountKey(k: Key) {
    || k.DurationMs? || k.LoadDurationMs? || k.PromptTokens? || k.CompletionTokens? || k.RequestCount?
    || k.MeteredRequestCount? || k.UnknownUsageRequestCount? || k.TruncatedCount?
  }

  lemma ModelTable(k: Key, v: Json)
    requires ModelField(k, v).Some?
    ensures ModelTextKey(k) || ModelCountKey(k) || k.FastGeneration? || k.IsCurrent? || k.Hypotheses? || k.NextChecks?
            || k.Uncertainties?
  {
    hide ListOf, IsText, FullMatch, IsCount;
  }

  /** The scalars of the model analysis: twelve texts, the generation, the marker and eight counts. */
  method DisplayModelScalars(value: Fields) returns (result: Fields, ghost done: set<Key>)
    ensures result == Filled(ModelField, value, done)
    ensures forall k | ModelTextKey(k) || ModelCountKey(k) || k.FastGeneration? || k.IsCurrent? :: k in done
  {
    hide ModelField, Filled, TextRule, IdRule, CountRule, BoolRule, KeysOf;
    ModelTexts();
    ModelCounts();
    ModelSmallCounts();
    FilledNothing(ModelField, value);
    var texts := [
      (SchemaVersion, 48), (Status, 24), (Summary, 480), (MioState, 48), (Model, 96), (UsageStatus, 16), (Outcome, 32),
      (GenerationMethod, 32), (ValidationRejection, 48), (FrameId, 96), (TraceId, 96), (Reason, 64)];
    result := CopyTexts(value, texts, map[], ModelField, {});
    done := {} + KeysOf(texts);
    var ids := [(FastGeneration, ())];
    result := CopyIds(value, ids, result, ModelField, done);
    done := done + KeysOf(ids);
    result := CopyBool(value, IsCurrent, result, ModelField, done);
    done := done + {IsCurrent};
    var counts := [
      (DurationMs, 600000), (LoadDurationMs, 600000), (PromptTokens, 400000), (CompletionTokens, 400000),
      (RequestCount, 4), (MeteredRequestCount, 4), (UnknownUsageRequestCount, 4), (TruncatedCount, 4)];
    result := CopyCounts(value, counts, result, ModelField, done);
    done := done + KeysOf(counts);
    InTable(texts);
    InTable(ids);
    InTable(counts);
    assert ids[0].0 in done;
    forall k | ModelTextKey(k) ensures k in KeysOf(texts) {
      assert k in [texts[0].0, texts[1].0, texts[2].0, texts[3].0, texts[4].0, texts[5].0, texts[6].0, texts[7].0,
                   texts[8].0, texts[9].0, texts[10].0, texts[11].0];
    }
    forall k | ModelCountKey(k) ensures k in KeysOf(counts) {
      assert k in [counts[0].0, counts[1].0, counts[2].0, counts[3].0, counts[4].0, counts[5].0, counts[6].0, counts[7].0];
    }
  }

  lemma ModelLists(v: Json)
    ensures ModelField(Hypotheses, v) == ListOf(StatementItem(360), v, 4)
    ensures ModelField(NextChecks, v) == ListOf(PlainItem(200), v, 4)
    ensures ModelField(Uncertainties, v) == ListOf(PlainItem(100), v, 3)
  {
    hide ModelScalar, ListOf, StatementItem, PlainItem;
  }

  method DisplayModelFields(value: Fields) returns (result: Fields)
    ensures result == ModelFields(value)
  {
    hide ModelField, ModelScalar, ListOf, PlainItem, StatementItem, Project, Filled, IsText;
    ghost var done;
    result, done := DisplayModelScalars(value);
    result := ShowList(value, Hypotheses, StatementItem(360), 4, result);
    ModelLists(Get(value, Hypotheses));
    FillOne(ModelField, value, done, Hypotheses);
    done := done + {Hypotheses};
    result := ShowList(value, NextChecks, PlainItem(200), 4, result);
    ModelLists(Get(value, NextChecks));
    FillOne(ModelField, value, done, NextChecks);
    done := done + {NextChecks};
    result := ShowList(value, Uncertainties, PlainItem(100), 3, result);
    ModelLists(Get(value, Uncertainties));
    FillOne(ModelField, value, done, Uncertainties);
    done := done + {Uncertainties};
    forall k, v | ModelField(k, v).Some? ensures k in done { ModelTable(k, v); }
    FilledAll(ModelField, value, done);
    result := ShowUnknowns(value, result);
  }

  /** All unknowns are shown, with their total, or none is. */
  method ShowUnknowns(value: Fields, base: Fields) returns (result: Fields)
    ensures result == base + UnknownsOf(value)
  {
    result := base;
    var raw := Get(value, Unknowns);
    if raw.List? && |raw.items| <= 100 {
      var texts := Take(raw.items, 12);
      var total := Get(value, UnknownsTotal);
      if total.Null? && |raw.items| < 12 && UnknownsTotal !in value {
        total := Int(|raw.items|);
      }
      if AllTexts(texts, 160) && total.Int? && |raw.items| <= total.i <= 100 {
        result := result[Unknowns := List(texts)][UnknownsTotal := total];
      }
    }
  }

  /** `_model_is_current`: the marker, the generation, and the loop over frame and trace. */
  method CheckModel(value: Fields, envelope: Fields) returns (ok: bool)
    ensures ok == ModelIsCurrent(value, envelope)
  {
    var advisory := Get(envelope, Advisory);
    if Get(value, IsCurrent) != Bool(true) || !advisory.Obj? {
      return false;
    }
    var generation := Get(envelope, Generation);
    if !generation.Str? || Get(value, FastGeneration) != generation {
      return false;
    }
    var keys := [FrameId, TraceId];
    for i := 0 to |keys|
      invariant i >= 1 ==> NamesSame(value, advisory.m, FrameId)
      invariant i >= 2 ==> NamesSame(value, advisory.m, TraceId)
    {
      var current := Get(advisory.m, keys[i]);
      if !current.Str? || current.s == "" || Get(value, keys[i]) != current {
        return false;
      }
    }
    return true;
  }

  /** `raised` stands for the TypeError of testing a list or a dict for membership in a set. */
  method DisplayModel(value: Fields, envelope: Fields) returns (raised: bool, result: Fields)
    ensures raised == Unhashable(Get(value, Status))
    ensures !raised ==> result == ModelProjection(value, envelope)
  {
    hide ModelFields, ModelIsCurrent, Listed;
    result := DisplayModelFields(value);
    var prose := false;
    var todo := {Summary, Hypotheses, NextChecks, Unknowns, UnknownsTotal, Uncertainties, FrameId, TraceId, GenerationMethod};
    while todo != {}
      invariant todo <= MODEL_PROSE
      invariant prose <==> exists k | k in MODEL_PROSE - todo :: k in result
      decreases |todo|
    {
      var k :| k in todo;
      todo := todo - {k};
      prose := prose || k in result;
    }
    raised := Unhashable(Get(value, Status));
    if raised {
      return;
    }
    assert prose == HasProse(result);
    var status := Get(value, Status);
    var current := CheckModel(value, envelope);
    FinishedWords(status);
    if ((status.Str? && status.s in {"complete", "partial"}) || Get(value, IsCurrent) == Bool(true) || prose) && !current {
      result := (result - MODEL_PROSE)[IsCurrent := Bool(false)];
    }
  }

  lemma FinishedWords(status: Json)
    ensures IsWord(status, FinishedStatuses) <==> status.Str? && status.s in {"complete", "partial"}
  {
  }

  // ---- source context ------------------------------------------------------------------------------

  lemma ObservedTable(k: Key, v: Json)
    requires ObservedField(k, v).Some?
    ensures k in SOURCE_FIELDS
  {
    hide Listed, ObservedValue;
  }

  /** One observed field: its checks, then a branch per kind of value. */
  method DisplayObserved(name: Key, item: Json) returns (shown: Option<Json>)
    requires name in SOURCE_FIELDS
    ensures shown == ObservedField(name, item)
  {
    hide FullMatch, Listed, Lower, Strip, FilterMap, ObservedValue;
    if !item.Obj? {
      return None;
    }
    TechniquesShown(Get(item.m, ValueKey));
    var status, provenance, raw := Get(item.m, Status), Get(item.m, Provenance), Get(item.m, ValueKey);
    if !IsWord(status, ObservationStatuses) || provenance != Str("rust_core_normalized_event") {
      return None;
    }
    var value := raw;
    if name == TechniqueIds {
      var safe := [];
      if raw.List? {
        safe := ShownItems(TechniqueItem, Take(raw.items, 16));
      }
      value := List(safe);
    } else if !raw.Null? {
      var ok := DisplayedValue(name, raw);
      if !ok {
        return None;
      }
    }
    return Some(Obj(map[ValueKey := value, Status := status, Provenance := provenance]));
  }

  lemma TechniquesShown(raw: Json)
    ensures ObservedValue(TechniqueIds, raw) ==
      Some(List(if raw.List? then FilterMap(TechniqueItem, Take(raw.items, 16)) else []))
    ensures forall name | name != TechniqueIds :: ObservedValue(name, Null) == Some(Null)
  {
    hide FullMatch, Listed, Lower, Strip, FilterMap;
  }

  method DisplayedValue(name: Key, raw: Json) returns (ok: bool)
    requires name in SOURCE_FIELDS && name != TechniqueIds && !raw.Null?
    ensures ObservedValue(name, raw) == Keep(ok, raw)
  {
    hide FullMatch, Listed, Lower, Strip, FilterMap;
    if (name == Sid && raw.Int? && 1 <= raw.i <= 0x7fff_ffff) || (name == Severity && raw.Int? && 0 <= raw.i <= 10)
       || (name == TargetPort && raw.Int? && 1 <= raw.i <= 65535)
    {
      return true;
    }
    if name == Ts && IsMatch(raw, Timestamp) {
      return true;
    }
    if name == Protocol && IsMatch(raw, ProtocolText) {
      return true;
    }
    if name == EventType || name == AttackType || name == Category || name == Protocol {
      var limit := if name == EventType then 32 else if name == AttackType then 96 else if name == Category then 64 else 16;
      return raw.Str? && |raw.s| <= limit && FullMatch(Label, raw.s) && Lower(Strip(raw.s)) != "unknown";
    }
    return name == NormalizedOutcome && IsWord(raw, Outcomes);
  }

  method DisplaySourceContext(value: Json) returns (shown: Option<Json>)
    ensures shown == ContextProjection(value)
  {
    hide FullMatch, ObservedField, Project, Filled;
    if !value.Obj? {
      return None;
    }
    var key := Get(value.m, EventKey);
    if !key.Str? || (key.s != "" && !FullMatch(EventKeyText, key.s)) {
      return None;
    }
    var fields: Fields := map[];
    var raw := Get(value.m, FieldsKey);
    if raw.Obj? {
      var todo := SOURCE_FIELDS;
      FilledNothing(ObservedField, raw.m);
      while todo != {}
        invariant todo <= SOURCE_FIELDS
        invariant fields == Filled(ObservedField, raw.m, SOURCE_FIELDS - todo)
        decreases |todo|
      {
        var name :| name in todo;
        FillOne(ObservedField, raw.m, SOURCE_FIELDS - todo, name);
        assert SOURCE_FIELDS - todo + {name} == SOURCE_FIELDS - (todo - {name});
        todo := todo - {name};
        if name in raw.m {
          var item := DisplayObserved(name, raw.m[name]);
          if item.Some? {
            fields := fields[name := item.value];
          }
        }
      }
      assert SOURCE_FIELDS - {} == SOURCE_FIELDS;
      forall k, v | ObservedField(k, v).Some? ensures k in SOURCE_FIELDS { ObservedTable(k, v); }
      FilledAll(ObservedField, raw.m, SOURCE_FIELDS);
    }
    var result := map[EventKey := key];
    if FieldsKey in value.m {
      result := result[FieldsKey := Obj(fields)];
    }
    ContextParts(value.m, fields);
    return Some(Obj(result));
  }

  lemma ContextParts(m: Fields, fields: Fields)
    requires EventKey in m
    requires FieldsKey in m ==> fields == if m[FieldsKey].Obj? then Project(ObservedField, m[FieldsKey].m) else map[]
    ensures Project(ContextField, m) ==
            if FieldsKey in m then map[EventKey := m[EventKey]][FieldsKey := Obj(fields)] else map[EventKey := m[EventKey]]
  {
    hide ObservedField;
  }

  // ---- envelope ------------------------------------------------------------------------------------

  const TOP_SCALARS := {Status, IsCurrent, Generation, TraceId, CompletedAt, MaxAgeSeconds, Reason}

  lemma TopScalars(envelope: Fields)
    ensures var f := TopField(envelope);
      && BoolRule(f, IsCurrent) && IdRule(f, Generation) && IdRule(f, TraceId) && TextRule(f, CompletedAt, 64)
      && (forall v :: f(MaxAgeSeconds, v) ==
            Keep((v.Int? && 0 <= v.i <= 10) || (v.Float? && 0.0 <= v.x <= 10.0), v))
  {
    hide EdgeDisplay, ContextProjection, BindingProjection, AdvisoryProjection, ModelProjection, KnowledgeLane;
    hide Project, FullMatch, IsText;
  }

  lemma TopStatus(envelope: Fields, v: Json)
    ensures TopField(envelope)(Status, v) == Keep(
      v.Str? && v.s in {"starting", "pending", "complete", "queued", "degraded", "unavailable"}, v)
  {
    hide EdgeDisplay, ContextProjection, BindingProjection, AdvisoryProjection, ModelProjection, KnowledgeLane;
    hide Project, FullMatch, IsText;
  }

  method DisplayTopStatus(payload: Fields) returns (result: Fields)
    ensures result == Filled(TopField(payload), payload, {Status})
  {
    hide TopMember, TopField, Filled;
    ghost var f := TopField(payload);
    FilledNothing(f, payload);
    FillOne(f, payload, {}, Status);
    assert {} + {Status} == {Status};
    var status := Get(payload, Status);
    TopStatus(payload, status);
    result := map[];
    if status.Str? && status.s in {"starting", "pending", "complete", "queued", "degraded", "unavailable"} {
      result := result[Status := status];
    }
  }

  lemma TopReason(envelope: Fields, v: Json)
    ensures TopField(envelope)(Reason, v) == Keep(
      v.Str? && (v.s in {"starting", "pending", "queued", "queue_full", "package_unavailable", "stale_job",
                         "invalid_knowledge_status", "result_too_large"} || FullMatch(FailureReason, v.s)), v)
  {
    hide EdgeDisplay, ContextProjection, BindingProjection, AdvisoryProjection, ModelProjection, KnowledgeLane;
    hide Project, FullMatch, IsText;
  }

  /** The status, marker, identifiers, times and reason at the top of the envelope. */
  method DisplayTopScalars(payload: Fields) returns (result: Fields)
    ensures result == Filled(TopField(payload), payload, TOP_SCALARS)
  {
    hide TopMember, TopScalar, TopField, Filled, WordRule, BoolRule, IdRule, TextRule, IsText, FullMatch, KeysOf;
    ghost var f := TopField(payload);
    TopScalars(payload);
    result := DisplayTopStatus(payload);
    ghost var done := {Status};
    result := CopyBool(payload, IsCurrent, result, f, done);
    done := done + {IsCurrent};
    var ids := [(Generation, ()), (TraceId, ())];
    result := CopyIds(payload, ids, result, f, done);
    done := done + KeysOf(ids);
    var texts := [(CompletedAt, 64)];
    result := CopyTexts(payload, texts, result, f, done);
    done := done + KeysOf(texts);
    TopTables(ids, texts);
    assert done == {Status, IsCurrent, Generation, TraceId, CompletedAt};
    result := DisplayAgeAndReason(payload, result);
  }

  method DisplayAgeAndReason(payload: Fields, base: Fields) returns (result: Fields)
    requires base == Filled(TopField(payload), payload, {Status, IsCurrent, Generation, TraceId, CompletedAt})
    ensures result == Filled(TopField(payload), payload, TOP_SCALARS)
  {
    hide TopMember, TopScalar, TopField, Filled, WordRule, BoolRule, IdRule, TextRule, FullMatch;
    ghost var f := TopField(payload);
    TopScalars(payload);
    ghost var done := {Status, IsCurrent, Generation, TraceId, CompletedAt};
    result := base;
    FillOne(f, payload, done, MaxAgeSeconds);
    var age := Get(payload, MaxAgeSeconds);
    if (age.Int? && 0 <= age.i <= 10) || (age.Float? && 0.0 <= age.x <= 10.0) { result := result[MaxAgeSeconds := age]; }
    done := done + {MaxAgeSeconds};
    FillOne(f, payload, done, Reason);
    var reason := Get(payload, Reason);
    TopReason(payload, reason);
    if reason.Str?
       && (reason.s in {"starting", "pending", "queued", "queue_full", "package_unavailable", "stale_job",
                        "invalid_knowledge_status", "result_too_large"} || FullMatch(FailureReason, reason.s))
    {
      result := result[Reason := reason];
    }
    done := done + {Reason};
    assert done == TOP_SCALARS;
  }

  lemma TopTables(ids: seq<(Key, ())>, texts: seq<(Key, nat)>)
    requires |ids| == 2 && ids[0].0 == Generation && ids[1].0 == TraceId
    requires |texts| == 1 && texts[0].0 == CompletedAt
    ensures KeysOf(ids) == {Generation, TraceId} && KeysOf(texts) == {CompletedAt}
  {
  }

  lemma TopTable(envelope: Fields, k: Key, v: Json)
    requires TopField(envelope)(k, v).Some?
    ensures k in TOP_LANES
  {
    hide EdgeDisplay, ContextProjection, BindingProjection, AdvisoryProjection, ModelProjection, KnowledgeLane;
    hide Project, NonEmptyObj, TopScalar;
    if TopScalar(k, v) { TopScalarKeys(k, v); }
  }

  lemma TopScalarKeys(k: Key, v: Json)
    requires TopScalar(k, v)
    ensures k in TOP_SCALARS
  {
    hide Listed, FullMatch, SafeText, BoundedNumber;
  }

  lemma TopObjects(envelope: Fields, v: Json)
    ensures TopField(envelope)(EdgeEvent, v) == Some(Obj(EdgeDisplay(v)))
    ensures TopField(envelope)(SourceContext, v) == ContextProjection(v)
    ensures TopField(envelope)(HandoffBinding, v) == BindingProjection(v)
    ensures TopField(envelope)(Advisory, v) == AdvisoryProjection(v)
  {
    hide EdgeDisplay, ContextProjection, BindingProjection, AdvisoryProjection, ModelProjection, KnowledgeLane;
    hide Project, TopScalar, NonEmptyObj, Keep;
  }

  lemma TopLanes(envelope: Fields, v: Json)
    ensures TopField(envelope)(ModelAnalysis, v) == if v.Obj? then Some(Obj(ModelProjection(v.m, envelope))) else None
    ensures TopField(envelope)(Knowledge, v) == KnowledgeLane(v)
    ensures TopField(envelope)(EdgeScoreComparison, v) ==
              if v.Obj? then NonEmptyObj(Project(ComparisonField, v.m)) else None
    ensures TopField(envelope)(EdgeKnowledgeAdvisory, v) ==
              if v.Obj? then NonEmptyObj(Project(SidecarField, v.m)) else None
  {
    hide EdgeDisplay, ContextProjection, BindingProjection, AdvisoryProjection, ModelProjection, KnowledgeLane;
    hide Project, TopScalar, NonEmptyObj, Keep;
  }

  /** A member whose projection is known is set, or left out when nothing of it is shown. */
  function Put(base: Fields, k: Key, shown: Option<Json>): Fields {
    if shown.Some? then base[k := shown.value] else base
  }

  lemma BindingIds()
    ensures IdRule(BindingField, Generation) && IdRule(BindingField, EdgeTraceId) && IdRule(BindingField, MioTraceId)
    ensures IdRule(BindingField, FrameId) && BoolRule(BindingField, Valid)
    ensures forall v :: BindingField(Status, v) == Keep(v == Str("matched"), v)
    ensures forall v :: BindingField(EventKey, v) == Keep(v.Str? && FullMatch(EventKeyText, v.s), v)
  {
    hide Listed, FullMatch;
  }

  lemma BindingWords()
    ensures WordRule(BindingField, EdgeAction, {"observe", "notify", "throttle", "redirect", "isolate"})
    ensures WordRule(BindingField, EdgeMode, {"disabled", "dry_run", "policy_gated", "release_guard_failed", "enforced"})
    ensures WordRule(BindingField, EdgeResult,
      {"no_disruptive_action", "planned_not_applied", "extended", "already_held", "applied", "failed", "uncertain"})
  {
    hide FullMatch;
  }

  lemma BindingTable(k: Key, v: Json)
    requires BindingField(k, v).Some?
    ensures || k.Status? || k.Valid? || k.Generation? || k.EventKey? || k.EdgeTraceId? || k.MioTraceId? || k.FrameId?
            || k.EdgeAction? || k.EdgeMode? || k.EdgeResult?
  {
    hide Listed, FullMatch;
  }

  method DisplayBinding(value: Json) returns (shown: Option<Json>)
    ensures shown == BindingProjection(value)
  {
    if !value.Obj? {
      return None;
    }
    hide Listed, FullMatch, Project, Filled, BindingField, IdRule, WordRule, BoolRule, KeysOf;
    BindingIds();
    BindingWords();
    var m := value.m;
    ghost var f := BindingField;
    FilledNothing(f, m);
    var binding: Fields := map[];
    FillOne(f, m, {}, Status);
    if Get(m, Status) == Str("matched") { binding := binding[Status := Str("matched")]; }
    ghost var done := {} + {Status};
    binding := CopyBool(m, Valid, binding, f, done);
    done := done + {Valid};
    FillOne(f, m, done, EventKey);
    var key := Get(m, EventKey);
    if key.Str? && FullMatch(EventKeyText, key.s) { binding := binding[EventKey := key]; }
    done := done + {EventKey};
    var ids := [(Generation, ()), (EdgeTraceId, ()), (MioTraceId, ()), (FrameId, ())];
    binding := CopyIds(m, ids, binding, f, done);
    done := done + KeysOf(ids);
    var words := [
      (EdgeAction, {"observe", "notify", "throttle", "redirect", "isolate"}),
      (EdgeMode, {"disabled", "dry_run", "policy_gated", "release_guard_failed", "enforced"}),
      (EdgeResult, {"no_disruptive_action", "planned_not_applied", "extended", "already_held", "applied", "failed",
                    "uncertain"})];
    binding := CopyWords(m, words, binding, f, done);
    done := done + KeysOf(words);
    InTable(ids);
    InTable(words);
    assert ids[0].0 in done && ids[1].0 in done && ids[2].0 in done && ids[3].0 in done;
    assert words[0].0 in done && words[1].0 in done && words[2].0 in done;
    forall k, v | BindingField(k, v).Some? ensures k in done { BindingTable(k, v); }
    FilledAll(f, m, done);
    return Some(Obj(binding));
  }

  lemma ComparisonTable()
    ensures TextRule(ComparisonField, SchemaVersion, 48) && TextRule(ComparisonField, Status, 24)
    ensures TextRule(ComparisonField, Authority, 32)
    ensures IdRule(ComparisonField, Generation) && IdRule(ComparisonField, TraceId)
    ensures CountRule(ComparisonField, EdgeScore, 100) && CountRule(ComparisonField, MioScore, 100)
    ensures BoolRule(ComparisonField, Matches)
    ensures forall k, v :: ComparisonField(k, v).Some? ==>
      k in {SchemaVersion, Status, Authority, Generation, TraceId, EdgeScore, MioScore, Matches}
  {
    hide IsText, FullMatch;
  }

  method DisplayComparison(value: Json) returns (shown: Option<Json>)
    ensures shown == if value.Obj? then NonEmptyObj(Project(ComparisonField, value.m)) else None
  {
    if !value.Obj? {
      return None;
    }
    hide IsText, FullMatch, Project, Filled, ComparisonField, TextRule, IdRule, CountRule, BoolRule, KeysOf;
    ComparisonTable();
    ghost var f := ComparisonField;
    FilledNothing(f, value.m);
    var texts := [(SchemaVersion, 48), (Status, 24), (Authority, 32)];
    var projected := CopyTexts(value.m, texts, map[], f, {});
    ghost var done := {} + KeysOf(texts);
    var ids := [(Generation, ()), (TraceId, ())];
    projected := CopyIds(value.m, ids, projected, f, done);
    done := done + KeysOf(ids);
    var counts := [(EdgeScore, 100), (MioScore, 100)];
    projected := CopyCounts(value.m, counts, projected, f, done);
    done := done + KeysOf(counts);
    projected := CopyBool(value.m, Matches, projected, f, done);
    done := done + {Matches};
    InTable(texts);
    InTable(ids);
    InTable(counts);
    assert texts[0].0 in done && texts[1].0 in done && texts[2].0 in done && ids[0].0 in done && ids[1].0 in done;
    assert counts[0].0 in done && counts[1].0 in done;
    FilledAll(f, value.m, done);
    if projected == map[] {
      return None;
    }
    return Some(Obj(projected));
  }

  lemma SidecarTexts()
    ensures TextRule(SidecarField, SchemaVersion, 48) && TextRule(SidecarField, Status, 24)
    ensures TextRule(SidecarField, Authority, 32) && TextRule(SidecarField, ClaimStatus, 32) && TextRule(SidecarField, Trust, 32)
    ensures IdRule(SidecarField, Generation) && IdRule(SidecarField, TraceId)
    ensures forall v :: SidecarField(SourceGroups, v) == Keep(AllOf(v, 16, SourceGroup), v)
    ensures forall v :: SidecarField(AttackTechniques, v) == Keep(AllOf(v, 32, Technique), v)
    ensures forall v :: SidecarField(SourceFreshness, v) == FreshnessPair(v)
  {
    hide IsText, FullMatch, AllOf, FreshnessPair;
  }

  lemma SidecarTable(k: Key, v: Json)
    requires SidecarField(k, v).Some?
    ensures || k.SchemaVersion? || k.Status? || k.Authority? || k.ClaimStatus? || k.Trust? || k.Generation? || k.TraceId?
            || k.SourceGroups? || k.AttackTechniques? || k.SourceFreshness?
  {
    hide IsText, FullMatch, AllOf, FreshnessPair;
  }

  /** A list of references is shown whole, or not at all. */
  method ShowReferences(m: Fields, k: Key, count: nat, p: Pattern, base: Fields) returns (result: Fields)
    ensures result == if AllOf(Get(m, k), count, p) then base[k := Get(m, k)] else base
  {
    hide FullMatch;
    result := base;
    var raw := Get(m, k);
    if raw.List? && |raw.items| <= count {
      var ok := AllMatch(raw.items, p);
      if ok { result := result[k := List(raw.items)]; }
    }
  }

  method DisplayFreshness(value: Json) returns (shown: Option<Json>)
    ensures shown == FreshnessPair(value)
  {
    hide FullMatch;
    if !value.Obj? || !({OldestFeedDays, AttackVersion} <= value.m.Keys) {
      return None;
    }
    var age, version := value.m[OldestFeedDays], value.m[AttackVersion];
    var aged := age.Null? || (age.Int? && 0 <= age.i <= 36500) || (age.Float? && 0.0 <= age.x <= 36500.0);
    if !aged || !(version.Null? || (version.Str? && FullMatch(Version, version.s))) {
      return None;
    }
    return Some(Obj(map[OldestFeedDays := age, AttackVersion := version]));
  }

  method DisplaySidecar(value: Json) returns (shown: Option<Json>)
    ensures shown == if value.Obj? then NonEmptyObj(Project(SidecarField, value.m)) else None
  {
    if !value.Obj? {
      return None;
    }
    hide FreshnessPair, Project, Filled, SidecarField, AllOf, TextRule, IdRule, KeysOf;
    SidecarTexts();
    ghost var f := SidecarField;
    var m := value.m;
    FilledNothing(f, m);
    var texts := [(SchemaVersion, 48), (Status, 24), (Authority, 32), (ClaimStatus, 32), (Trust, 32)];
    var projected := CopyTexts(m, texts, map[], f, {});
    ghost var done := {} + KeysOf(texts);
    var ids := [(Generation, ()), (TraceId, ())];
    projected := CopyIds(m, ids, projected, f, done);
    done := done + KeysOf(ids);
    FillOne(f, m, done, SourceGroups);
    AllOfIsList(Get(m, SourceGroups), 16, SourceGroup);
    projected := ShowReferences(m, SourceGroups, 16, SourceGroup, projected);
    done := done + {SourceGroups};
    FillOne(f, m, done, AttackTechniques);
    AllOfIsList(Get(m, AttackTechniques), 32, Technique);
    projected := ShowReferences(m, AttackTechniques, 32, Technique, projected);
    done := done + {AttackTechniques};
    FillOne(f, m, done, SourceFreshness);
    if SourceFreshness in m {
      var freshness := DisplayFreshness(m[SourceFreshness]);
      projected := Put(projected, SourceFreshness, freshness);
    }
    done := done + {SourceFreshness};
    InTable(texts);
    InTable(ids);
    assert texts[0].0 in done && texts[1].0 in done && texts[2].0 in done && texts[3].0 in done && texts[4].0 in done;
    assert ids[0].0 in done && ids[1].0 in done;
    forall k, v | SidecarField(k, v).Some? ensures k in done { SidecarTable(k, v); }
    FilledAll(f, m, done);
    if projected == map[] {
      return None;
    }
    return Some(Obj(projected));
  }

  lemma AllOfIsList(v: Json, count: nat, p: Pattern)
    ensures AllOf(v, count, p) ==> v.List?
  {
    hide FullMatch;
  }

  const TOP_OBJECTS := TOP_SCALARS + {EdgeEvent} + {SourceContext} + {HandoffBinding} + {Advisory}
  const TOP_LANES := TOP_OBJECTS + {ModelAnalysis} + {Knowledge} + {EdgeScoreComparison} + {EdgeKnowledgeAdvisory}

  /** `edge_observation_for_display`: action, mode and result out of their fixed lists, and a marker when something was
      there that is not shown. */
  method ObserveEdge(edge: Json) returns (output: Fields)
    ensures output == EdgeObservation(edge)
  {
    hide Lower, Project, Filled;
    if !edge.Obj? {
      return map[];
    }
    var m := edge.m;
    output := map[];
    FilledNothing(EdgeField, m);
    var action, mode, result := Get(m, Action), Get(m, Mode), Get(m, ResultKey);
    FillOne(EdgeField, m, {}, Action);
    if action.Str? && Lower(action.s) in {"observe", "notify", "throttle", "redirect", "isolate"} {
      output := output[Action := Str(Lower(action.s))];
    }
    FillOne(EdgeField, m, {} + {Action}, Mode);
    if mode.Str? && mode.s in {"disabled", "dry_run", "policy_gated", "release_guard_failed", "enforced"} {
      output := output[Mode := mode];
    }
    FillOne(EdgeField, m, {} + {Action} + {Mode}, ResultKey);
    if result.Str?
       && result.s in {"no_disruptive_action", "planned_not_applied", "extended", "already_held", "applied", "failed", "uncertain"}
    {
      output := output[ResultKey := result];
    }
    FilledAll(EdgeField, m, {} + {Action} + {Mode} + {ResultKey});
    ShownEdge(m);
    var unknown := UnknownFields in m && m[UnknownFields] == Bool(true);
    unknown := unknown || (UnknownFields in m && !m[UnknownFields].Bool?);
    unknown := unknown || exists k :: k in m && k !in {Action, Mode, ResultKey, TraceId, UnknownFields};
    if unknown || (!action.Null? && Action !in output) || (!mode.Null? && Mode !in output)
       || (!result.Null? && ResultKey !in output)
    {
      output := output[UnknownFields := Bool(true)];
    }
  }

  lemma ShownEdge(m: Fields)
    ensures var shown := Project(EdgeField, m);
      && (!Get(m, Action).Null? && Action !in shown <==> !Get(m, Action).Null? && !IsAction(Get(m, Action)))
      && (!Get(m, Mode).Null? && Mode !in shown <==> !Get(m, Mode).Null? && !IsWord(Get(m, Mode), EdgeModes))
      && (!Get(m, ResultKey).Null? && ResultKey !in shown <==>
            !Get(m, ResultKey).Null? && !IsWord(Get(m, ResultKey), EdgeResults))
  {
    hide Listed, Lower;
  }

  method DisplayEdge(edge: Json) returns (output: Fields)
    ensures output == EdgeDisplay(edge)
  {
    hide FullMatch, EdgeObservation;
    output := ObserveEdge(edge);
    if edge.Obj? {
      var trace := Get(edge.m, TraceId);
      if trace.Str? && FullMatch(Identifier, trace.s) { output := output[TraceId := trace]; }
    }
  }

  method DisplayLane(value: Json) returns (shown: Option<Json>)
    ensures shown == KnowledgeLane(value)
  {
    hide SafeText;
    if value.Obj? {
      var status := Get(value.m, Status);
      if status.Str? && |status.s| <= 32 && SafeText(status.s) { return Some(Obj(map[Status := status])); }
    }
    return None;
  }

  /** The edge event, the source context, the handoff binding and the advisory. */
  method ShowObjects(payload: Fields, base: Fields) returns (result: Fields)
    requires base == Filled(TopField(payload), payload, TOP_SCALARS)
    ensures result == Filled(TopField(payload), payload, TOP_OBJECTS)
  {
    hide TopMember, TopScalar, EdgeDisplay, ContextProjection, BindingProjection, AdvisoryProjection, ModelProjection;
    hide KnowledgeLane, Project, Filled, NonEmptyObj, TopField;
    ghost var f := TopField(payload);
    result := base;
    ghost var done := TOP_SCALARS;
    if EdgeEvent in payload {
      TopObjects(payload, payload[EdgeEvent]);
      var edge := DisplayEdge(payload[EdgeEvent]);
      result := result[EdgeEvent := Obj(edge)];
    }
    FillOne(f, payload, done, EdgeEvent);
    done := done + {EdgeEvent};
    if SourceContext in payload {
      TopObjects(payload, payload[SourceContext]);
      var context := DisplaySourceContext(payload[SourceContext]);
      result := Put(result, SourceContext, context);
    }
    FillOne(f, payload, done, SourceContext);
    done := done + {SourceContext};
    if HandoffBinding in payload {
      TopObjects(payload, payload[HandoffBinding]);
      var binding := DisplayBinding(payload[HandoffBinding]);
      result := Put(result, HandoffBinding, binding);
    }
    FillOne(f, payload, done, HandoffBinding);
    done := done + {HandoffBinding};
    if Advisory in payload {
      TopObjects(payload, payload[Advisory]);
      var advisory := DisplayAdvisory(payload[Advisory]);
      result := Put(result, Advisory, advisory);
    }
    FillOne(f, payload, done, Advisory);
  }

  /** The model analysis and the three knowledge lanes. */
  method ShowLanes(payload: Fields, base: Fields) returns (raised: bool, result: Fields)
    requires base == Filled(TopField(payload), payload, TOP_OBJECTS)
    ensures raised == DisplayRaises(payload)
    ensures !raised ==> result == Filled(TopField(payload), payload, TOP_LANES)
  {
    hide TopMember, TopScalar, EdgeDisplay, ContextProjection, BindingProjection, AdvisoryProjection, ModelProjection;
    hide KnowledgeLane, Project, Filled, NonEmptyObj, TopField;
    ghost var f := TopField(payload);
    result := base;
    raised := false;
    ghost var done := TOP_OBJECTS;
    if ModelAnalysis in payload && payload[ModelAnalysis].Obj? {
      var model;
      raised, model := DisplayModel(payload[ModelAnalysis].m, payload);
      if raised {
        return;
      }
      result := result[ModelAnalysis := Obj(model)];
    }
    TopLanes(payload, Get(payload, ModelAnalysis));
    FillOne(f, payload, done, ModelAnalysis);
    done := done + {ModelAnalysis};
    if Knowledge in payload {
      TopLanes(payload, payload[Knowledge]);
      var lane := DisplayLane(payload[Knowledge]);
      result := Put(result, Knowledge, lane);
    }
    FillOne(f, payload, done, Knowledge);
    done := done + {Knowledge};
    if EdgeScoreComparison in payload {
      TopLanes(payload, payload[EdgeScoreComparison]);
      var comparison := DisplayComparison(payload[EdgeScoreComparison]);
      result := Put(result, EdgeScoreComparison, comparison);
    }
    FillOne(f, payload, done, EdgeScoreComparison);
    done := done + {EdgeScoreComparison};
    if EdgeKnowledgeAdvisory in payload {
      TopLanes(payload, payload[EdgeKnowledgeAdvisory]);
      var sidecar := DisplaySidecar(payload[EdgeKnowledgeAdvisory]);
      result := Put(result, EdgeKnowledgeAdvisory, sidecar);
    }
    FillOne(f, payload, done, EdgeKnowledgeAdvisory);
  }

  /** The closed projection of a whole envelope. */
  method DisplayPayload(payload: Fields) returns (raised: bool, result: Fields)
    ensures raised == DisplayRaises(payload)
    ensures !raised ==> result == DisplayedEnvelope(payload)
  {
    hide TopMember, TopScalar, TopField, Project, Filled, DisplayRaises;
    result := DisplayTopScalars(payload);
    result := ShowObjects(payload, result);
    raised, result := ShowLanes(payload, result);
    if !raised {
      forall k, v | TopField(payload)(k, v).Some? ensures k in TOP_LANES { TopTable(payload, k, v); }
      FilledAll(TopField(payload), payload, TOP_LANES);
    }
  }

  // ---- the operator projection ---------------------------------------------------------------------

  /** The loop over the receipt's identifiers and their pattern. */
  method IdentifiersWellFormed(receipt: Fields) returns (ok: bool)
    ensures ok <==> && IsId(Get(receipt, Generation)) && IsId(Get(receipt, FrameGeneration))
                    && IsId(Get(receipt, SourceTraceId)) && IsId(Get(receipt, TraceId)) && IsId(Get(receipt, FrameId))
  {
    hide FullMatch;
    var keys := [Generation, FrameGeneration, SourceTraceId, TraceId, FrameId];
    for i := 0 to |keys|
      invariant forall j | 0 <= j < i :: IsId(Get(receipt, keys[j]))
    {
      var v := Get(receipt, keys[i]);
      if !v.Str? || !FullMatch(Identifier, v.s) {
        return false;
      }
    }
    assert IsId(Get(receipt, keys[0])) && IsId(Get(receipt, keys[1])) && IsId(Get(receipt, keys[2]));
    assert IsId(Get(receipt, keys[3])) && IsId(Get(receipt, keys[4]));
    return true;
  }

  /** The loop over the six pairs of identifiers, each with its counterpart in the envelope. */
  method PairsEqual(pairs: seq<(Json, Json)>) returns (ok: bool)
    ensures ok <==> forall i | 0 <= i < |pairs| :: pairs[i].0 == pairs[i].1
  {
    for i := 0 to |pairs|
      invariant forall j | 0 <= j < i :: pairs[j].0 == pairs[j].1
    {
      if pairs[i].0 != pairs[i].1 {
        return false;
      }
    }
    return true;
  }

  /** `any(type(v) is not str or re.fullmatch(pattern, v) is None for v in values)`, negated. */
  method AllMatch(values: seq<Json>, p: Pattern) returns (ok: bool)
    ensures ok <==> forall i | 0 <= i < |values| :: IsMatch(values[i], p)
  {
    for i := 0 to |values|
      invariant forall j | 0 <= j < i :: IsMatch(values[j], p)
    {
      if !values[i].Str? || !FullMatch(p, values[i].s) {
        return false;
      }
    }
    return true;
  }

  function ReferenceLists(projection: Fields): Fields {
    map[AttackTechniques := Get(projection, AttackTechniques), SourceGroups := Get(projection, SourceGroups)]
  }

  /** The references, copied list by list; nothing at all when one list is not usable. */
  method ReadReferences(projection: Json) returns (refs: Option<Fields>)
    ensures refs.Some? <==> ReferencesUsable(projection)
    ensures refs.Some? ==> refs.value == ReferenceLists(projection.m)
    ensures refs.Some? ==> refs.value.Keys == {AttackTechniques, SourceGroups}
  {
    hide FullMatch, IsMatch;
    if !projection.Obj? || Get(projection.m, ClaimStatus) != Str("reported_unverified")
       || Get(projection.m, Trust) != Str("unverified_advisory_only")
    {
      return None;
    }
    var lists := [(AttackTechniques, Technique), (SourceGroups, SourceGroup)];
    var copied: Fields := map[];
    for i := 0 to |lists|
      invariant i >= 1 ==> AllOf(Get(projection.m, AttackTechniques), 16, Technique)
      invariant i >= 2 ==> AllOf(Get(projection.m, SourceGroups), 16, SourceGroup)
      invariant i == 0 ==> copied == map[]
      invariant i == 1 ==> copied == map[AttackTechniques := Get(projection.m, AttackTechniques)]
      invariant i == 2 ==> copied == ReferenceLists(projection.m)
    {
      var values := Get(projection.m, lists[i].0);
      if !values.List? || |values.items| > 16 {
        return None;
      }
      var ok := AllMatch(values.items, lists[i].1);
      if !ok {
        return None;
      }
      copied := copied[lists[i].0 := List(values.items)];
    }
    return Some(copied);
  }

  method SourceFreshnessOf(projection: Fields, receipt: Fields) returns (freshness: Json)
    ensures freshness == FreshnessOf(projection, receipt)
  {
    hide IsVersion, BoundedNumber;
    var value := Get(projection, SourceFreshness);
    if !value.Obj? || value.m.Keys - {OldestFeedDays, AttackVersion} != {}
       || Get(receipt, SourceFreshnessVerification) != Str("reported_unverified_at_lookup")
    {
      return Obj(map[Status := Str("unavailable"), OldestFeedDays := Null, AttackVersion := Null]);
    }
    var age := Get(value.m, OldestFeedDays);
    if !age.Null? && !BoundedNumber(age, 0.0, 36500.0) {
      return Obj(map[Status := Str("unavailable"), OldestFeedDays := Null, AttackVersion := Null]);
    }
    var version := Get(value.m, AttackVersion);
    if !IsVersion(version) {
      return Obj(map[Status := Str("unavailable"), OldestFeedDays := Null, AttackVersion := Null]);
    }
    if value.m.Keys != {OldestFeedDays, AttackVersion} {
      return Obj(map[Status := Str("unavailable"), OldestFeedDays := Null, AttackVersion := Null]);
    }
    return Obj(map[Status := Str("reported_unverified_at_lookup"), OldestFeedDays := age, AttackVersion := version]);
  }

  /** `raised` stands for the OverflowError of a division whose result no float can hold. */
  method LastReport(payload: Fields, receipt: Fields, nowMs: int) returns (raised: bool, report: Option<Fields>)
    ensures raised <==> ReportOverflows(payload, receipt, nowMs)
    ensures raised ==> report.None?
    ensures !raised ==> (report.Some? <==> ReportShown(payload, receipt, nowMs))
    ensures report.Some? ==> ReferencesUsable(Get(receipt, Projection)) && report.value == ReportBlock(receipt)
  {
    hide FullMatch, BindingMatches, FreshnessOf, AllOf, BoundedNumber, IsMatch, DivisionOverflows;
    raised, report := false, None;
    if Get(receipt, ReportState) != Str("last_report") || Get(receipt, IsCurrent) != Bool(false)
       || Get(payload, Status) != Str("complete")
    {
      return;
    }
    var advisory, context := Get(payload, Advisory), Get(payload, SourceContext);
    var bound := CheckProducer(payload);
    if !bound || !advisory.Obj? || !context.Obj? {
      return;
    }
    var age, limit, expires := Get(receipt, ReportAgeSeconds), Get(receipt, MaxAgeSeconds), Get(receipt, ReportExpiresAtMs);
    if !BoundedNumber(age, 0.0, 10.0) || !BoundedNumber(limit, 0.1, 10.0) {
      return;
    }
    NumbersAreNumeric(age, 0.0, 10.0);
    NumbersAreNumeric(limit, 0.1, 10.0);
    if Number(age) > Number(limit) || !expires.Int? {
      return;
    }
    if DivisionOverflows(expires.i - nowMs) {
      raised := true;
      return;
    }
    var remaining := (expires.i - nowMs) as real / 1000.0;
    if remaining <= 0.0 || remaining > Number(limit) - Number(age) + 0.1 {
      return;
    }
    report := ReportOf(payload, receipt, advisory.m, context.m);
  }

  lemma NumbersAreNumeric(v: Json, low: real, high: real)
    requires BoundedNumber(v, low, high)
    ensures Numeric(v)
  {
  }

  /** The part of the last report after its times: identifiers, references, and the block itself. */
  method ReportOf(payload: Fields, receipt: Fields, advisory: Fields, context: Fields) returns (report: Option<Fields>)
    requires Get(payload, Advisory) == Obj(advisory) && Get(payload, SourceContext) == Obj(context)
    ensures report.Some? <==> IdentifiersBound(payload, receipt) && ReferencesUsable(Get(receipt, Projection))
    ensures report.Some? ==> report.value == ReportBlock(receipt)
  {
    hide FullMatch, FreshnessOf, AllOf;
    var ok := IdentifiersWellFormed(receipt);
    var key := Get(receipt, EventKey);
    if !ok || !IsMatch(key, EventKeyText) {
      return None;
    }
    ok := PairsEqual([
      (Get(receipt, Generation), Get(payload, Generation)), (Get(receipt, FrameGeneration), Get(payload, Generation)),
      (Get(receipt, SourceTraceId), Get(payload, TraceId)), (key, Get(context, EventKey)),
      (Get(receipt, TraceId), Get(advisory, TraceId)), (Get(receipt, FrameId), Get(advisory, FrameId))]);
    SixPairs(payload, receipt, advisory, context);
    if !ok {
      return None;
    }
    hide ReferencesUsable;
    var projection := Get(receipt, Projection);
    var refs := ReadReferences(projection);
    if refs.None? {
      return None;
    }
    ProjectionIsObject(projection);
    var freshness := SourceFreshnessOf(projection.m, receipt);
    return Some(
      map[Status := Str("projected"), IsCurrent := Bool(false), ReportState := Str("last_report"),
          ClaimStatus := Str("reported_unverified"), Trust := Str("unverified_advisory_only"),
          AttackTechniques := refs.value[AttackTechniques], SourceGroups := refs.value[SourceGroups],
          ReportAgeSeconds := Get(receipt, ReportAgeSeconds), MaxAgeSeconds := Get(receipt, MaxAgeSeconds),
          ReportExpiresAtMs := Get(receipt, ReportExpiresAtMs), SourceFreshness := freshness]);
  }

  lemma ProjectionIsObject(projection: Json)
    requires ReferencesUsable(projection)
    ensures projection.Obj?
  {
  }

  ghost function IdPairs(payload: Fields, receipt: Fields, advisory: Fields, context: Fields): seq<(Json, Json)> {
    [(Get(receipt, Generation), Get(payload, Generation)), (Get(receipt, FrameGeneration), Get(payload, Generation)),
     (Get(receipt, SourceTraceId), Get(payload, TraceId)), (Get(receipt, EventKey), Get(context, EventKey)),
     (Get(receipt, TraceId), Get(advisory, TraceId)), (Get(receipt, FrameId), Get(advisory, FrameId))]
  }

  lemma SixPairs(payload: Fields, receipt: Fields, advisory: Fields, context: Fields)
    ensures var pairs := IdPairs(payload, receipt, advisory, context);
      (forall i | 0 <= i < |pairs| :: pairs[i].0 == pairs[i].1) <==>
        (&& Get(receipt, Generation) == Get(payload, Generation) && Get(receipt, FrameGeneration) == Get(payload, Generation)
         && Get(receipt, SourceTraceId) == Get(payload, TraceId) && Get(receipt, EventKey) == Get(context, EventKey)
         && Get(receipt, TraceId) == Get(advisory, TraceId) && Get(receipt, FrameId) == Get(advisory, FrameId))
  {
    hide Get;
    var pairs := IdPairs(payload, receipt, advisory, context);
    assert |pairs| == 6;
    assert (forall i | 0 <= i < |pairs| :: pairs[i].0 == pairs[i].1) ==>
      pairs[0].0 == pairs[0].1 && pairs[1].0 == pairs[1].1 && pairs[2].0 == pairs[2].1 &&
      pairs[3].0 == pairs[3].1 && pairs[4].0 == pairs[4].1 && pairs[5].0 == pairs[5].1;
  }

  /** The reference block of a current envelope: the identifiers, then the references, then the block itself. */
  method CurrentReferences(payload: Fields, receipt: Fields) returns (block: Option<Fields>)
    requires Get(payload, Advisory).Obj? && Get(payload, SourceContext).Obj?
    ensures block.Some? <==> KnowledgeCurrent(payload, receipt)
    ensures block.Some? ==> block.value == CurrentBlock(receipt)
  {
    hide FullMatch, FreshnessOf, AllOf;
    var advisory, context := Get(payload, Advisory).m, Get(payload, SourceContext).m;
    var ok := PairsEqual([
      (Get(receipt, Generation), Get(payload, Generation)), (Get(receipt, FrameGeneration), Get(payload, Generation)),
      (Get(receipt, SourceTraceId), Get(payload, TraceId)), (Get(receipt, EventKey), Get(context, EventKey)),
      (Get(receipt, TraceId), Get(advisory, TraceId)), (Get(receipt, FrameId), Get(advisory, FrameId))]);
    SixPairs(payload, receipt, advisory, context);
    if Get(receipt, IsCurrent) != Bool(true) || !ok {
      return None;
    }
    ok := IdentifiersWellFormed(receipt);
    if !ok || !IsMatch(Get(receipt, EventKey), EventKeyText) {
      return None;
    }
    hide ReferencesUsable;
    var projection := Get(receipt, Projection);
    var refs := ReadReferences(projection);
    if refs.None? {
      return None;
    }
    ProjectionIsObject(projection);
    var freshness := SourceFreshnessOf(projection.m, receipt);
    return Some(
      map[Status := Str("projected"), IsCurrent := Bool(true),
          ClaimStatus := Str("reported_unverified"), Trust := Str("unverified_advisory_only"),
          Generation := Get(receipt, Generation), FrameGeneration := Get(receipt, FrameGeneration),
          SourceTraceId := Get(receipt, SourceTraceId), EventKey := Get(receipt, EventKey),
          TraceId := Get(receipt, TraceId), FrameId := Get(receipt, FrameId),
          AttackTechniques := refs.value[AttackTechniques], SourceGroups := refs.value[SourceGroups],
          SourceFreshness := freshness]);
  }

  /** `binding_matches_same_envelope`: the parts, the edge event's own words, then the loop over what the binding names. */
  method BindingIsSame(p: Fields) returns (ok: bool)
    ensures ok == BindingMatches(p)
  {
    hide FullMatch, PyEq, Truthy;
    var binding, edge, context := Get(p, HandoffBinding), Get(p, EdgeEvent), Get(p, SourceContext);
    if !binding.Obj? || !edge.Obj? || !context.Obj? {
      return false;
    }
    if !Truthy(Get(context.m, EventKey)) {
      return false;
    }
    var trace, action, mode, result := Get(edge.m, TraceId), Get(edge.m, Action), Get(edge.m, Mode), Get(edge.m, ResultKey);
    EdgeWords(action, mode, result);
    if !trace.Str? || !FullMatch(Identifier, trace.s)
       || !action.Str? || action.s !in {"observe", "notify", "throttle", "redirect", "isolate"}
       || !mode.Str? || mode.s !in {"disabled", "dry_run", "policy_gated", "release_guard_failed", "enforced"}
       || !result.Str?
       || result.s !in {"no_disruptive_action", "planned_not_applied", "extended", "already_held", "applied", "failed", "uncertain"}
    {
      return false;
    }
    hide Listed;
    var named := [(Generation, Get(p, Generation)), (EventKey, Get(context.m, EventKey)), (EdgeTraceId, trace),
                  (EdgeAction, action), (EdgeMode, mode), (EdgeResult, result)];
    for i := 0 to |named|
      invariant forall j | 0 <= j < i :: PyEq(Get(binding.m, named[j].0), named[j].1)
    {
      if !PyEq(Get(binding.m, named[i].0), named[i].1) {
        SixNamed(named, i);
        return false;
      }
    }
    assert PyEq(Get(binding.m, named[0].0), named[0].1) && PyEq(Get(binding.m, named[1].0), named[1].1);
    assert PyEq(Get(binding.m, named[2].0), named[2].1) && PyEq(Get(binding.m, named[3].0), named[3].1);
    assert PyEq(Get(binding.m, named[4].0), named[4].1) && PyEq(Get(binding.m, named[5].0), named[5].1);
    if !PyEq(Get(binding.m, EdgeTraceId), Get(p, TraceId)) {
      return false;
    }
    if Get(p, Status) == Str("complete") {
      var advisory := Get(p, Advisory);
      if !advisory.Obj? {
        return false;
      }
      if !PyEq(Get(binding.m, MioTraceId), Get(advisory.m, TraceId)) || !PyEq(Get(binding.m, FrameId), Get(advisory.m, FrameId)) {
        return false;
      }
    }
    return Get(binding.m, Status) == Str("matched");
  }

  lemma SixNamed(named: seq<(Key, Json)>, i: nat)
    requires |named| == 6 && i < 6
    ensures named[i] == named[0] || named[i] == named[1] || named[i] == named[2] || named[i] == named[3]
            || named[i] == named[4] || named[i] == named[5]
  {
  }

  lemma EdgeWords(action: Json, mode: Json, result: Json)
    ensures IsWord(action, EdgeActions) <==>
      action.Str? && action.s in {"observe", "notify", "throttle", "redirect", "isolate"}
    ensures IsWord(mode, EdgeModes) <==>
      mode.Str? && mode.s in {"disabled", "dry_run", "policy_gated", "release_guard_failed", "enforced"}
    ensures IsWord(result, EdgeResults) <==>
      result.Str?
      && result.s in {"no_disruptive_action", "planned_not_applied", "extended", "already_held", "applied", "failed", "uncertain"}
  {
  }

  /** `_currentbound_fast_envelope` */
  method CheckFresh(p: Fields, clocks: Clocks) returns (ok: bool)
    ensures ok == FastCurrent(p, clocks)
  {
    hide BindingMatches;
    if Get(p, Status) != Str("complete") || Get(p, IsCurrent) != Bool(true) {
      return false;
    }
    var completed, limit := Get(p, CompletedAt), Get(p, MaxAgeSeconds);
    if !completed.Str? {
      return false;
    }
    var at := clocks.stamp(completed.s);
    if at.None? || !(limit.Int? || limit.Float?) {
      return false;
    }
    var seconds := if limit.Int? then limit.i as real else limit.x;
    var age := clocks.now - at.value;
    if !(0.0 <= seconds <= 10.0) || seconds == 0.0 || !(0.0 <= age <= seconds) {
      return false;
    }
    ok := CheckProducer(p);
  }

  method CheckProducer(p: Fields) returns (ok: bool)
    ensures ok == ProducerBound(p)
  {
    hide BindingMatches;
    var binding := Get(p, HandoffBinding);
    if !binding.Obj? || Get(binding.m, Valid) != Bool(true) {
      return false;
    }
    ok := BindingIsSame(p);
  }

  method CheckReceipt(receipt: Json) returns (ok: bool)
    ensures ok == ReceiptReadable(receipt)
  {
    if !receipt.Obj? {
      return false;
    }
    var status := Get(receipt.m, Status);
    return Get(receipt.m, SchemaVersion) == Str("azazel.mio_knowledge_analysis.v1")
      && Get(receipt.m, Authority) == Str("read_only_advisory")
      && Get(receipt.m, UsageStatus) == Str("not_applicable")
      && status.Str?
      && status.s in {
           "starting", "queued", "disabled", "missing_token", "invalid_configuration", "unavailable", "timeout", "oversized",
           "redirect_rejected", "auth_rejected", "scope_rejected", "malformed", "received", "superseded", "projected",
           "rejected" };
  }

  /** `_status_only_payload`, for a status of the list. */
  method ShowStatusOnly(p: Fields, status: string) returns (output: Fields)
    requires Listed(LaneStatuses, status)
    ensures output == StatusOnly(p, status)
  {
    hide EdgeObservation, Listed;
    var observed := ObserveEdge(Get(p, EdgeEvent));
    return map[Status := Str("unavailable"), IsCurrent := Bool(false), MaxAgeSeconds := Int(0),
               EdgeEvent := Obj(observed),
               KnowledgeAnalysis := Obj(map[
                 Status := Str(status), IsCurrent := Bool(false),
                 SourceFreshness := Obj(map[Status := Str("unavailable"), OldestFeedDays := Null, AttackVersion := Null])])];
  }

  lemma ReadableIsListed(receipt: Json)
    requires ReceiptReadable(receipt)
    ensures receipt.Obj? && Status in receipt.m && receipt.m[Status].Str? && Listed(LaneStatuses, receipt.m[Status].s)
  {
    hide Listed;
  }

  /** Early returns for every reason not to show a reference; the last statement shows one as current. */
  method OperatorMioPayload(payload: Json, clocks: Clocks) returns (display: Display)
    ensures display == OperatorView(payload, clocks)
  {
    hide Listed, FullMatch, DisplayedEnvelope, FastCurrent, StatusOnly, ReportShown, ReceiptReadable;
    hide DisplayRaises, ReportOverflows, ReferencesUsable, CurrentBlock, ReportBlock, KnowledgeCurrent;
    if !payload.Obj? {
      return Shown(map[]);
    }
    var p := payload.m;
    var receipt := Get(p, KnowledgeAnalysis);
    var current := CheckFresh(p, clocks);
    var readable := CheckReceipt(receipt);
    UnavailableIsListed();
    if readable { ReadableIsListed(receipt); }
    if !current {
      var output := ShowStatusOnly(p, if readable then receipt.m[Status].s else "unavailable");
      if readable && receipt.m[Status] == Str("projected") {
        var raised, report := LastReport(p, receipt.m, clocks.nowMs);
        if raised {
          return Raised;
        }
        if report.Some? {
          output := output[KnowledgeAnalysis := Obj(report.value)];
        }
      }
      return Shown(output);
    }
    var raised, output := DisplayPayload(p);
    if raised {
      return Raised;
    }
    if !readable {
      return Shown(output[KnowledgeAnalysis := Obj(map[Status := Str("unavailable"), IsCurrent := Bool(false)])]);
    }
    var lane := output[KnowledgeAnalysis := Obj(map[Status := receipt.m[Status], IsCurrent := Bool(false)])];
    if receipt.m[Status] != Str("projected") {
      return Shown(lane);
    }
    CurrentHasObjects(p, clocks);
    var block := CurrentReferences(p, receipt.m);
    if block.None? {
      return Shown(lane);
    }
    return Shown(output[KnowledgeAnalysis := Obj(block.value)]);
  }

  lemma CurrentHasObjects(p: Fields, clocks: Clocks)
    requires FastCurrent(p, clocks)
    ensures Get(p, Advisory).Obj? && Get(p, SourceContext).Obj?
  {
    hide ProducerBound, WithinAge;
    BoundHasObjects(p);
  }
}
