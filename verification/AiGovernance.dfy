/** The audited gate in front of the AI assistant: who may call it, what it is given, what is accepted from it, and
    what the audit log then says. */
module AiGovernance {
  import opened Options
  import opened Json

  // ---- text of a value -----------------------------------------------------------------------------

  /** Python's `a or b`. */
  function Or(a: Json, b: Json): Json { if Truthy(a) then a else b }

  /** `str(v or '')`, where `show` is Python's `str` of anything but a string. */
  function Text(v: Json, show: Json -> string): string {
    if !Truthy(v) then "" else if v.Str? then v.s else show(v)
  }

  function Clip(s: string, n: nat): string { if |s| > n then s[..n] else s }

  // ---- the gate ------------------------------------------------------------------------------------

  datatype Reason =
    | IntentNotAllowed | AmbiguousSuricata | AmbiguousCoreAdvisory | AdviceRequiresAmbiguous
    | AmbiguousSuricataCandidate | OperatorRequested | SourceNotAllowed
  {
    predicate Allows() {
      AmbiguousSuricata? || AmbiguousCoreAdvisory? || AmbiguousSuricataCandidate? || OperatorRequested?
    }
  }

  predicate Ambiguous(band: string) { band == "ambiguous" || band == "uncertain" }

  predicate OperatorSource(source: string) {
    source == "operator" || source == "ops_comm" || source == "mattermost" || source == "dashboard"
  }

  function Decide(context: Fields, show: Json -> string): Reason {
    var intent := Text(Get(context, Ai(Intent)), show);
    var source := Text(Get(context, Ai(Source)), show);
    var band := Text(Get(context, Ai(RiskBand)), show);
    if intent != "advice" && intent != "summary" && intent != "candidate" then IntentNotAllowed
    else if intent == "advice" then
      if source == "suricata_eve" && Ambiguous(band) then AmbiguousSuricata
      else if source == "azazel_core" && Ambiguous(band) && Get(context, Ai(CandidateScope)) == Str("mio_read_only_advisory")
      then AmbiguousCoreAdvisory
      else AdviceRequiresAmbiguous
    else if intent == "candidate" && source == "suricata_eve" && Ambiguous(band) then AmbiguousSuricataCandidate
    else if OperatorSource(source) then OperatorRequested
    else SourceNotAllowed
  }

  /** The rule behind the branches: an operator may ask for a summary or a candidate; a detector may ask for advice or
      a candidate, on an ambiguous risk only; the core may ask for the read-only advisory, on an ambiguous risk only. */
  predicate MayInvoke(intent: string, source: string, band: string, scope: Json) {
    || (source in {"operator", "ops_comm", "mattermost", "dashboard"} && intent in {"summary", "candidate"})
    || (source == "suricata_eve" && band in {"ambiguous", "uncertain"} && intent in {"advice", "candidate"})
    || (source == "azazel_core" && band in {"ambiguous", "uncertain"} && intent == "advice"
        && scope == Str("mio_read_only_advisory"))
  }

  predicate RuleAllows(context: Fields, show: Json -> string) {
    MayInvoke(Text(Get(context, Ai(Intent)), show), Text(Get(context, Ai(Source)), show),
      Text(Get(context, Ai(RiskBand)), show), Get(context, Ai(CandidateScope)))
  }

  lemma GateIff(context: Fields, show: Json -> string)
    ensures Decide(context, show).Allows() <==> RuleAllows(context, show)
    ensures var intent, source, band := Text(Get(context, Ai(Intent)), show), Text(Get(context, Ai(Source)), show),
        Text(Get(context, Ai(RiskBand)), show);
      var r := Decide(context, show);
      && (r == IntentNotAllowed <==> intent !in {"advice", "summary", "candidate"})
      && (r == OperatorRequested <==>
            source in {"operator", "ops_comm", "mattermost", "dashboard"} && intent in {"summary", "candidate"})
      && (r == AmbiguousSuricata <==>
            source == "suricata_eve" && band in {"ambiguous", "uncertain"} && intent == "advice")
      && (r == AmbiguousSuricataCandidate <==>
            source == "suricata_eve" && band in {"ambiguous", "uncertain"} && intent == "candidate")
      && (r == AdviceRequiresAmbiguous <==> intent == "advice" && !RuleAllows(context, show))
  {
    hide Text, Get;
    Words();
  }

  lemma Words()
    ensures "advice"[0] == 'a' && "summary"[0] == 's' && "candidate"[0] == 'c'
    ensures !OperatorSource("suricata_eve") && !OperatorSource("azazel_core")
  {
    assert |"suricata_eve"| == 12 && |"azazel_core"| == 11;
    assert |"operator"| == 8 && |"ops_comm"| == 8 && |"mattermost"| == 10 && |"dashboard"| == 9;
  }

  // ---- what the assistant is given -----------------------------------------------------------------

  const SANITIZED: set<Key> :=
    {TraceId, Ai(Source), Ai(Intent), Ai(Subject), Ai(RiskScore), Category, Ai(Ports), Ai(Ips), Ai(EvidenceIds), Summary,
     Ai(CandidateScope)}

  const FORBIDDEN: seq<Key> := [Ai(Raw), Ai(RawLog), Ai(FullLog), Ai(Message), Ai(Line), Ai(Payload), Ai(Event)]

  /** The allowlisted members of a payload. */
  function Restricted(m: Fields): Fields { map k | k in m && k in SANITIZED :: m[k] }

  // ---- what is accepted from it --------------------------------------------------------------------

  const TEXTS: seq<Key> := [Ai(Advice), Summary, Ai(Candidate)]
  const LISTS: seq<Key> := [Ai(RunbookCandidates), Ai(AttackCandidates)]

  predicate IsText(k: Key) { k == Ai(Advice) || k == Summary || k == Ai(Candidate) }
  predicate IsList(k: Key) { k == Ai(RunbookCandidates) || k == Ai(AttackCandidates) }

  datatype Error = PayloadNotDict | OutputNotDict | ExtraKeys | NotString(k: Key) | NotList(k: Key) | ItemNotString(k: Key)

  datatype Checked = Accepted(f: Fields) | Refused(e: Error)

  function TextOf(v: Json): Option<string> {
    match v
    case Null => Some("")
    case Str(s) => Some(Clip(s, 240))
    case _ => None
  }

  function FirstFive(xs: seq<Json>): seq<Json> { if |xs| > 5 then xs[..5] else xs }

  predicate AllText(xs: seq<Json>) { forall i | 0 <= i < |xs| :: xs[i].Str? }

  function Clipped(xs: seq<Json>): (r: seq<Json>)
    requires AllText(xs)
    ensures |r| == |xs|
  {
    seq(|xs|, i requires 0 <= i < |xs| => Str(Clip(xs[i].s, 96)))
  }

  function ListOf(v: Json): Option<seq<Json>> {
    match v
    case Null => Some([])
    case List(xs) => if AllText(FirstFive(xs)) then Some(Clipped(FirstFive(xs))) else None
    case _ => None
  }

  const MEMBERS: set<Key> := {Ai(Advice), Summary, Ai(Candidate), Ai(RunbookCandidates), Ai(AttackCandidates)}

  /** An output with these five members. */
  function Output(advice: Json, summary: Json, candidate: Json, runbooks: Json, attacks: Json): Fields {
    map[Ai(Advice) := advice, Summary := summary, Ai(Candidate) := candidate,
        Ai(RunbookCandidates) := runbooks, Ai(AttackCandidates) := attacks]
  }

  function EmptyOutput(): Fields { Output(Str(""), Str(""), Str(""), List([]), List([])) }

  lemma OutputMembers(a: Json, s: Json, c: Json, r: Json, t: Json)
    ensures var f := Output(a, s, c, r, t);
      && f.Keys == MEMBERS
      && f[Ai(Advice)] == a && f[Summary] == s && f[Ai(Candidate)] == c && f[Ai(RunbookCandidates)] == r && f[Ai(AttackCandidates)] == t
  {
  }

  lemma MembersDecide(f: Fields)
    requires f.Keys == MEMBERS
    ensures f == Output(f[Ai(Advice)], f[Summary], f[Ai(Candidate)], f[Ai(RunbookCandidates)], f[Ai(AttackCandidates)])
  {
  }

  predicate TextsOk(m: Fields) {
    TextOf(Get(m, Ai(Advice))).Some? && TextOf(Get(m, Summary)).Some? && TextOf(Get(m, Ai(Candidate))).Some?
  }

  predicate ListsOk(m: Fields) { ListOf(Get(m, Ai(RunbookCandidates))).Some? && ListOf(Get(m, Ai(AttackCandidates))).Some? }

  /** What the gate accepts: known members only, texts that are strings, lists whose first five items are. */
  predicate Acceptable(o: Json) {
    o.Obj? && (forall k | k in o.m :: IsText(k) || IsList(k)) && TextsOk(o.m) && ListsOk(o.m)
  }

  /** What an accepted output is turned into. */
  function Cleaned(m: Fields): Fields
    requires Acceptable(Obj(m))
  {
    Output(CleanText(m, Ai(Advice)), CleanText(m, Summary), CleanText(m, Ai(Candidate)),
      CleanList(m, Ai(RunbookCandidates)), CleanList(m, Ai(AttackCandidates)))
  }

  /** The loop over the first five items of a candidate list. */
  method CopyItems(xs: seq<Json>) returns (r: Option<seq<Json>>)
    ensures r == ListOf(List(xs))
  {
    var raw := FirstFive(xs);
    var values: seq<Json> := [];
    for i := 0 to |raw|
      invariant AllText(raw[..i]) && values == Clipped(raw[..i])
    {
      if !raw[i].Str? { return None; }
      values := values + [Str(Clip(raw[i].s, 96))];
      assert raw[..i + 1] == raw[..i] + [raw[i]];
    }
    assert raw[..|raw|] == raw;
    return Some(values);
  }

  function CleanText(m: Fields, k: Key): Json {
    if TextOf(Get(m, k)).Some? then Str(TextOf(Get(m, k)).value) else Null
  }

  function CleanList(m: Fields, k: Key): Json {
    if ListOf(Get(m, k)).Some? then List(ListOf(Get(m, k)).value) else Null
  }

  function WithTexts(f: Fields, m: Fields, n: nat): Fields {
    var a := if n >= 1 then f[Ai(Advice) := CleanText(m, Ai(Advice))] else f;
    var b := if n >= 2 then a[Summary := CleanText(m, Summary)] else a;
    if n >= 3 then b[Ai(Candidate) := CleanText(m, Ai(Candidate))] else b
  }

  function WithLists(f: Fields, m: Fields, n: nat): Fields {
    var a := if n >= 1 then f[Ai(RunbookCandidates) := CleanList(m, Ai(RunbookCandidates))] else f;
    if n >= 2 then a[Ai(AttackCandidates) := CleanList(m, Ai(AttackCandidates))] else a
  }

  /** The loop over the three texts. */
  method CopyTexts(m: Fields, f: Fields) returns (r: Checked)
    ensures r.Accepted? <==> TextsOk(m)
    ensures r.Accepted? ==> r.f == WithTexts(f, m, 3)
  {
    hide Get, Clip;
    var g := f;
    for i := 0 to |TEXTS|
      invariant i >= 1 ==> TextOf(Get(m, Ai(Advice))).Some?
      invariant i >= 2 ==> TextOf(Get(m, Summary)).Some?
      invariant i >= 3 ==> TextOf(Get(m, Ai(Candidate))).Some?
      invariant g == WithTexts(f, m, i)
    {
      var k := TEXTS[i];
      var value := Get(m, k);
      if value == Null { value := Str(""); }
      if !value.Str? { return Refused(NotString(k)); }
      EmptyClip();
      g := g[k := Str(Clip(value.s, 240))];
    }
    return Accepted(g);
  }

  lemma EmptyClip()
    ensures Clip("", 240) == ""
  {
  }

  /** The loop over the two lists. */
  method CopyLists(m: Fields, f: Fields) returns (r: Checked)
    ensures r.Accepted? <==> ListsOk(m)
    ensures r.Accepted? ==> r.f == WithLists(f, m, 2)
  {
    hide Get, Clipped, AllText, FirstFive;
    var g := f;
    for i := 0 to |LISTS|
      invariant i >= 1 ==> ListOf(Get(m, Ai(RunbookCandidates))).Some?
      invariant i >= 2 ==> ListOf(Get(m, Ai(AttackCandidates))).Some?
      invariant g == WithLists(f, m, i)
    {
      var k := LISTS[i];
      var value := Get(m, k);
      if value == Null { value := List([]); }
      if !value.List? { return Refused(NotList(k)); }
      EmptyList();
      var values := CopyItems(value.items);
      if values.None? { return Refused(ItemNotString(k)); }
      g := g[k := List(values.value)];
    }
    return Accepted(g);
  }

  lemma EmptyList()
    ensures ListOf(List([])) == Some([]) == ListOf(Null)
  {
  }

  lemma OutputIs(m: Fields)
    requires Acceptable(Obj(m))
    ensures WithLists(WithTexts(EmptyOutput(), m, 3), m, 2) == Cleaned(m)
  {
    hide CleanText, CleanList;
  }

  method ValidateOutput(o: Json) returns (r: Checked)
    ensures r.Accepted? <==> Acceptable(o)
    ensures r.Accepted? ==> r.f == Cleaned(o.m)
  {
    hide TextOf, ListOf, Cleaned, WithTexts, WithLists;
    if !o.Obj? { return Refused(OutputNotDict); }
    if exists k :: k in o.m && !(IsText(k) || IsList(k)) { return Refused(ExtraKeys); }
    r := CopyTexts(o.m, EmptyOutput());
    if r.Accepted? {
      r := CopyLists(o.m, r.f);
      if r.Accepted? { OutputIs(o.m); }
    }
  }

  /** What survives of an accepted output: of a text its first 240 characters, of a list its first five items, of each
      its first 96 characters; an absent or null member reads as empty. */
  lemma CleanedMeans(m: Fields, k: Key)
    requires Acceptable(Obj(m)) && k in {Ai(Advice), Summary, Ai(Candidate), Ai(RunbookCandidates), Ai(AttackCandidates)}
    ensures Cleaned(m).Keys == {Ai(Advice), Summary, Ai(Candidate), Ai(RunbookCandidates), Ai(AttackCandidates)}
    ensures k in {Ai(Advice), Summary, Ai(Candidate)} ==>
      var was, now := Get(m, k), Cleaned(m)[k];
      && now.Str? && (was.Null? ==> now.s == "")
      && (!was.Null? ==> was.Str? && now.s <= was.s && |now.s| == if |was.s| < 240 then |was.s| else 240)
    ensures k in {Ai(RunbookCandidates), Ai(AttackCandidates)} ==>
      var was, now := Get(m, k), Cleaned(m)[k];
      && now.List? && (was.Null? ==> now.items == [])
      && (!was.Null? ==>
            && was.List? && |now.items| == (if |was.items| < 5 then |was.items| else 5)
            && forall i | 0 <= i < |now.items| ::
                 && was.items[i].Str? && now.items[i].Str? && now.items[i].s <= was.items[i].s
                 && |now.items[i].s| == if |was.items[i].s| < 96 then |was.items[i].s| else 96)
  {
    hide Output;
    OutputMembers(CleanText(m, Ai(Advice)), CleanText(m, Summary), CleanText(m, Ai(Candidate)),
      CleanList(m, Ai(RunbookCandidates)), CleanList(m, Ai(AttackCandidates)));
    if k in {Ai(Advice), Summary, Ai(Candidate)} { TextMeans(m, k); } else { ListMeans(m, k); }
    hide TextOf, ListOf, Get, CleanText, CleanList;
  }

  lemma TextMeans(m: Fields, k: Key)
    requires TextOf(Get(m, k)).Some?
    ensures var was, now := Get(m, k), CleanText(m, k);
      && now.Str? && (was.Null? ==> now.s == "")
      && (!was.Null? ==> was.Str? && now.s <= was.s && |now.s| == if |was.s| < 240 then |was.s| else 240)
  {
  }

  lemma ListMeans(m: Fields, k: Key)
    requires ListOf(Get(m, k)).Some?
    ensures var was, now := Get(m, k), CleanList(m, k);
      && now.List? && (was.Null? ==> now.items == [])
      && (!was.Null? ==>
            && was.List? && |now.items| == (if |was.items| < 5 then |was.items| else 5)
            && forall i | 0 <= i < |now.items| ::
                 && was.items[i].Str? && now.items[i].Str? && now.items[i].s <= was.items[i].s
                 && |now.items[i].s| == if |was.items[i].s| < 96 then |was.items[i].s| else 96)
  {
    var was := Get(m, k);
    if was.List? {
      var five := FirstFive(was.items);
      assert forall i | 0 <= i < |five| :: five[i] == was.items[i] && five[i].Str?;
    }
  }

  /** The shape every caller may rely on. */
  predicate ShortText(v: Json) { v.Str? && |v.s| <= 240 }

  predicate ShortList(v: Json) {
    v.List? && |v.items| <= 5 && forall i | 0 <= i < |v.items| :: v.items[i].Str? && |v.items[i].s| <= 96
  }

  predicate WellShaped(f: Fields) {
    && f.Keys == MEMBERS
    && ShortText(f[Ai(Advice)]) && ShortText(f[Summary]) && ShortText(f[Ai(Candidate)])
    && ShortList(f[Ai(RunbookCandidates)]) && ShortList(f[Ai(AttackCandidates)])
  }

  /** Validation accepts it and gives it back unchanged. */
  predicate Fixed(f: Fields) { Acceptable(Obj(f)) && Cleaned(f) == f }

  lemma TextFixed(m: Fields, k: Key)
    requires TextOf(Get(m, k)).Some?
    ensures Get(m, k) == CleanText(m, k) <==> ShortText(Get(m, k))
    ensures ShortText(CleanText(m, k))
  {
  }

  lemma ListFixed(m: Fields, k: Key)
    requires ListOf(Get(m, k)).Some?
    ensures Get(m, k) == CleanList(m, k) <==> ShortList(Get(m, k))
    ensures ShortList(CleanList(m, k))
  {
    var v := Get(m, k);
    if ShortList(v) { assert Clipped(FirstFive(v.items)) == v.items; }
  }

  lemma CleanedIsWellShaped(m: Fields)
    requires Acceptable(Obj(m))
    ensures WellShaped(Cleaned(m))
  {
    hide TextOf, ListOf, ShortText, ShortList, Output, Get, CleanText, CleanList, IsText, IsList;
    TextFixed(m, Ai(Advice));
    TextFixed(m, Summary);
    TextFixed(m, Ai(Candidate));
    ListFixed(m, Ai(RunbookCandidates));
    ListFixed(m, Ai(AttackCandidates));
    OutputMembers(CleanText(m, Ai(Advice)), CleanText(m, Summary), CleanText(m, Ai(Candidate)),
      CleanList(m, Ai(RunbookCandidates)), CleanList(m, Ai(AttackCandidates)));
  }

  lemma ShortIsAcceptable(v: Json)
    ensures ShortText(v) ==> TextOf(v).Some?
    ensures ShortList(v) ==> ListOf(v).Some?
  {
  }

  lemma WellShapedIsAcceptable(f: Fields)
    requires WellShaped(f)
    ensures Acceptable(Obj(f))
  {
    assert forall k | k in MEMBERS :: IsText(k) || IsList(k);
    hide TextOf, ListOf, ShortText, ShortList, IsText, IsList;
    ShortIsAcceptable(f[Ai(Advice)]);
    ShortIsAcceptable(f[Summary]);
    ShortIsAcceptable(f[Ai(Candidate)]);
    ShortIsAcceptable(f[Ai(RunbookCandidates)]);
    ShortIsAcceptable(f[Ai(AttackCandidates)]);
  }

  /** The outputs that validation leaves alone are exactly the well-shaped ones. */
  lemma FixedIffWellShaped(f: Fields)
    ensures Fixed(f) <==> WellShaped(f)
  {
    hide TextOf, ListOf, ShortText, ShortList, Output, CleanText, CleanList, IsText, IsList;
    if Acceptable(Obj(f)) { CleanedIsWellShaped(f); }
    if WellShaped(f) {
      WellShapedIsAcceptable(f);
      TextFixed(f, Ai(Advice));
      TextFixed(f, Summary);
      TextFixed(f, Ai(Candidate));
      ListFixed(f, Ai(RunbookCandidates));
      ListFixed(f, Ai(AttackCandidates));
      MembersDecide(f);
    }
  }

  /** Whatever is accepted comes out well shaped, so a second validation changes nothing. */
  lemma CleanedIsFixed(m: Fields)
    requires Acceptable(Obj(m))
    ensures Fixed(Cleaned(m))
  {
    hide Fixed, WellShaped, Acceptable, Cleaned;
    CleanedIsWellShaped(m);
    FixedIffWellShaped(Cleaned(m));
  }

  // ---- the protocol --------------------------------------------------------------------------------

  datatype Stage = InputStage | DecisionStage | ReviewStage | OutputStage

  datatype Verdict = Gate(reason: Reason) | Blocked | Adopted | Rejected | Fallback

  datatype Entry = Entry(traceId: string, source: string, stage: Stage, verdict: Verdict, payload: Fields)

  /** How the assistant answers. */
  datatype Reply = Answer(o: Json) | Fails

  datatype Raise = AttributeError | GovernanceError | InvokerError | TypeError

  datatype Outcome = Returned(f: Fields) | Raised(e: Raise)

  /** `sanitized.get('summary', '')[:240]`: a string or a list has a slice, anything else raises. */
  function SummarySlice(m: Fields): Option<Json> {
    if Summary !in m then Some(Str(""))
    else
      match m[Summary]
      case Str(s) => Some(Str(Clip(s, 240)))
      case List(xs) => Some(List(if |xs| > 240 then xs[..240] else xs))
      case _ => None
  }

  function FallbackOutput(summary: Json): Fields { Output(Str(""), summary, Str(""), List([]), List([])) }

  /** The payloads the log says the assistant was allowed to be asked with, in order. */
  function Asked(audit: seq<Entry>): seq<Fields> {
    if audit == [] then []
    else
      var e := audit[|audit| - 1];
      Asked(audit[..|audit| - 1]) + (if e.verdict.Gate? && e.verdict.reason.Allows() then [e.payload] else [])
  }

  lemma AskedMore(audit: seq<Entry>, e: Entry)
    ensures Asked(audit + [e]) == Asked(audit) + if e.verdict.Gate? && e.verdict.reason.Allows() then [e.payload] else []
  {
    assert (audit + [e])[..|audit|] == audit;
  }

  class Governance {
    var audit: seq<Entry>
    /** Every payload the assistant was called with. */
    var calls: seq<Fields>

    constructor ()
      ensures audit == [] && calls == []
    {
      audit, calls := [], [];
    }

    method SanitizePayload(payload: Fields) returns (r: Fields)
      ensures r == Restricted(payload)
    {
      r := map k | k in payload && k in SANITIZED :: payload[k];
      for i := 0 to |FORBIDDEN|
        invariant r == Restricted(payload)
      {
        assert FORBIDDEN[i] !in SANITIZED;
        r := r - {FORBIDDEN[i]};
      }
    }

    /** Ask for the gate's decision and log it; a payload that is not an object raises before anything is logged. */
    method Authorize(context: Fields, payload: Json, show: Json -> string)
      returns (error: Option<Raise>, allowed: bool, sanitized: Fields)
      modifies this
      ensures calls == old(calls)
      ensures error == PayloadError(context, payload)
      ensures error.Some? ==> audit == old(audit)
      ensures error.None? ==>
        && sanitized == Restricted(payload.m) && allowed == Decide(context, show).Allows()
        && audit == old(audit) + GateEntries(context, payload.m, show)
      ensures error.None? <==> payload.Obj?
      ensures allowed <==> payload.Obj? && RuleAllows(context, show)
      ensures Asked(audit) == old(Asked(audit)) + if allowed then [sanitized] else []
      ensures allowed ==> sanitized.Keys <= SANITIZED && |audit| == |old(audit)| + 1
      ensures error.None? && !allowed ==> |audit| == |old(audit)| + 2 && audit[|audit| - 1].payload == EmptyOutput()
    {
      hide Decide, RuleAllows, EmptyOutput;
      GateIff(context, show);
      if !payload.Obj? {
        if !Truthy(Get(context, TraceId)) || !Truthy(Get(context, Ai(Source))) { return Some(AttributeError), false, map[]; }
        return Some(GovernanceError), false, map[];
      }
      error := None;
      var traceId, source := TraceOf(context, payload.m, show), SourceOf(context, payload.m, show);
      var reason := Decide(context, show);
      allowed := reason.Allows();
      sanitized := SanitizePayload(payload.m);
      AskedMore(audit, Entry(traceId, source, InputStage, Gate(reason), sanitized));
      audit := audit + [Entry(traceId, source, InputStage, Gate(reason), sanitized)];
      if !allowed {
        AskedMore(audit, Entry(traceId, source, DecisionStage, Blocked, EmptyOutput()));
        audit := audit + [Entry(traceId, source, DecisionStage, Blocked, EmptyOutput())];
      }
    }

    method Invoke(context: Fields, payload: Json, invoker: Fields -> Reply, show: Json -> string) returns (r: Outcome)
      modifies this
      ensures audit == old(audit) + Trace(context, payload, invoker, show)
      ensures calls == old(calls) + Calls(context, payload, show)
      ensures r == Result(context, payload, invoker, show)
      ensures old(calls == Asked(audit)) ==> calls == Asked(audit)
    {
      hide Acceptable, Cleaned, Decide, Restricted, Asked, SummarySlice, FallbackOutput, EmptyOutput, TraceOf, SourceOf;
      var error, allowed, sanitized := Authorize(context, payload, show);
      if error.Some? { return Raised(error.value); }
      if !allowed { return Returned(EmptyOutput()); }
      var traceId, source := TraceOf(context, payload.m, show), SourceOf(context, payload.m, show);
      calls := calls + [sanitized];
      var reply := invoker(sanitized);
      if reply.Fails? { return Raised(InvokerError); }
      var checked := ValidateOutput(reply.o);
      if checked.Accepted? {
        AskedMore(audit, Entry(traceId, source, OutputStage, Adopted, checked.f));
        audit := audit + [Entry(traceId, source, OutputStage, Adopted, checked.f)];
        return Returned(checked.f);
      }
      var summary := SummarySlice(sanitized);
      if summary.None? { return Raised(TypeError); }
      AskedMore(audit, Entry(traceId, source, ReviewStage, Rejected, map[Summary := summary.value]));
      audit := audit + [Entry(traceId, source, ReviewStage, Rejected, map[Summary := summary.value])];
      var fallback := FallbackOutput(summary.value);
      AskedMore(audit, Entry(traceId, source, OutputStage, Fallback, fallback));
      audit := audit + [Entry(traceId, source, OutputStage, Fallback, fallback)];
      return Returned(fallback);
    }
  }

  function PayloadError(context: Fields, payload: Json): Option<Raise> {
    if payload.Obj? then None
    else if !Truthy(Get(context, TraceId)) || !Truthy(Get(context, Ai(Source))) then Some(AttributeError)
    else Some(GovernanceError)
  }

  function TraceOf(context: Fields, m: Fields, show: Json -> string): string {
    Text(Or(Get(context, TraceId), Get(m, TraceId)), show)
  }

  function SourceOf(context: Fields, m: Fields, show: Json -> string): string {
    Text(Or(Or(Get(context, Ai(Source)), Get(m, Ai(Source))), Str("ai_governance")), show)
  }

  function GateEntries(context: Fields, m: Fields, show: Json -> string): seq<Entry> {
    var t, s := TraceOf(context, m, show), SourceOf(context, m, show);
    var input := Entry(t, s, InputStage, Gate(Decide(context, show)), Restricted(m));
    if Decide(context, show).Allows() then [input] else [input, Entry(t, s, DecisionStage, Blocked, EmptyOutput())]
  }

  /** What the calls to the assistant are: at most one. */
  function Calls(context: Fields, payload: Json, show: Json -> string): seq<Fields> {
    if payload.Obj? && Decide(context, show).Allows() then [Restricted(payload.m)] else []
  }

  /** What one call appends to the audit log. */
  function Trace(context: Fields, payload: Json, invoker: Fields -> Reply, show: Json -> string): seq<Entry> {
    if !payload.Obj? then []
    else
      var gate := GateEntries(context, payload.m, show);
      var t, s := TraceOf(context, payload.m, show), SourceOf(context, payload.m, show);
      if !Decide(context, show).Allows() then gate
      else
        var reply := invoker(Restricted(payload.m));
        var summary := SummarySlice(Restricted(payload.m));
        if reply.Fails? then gate
        else if Acceptable(reply.o) then gate + [Entry(t, s, OutputStage, Adopted, Cleaned(reply.o.m))]
        else if summary.None? then gate
        else
          gate + [Entry(t, s, ReviewStage, Rejected, map[Summary := summary.value]),
                  Entry(t, s, OutputStage, Fallback, FallbackOutput(summary.value))]
  }

  function Result(context: Fields, payload: Json, invoker: Fields -> Reply, show: Json -> string): Outcome {
    if !payload.Obj? then Raised(PayloadError(context, payload).value)
    else if !Decide(context, show).Allows() then Returned(EmptyOutput())
    else
      var reply := invoker(Restricted(payload.m));
      var summary := SummarySlice(Restricted(payload.m));
      if reply.Fails? then Raised(InvokerError)
      else if Acceptable(reply.o) then Returned(Cleaned(reply.o.m))
      else if summary.None? then Raised(TypeError)
      else Returned(FallbackOutput(summary.value))
  }

  // ---- what every call promises --------------------------------------------------------------------

  function Verdicts(es: seq<Entry>): (r: seq<Verdict>)
    ensures |r| == |es|
  {
    seq(|es|, i requires 0 <= i < |es| => es[i].verdict)
  }

  /** The payload has no summary, or one that is a string. */
  predicate PlainSummary(payload: Json) { payload.Obj? && (Summary !in payload.m || payload.m[Summary].Str?) }

  lemma SummaryKept(m: Fields)
    ensures (Summary in Restricted(m) <==> Summary in m) && (Summary in m ==> Restricted(m)[Summary] == m[Summary])
  {
    assert Summary in SANITIZED;
  }

  lemma EmptyIsFixed()
    ensures Fixed(EmptyOutput())
  {
    hide Fixed, Output;
    FixedIffWellShaped(EmptyOutput());
    OutputMembers(Str(""), Str(""), Str(""), List([]), List([]));
  }

  /** A fallback is a fixed point exactly when its summary is a short string. */
  lemma FallbackFixedIff(summary: Json)
    ensures Fixed(FallbackOutput(summary)) <==> ShortText(summary)
  {
    hide Fixed, Output;
    FixedIffWellShaped(FallbackOutput(summary));
    OutputMembers(Str(""), summary, Str(""), List([]), List([]));
  }

  /** Exactly when a call ends in a fixed point of validation, from what is known before it and the assistant's answer:
      the payload is an object and, if the rule lets the assistant be asked, it answers, and its answer is acceptable or
      the payload's summary is absent or a string. */
  lemma ReturnedIsFixedIff(context: Fields, payload: Json, invoker: Fields -> Reply, show: Json -> string)
    ensures Result(context, payload, invoker, show).Returned? && Fixed(Result(context, payload, invoker, show).f) <==>
      payload.Obj? && (RuleAllows(context, show) ==> EndsWell(payload, invoker(Restricted(payload.m))))
  {
    hide Fixed, Acceptable, Cleaned, Restricted, Decide, RuleAllows;
    GateIff(context, show);
    EmptyIsFixed();
    if payload.Obj? {
      SummaryKept(payload.m);
      var reply := invoker(Restricted(payload.m));
      if reply.Answer? && Acceptable(reply.o) { ObjOf(reply.o); CleanedIsFixed(reply.o.m); }
      var summary := SummarySlice(Restricted(payload.m));
      if summary.Some? { FallbackFixedIff(summary.value); }
    }
  }

  predicate EndsWell(payload: Json, reply: Reply) { reply.Answer? && (Acceptable(reply.o) || PlainSummary(payload)) }

  lemma ObjOf(o: Json)
    requires Acceptable(o)
    ensures o.Obj? && o == Obj(o.m)
  {
  }

  /** The shapes of the audit trace: with an object for a payload, a plain summary and an assistant that answers, it is
      input/blocked, input/adopted or input/rejected/fallback, and nothing is raised. */
  lemma TraceIsOneOfThree(context: Fields, payload: Json, invoker: Fields -> Reply, show: Json -> string)
    requires PlainSummary(payload) && invoker(Restricted(payload.m)).Answer?
    ensures var vs := Verdicts(Trace(context, payload, invoker, show));
      var gate := Gate(Decide(context, show));
      && Result(context, payload, invoker, show).Returned?
      && Fixed(Result(context, payload, invoker, show).f)
      && (vs == [gate, Blocked] <==> !Decide(context, show).Allows())
      && (vs == [gate, Adopted] <==> Decide(context, show).Allows() && Acceptable(invoker(Restricted(payload.m)).o))
      && (vs == [gate, Rejected, Fallback] <==>
            Decide(context, show).Allows() && !Acceptable(invoker(Restricted(payload.m)).o))
  {
    hide Fixed, Acceptable, Cleaned, Restricted, Decide, RuleAllows, Result, Trace;
    ReturnedIsFixedIff(context, payload, invoker, show);
    ShapeOf(context, payload, invoker, show);
  }

  lemma ShapeOf(context: Fields, payload: Json, invoker: Fields -> Reply, show: Json -> string)
    requires PlainSummary(payload) && invoker(Restricted(payload.m)).Answer?
    ensures var gate, ok := Gate(Decide(context, show)), Acceptable(invoker(Restricted(payload.m)).o);
      Verdicts(Trace(context, payload, invoker, show)) ==
        if !Decide(context, show).Allows() then [gate, Blocked]
        else if ok then [gate, Adopted]
        else [gate, Rejected, Fallback]
  {
    hide Fixed, Acceptable, Cleaned, Restricted, Decide;
    SummaryKept(payload.m);
  }

  /** The assistant raises, or is refused while the payload's summary has no slice. */
  predicate LeftOpen(m: Fields, reply: Reply) {
    reply.Fails? || (!Acceptable(reply.o) && Summary in m && !m[Summary].Str? && !m[Summary].List?)
  }

  /** When the log ends after the input entry: the assistant itself raised, or its answer was refused and the
      payload's summary has no slice. Then the call raises. */
  lemma InputOnlyIff(context: Fields, payload: Json, invoker: Fields -> Reply, show: Json -> string)
    ensures |Trace(context, payload, invoker, show)| == 1 <==>
      payload.Obj? && Decide(context, show).Allows() && LeftOpen(payload.m, invoker(Restricted(payload.m)))
    ensures Result(context, payload, invoker, show).Raised? <==> |Trace(context, payload, invoker, show)| <= 1
  {
    hide Fixed, Acceptable, Cleaned, Restricted, Decide;
    if payload.Obj? { SummaryKept(payload.m); }
  }

  // ---- the two ways a call ends badly --------------------------------------------------------------

  const OPERATOR_ASKS: Fields := map[Ai(Intent) := Str("summary"), Ai(Source) := Str("operator")]

  lemma OperatorMayAsk(show: Json -> string)
    ensures RuleAllows(OPERATOR_ASKS, show)
  {
  }

  /** An operator's request with a list for a summary, answered by nothing: the call returns a fallback that validation
      would refuse. */
  lemma ListSummaryIsNotFixed(show: Json -> string)
    ensures var payload, invoker := Obj(map[Summary := List([Int(1)])]), (m: Fields) => Answer(Null);
      && Result(OPERATOR_ASKS, payload, invoker, show).Returned?
      && !Fixed(Result(OPERATOR_ASKS, payload, invoker, show).f)
  {
    hide Fixed, Cleaned, RuleAllows, Decide, Restricted;
    var payload, invoker := Obj(map[Summary := List([Int(1)])]), (m: Fields) => Answer(Null);
    OperatorMayAsk(show);
    GateIff(OPERATOR_ASKS, show);
    SummaryKept(payload.m);
    ReturnedIsFixedIff(OPERATOR_ASKS, payload, invoker, show);
  }

  /** An assistant that raises: the call raises, and the log ends after the input entry. */
  lemma RaisingAssistantLeavesInputOnly(show: Json -> string)
    ensures var payload, invoker := Obj(map[]), (m: Fields) => Fails;
      && Result(OPERATOR_ASKS, payload, invoker, show) == Raised(InvokerError)
      && Verdicts(Trace(OPERATOR_ASKS, payload, invoker, show)) == [Gate(OperatorRequested)]
  {
    hide RuleAllows, Restricted;
    OperatorMayAsk(show);
    GateIff(OPERATOR_ASKS, show);
  }

  /** The assistant is called at most once, only when the rule allows it, and sees allowlisted members only, with
      their values unchanged. */
  lemma AssistantSees(context: Fields, payload: Json, show: Json -> string)
    ensures |Calls(context, payload, show)| <= 1
    ensures |Calls(context, payload, show)| == 1 <==> payload.Obj? && RuleAllows(context, show)
    ensures forall m | m in Calls(context, payload, show) ::
      forall k :: k in m <==> k in payload.m && MayBeShown(k)
    ensures forall m | m in Calls(context, payload, show) :: forall k | k in m :: m[k] == payload.m[k]
  {
    hide Decide, RuleAllows, Text;
    GateIff(context, show);
    if payload.Obj? {
      forall k ensures k in Restricted(payload.m) <==> k in payload.m && MayBeShown(k) { ShownIff(k); }
    }
  }

  /** The eleven members an assistant may see. */
  predicate MayBeShown(k: Key) {
    k in {TraceId, Ai(Source), Ai(Intent), Ai(Subject), Ai(RiskScore), Category, Ai(Ports), Ai(Ips), Ai(EvidenceIds), Summary,
          Ai(CandidateScope)}
  }

  lemma ShownIff(k: Key)
    ensures k in SANITIZED <==> MayBeShown(k)
    ensures k in {Ai(Raw), Ai(RawLog), Ai(FullLog), Ai(Message), Ai(Line), Ai(Payload), Ai(Event)} ==> !MayBeShown(k)
  {
  }

  /** A refused answer is replaced by the first 240 characters of the payload's summary, and nothing else. */
  lemma FallbackIs(context: Fields, payload: Json, invoker: Fields -> Reply, show: Json -> string)
    requires PlainSummary(payload) && RuleAllows(context, show)
    requires invoker(Restricted(payload.m)).Answer? && !Acceptable(invoker(Restricted(payload.m)).o)
    ensures var r, given := Result(context, payload, invoker, show), if Summary in payload.m then payload.m[Summary].s else "";
      && r.Returned? && r.f.Keys == MEMBERS
      && r.f[Summary].Str? && r.f[Summary].s <= given
      && |r.f[Summary].s| == (if |given| < 240 then |given| else 240)
      && r.f[Ai(Advice)] == Str("") && r.f[Ai(Candidate)] == Str("")
      && r.f[Ai(RunbookCandidates)] == List([]) && r.f[Ai(AttackCandidates)] == List([])
  {
    hide Acceptable, Restricted, Decide, RuleAllows;
    GateIff(context, show);
    SummaryKept(payload.m);
  }

  /** What the audit log tells agrees with what the caller gets: one trace id and source throughout, the payload shown
      to the assistant, and, last, the value returned. */
  lemma AuditAgrees(context: Fields, payload: Json, invoker: Fields -> Reply, show: Json -> string)
    requires payload.Obj?
    ensures var es := Trace(context, payload, invoker, show);
      && es != []
      && es[0].stage == InputStage && es[0].payload == Restricted(payload.m)
      && (forall i | 0 <= i < |es| :: es[i].traceId == es[0].traceId && es[i].source == es[0].source)
      && es[0].traceId == (if Truthy(Get(context, TraceId)) then Text(Get(context, TraceId), show)
                           else if Truthy(Get(payload.m, TraceId)) then Text(Get(payload.m, TraceId), show) else "")
      && es[0].source == (if Truthy(Get(context, Ai(Source))) then Text(Get(context, Ai(Source)), show)
                          else if Truthy(Get(payload.m, Ai(Source))) then Text(Get(payload.m, Ai(Source)), show)
                          else "ai_governance")
      && (Result(context, payload, invoker, show).Returned? ==>
            es[|es| - 1].payload == Result(context, payload, invoker, show).f)
  {
    hide Acceptable, Cleaned, Restricted, Decide;
  }
}
