/** JSON values as Python reads them, and the text checks the projections apply to them. */
module Json {

  import opened Options

  /** Member names the modelled code mentions. `Other` is any name that is none of these, so that two
      names are equal exactly when the constructors and their arguments are. */
  datatype Key =
    // envelope
    | Status | IsCurrent | Generation | TraceId | CompletedAt | MaxAgeSeconds | Reason | EdgeEvent
    | SourceContext | HandoffBinding | Advisory | ModelAnalysis | Knowledge | EdgeScoreComparison
    | EdgeKnowledgeAdvisory | KnowledgeAnalysis
    // source context
    | EventKey | FieldsKey | EventType | AttackType | Category | Protocol | Ts | Sid | Severity
    | TargetPort | TechniqueIds | NormalizedOutcome | ValueKey | Provenance
    // advisory and handoff
    | SchemaVersion | FrameId | Summary | GenerationMethod | StateKey | CycleDisposition | Recommendation
    | RecommendedAction | Handoff | OperatorNote | CheckNext | Hypotheses | Unknowns | Observations
    | NextChecks | Statement
    // model analysis
    | MioState | Model | UsageStatus | Outcome | ValidationRejection | FastGeneration | DurationMs
    | LoadDurationMs | PromptTokens | CompletionTokens | RequestCount | MeteredRequestCount
    | UnknownUsageRequestCount | TruncatedCount | Uncertainties | UnknownsTotal
    // binding and edge event
    | Valid | EdgeTraceId | MioTraceId | EdgeAction | EdgeMode | EdgeResult | Action | Mode | ResultKey
    | UnknownFields
    // comparison, receipt and report
    | Authority | EdgeScore | MioScore | Matches | ClaimStatus | Trust | SourceGroups | AttackTechniques
    | SourceFreshness | OldestFeedDays | AttackVersion | FrameGeneration | SourceTraceId | Projection
    | SourceFreshnessVerification | ReportState | ReportAgeSeconds | ReportExpiresAtMs
    | Ai(member: AiKey)
    | Other(name: string)

  /** Member names only the AI gate mentions. */
  datatype AiKey =
    | Source | Intent | Subject | RiskScore | RiskBand | Ports | Ips | EvidenceIds | CandidateScope
    | Raw | RawLog | FullLog | Message | Line | Payload | Event
    | Advice | Candidate | RunbookCandidates | AttackCandidates

  /** A Python value decoded from JSON. Booleans are not integers here, as `type(x) is int` sees them;
      `json.loads` also accepts NaN and the two infinities. */
  datatype Json =
    | Null
    | Bool(b: bool)
    | Int(i: int)
    | Float(x: real)
    | Infinite(negative: bool)
    | NaN
    | Str(s: string)
    | List(items: seq<Json>)
    | Obj(m: map<Key, Json>)

  type Fields = map<Key, Json>

  /** `dict.get(k)`: an absent member reads as None. */
  function Get(m: Fields, k: Key): Json {
    if k in m then m[k] else Null
  }

  /** Python's `==`: numbers and booleans compare by value, containers member by member. */
  predicate PyEq(a: Json, b: Json) {
    match (a, b)
    case (List(x), List(y)) => |x| == |y| && forall i | 0 <= i < |x| :: PyEq(x[i], y[i])
    case (Obj(x), Obj(y)) => x.Keys == y.Keys && forall k | k in x :: PyEq(x[k], y[k])
    case (NaN, _) => false
    case (_, _) => if Numeric(a) && Numeric(b) then Number(a) == Number(b) else a == b
  }

  predicate Numeric(a: Json) { a.Bool? || a.Int? || a.Float? }

  function Number(a: Json): real
    requires Numeric(a)
  {
    match a
    case Bool(b) => if b then 1.0 else 0.0
    case Int(i) => i as real
    case Float(x) => x
  }

  /** Python truth of a value. */
  predicate Truthy(a: Json) {
    match a
    case Null => false
    case Bool(b) => b
    case Int(i) => i != 0
    case Float(x) => x != 0.0
    case Str(s) => s != ""
    case List(xs) => xs != []
    case Obj(m) => m != map[]
    case _ => true
  }

  /** Seven values are false. */
  lemma FalseValues(v: Json)
    ensures !Truthy(v) <==> v in [Null, Bool(false), Int(0), Float(0.0), Str(""), List([]), Obj(map[])]
  {
  }

  /** Equality of Python values: numbers by value, a boolean counting as 1 or 0, text by its characters, lists item by
      item, objects member by member; NaN equals nothing, and values of different kinds differ. */
  lemma EqualityIs(x: seq<Json>, y: seq<Json>, m: map<Key, Json>, n: map<Key, Json>, v: Json)
    ensures PyEq(List(x), List(y)) <==> |x| == |y| && forall i | 0 <= i < |x| :: PyEq(x[i], y[i])
    ensures PyEq(Obj(m), Obj(n)) <==> m.Keys == n.Keys && forall k | k in m :: PyEq(m[k], n[k])
    ensures !PyEq(NaN, v)
    ensures forall i: int :: PyEq(Int(i), v) <==>
      v == Int(i) || v == Float(i as real) || (v == Bool(true) && i == 1) || (v == Bool(false) && i == 0)
    ensures forall s: string :: PyEq(Str(s), v) <==> v == Str(s)
    ensures PyEq(Null, v) <==> v == Null
  {
  }

  // ---- character classes -------------------------------------------------------------------------

  predicate IsDigit(c: char) { '0' <= c <= '9' }
  predicate IsLowerAlpha(c: char) { 'a' <= c <= 'z' }
  predicate IsAlnum(c: char) { IsDigit(c) || IsLowerAlpha(c) || 'A' <= c <= 'Z' }

  /** Not a control character, except tab, line feed and carriage return. */
  predicate SafeChar(c: char) {
    && !('\0' <= c <= '\U{8}')
    && c != '\U{B}' && c != '\U{C}'
    && !('\U{E}' <= c <= '\U{1F}')
    && c != '\U{7F}'
  }

  predicate SafeText(s: string) { forall i | 0 <= i < |s| :: SafeChar(s[i]) }

  /** `[A-Za-z0-9._:-]{1,96}` */
  predicate SafeId(s: string) {
    1 <= |s| <= 96 && forall i | 0 <= i < |s| :: IsAlnum(s[i]) || s[i] in {'.', '_', ':', '-'}
  }

  /** `[a-f0-9]{24}` */
  predicate IsEventKey(s: string) {
    |s| == 24 && forall i | 0 <= i < |s| :: IsDigit(s[i]) || 'a' <= s[i] <= 'f'
  }

  predicate Digits(s: string) { forall i | 0 <= i < |s| :: IsDigit(s[i]) }

  /** `T[0-9]{4}(?:\.[0-9]{3})?` */
  predicate IsTechnique(s: string) {
    && (|s| == 5 || |s| == 9)
    && s[0] == 'T' && Digits(s[1..5])
    && (|s| == 9 ==> s[5] == '.' && Digits(s[6..]))
  }

  /** `[a-z][a-z0-9_-]{0,31}` */
  predicate IsSourceGroup(s: string) {
    && 1 <= |s| <= 32 && IsLowerAlpha(s[0])
    && forall i | 0 <= i < |s| :: IsLowerAlpha(s[i]) || IsDigit(s[i]) || s[i] in {'_', '-'}
  }

  /** `[0-9]{1,3}(?:\.[0-9]{1,3}){0,more}` */
  predicate VersionParts(s: string, more: nat)
    decreases more
  {
    exists k | 1 <= k <= 3 ::
      && k <= |s| && Digits(s[..k])
      && (k == |s| || (more > 0 && s[k] == '.' && VersionParts(s[k + 1..], more - 1)))
  }

  predicate IsAttackVersion(s: string) { VersionParts(s, 2) }

  /** `[A-Za-z0-9][A-Za-z0-9 ._:/+()\[\]-]{0,95}` */
  predicate IsSourceLabel(s: string) {
    && 1 <= |s| <= 96 && IsAlnum(s[0])
    && forall i | 0 <= i < |s| ::
         IsAlnum(s[i]) || s[i] in {' ', '.', '_', ':', '/', '+', '(', ')', '[', ']', '-'}
  }

  /** `[0-9TtZz:+.\-]+`, at most 32 characters */
  predicate IsTimestampText(s: string) {
    1 <= |s| <= 32 && forall i | 0 <= i < |s| :: IsDigit(s[i]) || s[i] in {'T', 't', 'Z', 'z', ':', '+', '.', '-'}
  }

  /** `[A-Za-z0-9._:/+()\-]*`, at most 16 characters */
  predicate IsProtocolText(s: string) {
    |s| <= 16 && forall i | 0 <= i < |s| :: IsAlnum(s[i]) || s[i] in {'.', '_', ':', '/', '+', '(', ')', '-'}
  }

  /** `mio_failure:[A-Za-z0-9_]{1,48}` */
  predicate IsFailureReason(s: string) {
    && "mio_failure:" <= s && 13 <= |s| <= 60
    && forall i | 12 <= i < |s| :: IsAlnum(s[i]) || s[i] == '_'
  }

  /** The regular expressions of the projection, each applied to a whole string. */
  datatype Pattern =
    | Identifier | EventKeyText | Technique | SourceGroup | Version | Label | Timestamp | ProtocolText | FailureReason

  predicate FullMatch(p: Pattern, s: string) {
    match p
    case Identifier => SafeId(s)
    case EventKeyText => IsEventKey(s)
    case Technique => IsTechnique(s)
    case SourceGroup => IsSourceGroup(s)
    case Version => IsAttackVersion(s)
    case Label => IsSourceLabel(s)
    case Timestamp => IsTimestampText(s)
    case ProtocolText => IsProtocolText(s)
    case FailureReason => IsFailureReason(s)
  }
}
