/** E-paper redraw de-duplication: the refresh job compares fingerprints and skips a draw it believes to be
    redundant; it must agree with always drawing. */
module PanelRefresh {
  import opened Options
  import opened Text

  // ---- inputs of one refresh -----------------------------------------------------------------------

  /** Members of the mode state file, as text. */
  datatype Payload = Payload(mode: string, targetMode: string, internet: string, ssid: string, uplinkType: string)

  /** Members of the runtime snapshot; a number that cannot be read is absent, a missing connection block leaves
      its members empty. */
  datatype Snapshot = Snapshot(userState: string, hasConnection: bool, internetCheck: string, wifiState: string,
                               uplinkType: string, ssid: string, signal: Option<int>, suspicion: Option<int>)

  /** `probe` is what the wireless tool prints when neither file names a network. */
  datatype Inputs = Inputs(payload: Payload, snapshot: Option<Snapshot>, probe: string)

  // ---- render specifications -----------------------------------------------------------------------

  datatype Spec =
    | Normal(modeLabel: string, ssid: string, risk: string, suspicion: int, signal: Option<int>, uplink: string)
    | Warning(msg: string)
    | Danger(msg: string, alarm: int)

  function Or(a: string, b: string): string { if a != "" then a else b }

  function Clamp(n: int): int { if n < 0 then 0 else if n > 100 then 100 else n }

  function NormalSpec(input: Inputs, modeLabel: string, risk: string): Spec {
    var snap := input.snapshot;
    var liveSsid := if snap.Some? && Strip(snap.value.ssid) != "-" then Strip(snap.value.ssid) else "";
    var connected := snap.Some? && snap.value.hasConnection && Upper(Strip(snap.value.wifiState)) == "CONNECTED";
    var liveUplink := if snap.Some? && snap.value.hasConnection then Lower(Strip(snap.value.uplinkType)) else "";
    var suspicion := if snap.Some? && snap.value.suspicion.Some? then snap.value.suspicion.value else 0;
    var title := Upper(Strip(Or(modeLabel, "SHIELD")));
    Normal(
      if |title| > 12 then title[..12] else title,
      Or(liveSsid, Or(Strip(input.payload.ssid), Or(Strip(input.probe), "No SSID"))),
      Upper(Strip(Or(risk, "UNKNOWN"))),
      Clamp(suspicion),
      if connected then snap.value.signal else None,
      Or(liveUplink, Or(Lower(Strip(input.payload.uplinkType)), "unknown")))
  }

  const USER_STATES := ["SAFE", "CHECKING", "LIMITED", "CONTAINED", "DECEPTION"]
  const MODES := ["portal", "shield", "scapegoat"]

  function SnapshotRisk(snap: Option<Snapshot>): string {
    if snap.None? then "UNKNOWN"
    else
      var user, internet := Upper(Strip(snap.value.userState)), Upper(Strip(snap.value.internetCheck));
      if user in USER_STATES then user
      else if !snap.value.hasConnection then "UNKNOWN"
      else if internet == "OK" then "SAFE"
      else if internet == "FAIL" then "FAIL"
      else if internet == "N/A" || internet == "UNKNOWN" then "CHECKING"
      else "UNKNOWN"
  }

  function ModeRisk(input: Inputs): string {
    var risk, net := SnapshotRisk(input.snapshot), Upper(Strip(input.payload.internet));
    if risk != "UNKNOWN" then risk else if net == "OK" then "SAFE" else if net == "FAIL" then "FAIL" else "CHECKING"
  }

  function Desired(input: Inputs): Spec {
    var mode := Lower(Strip(input.payload.mode));
    if mode == "switching" then
      var target := Lower(Strip(input.payload.targetMode));
      NormalSpec(input, if target in MODES then target else "shield", "CHECKING")
    else if mode == "failed" then Danger("MODE FAIL", 0)
    else if mode in MODES then NormalSpec(input, mode, ModeRisk(input))
    else Warning("MODE N/A")
  }

  // ---- what the renderer draws ---------------------------------------------------------------------

  datatype Icon = WifiStrong | WifiMedium | WifiWeak | WifiDisconnected | Ethernet | WarningSign | Skull

  /** What ends up on the panel; the pixels are a function of it. */
  datatype Content =
    | NormalScreen(icon: Icon, mode: string, ssid: string, risk: string, suspicion: int)
    | WarningScreen(reason: string)
    | DangerScreen(sign: Icon, message: string)

  /** A value from 0 to 100 is taken as a percentage and turned into dBm, truncating toward zero. */
  function NormalizeSignal(signal: Option<int>): Option<int> {
    if signal.Some? && 0 <= signal.value <= 100 then Some(-((900 - 6 * signal.value) / 10)) else signal
  }

  function ConnectionIcon(signal: Option<int>, uplink: string): Icon {
    var dbm := NormalizeSignal(signal);
    if Lower(Strip(uplink)) == "ethernet" then Ethernet
    else if dbm.None? then WifiDisconnected
    else if dbm.value >= -60 then WifiStrong
    else if dbm.value >= -70 then WifiMedium
    else WifiWeak
  }

  function ContentOf(spec: Spec): Content {
    match spec
    case Normal(title, ssid, risk, suspicion, signal, uplink) =>
      var text := Upper(Strip(Or(title, "SHIELD")));
      NormalScreen(ConnectionIcon(signal, uplink), if |text| > 12 then text[..12] else text, ssid, risk, suspicion)
    case Warning(msg) => WarningScreen(msg)
    case Danger(msg, alarm) => DangerScreen(if alarm >= 90 then Skull else WarningSign, msg)
  }

  /** The renderer refuses a normal screen without a network name or with a score out of range, and any other
      screen without a message. */
  predicate Accepted(spec: Spec) {
    match spec
    case Normal(_, ssid, _, suspicion, _, _) => ssid != "" && 0 <= suspicion <= 100
    case Warning(msg) => msg != ""
    case Danger(msg, _) => msg != ""
  }

  /** The specification the renderer records after a draw. */
  function Recorded(spec: Spec): Spec {
    match spec
    case Normal(title, ssid, risk, suspicion, signal, uplink) =>
      Normal(Upper(Strip(title)), ssid, Upper(Strip(risk)), suspicion, signal, Or(Lower(Strip(uplink)), "unknown"))
    case _ => spec
  }

  // ---- fingerprints --------------------------------------------------------------------------------

  datatype Bucket = NoSignal | Strong | Medium | Weak

  /** The buckets of the refresh job; unlike the renderer it does not read 0..100 as a percentage. */
  function SignalBucket(signal: Option<int>): Bucket {
    if signal.None? then NoSignal
    else if signal.value >= -60 then Strong
    else if signal.value >= -70 then Medium
    else Weak
  }

  datatype Fingerprint =
    | NormalPrint(modeLabel: string, ssid: string, risk: string, suspicion: int, bucket: Bucket, uplink: string)
    | OtherPrint(state: string, msg: string)

  function Print(spec: Spec): Fingerprint {
    match spec
    case Normal(title, ssid, risk, suspicion, signal, uplink) =>
      NormalPrint(Upper(Strip(title)), Strip(ssid), Upper(Strip(risk)), suspicion, SignalBucket(signal),
                  Or(Lower(Strip(uplink)), "unknown"))
    case Warning(msg) => OtherPrint("warning", Strip(msg))
    case Danger(msg, _) => OtherPrint("danger", Strip(msg))
  }

  /** An absent or unreadable last-render file has the fingerprint of an empty specification. */
  function LastPrint(last: Option<Spec>): Fingerprint {
    if last.Some? then Print(last.value) else OtherPrint("", "")
  }

  // ---- the refresh job -----------------------------------------------------------------------------

  datatype World = World(last: Option<Spec>, panel: Option<Content>, draws: nat)

  const BLANK := World(None, None, 0)

  /** One run of the job. A draw that fails leaves the panel and the record as they were. */
  function Refresh(w: World, input: Inputs, drawWorks: bool): World {
    var spec := Desired(input);
    if Print(spec) == LastPrint(w.last) then w
    else if !drawWorks || !Accepted(spec) then w
    else World(Some(Recorded(spec)), Some(ContentOf(spec)), w.draws + 1)
  }

  class Station {
    var last: Option<Spec>
    var panel: Option<Content>
    var draws: nat

    ghost function View(): World
      reads this
    {
      World(last, panel, draws)
    }

    constructor ()
      ensures View() == BLANK
    {
      last, panel, draws := None, None, 0;
    }

    /** `code` is the exit status of the job. For a record in step with the panel and a faithful request, status 0 means
        that the panel shows what was asked for, however it got there, and record and panel stay in step; any other
        status means that nothing changed. */
    method RefreshMode(input: Inputs, drawWorks: bool) returns (code: int)
      modifies this
      ensures View() == Refresh(old(View()), input, drawWorks)
      ensures InStep(old(View())) && Faithful(Desired(input)) ==>
        InStep(View()) && (code == 0 ==> panel == Some(ContentOf(Desired(input))))
      ensures code != 0 ==> View() == old(View()) && !drawWorks
      ensures drawWorks ==> code == 0
      ensures draws == old(draws) || (draws == old(draws) + 1 && Print(Desired(input)) != LastPrint(old(last)))
    {
      hide Desired, ContentOf, Faithful, Accepted, Print, Recorded, InStep;
      ghost var was := View();
      DesiredIsAccepted(input);
      if InStep(was) && Faithful(Desired(input)) {
        RefreshKeepsStep(was, input, drawWorks);
        RefreshKeepsStep(was, input, true);
      }
      var desired := Desired(input);
      if Print(desired) == LastPrint(last) {
        return 0;
      }
      if !drawWorks || !Accepted(desired) {
        return 1;
      }
      panel := Some(ContentOf(desired));
      last := Some(Recorded(desired));
      draws := draws + 1;
      return 0;
    }
  }

  // ---- specifications the job makes ----------------------------------------------------------------

  /** Text that stripping and upper-casing leave alone. */
  predicate UpperText(s: string) { Tight(s) && Upper(s) == s }

  predicate LowerText(s: string) { Tight(s) && Lower(s) == s }

  ghost predicate Made(spec: Spec) {
    match spec
    case Normal(title, ssid, risk, suspicion, _, uplink) =>
      && UpperText(title) && 1 <= |title| <= 12 && Tight(ssid) && ssid != "" && UpperText(risk)
      && 0 <= suspicion <= 100 && LowerText(uplink) && uplink != ""
    case Warning(msg) => msg != "" && Tight(msg)
    case Danger(msg, alarm) => msg != "" && Tight(msg) && alarm == 0
  }

  lemma UpperIsUpperText(s: string)
    ensures UpperText(Upper(Strip(s))) && LowerText(Lower(Strip(s)))
    ensures |Upper(Strip(s))| <= |s|
  {
    hide Upper, Lower;
    StripIsTight(s);
    CaseKeepsTight(Strip(s));
    CaseTwice(Strip(s));
    UpperLength(Strip(s));
  }

  lemma UpperLength(s: string)
    ensures |Upper(s)| == |s|
  {
  }

  lemma NormalIsMade(input: Inputs, title: string, risk: string)
    requires title in MODES
    ensures Made(NormalSpec(input, title, risk))
  {
    hide Strip, Upper, Lower, Tight;
    ModeLabels(title);
    UpperIsUpperText(title);
    UpperIsUpperText(Or(risk, "UNKNOWN"));
    UpperIsUpperText(input.payload.uplinkType);
    StripIsTight(input.payload.ssid);
    StripIsTight(input.probe);
    Constants();
    if input.snapshot.Some? {
      StripIsTight(input.snapshot.value.ssid);
      UpperIsUpperText(input.snapshot.value.uplinkType);
    }
  }

  lemma ModeLabels(title: string)
    requires title in MODES
    ensures title != "" && 1 <= |Upper(Strip(title))| <= 12
  {
    assert Tight(title) && |title| <= 9;
    TightIsStripped(title);
  }

  lemma Constants()
    ensures Tight("No SSID") && LowerText("unknown") && Tight("MODE FAIL") && Tight("MODE N/A")
  {
  }

  /** Whatever the inputs, the job asks for a specification in normal form, which the renderer accepts. */
  lemma DesiredIsMade(input: Inputs)
    ensures Made(Desired(input)) && Accepted(Desired(input))
  {
    hide Strip, Upper, Lower, Tight, NormalSpec, ModeRisk, UpperText, LowerText;
    Constants();
    var mode, target := Lower(Strip(input.payload.mode)), Lower(Strip(input.payload.targetMode));
    if mode == "switching" {
      NormalIsMade(input, if target in MODES then target else "shield", "CHECKING");
    } else if mode in MODES {
      NormalIsMade(input, mode, ModeRisk(input));
    }
  }

  // ---- what is asked for, by the words in the files ------------------------------------------------

  function UserWord(input: Inputs): string {
    if input.snapshot.Some? then Upper(Strip(input.snapshot.value.userState)) else ""
  }

  predicate UserDecides(input: Inputs) { UserWord(input) in {"SAFE", "CHECKING", "LIMITED", "CONTAINED", "DECEPTION"} }

  /** The internet verdict of the runtime snapshot, if it carries a connection block. */
  function LiveNet(input: Inputs): string {
    if input.snapshot.Some? && input.snapshot.value.hasConnection then Upper(Strip(input.snapshot.value.internetCheck)) else ""
  }

  /** The runtime snapshot says something about the internet. */
  predicate LiveDecides(input: Inputs) { LiveNet(input) in {"OK", "FAIL", "N/A", "UNKNOWN"} }

  function FileNet(input: Inputs): string { Upper(Strip(input.payload.internet)) }

  /** The risk word of a mode screen, each exactly in its case: the user's state first, then the live verdict, then the
      one of the mode file. */
  lemma RiskWords(input: Inputs)
    ensures var risk, open := ModeRisk(input), !UserDecides(input) && !LiveDecides(input);
      && (risk == "LIMITED" <==> UserWord(input) == "LIMITED")
      && (risk == "CONTAINED" <==> UserWord(input) == "CONTAINED")
      && (risk == "DECEPTION" <==> UserWord(input) == "DECEPTION")
      && (risk == "SAFE" <==>
            || UserWord(input) == "SAFE"
            || (!UserDecides(input) && LiveNet(input) == "OK")
            || (open && FileNet(input) == "OK"))
      && (risk == "FAIL" <==> (!UserDecides(input) && LiveNet(input) == "FAIL") || (open && FileNet(input) == "FAIL"))
      && (risk == "CHECKING" <==>
            || UserWord(input) == "CHECKING"
            || (!UserDecides(input) && LiveNet(input) in {"N/A", "UNKNOWN"})
            || (open && FileNet(input) !in {"OK", "FAIL"}))
      && risk in {"LIMITED", "CONTAINED", "DECEPTION", "SAFE", "FAIL", "CHECKING"}
  {
    hide Strip, Upper;
    RiskLetters();
  }

  lemma RiskLetters()
    ensures |"SAFE"| == 4 && |"FAIL"| == 4 && "SAFE"[0] == 'S' && "FAIL"[0] == 'F'
    ensures |"CHECKING"| == 8 && |"LIMITED"| == 7 && |"CONTAINED"| == 9 && |"DECEPTION"| == 9
    ensures "CONTAINED"[0] == 'C' && "DECEPTION"[0] == 'D' && |"UNKNOWN"| == 7 && "UNKNOWN"[0] == 'U' && "LIMITED"[0] == 'L'
    ensures |"N/A"| == 3 && |"OK"| == 2 && |""| == 0
  {
  }

  /** Which screen is asked for, by the mode, and with which title and risk. */
  lemma ScreenWords(input: Inputs)
    ensures var mode, target, spec := Lower(Strip(input.payload.mode)), Lower(Strip(input.payload.targetMode)), Desired(input);
      && (mode == "failed" ==> spec == Danger("MODE FAIL", 0))
      && (mode !in {"failed", "switching", "portal", "shield", "scapegoat"} ==> spec == Warning("MODE N/A"))
      && (mode == "portal" ==> spec.Normal? && spec.modeLabel == "PORTAL" && spec.risk == ModeRisk(input))
      && (mode == "shield" ==> spec.Normal? && spec.modeLabel == "SHIELD" && spec.risk == ModeRisk(input))
      && (mode == "scapegoat" ==> spec.Normal? && spec.modeLabel == "SCAPEGOAT" && spec.risk == ModeRisk(input))
      && (mode == "switching" ==>
            && spec.Normal? && spec.risk == "CHECKING"
            && spec.modeLabel ==
                 if target == "portal" then "PORTAL" else if target == "scapegoat" then "SCAPEGOAT" else "SHIELD")
  {
    hide Strip, Upper, Lower, ModeRisk, NormalSpec;
    ModeLetters();
    RiskIsUpper(input);
    NormalWords(input, "portal", ModeRisk(input));
    NormalWords(input, "shield", ModeRisk(input));
    NormalWords(input, "scapegoat", ModeRisk(input));
    NormalWords(input, "portal", "CHECKING");
    NormalWords(input, "shield", "CHECKING");
    NormalWords(input, "scapegoat", "CHECKING");
    CheckingIsUpper();
  }

  lemma ModeLetters()
    ensures |"failed"| == 6 && |"switching"| == 9 && |"portal"| == 6 && |"shield"| == 6 && |"scapegoat"| == 9
    ensures "failed"[0] == 'f' && "switching"[1] == 'w' && "portal"[0] == 'p' && "shield"[0] == 's' && "scapegoat"[1] == 'c'
  {
  }

  lemma TitleWords()
    ensures Upper(Strip("portal")) == "PORTAL" && Upper(Strip("shield")) == "SHIELD"
    ensures Upper(Strip("scapegoat")) == "SCAPEGOAT"
  {
    TightIsStripped("portal");
    TightIsStripped("shield");
    TightIsStripped("scapegoat");
    hide Strip;
    assert Upper("portal") == "PORTAL";
    assert Upper("shield") == "SHIELD";
    assert Upper("scapegoat") == "SCAPEGOAT";
  }

  lemma CheckingIsUpper()
    ensures Upper(Strip("CHECKING")) == "CHECKING"
  {
    TightIsStripped("CHECKING");
    hide Strip;
  }

  lemma RiskIsUpper(input: Inputs)
    ensures Upper(Strip(ModeRisk(input))) == ModeRisk(input) && ModeRisk(input) != ""
  {
    RiskWords(input);
    hide ModeRisk, Strip;
    var risk := ModeRisk(input);
    if risk == "LIMITED" { TightIsStripped("LIMITED"); assert Upper("LIMITED") == "LIMITED"; }
    else if risk == "CONTAINED" { TightIsStripped("CONTAINED"); assert Upper("CONTAINED") == "CONTAINED"; }
    else if risk == "DECEPTION" { TightIsStripped("DECEPTION"); assert Upper("DECEPTION") == "DECEPTION"; }
    else if risk == "SAFE" { TightIsStripped("SAFE"); assert Upper("SAFE") == "SAFE"; }
    else if risk == "FAIL" { TightIsStripped("FAIL"); assert Upper("FAIL") == "FAIL"; }
    else { TightIsStripped("CHECKING"); assert Upper("CHECKING") == "CHECKING"; }
  }

  lemma NormalWords(input: Inputs, title: string, risk: string)
    requires title in {"portal", "shield", "scapegoat"} && risk != ""
    ensures var spec := NormalSpec(input, title, risk);
      && spec.Normal? && spec.modeLabel == Upper(Strip(title)) && spec.risk == Upper(Strip(risk))
      && |spec.modeLabel| <= 12
    ensures Upper(Strip("portal")) == "PORTAL" && Upper(Strip("shield")) == "SHIELD"
    ensures Upper(Strip("scapegoat")) == "SCAPEGOAT"
  {
    TitleWords();
    hide Strip, Upper, Lower;
  }

  /** The other members of a normal screen. The network name is the live one unless it is empty or "-", then that of the
      mode file, then what the wireless tool says. The uplink is the live one, then that of the mode file. A signal is
      shown only while the live connection is CONNECTED. The score is the live one, forced into 0..100. */
  lemma NormalMembers(input: Inputs)
    requires Desired(input).Normal?
    ensures var spec := Desired(input);
      var live := if input.snapshot.Some? then Strip(input.snapshot.value.ssid) else "";
      var saved, probed := Strip(input.payload.ssid), Strip(input.probe);
      && (live != "" && live != "-" ==> spec.ssid == live)
      && (live == "" || live == "-" ==>
            && (saved != "" ==> spec.ssid == saved)
            && (saved == "" && probed != "" ==> spec.ssid == probed)
            && (saved == "" && probed == "" ==> spec.ssid == "No SSID"))
    ensures var spec := Desired(input);
      var live := if input.snapshot.Some? && input.snapshot.value.hasConnection then Lower(Strip(input.snapshot.value.uplinkType)) else "";
      var saved := Lower(Strip(input.payload.uplinkType));
      && (live != "" ==> spec.uplink == live)
      && (live == "" && saved != "" ==> spec.uplink == saved)
      && (live == "" && saved == "" ==> spec.uplink == "unknown")
    ensures var spec, snap := Desired(input), input.snapshot;
      && (spec.signal.Some? ==>
            && snap.Some? && snap.value.hasConnection && Upper(Strip(snap.value.wifiState)) == "CONNECTED"
            && snap.value.signal == spec.signal)
      && (snap.Some? && snap.value.hasConnection && Upper(Strip(snap.value.wifiState)) == "CONNECTED" ==>
            spec.signal == snap.value.signal)
    ensures var spec, snap := Desired(input), input.snapshot;
      var score := if snap.Some? && snap.value.suspicion.Some? then snap.value.suspicion.value else 0;
      && (0 <= score <= 100 ==> spec.suspicion == score)
      && (score < 0 ==> spec.suspicion == 0) && (score > 100 ==> spec.suspicion == 100)
  {
    hide Strip, Upper, Lower, ModeRisk;
    assert "-" != "" && |"-"| == 1;
  }

  /** What the renderer draws for a specification: icon by the strength of the signal, where 0 to 100 is a percentage. */
  lemma DrawnIs(spec: Spec)
    ensures spec.Normal? ==>
      var c := ContentOf(spec);
      && c.NormalScreen? && c.ssid == spec.ssid && c.risk == spec.risk && c.suspicion == spec.suspicion
      && c.mode <= Upper(Strip(if spec.modeLabel == "" then "SHIELD" else spec.modeLabel))
      && (|c.mode| == 12 || c.mode == Upper(Strip(if spec.modeLabel == "" then "SHIELD" else spec.modeLabel)))
      && |c.mode| <= 12
      && (c.icon == Ethernet <==> Lower(Strip(spec.uplink)) == "ethernet")
      && (Lower(Strip(spec.uplink)) != "ethernet" ==>
            && (c.icon == WifiDisconnected <==> spec.signal.None?)
            && (spec.signal.Some? ==>
                  var n := spec.signal.value;
                  && (c.icon == WifiStrong <==> (-60 <= n < 0) || n >= 49)
                  && (c.icon == WifiMedium <==> (-70 <= n < -60) || 32 <= n <= 48)
                  && (c.icon == WifiWeak <==> n < -70 || 0 <= n <= 31)))
    ensures spec.Warning? ==> ContentOf(spec) == WarningScreen(spec.msg)
    ensures spec.Danger? ==>
      ContentOf(spec) == if spec.alarm >= 90 then DangerScreen(Skull, spec.msg) else DangerScreen(WarningSign, spec.msg)
  {
    hide Strip, Upper, Lower;
  }

  /** What the renderer refuses, and what it records of what it drew. */
  lemma RefusedAndRecorded(spec: Spec)
    ensures !Accepted(spec) <==>
      || (spec.Normal? && (spec.ssid == "" || spec.suspicion < 0 || spec.suspicion > 100))
      || (!spec.Normal? && spec.msg == "")
    ensures !spec.Normal? ==> Recorded(spec) == spec
    ensures spec.Normal? ==>
      var r := Recorded(spec);
      && r.Normal? && r.modeLabel == Upper(Strip(spec.modeLabel)) && r.ssid == spec.ssid
      && r.risk == Upper(Strip(spec.risk)) && r.suspicion == spec.suspicion && r.signal == spec.signal
      && (Lower(Strip(spec.uplink)) != "" ==> r.uplink == Lower(Strip(spec.uplink)))
      && (Lower(Strip(spec.uplink)) == "" ==> r.uplink == "unknown")
  {
    hide Strip, Upper, Lower;
  }

  /** The fingerprint member by member; the signal only counts by its bucket. */
  lemma PrintMembers(spec: Spec)
    ensures spec.Warning? ==> Print(spec) == OtherPrint("warning", Strip(spec.msg))
    ensures spec.Danger? ==> Print(spec) == OtherPrint("danger", Strip(spec.msg))
    ensures spec.Normal? ==>
      var p := Print(spec);
      && p.NormalPrint? && p.modeLabel == Upper(Strip(spec.modeLabel)) && p.ssid == Strip(spec.ssid)
      && p.risk == Upper(Strip(spec.risk)) && p.suspicion == spec.suspicion
      && p.uplink == (if Lower(Strip(spec.uplink)) == "" then "unknown" else Lower(Strip(spec.uplink)))
      && (p.bucket == NoSignal <==> spec.signal.None?)
      && (spec.signal.Some? ==>
            && (p.bucket == Strong <==> spec.signal.value >= -60)
            && (p.bucket == Medium <==> -70 <= spec.signal.value < -60)
            && (p.bucket == Weak <==> spec.signal.value < -70))
    ensures LastPrint(None) == OtherPrint("", "") && LastPrint(Some(spec)) == Print(spec)
  {
    hide Strip, Upper, Lower;
  }

  // ---- when a fingerprint decides the content ------------------------------------------------------

  /** The signals on which the job's buckets and the renderer's icons agree: absent, negative dBm, or 49 and up.
      From 0 to 48 the renderer sees a medium or weak percentage where the job sees a strong dBm value. */
  predicate FaithfulSignal(signal: Option<int>) { signal.Some? ==> signal.value < 0 || signal.value >= 49 }

  predicate Faithful(spec: Spec) { spec.Normal? ==> spec.uplink == "ethernet" || FaithfulSignal(spec.signal) }

  lemma BucketDecidesIcon(a: Option<int>, b: Option<int>, uplink: string)
    requires Lower(Strip(uplink)) == "ethernet" || (FaithfulSignal(a) && FaithfulSignal(b))
    requires SignalBucket(a) == SignalBucket(b)
    ensures ConnectionIcon(a, uplink) == ConnectionIcon(b, uplink)
  {
    hide Lower, Strip;
  }

  lemma MadeParts(spec: Spec)
    requires Made(spec) && spec.Normal?
    ensures Upper(Strip(spec.modeLabel)) == spec.modeLabel && Strip(spec.ssid) == spec.ssid
    ensures Upper(Strip(spec.risk)) == spec.risk && Lower(Strip(spec.uplink)) == spec.uplink
    ensures Or(spec.modeLabel, "SHIELD") == spec.modeLabel
  {
    hide Upper, Lower;
    TightIsStripped(spec.modeLabel); TightIsStripped(spec.ssid);
    TightIsStripped(spec.risk); TightIsStripped(spec.uplink);
  }

  /** Equal fingerprints mean equal panels, for specifications in normal form with faithful signals. */
  lemma PrintDecidesContent(a: Spec, b: Spec)
    requires Made(a) && Made(b) && Faithful(a) && Faithful(b) && Print(a) == Print(b)
    ensures ContentOf(a) == ContentOf(b)
  {
    if a.Normal? && b.Normal? {
      MadeParts(a); MadeParts(b);
      hide Upper, Lower, Strip, ConnectionIcon, Tight;
      BucketDecidesIcon(a.signal, b.signal, a.uplink);
    } else {
      StateWords();
      hide Upper, Lower, ConnectionIcon;
      if !a.Normal? && !b.Normal? { TightIsStripped(a.msg); TightIsStripped(b.msg); }
    }
  }

  lemma StateWords()
    ensures "warning" != "danger"
  {
    assert |"warning"| != |"danger"|;
  }

  lemma FarSignalsClash(n: int)
    requires 0 <= n < 49
    ensures SignalBucket(Some(n)) == SignalBucket(Some(-50))
    ensures forall uplink :: Lower(Strip(uplink)) != "ethernet" ==>
              ConnectionIcon(Some(n), uplink) != ConnectionIcon(Some(-50), uplink)
  {
  }

  /** The condition is exact: a specification is safe to skip on the strength of its fingerprint, against every
      faithful specification, exactly when it is faithful itself. */
  lemma SkippingIsSafeIff(a: Spec)
    requires Made(a)
    ensures (forall b | Made(b) && Faithful(b) && Print(b) == Print(a) :: ContentOf(b) == ContentOf(a)) <==> Faithful(a)
  {
    if Faithful(a) {
      forall b | Made(b) && Faithful(b) && Print(b) == Print(a) ensures ContentOf(b) == ContentOf(a) {
        PrintDecidesContent(b, a);
      }
    } else {
      var b := a.(signal := Some(-50));
      FarSignalsClash(a.signal.value);
      MadeParts(a);
      hide Upper, Lower, Strip, ConnectionIcon, Tight;
      assert Made(b) && Faithful(b) && Print(b) == Print(a) && ContentOf(b) != ContentOf(a);
    }
  }

  /** What the renderer records stands for what it drew. */
  lemma RecordIsFaithful(spec: Spec)
    requires Made(spec)
    ensures Recorded(spec) == spec
  {
    if spec.Normal? {
      MadeParts(spec);
      hide Upper, Lower, Strip, Tight;
    }
  }

  // ---- runs ----------------------------------------------------------------------------------------

  datatype Run = Run(input: Inputs, drawWorks: bool)

  function After(runs: seq<Run>): World {
    if runs == [] then BLANK
    else Refresh(After(runs[..|runs| - 1]), runs[|runs| - 1].input, runs[|runs| - 1].drawWorks)
  }

  /** The record, if any, is in normal form, faithful, and what the panel shows. */
  ghost predicate InStep(w: World) {
    w.last.Some? ==> Made(w.last.value) && Faithful(w.last.value) && w.panel == Some(ContentOf(w.last.value))
  }

  lemma RefreshKeepsStep(w: World, input: Inputs, drawWorks: bool)
    requires InStep(w) && Faithful(Desired(input))
    ensures InStep(Refresh(w, input, drawWorks))
    ensures drawWorks ==> Refresh(w, input, drawWorks).panel == Some(ContentOf(Desired(input)))
    ensures drawWorks ==> Refresh(w, input, drawWorks).last.Some? &&
                          Print(Refresh(w, input, drawWorks).last.value) == Print(Desired(input))
  {
    hide Desired, ContentOf, Faithful, Accepted;
    var spec := Desired(input);
    DesiredIsMade(input);
    RecordIsFaithful(spec);
    if Print(spec) == LastPrint(w.last) {
      NoEmptyPrint(spec);
      hide Print, Made;
      PrintDecidesContent(spec, w.last.value);
    }
  }

  lemma DesiredIsAccepted(input: Inputs)
    ensures Accepted(Desired(input))
  {
    hide Desired;
    DesiredIsMade(input);
  }

  lemma NoEmptyPrint(spec: Spec)
    ensures Print(spec) != OtherPrint("", "")
  {
    assert "warning" != "" && "danger" != "";
  }

  lemma {:induction false} AlwaysInStep(runs: seq<Run>)
    requires forall r | r in runs :: Faithful(Desired(r.input))
    ensures InStep(After(runs))
    decreases |runs|
  {
    hide Desired, Refresh, InStep, Faithful;
    if runs == [] {
      BlankInStep();
    } else {
      AlwaysInStep(runs[..|runs| - 1]);
      var r := runs[|runs| - 1];
      RefreshKeepsStep(After(runs[..|runs| - 1]), r.input, r.drawWorks);
    }
  }

  lemma BlankInStep()
    ensures InStep(BLANK)
  {
  }

  /** After every refresh whose draw works, drawn or skipped, the panel shows what that refresh asked for, just as
      if every refresh drew; whatever failed before. */
  lemma PanelShowsDesired(runs: seq<Run>)
    requires runs != [] && runs[|runs| - 1].drawWorks
    requires forall r | r in runs :: Faithful(Desired(r.input))
    ensures After(runs).panel == Some(ContentOf(Desired(runs[|runs| - 1].input)))
  {
    hide Desired, Refresh, InStep, Faithful, ContentOf;
    var before := runs[..|runs| - 1];
    AlwaysInStep(before);
    RefreshKeepsStep(After(before), runs[|runs| - 1].input, true);
  }

  /** A refresh that asks for what the last working one asked for draws nothing. */
  lemma UnchangedIsNotRedrawn(runs: seq<Run>, again: Run)
    requires runs != [] && runs[|runs| - 1].drawWorks
    requires forall r | r in runs :: Faithful(Desired(r.input))
    requires Desired(again.input) == Desired(runs[|runs| - 1].input)
    ensures After(runs + [again]) == After(runs)
  {
    hide Desired, InStep, Faithful, ContentOf, Print;
    var before := runs[..|runs| - 1];
    AlwaysInStep(before);
    RefreshKeepsStep(After(before), runs[|runs| - 1].input, true);
    assert (runs + [again])[..|runs|] == runs;
  }

  /** Without the condition the panel can go stale: after a 90 % signal, a 10 % signal is skipped and the strong
      icon stays. */
  lemma PercentSignalsGoStale(input: Inputs)
    requires input == Inputs(Payload("shield", "", "", "", ""),
                             Some(Snapshot("SAFE", true, "", "CONNECTED", "wifi", "net", Some(90), None)), "")
    ensures var weak := input.(snapshot := Some(input.snapshot.value.(signal := Some(10))));
            && After([Run(input, true), Run(weak, true)]).draws == 1
            && After([Run(input, true), Run(weak, true)]).panel != Some(ContentOf(Desired(weak)))
  {
    var weak := input.(snapshot := Some(input.snapshot.value.(signal := Some(10))));
    PercentSpecs(input, 90); PercentSpecs(weak, 10);
    var first := [Run(input, true)];
    assert first[..0] == [];
    assert After(first) == Refresh(BLANK, input, true);
    assert [Run(input, true), Run(weak, true)][..1] == first;
    var a, b := Desired(input), Desired(weak);
    DesiredIsMade(input); DesiredIsMade(weak);
    RecordIsFaithful(a);
    NoEmptyPrint(a);
    hide Desired, Made, Accepted;
    assert Print(a) == Print(b);
    MadeParts(a); MadeParts(b);
    assert ConnectionIcon(Some(90), "wifi") != ConnectionIcon(Some(10), "wifi") by { WifiIcons(); }
    hide Upper, Lower, Strip, ConnectionIcon;
  }

  lemma WifiIcons()
    ensures ConnectionIcon(Some(90), "wifi") == WifiStrong && ConnectionIcon(Some(10), "wifi") == WifiWeak
  {
    assert Strip("wifi") == "wifi" && Lower("wifi")[0] == 'w' && "ethernet"[0] == 'e';
  }

  lemma PercentSpecs(input: Inputs, n: int)
    requires input == Inputs(Payload("shield", "", "", "", ""),
                             Some(Snapshot("SAFE", true, "", "CONNECTED", "wifi", "net", Some(n), None)), "")
    ensures Desired(input) == Normal("SHIELD", "net", "SAFE", 0, Some(n), "wifi")
  {
    hide Upper, Lower, Strip;
    PercentWords();
    MoreWords();
    assert "SAFE" in USER_STATES && "shield" in MODES;
  }

  lemma PercentWords()
    ensures Strip("shield") == "shield" && Strip("SAFE") == "SAFE" && Strip("CONNECTED") == "CONNECTED"
    ensures Strip("wifi") == "wifi" && Strip("net") == "net" && Strip("") == "" && Strip("SHIELD") == "SHIELD"
    ensures "shield" != "switching" && "shield" != "failed" && "net" != "-" && "SAFE" != "UNKNOWN"
  {
    TightIsStripped("shield"); TightIsStripped("SAFE"); TightIsStripped("CONNECTED"); TightIsStripped("wifi"); TightIsStripped("net");
  }

  lemma MoreWords()
    ensures Lower("shield") == "shield" && Upper("shield") == "SHIELD" && Upper("SAFE") == "SAFE"
    ensures Upper("CONNECTED") == "CONNECTED" && Lower("wifi") == "wifi" && |"SHIELD"| == 6
  {
  }
}
