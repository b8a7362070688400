/** Grouping of similar alerts on the dashboard: what each group says, what the totals say, and why the order in
    which the alerts arrive does not matter. */
module AlertAggregation {
  import opened Text

  /** An alert row with its numbers already read; times are seconds since the epoch. */
  datatype Alert = Alert(
    ts: real, src: string, dst: string, sid: int, attack: string, level: string, risk: int, note: string)

  function Max(a: int, b: int): int { if a < b then b else a }

  datatype Settings = Settings(suppression: int, aggregation: int, escalationCount: int, escalationRisk: int) {
    function SuppressionWindow(): int { Max(30, suppression) }
    function Window(): int { Max(SuppressionWindow(), aggregation) }
    function EscalateAt(): int { Max(2, escalationCount) }
  }

  // ---- keys ----------------------------------------------------------------------------------------

  /** What makes two alerts similar. */
  datatype Identity = Identity(src: string, dst: string, sid: int, attack: string, level: string)

  function OrDash(s: string): string { if s == "" then "-" else s }

  function IdentityOf(a: Alert): Identity {
    Identity(OrDash(a.src), OrDash(a.dst), a.sid, OrDash(a.attack), OrDash(a.level))
  }

  function IntText(n: int): string { if n < 0 then "-" + Decimal(-n) else Decimal(n) }

  function KeyText(id: Identity): string {
    id.src + "|" + (id.dst + "|" + (IntText(id.sid) + "|" + (id.attack + "|" + id.level)))
  }

  function Key(a: Alert): string { KeyText(IdentityOf(a)) }

  lemma IntTextHasNoBar(n: int)
    ensures IntText(n) != "" && '|' !in IntText(n)
  {
    DecimalRoundTrip(if n < 0 then -n else n);
  }

  lemma IntTextInjective(m: int, n: int)
    requires IntText(m) == IntText(n)
    ensures m == n
  {
    DecimalRoundTrip(if m < 0 then -m else m);
    DecimalRoundTrip(if n < 0 then -n else n);
    assert m < 0 ==> IntText(m)[0] == '-' && IntText(m)[1..] == Decimal(-m);
    assert n < 0 ==> IntText(n)[0] == '-' && IntText(n)[1..] == Decimal(-n);
  }

  /** No text of the identity is empty: so every alert reads. */
  predicate Filled(id: Identity) { id.src != "" && id.dst != "" && id.attack != "" && id.level != "" }

  predicate LateBar(s: string) { exists i :: 1 <= i < |s| && s[i] == '|' }

  predicate EarlyBar(s: string) { exists i :: 0 <= i < |s| - 1 && s[i] == '|' }

  /** A bar after the first character of the source or the attack, or before the last one of the destination or the
      level. Any other bar would leave a text empty if the key were cut there. */
  predicate MovableBar(id: Identity) { LateBar(id.src) || EarlyBar(id.dst) || LateBar(id.attack) || EarlyBar(id.level) }

  /** Where the four separators of a key are. */
  datatype Cuts = Cuts(dst: nat, sid: nat, attack: nat, level: nat)

  function CutsOf(id: Identity): Cuts {
    var dst := |id.src|;
    var sid := dst + 1 + |id.dst|;
    var attack := sid + 1 + |IntText(id.sid)|;
    Cuts(dst, sid, attack, attack + 1 + |id.attack|)
  }

  lemma KeyIsCut(id: Identity)
    ensures var k, c := KeyText(id), CutsOf(id);
      && |k| == c.level + 1 + |id.level|
      && k[c.dst] == '|' && k[c.sid] == '|' && k[c.attack] == '|' && k[c.level] == '|'
      && k[..c.dst] == id.src && k[c.dst + 1..c.sid] == id.dst && k[c.sid + 1..c.attack] == IntText(id.sid)
      && k[c.attack + 1..c.level] == id.attack && k[c.level + 1..] == id.level
  {
    hide IntText;
    var c4 := id.attack + "|" + id.level;
    var c3 := IntText(id.sid) + "|" + c4;
    var c2 := id.dst + "|" + c3;
    var k, c := KeyText(id), CutsOf(id);
    assert k[c.dst + 1..] == c2 && k[c.sid + 1..] == c3 && k[c.attack + 1..] == c4;
  }

  lemma CutsDecide(a: Identity, b: Identity)
    requires KeyText(a) == KeyText(b) && CutsOf(a) == CutsOf(b)
    ensures a == b
  {
    hide KeyText, CutsOf;
    KeyIsCut(a);
    KeyIsCut(b);
    IntTextInjective(a.sid, b.sid);
  }

  /** Without a movable bar the bars of a key are its separators and, next to them or at the ends, bars no cut can
      use. */
  lemma BarsOfKey(id: Identity, p: nat)
    requires !MovableBar(id) && p < |KeyText(id)| && KeyText(id)[p] == '|'
    ensures var c := CutsOf(id);
      p in {0, c.dst, c.sid - 1, c.sid, c.attack, c.attack + 1, c.level, |KeyText(id)| - 1}
  {
    hide KeyText, IntText;
    var k, c := KeyText(id), CutsOf(id);
    KeyIsCut(id);
    IntTextHasNoBar(id.sid);
    NotInside(k, IntText(id.sid), c.sid, c.attack, p);
    if p < c.dst {
      assert id.src[p] == '|';
    } else if c.dst < p < c.sid {
      assert id.dst[p - c.dst - 1] == '|';
    } else if c.attack < p < c.level {
      assert id.attack[p - c.attack - 1] == '|';
    } else if c.level < p {
      assert id.level[p - c.level - 1] == '|';
    }
  }

  /** Then there is one way to cut the key into five texts of which none is empty and the third is a number. */
  lemma OneWayToCut(a: Identity, b: Identity)
    requires Filled(a) && Filled(b) && !MovableBar(a) && KeyText(a) == KeyText(b)
    ensures CutsOf(a) == CutsOf(b)
  {
    hide KeyText, MovableBar, IntText;
    var k, c, d := KeyText(a), CutsOf(a), CutsOf(b);
    KeyIsCut(a);
    KeyIsCut(b);
    IntTextHasNoBar(a.sid);
    IntTextHasNoBar(b.sid);
    BarsOfKey(a, d.dst);
    BarsOfKey(a, d.sid);
    BarsOfKey(a, d.attack);
    BarsOfKey(a, d.level);
    NotInside(k, IntText(b.sid), d.sid, d.attack, c.sid);
    NotInside(k, IntText(b.sid), d.sid, d.attack, c.attack);
  }

  lemma NotInside(k: string, part: string, from: nat, to: nat, p: nat)
    requires from < to < |k| && k[from + 1..to] == part && '|' !in part && p < |k| && k[p] == '|'
    ensures !(from < p < to)
  {
    forall i | from < i < to ensures k[i] in part { assert part[i - from - 1] == k[i]; }
  }

  /** Moving one separator onto a movable bar gives another identity with the same key. */
  lemma MoveSeparator(id: Identity) returns (other: Identity)
    requires Filled(id) && MovableBar(id)
    ensures Filled(other) && KeyText(other) == KeyText(id) && other != id
  {
    hide KeyText, LateBar, EarlyBar;
    if LateBar(id.src) {
      other := MoveOutOfSource(id);
    } else if EarlyBar(id.dst) {
      other := MoveIntoSource(id);
    } else {
      other := MoveBetweenLabels(id);
    }
  }

  lemma MoveOutOfSource(id: Identity) returns (other: Identity)
    requires Filled(id) && LateBar(id.src)
    ensures Filled(other) && KeyText(other) == KeyText(id) && other != id
  {
    hide IntText;
    var i :| 1 <= i < |id.src| && id.src[i] == '|';
    var x, y := id.src[..i], id.src[i + 1..];
    other := id.(src := x, dst := y + "|" + id.dst);
    Regroup(x, y, id.dst, id.src, "|" + (IntText(id.sid) + "|" + (id.attack + "|" + id.level)));
  }

  lemma MoveIntoSource(id: Identity) returns (other: Identity)
    requires Filled(id) && EarlyBar(id.dst)
    ensures Filled(other) && KeyText(other) == KeyText(id) && other != id
  {
    hide IntText;
    var i :| 0 <= i < |id.dst| - 1 && id.dst[i] == '|';
    var x, y := id.dst[..i], id.dst[i + 1..];
    other := id.(src := id.src + "|" + x, dst := y);
    RegroupDst(x, y, id.dst, id.src, "|" + (IntText(id.sid) + "|" + (id.attack + "|" + id.level)));
  }

  lemma MoveBetweenLabels(id: Identity) returns (other: Identity)
    requires Filled(id) && (LateBar(id.attack) || EarlyBar(id.level))
    ensures Filled(other) && KeyText(other) == KeyText(id) && other != id
  {
    hide IntText;
    if LateBar(id.attack) {
      var i :| 1 <= i < |id.attack| && id.attack[i] == '|';
      var x, y := id.attack[..i], id.attack[i + 1..];
      other := id.(attack := x, level := y + "|" + id.level);
      assert id.attack + "|" + id.level == x + "|" + (y + "|" + id.level);
    } else {
      var i :| 0 <= i < |id.level| - 1 && id.level[i] == '|';
      var x, y := id.level[..i], id.level[i + 1..];
      other := id.(attack := id.attack + "|" + x, level := y);
      assert id.attack + "|" + id.level == (id.attack + "|" + x) + "|" + y;
    }
  }

  lemma Regroup(x: string, y: string, dst: string, src: string, rest: string)
    requires |x| < |src| && src[..|x|] == x && src[|x|] == '|' && src[|x| + 1..] == y
    ensures src + "|" + (dst + rest) == x + "|" + ((y + "|" + dst) + rest)
  {
    assert src == x + "|" + y;
  }

  lemma RegroupDst(x: string, y: string, dst: string, src: string, rest: string)
    requires |x| < |dst| && dst[..|x|] == x && dst[|x|] == '|' && dst[|x| + 1..] == y
    ensures src + "|" + (dst + rest) == (src + "|" + x) + "|" + (y + rest)
  {
    assert dst == x + "|" + y;
  }

  /** Two alerts of different identity can share a key exactly when one of the four texts has a movable bar. */
  lemma KeyIsAmbiguousIff(a: Alert)
    ensures (exists b: Alert :: Key(b) == Key(a) && IdentityOf(b) != IdentityOf(a)) <==> MovableBar(IdentityOf(a))
  {
    hide KeyText, MovableBar;
    var id := IdentityOf(a);
    if MovableBar(id) {
      var other := MoveSeparator(id);
      var b := a.(src := other.src, dst := other.dst, sid := other.sid, attack := other.attack, level := other.level);
      assert IdentityOf(b) == other;
      assert Key(b) == Key(a) && IdentityOf(b) != IdentityOf(a);
    } else {
      forall b: Alert | Key(b) == Key(a) ensures IdentityOf(b) == id {
        OneWayToCut(id, IdentityOf(b));
        CutsDecide(id, IdentityOf(b));
      }
    }
  }

  /** The texts of a key: a missing one reads as "-", and the number has a sign exactly when it is negative. */
  lemma KeyTexts(a: Alert)
    ensures var id := IdentityOf(a);
      && id.sid == a.sid
      && (a.src == "" ==> id.src == "-") && (a.src != "" ==> id.src == a.src)
      && (a.dst == "" ==> id.dst == "-") && (a.dst != "" ==> id.dst == a.dst)
      && (a.attack == "" ==> id.attack == "-") && (a.attack != "" ==> id.attack == a.attack)
      && (a.level == "" ==> id.level == "-") && (a.level != "" ==> id.level == a.level)
    ensures a.sid >= 0 ==> AllDigits(IntText(a.sid)) && DecimalValue(IntText(a.sid)) == a.sid
    ensures a.sid < 0 ==>
      IntText(a.sid)[0] == '-' && AllDigits(IntText(a.sid)[1..]) && DecimalValue(IntText(a.sid)[1..]) == -a.sid
  {
    DecimalRoundTrip(if a.sid < 0 then -a.sid else a.sid);
    if a.sid < 0 { assert IntText(a.sid)[1..] == Decimal(-a.sid); }
  }

  /** Two alerts between different hosts that are counted as one group. */
  lemma StrangersShareAKey()
    ensures var a, b := Alert(1.0, "a|b", "c", 1, "scan", "high", 0, ""), Alert(1.0, "a", "b|c", 1, "scan", "high", 0, "");
      Key(a) == Key(b) && IdentityOf(a) != IdentityOf(b)
  {
    hide IntText;
    var rest := "|" + (IntText(1) + "|" + ("scan" + "|" + "high"));
    assert "a|b"[..1] == "a" && "a|b"[2..] == "b";
    Regroup("a", "b", "c", "a|b", rest);
    assert "b" + "|" + "c" == "b|c";
  }

  // ---- what a group must say -----------------------------------------------------------------------

  predicate InWindow(a: Alert, now: real, window: int) {
    !(a.ts <= 0.0 || now - a.ts > window as real)
  }

  /** The alerts in the window, in order. */
  function Recent(alerts: seq<Alert>, now: real, window: int): seq<Alert> {
    if alerts == [] then []
    else
      var a := alerts[|alerts| - 1];
      Recent(alerts[..|alerts| - 1], now, window) + (if InWindow(a, now, window) then [a] else [])
  }

  /** The alerts of one key, in order. */
  function Members(alerts: seq<Alert>, k: string): seq<Alert> {
    if alerts == [] then []
    else
      var a := alerts[|alerts| - 1];
      Members(alerts[..|alerts| - 1], k) + (if Key(a) == k then [a] else [])
  }

  /** The keys, each at its first appearance. */
  function KeysSeen(alerts: seq<Alert>): seq<string> {
    if alerts == [] then []
    else
      var before := KeysSeen(alerts[..|alerts| - 1]);
      var k := Key(alerts[|alerts| - 1]);
      if k in before then before else before + [k]
  }

  datatype Group = Group(key: string, id: Identity, first: real, last: real, count: nat, riskMax: int, note: string)

  /** A group row tells of exactly these alerts: how many, from when to when, and how bad; names and note are those
      of the earliest in the list. Negative risks read as 0. */
  predicate Tells(g: Group, ms: seq<Alert>) {
    && g.count == |ms| > 0
    && (forall i | 0 <= i < |ms| :: g.first <= ms[i].ts <= g.last && ms[i].risk <= g.riskMax)
    && (exists i | 0 <= i < |ms| :: ms[i].ts == g.first)
    && (exists i | 0 <= i < |ms| :: ms[i].ts == g.last)
    && (g.riskMax == 0 || exists i | 0 <= i < |ms| :: ms[i].risk == g.riskMax)
    && 0 <= g.riskMax
    && g.id == IdentityOf(ms[0]) && g.note == ms[0].note
  }

  function Absorb(g: Group, a: Alert): (r: Group)
    ensures r.key == g.key
  {
    g.(count := g.count + 1,
       first := if a.ts < g.first then a.ts else g.first,
       last := if a.ts > g.last then a.ts else g.last,
       riskMax := Max(g.riskMax, a.risk))
  }

  lemma AbsorbTells(g: Group, ms: seq<Alert>, a: Alert)
    requires Tells(g, ms)
    ensures Tells(Absorb(g, a), ms + [a])
  {
    hide IdentityOf;
    var r, all := Absorb(g, a), ms + [a];
    var f :| 0 <= f < |ms| && ms[f].ts == g.first;
    var l :| 0 <= l < |ms| && ms[l].ts == g.last;
    assert all[f] == ms[f] && all[l] == ms[l] && all[|ms|] == a;
    assert forall i | 0 <= i < |ms| :: all[i] == ms[i];
    if g.riskMax != 0 && a.risk < g.riskMax {
      var w :| 0 <= w < |ms| && ms[w].risk == g.riskMax;
      assert all[w].risk == r.riskMax;
    }
  }

  // ---- grouping loop -------------------------------------------------------------------------------

  /** The dictionary of groups, `order` listing its keys in insertion order, tells of these alerts. */
  predicate Dictionary(order: seq<string>, groups: map<string, Group>, recent: seq<Alert>) {
    && order == KeysSeen(recent)
    && groups.Keys == (set k | k in order)
    && forall k | k in groups :: groups[k].key == k && Tells(groups[k], Members(recent, k))
  }

  method GroupAlerts(alerts: seq<Alert>, now: real, window: int)
    returns (order: seq<string>, groups: map<string, Group>)
    ensures Dictionary(order, groups, Recent(alerts, now, window))
  {
    hide Dictionary, Key, Absorb, IdentityOf, KeyText;
    order, groups := [], map[];
    EmptyDictionary();
    for i := 0 to |alerts|
      invariant Dictionary(order, groups, Recent(alerts[..i], now, window))
    {
      var a := alerts[i];
      assert alerts[..i + 1][..i] == alerts[..i];
      ghost var before := Recent(alerts[..i], now, window);
      assert before + [] == before;
      if InWindow(a, now, window) {
        DictionaryStep(order, groups, before, a);
        ghost var was := groups;
        var k := Key(a);
        if k !in groups {
          order := order + [k];
          groups := groups[k := Group(k, IdentityOf(a), a.ts, a.ts, 0, 0, a.note)];
        }
        groups := groups[k := Absorb(groups[k], a)];
        assert groups == was[k := groups[k]];
      }
    }
    assert alerts[..|alerts|] == alerts;
  }

  lemma EmptyDictionary()
    ensures Dictionary([], map[], [])
  {
  }

  lemma OneMore(recent: seq<Alert>, a: Alert, k: string)
    ensures Members(recent + [a], k) == if Key(a) == k then Members(recent, k) + [a] else Members(recent, k)
    ensures KeysSeen(recent + [a]) == if Key(a) in KeysSeen(recent) then KeysSeen(recent) else KeysSeen(recent) + [Key(a)]
  {
    hide Key;
    assert (recent + [a])[..|recent|] == recent;
  }

  lemma DictionaryStep(order: seq<string>, groups: map<string, Group>, recent: seq<Alert>, a: Alert)
    requires Dictionary(order, groups, recent)
    ensures var k := Key(a);
      if k in groups then Dictionary(order, groups[k := Absorb(groups[k], a)], recent + [a])
      else Dictionary(order + [k],
             groups[k := Absorb(Group(k, IdentityOf(a), a.ts, a.ts, 0, 0, a.note), a)], recent + [a])
  {
    hide Key, IdentityOf, Tells, Members, KeysSeen;
    var k := Key(a);
    var first := Group(k, IdentityOf(a), a.ts, a.ts, 0, 0, a.note);
    var row := if k in groups then groups[k] else first;
    UnseenHasNoMembers(recent, k);
    OneMore(recent, a, k);
    if k in groups {
      AbsorbTells(groups[k], Members(recent, k), a);
    } else {
      FirstTells(k, a);
    }
    var order', groups' := if k in groups then order else order + [k], groups[k := Absorb(row, a)];
    assert groups'.Keys == set k' | k' in order';
    forall k' | k' in groups' ensures groups'[k'].key == k' && Tells(groups'[k'], Members(recent + [a], k')) {
      OneMore(recent, a, k');
    }
  }

  lemma FirstTells(k: string, a: Alert)
    ensures Tells(Absorb(Group(k, IdentityOf(a), a.ts, a.ts, 0, 0, a.note), a), [] + [a])
  {
    hide IdentityOf;
    assert ([] + [a])[0] == a;
  }

  lemma {:induction false} UnseenHasNoMembers(alerts: seq<Alert>, k: string)
    ensures k in KeysSeen(alerts) <==> Members(alerts, k) != []
    ensures k in KeysSeen(alerts) <==> exists i :: 0 <= i < |alerts| && Key(alerts[i]) == k
  {
    hide Key;
    if alerts != [] {
      var front := alerts[..|alerts| - 1];
      UnseenHasNoMembers(front, k);
      if i :| 0 <= i < |front| && Key(front[i]) == k { assert alerts[i] == front[i]; }
    }
  }

  // ---- conservation --------------------------------------------------------------------------------

  predicate Distinct(ks: seq<string>) { forall i, j | 0 <= i < j < |ks| :: ks[i] != ks[j] }

  lemma {:induction false} KeysSeenDistinct(alerts: seq<Alert>)
    ensures Distinct(KeysSeen(alerts))
  {
    hide Key;
    if alerts != [] { KeysSeenDistinct(alerts[..|alerts| - 1]); }
  }

  function TotalMembers(alerts: seq<Alert>, ks: seq<string>): nat {
    if ks == [] then 0 else TotalMembers(alerts, ks[..|ks| - 1]) + |Members(alerts, ks[|ks| - 1])|
  }

  function Occurrences(k: string, ks: seq<string>): nat {
    if ks == [] then 0 else Occurrences(k, ks[..|ks| - 1]) + (if ks[|ks| - 1] == k then 1 else 0)
  }

  lemma {:induction false} DistinctOccursOnce(k: string, ks: seq<string>)
    requires Distinct(ks)
    ensures Occurrences(k, ks) == if k in ks then 1 else 0
  {
    if ks != [] { DistinctOccursOnce(k, ks[..|ks| - 1]); }
  }

  lemma {:induction false} OneMoreAlert(alerts: seq<Alert>, a: Alert, ks: seq<string>)
    ensures TotalMembers(alerts + [a], ks) == TotalMembers(alerts, ks) + Occurrences(Key(a), ks)
  {
    hide Key;
    if ks != [] {
      OneMoreAlert(alerts, a, ks[..|ks| - 1]);
      assert (alerts + [a])[..|alerts|] == alerts;
    }
  }

  lemma {:induction false} NoAlerts(ks: seq<string>)
    ensures TotalMembers([], ks) == 0
  {
    if ks != [] { NoAlerts(ks[..|ks| - 1]); }
  }

  /** Every alert is in exactly one group: over any list of distinct keys that names them all, the group sizes add
      up to the number of alerts. */
  lemma {:induction false} GroupsPartition(alerts: seq<Alert>, ks: seq<string>)
    requires Distinct(ks) && forall i | 0 <= i < |alerts| :: Key(alerts[i]) in ks
    ensures TotalMembers(alerts, ks) == |alerts|
  {
    hide Key;
    if alerts == [] {
      NoAlerts(ks);
    } else {
      var front, a := alerts[..|alerts| - 1], alerts[|alerts| - 1];
      GroupsPartition(front, ks);
      OneMoreAlert(front, a, ks);
      DistinctOccursOnce(Key(a), ks);
      assert alerts == front + [a];
    }
  }

  // ---- the order of arrival ------------------------------------------------------------------------

  lemma {:induction false} RecentCounts(alerts: seq<Alert>, now: real, window: int, x: Alert)
    ensures multiset(Recent(alerts, now, window))[x] == if InWindow(x, now, window) then multiset(alerts)[x] else 0
  {
    if alerts != [] {
      var front := alerts[..|alerts| - 1];
      RecentCounts(front, now, window, x);
      assert alerts == front + [alerts[|alerts| - 1]];
    }
  }

  lemma {:induction false} MembersCount(alerts: seq<Alert>, k: string, x: Alert)
    ensures multiset(Members(alerts, k))[x] == if Key(x) == k then multiset(alerts)[x] else 0
  {
    hide Key;
    if alerts != [] {
      var front := alerts[..|alerts| - 1];
      MembersCount(front, k, x);
      assert alerts == front + [alerts[|alerts| - 1]];
    }
  }

  lemma RecentPermutes(a: seq<Alert>, b: seq<Alert>, now: real, window: int)
    requires multiset(a) == multiset(b)
    ensures multiset(Recent(a, now, window)) == multiset(Recent(b, now, window))
  {
    forall x ensures multiset(Recent(a, now, window))[x] == multiset(Recent(b, now, window))[x] {
      RecentCounts(a, now, window, x);
      RecentCounts(b, now, window, x);
    }
  }

  lemma MembersPermute(a: seq<Alert>, b: seq<Alert>, k: string)
    requires multiset(a) == multiset(b)
    ensures multiset(Members(a, k)) == multiset(Members(b, k))
  {
    hide Key;
    forall x ensures multiset(Members(a, k))[x] == multiset(Members(b, k))[x] {
      MembersCount(a, k, x);
      MembersCount(b, k, x);
    }
  }

  lemma SameSize<T>(a: seq<T>, b: seq<T>)
    requires multiset(a) == multiset(b)
    ensures |a| == |b|
  {
    assert |multiset(a)| == |a| && |multiset(b)| == |b|;
  }

  lemma SameElements<T>(a: seq<T>, b: seq<T>)
    requires multiset(a) == multiset(b)
    ensures forall i | 0 <= i < |a| :: a[i] in b
  {
    forall i | 0 <= i < |a| ensures a[i] in b { assert a[i] in multiset(a); }
  }

  /** Two rows that tell of the same alerts, in whatever order, agree on the count, both times and the risk. */
  lemma TellingIsUnique(g: Group, a: seq<Alert>, h: Group, b: seq<Alert>)
    requires multiset(a) == multiset(b) && Tells(g, a) && Tells(h, b)
    ensures g.count == h.count && g.first == h.first && g.last == h.last && g.riskMax == h.riskMax
  {
    hide IdentityOf;
    SameSize(a, b);
    SameElements(a, b);
    SameElements(b, a);
  }

  // ---- ranking and the payload ---------------------------------------------------------------------

  datatype Rank = Rank(count: nat, risk: int) {
    predicate AtLeast(r: Rank) { count > r.count || (count == r.count && risk >= r.risk) }
  }

  predicate Descending(rs: seq<Rank>) { forall i, j | 0 <= i < j < |rs| :: rs[i].AtLeast(rs[j]) }

  function RankOf(g: Group): Rank { Rank(g.count, g.riskMax) }

  function Ranks(gs: seq<Group>): (r: seq<Rank>)
    ensures |r| == |gs|
  {
    seq(|gs|, i requires 0 <= i < |gs| => RankOf(gs[i]))
  }

  /** Insert behind every row of the same or a higher rank: what a stable descending sort does. */
  function Place(gs: seq<Group>, g: Group): seq<Group> {
    if gs != [] && !RankOf(gs[|gs| - 1]).AtLeast(RankOf(g)) then Place(gs[..|gs| - 1], g) + [gs[|gs| - 1]]
    else gs + [g]
  }

  function Ranked(gs: seq<Group>): seq<Group> {
    if gs == [] then [] else Place(Ranked(gs[..|gs| - 1]), gs[|gs| - 1])
  }

  lemma {:induction false} PlacePermutes(gs: seq<Group>, g: Group)
    ensures multiset(Place(gs, g)) == multiset(gs) + multiset{g}
  {
    if gs != [] && !RankOf(gs[|gs| - 1]).AtLeast(RankOf(g)) {
      PlacePermutes(gs[..|gs| - 1], g);
      assert gs == gs[..|gs| - 1] + [gs[|gs| - 1]];
    }
  }

  lemma {:induction false} PlaceDescends(gs: seq<Group>, g: Group)
    requires Descending(Ranks(gs))
    ensures Descending(Ranks(Place(gs, g)))
  {
    if gs != [] && !RankOf(gs[|gs| - 1]).AtLeast(RankOf(g)) {
      var front, z := gs[..|gs| - 1], gs[|gs| - 1];
      assert forall i | 0 <= i < |front| :: Ranks(front)[i] == Ranks(gs)[i];
      PlaceDescends(front, g);
      PlacePermutes(front, g);
      var p := Place(front, g);
      forall i | 0 <= i < |p| ensures Ranks(p + [z])[i].AtLeast(RankOf(z)) {
        assert p[i] in multiset(p);
        assert p[i] in front || p[i] == g;
        if p[i] in front { var j :| 0 <= j < |front| && front[j] == p[i]; assert Ranks(gs)[j].AtLeast(Ranks(gs)[|front|]); }
      }
      forall i, j | 0 <= i < j < |p + [z]| ensures Ranks(p + [z])[i].AtLeast(Ranks(p + [z])[j]) {
        if j < |p| { assert Ranks(p)[i].AtLeast(Ranks(p)[j]); }
      }
    } else {
      forall i, j | 0 <= i < j < |gs + [g]| ensures Ranks(gs + [g])[i].AtLeast(Ranks(gs + [g])[j]) {
        assert Ranks(gs)[i].AtLeast(Ranks(gs)[|gs| - 1]) || i == |gs| - 1;
        if j < |gs| { assert Ranks(gs)[i].AtLeast(Ranks(gs)[j]); }
      }
    }
  }

  /** The ranking lists the same rows, best first. */
  lemma {:induction false} RankedIsSorted(gs: seq<Group>)
    ensures multiset(Ranked(gs)) == multiset(gs) && Descending(Ranks(Ranked(gs)))
  {
    if gs != [] {
      RankedIsSorted(gs[..|gs| - 1]);
      PlaceDescends(Ranked(gs[..|gs| - 1]), gs[|gs| - 1]);
      PlacePermutes(Ranked(gs[..|gs| - 1]), gs[|gs| - 1]);
      assert gs == gs[..|gs| - 1] + [gs[|gs| - 1]];
    }
  }

  function OfRank(gs: seq<Group>, r: Rank): seq<Group> {
    if gs == [] then []
    else OfRank(gs[..|gs| - 1], r) + (if RankOf(gs[|gs| - 1]) == r then [gs[|gs| - 1]] else [])
  }

  lemma {:induction false} PlaceIsStable(gs: seq<Group>, g: Group, r: Rank)
    ensures OfRank(Place(gs, g), r) == OfRank(gs + [g], r)
  {
    assert (gs + [g])[..|gs|] == gs;
    if gs != [] && !RankOf(gs[|gs| - 1]).AtLeast(RankOf(g)) {
      var front, z := gs[..|gs| - 1], gs[|gs| - 1];
      PlaceIsStable(front, g, r);
      assert (front + [g])[..|front|] == front;
      assert (Place(front, g) + [z])[..|Place(front, g)|] == Place(front, g);
    }
  }

  /** Rows of equal rank keep the order in which their keys first appeared. */
  lemma {:induction false} RankedIsStable(gs: seq<Group>, r: Rank)
    ensures OfRank(Ranked(gs), r) == OfRank(gs, r)
  {
    if gs != [] {
      var front, g := gs[..|gs| - 1], gs[|gs| - 1];
      RankedIsStable(front, r);
      PlaceIsStable(Ranked(front), g, r);
      assert (Ranked(front) + [g])[..|Ranked(front)|] == Ranked(front);
    }
  }

  /** Descending lists of the same ranks are the same list. */
  lemma {:induction false} DescendingIsUnique(x: seq<Rank>, y: seq<Rank>)
    requires Descending(x) && Descending(y) && multiset(x) == multiset(y)
    ensures x == y
  {
    SameSize(x, y);
    if x != [] {
      assert x[0] in multiset(y) && y[0] in multiset(x);
      assert x[0] == y[0];
      assert x == [x[0]] + x[1..] && y == [y[0]] + y[1..];
      assert multiset(x[1..]) == multiset(x) - multiset{x[0]};
      assert multiset(y[1..]) == multiset(y) - multiset{y[0]};
      DescendingIsUnique(x[1..], y[1..]);
    }
  }

  datatype Reason = CountReached | RiskReached | Normal

  datatype Summary = Summary(group: Group, suppressed: nat, recentlySuppressed: bool, escalated: bool, reason: Reason)

  predicate Escalates(r: Rank, c: Settings) { r.count >= c.EscalateAt() || r.risk >= c.escalationRisk }

  function SummaryOf(g: Group, now: real, c: Settings): Summary {
    var suppressed := if g.count == 0 then 0 else g.count - 1;
    Summary(g, suppressed, now - g.last <= c.SuppressionWindow() as real && suppressed > 0, Escalates(RankOf(g), c),
      if g.count >= c.EscalateAt() then CountReached else if g.riskMax >= c.escalationRisk then RiskReached else Normal)
  }

  /** A summary read back as statements about the alerts of its group. */
  lemma SummaryMeans(g: Group, ms: seq<Alert>, now: real, c: Settings)
    requires Tells(g, ms)
    ensures var s := SummaryOf(g, now, c);
      && s.suppressed == |ms| - 1
      && (s.escalated <==>
            || (|ms| >= 2 && |ms| >= c.escalationCount)
            || c.escalationRisk <= 0 || exists i :: 0 <= i < |ms| && ms[i].risk >= c.escalationRisk)
      && (s.recentlySuppressed <==>
            |ms| >= 2 && exists i :: 0 <= i < |ms| && (now - ms[i].ts <= 30.0 || now - ms[i].ts <= c.suppression as real))
      && (s.reason == Normal <==> !s.escalated)
      && (s.reason == CountReached <==> |ms| >= 2 && |ms| >= c.escalationCount)
      && s.group == g
  {
    hide IdentityOf;
    var last :| 0 <= last < |ms| && ms[last].ts == g.last;
    if g.riskMax != 0 {
      var worst :| 0 <= worst < |ms| && ms[worst].risk == g.riskMax;
    }
  }

  function Top<T>(s: seq<T>): seq<T> { if |s| > 10 then s[..10] else s }

  function Summaries(gs: seq<Group>, now: real, c: Settings): (r: seq<Summary>)
    ensures |r| == |gs|
  {
    seq(|gs|, i requires 0 <= i < |gs| => SummaryOf(gs[i], now, c))
  }

  function Escalated(ss: seq<Summary>): seq<Summary> {
    if ss == [] then []
    else Escalated(ss[..|ss| - 1]) + (if ss[|ss| - 1].escalated then [ss[|ss| - 1]] else [])
  }

  datatype Payload = Payload(groupCount: nat, suppressedTotal: nat, groups: seq<Summary>, escalations: seq<Summary>)

  /** The rows of a dictionary in insertion order. */
  function Rows(order: seq<string>, groups: map<string, Group>): (r: seq<Group>)
    requires forall k | k in order :: k in groups
    ensures |r| == |order|
  {
    seq(|order|, i requires 0 <= i < |order| => groups[order[i]])
  }

  function SumCounts(gs: seq<Group>): nat {
    if gs == [] then 0 else SumCounts(gs[..|gs| - 1]) + gs[|gs| - 1].count
  }

  lemma {:induction false} RowsCount(alerts: seq<Alert>, order: seq<string>, groups: map<string, Group>)
    requires forall k | k in order :: k in groups && groups[k].count == |Members(alerts, k)|
    ensures SumCounts(Rows(order, groups)) == TotalMembers(alerts, order)
  {
    if order != [] {
      RowsCount(alerts, order[..|order| - 1], groups);
      assert Rows(order, groups)[..|order| - 1] == Rows(order[..|order| - 1], groups);
    }
  }

  lemma {:induction false} PlaceKeepsSum(gs: seq<Group>, g: Group)
    ensures SumCounts(Place(gs, g)) == SumCounts(gs) + g.count && |Place(gs, g)| == |gs| + 1
  {
    if gs != [] && !RankOf(gs[|gs| - 1]).AtLeast(RankOf(g)) {
      var p := Place(gs[..|gs| - 1], g);
      PlaceKeepsSum(gs[..|gs| - 1], g);
      assert (p + [gs[|gs| - 1]])[..|p|] == p;
    } else {
      assert (gs + [g])[..|gs|] == gs;
    }
  }

  lemma {:induction false} RankedKeepsSum(gs: seq<Group>)
    ensures SumCounts(Ranked(gs)) == SumCounts(gs) && |Ranked(gs)| == |gs|
  {
    if gs != [] {
      RankedKeepsSum(gs[..|gs| - 1]);
      PlaceKeepsSum(Ranked(gs[..|gs| - 1]), gs[|gs| - 1]);
    }
  }

  /** What the dashboard is given for these alerts: `p` lists, best first and at most ten, rows that tell exactly of
      the recent alerts of each key, and its totals are conserved. */
  predicate Reports(p: Payload, gs: seq<Group>, recent: seq<Alert>, now: real, c: Settings) {
    && |gs| == |KeysSeen(recent)|
    && (forall i | 0 <= i < |gs| :: gs[i].key == KeysSeen(recent)[i] && Tells(gs[i], Members(recent, gs[i].key)))
    && p.groupCount == |gs|
    && p.suppressedTotal == |recent| - |gs|
    && p.groups == Top(Summaries(Ranked(gs), now, c))
    && p.escalations == Top(Escalated(Summaries(Ranked(gs), now, c)))
  }

  /** The loop over the ranked rows. */
  method Summarise(items: seq<Group>, now: real, c: Settings)
    returns (summaries: seq<Summary>, escalations: seq<Summary>, suppressedTotal: nat)
    requires forall i | 0 <= i < |items| :: items[i].count > 0
    ensures summaries == Summaries(items, now, c) && escalations == Escalated(summaries)
    ensures suppressedTotal + |items| == SumCounts(items)
  {
    summaries, escalations, suppressedTotal := [], [], 0;
    for i := 0 to |items|
      invariant summaries == Summaries(items[..i], now, c)
      invariant escalations == Escalated(summaries)
      invariant suppressedTotal + i == SumCounts(items[..i])
    {
      var s := SummaryOf(items[i], now, c);
      assert items[..i + 1][..i] == items[..i];
      assert (summaries + [s])[..i] == summaries;
      suppressedTotal := suppressedTotal + s.suppressed;
      summaries := summaries + [s];
      if s.escalated { escalations := escalations + [s]; }
    }
    assert items[..|items|] == items;
  }

  /** Also returns the unranked rows the payload was made from. */
  method Aggregate(alerts: seq<Alert>, now: real, c: Settings) returns (p: Payload, gs: seq<Group>)
    ensures Reports(p, gs, Recent(alerts, now, c.Window()), now, c)
  {
    hide Tells, Key, Ranked, IdentityOf, Recent, Members, KeysSeen, Summaries, Escalated, SumCounts, Top;
    var order, groups := GroupAlerts(alerts, now, c.Window());
    gs := Rows(order, groups);
    var items := Ranked(gs);
    RowsAreSound(Recent(alerts, now, c.Window()), order, groups);
    RankedKeepsSum(gs);
    forall i | 0 <= i < |items| ensures items[i].count > 0 { AllCounted(gs, i); }
    var summaries, escalations, suppressedTotal := Summarise(items, now, c);
    p := Payload(|summaries|, suppressedTotal, Top(summaries), Top(escalations));
  }

  lemma AllCounted(rows: seq<Group>, i: nat)
    requires i < |Ranked(rows)| && forall j | 0 <= j < |rows| :: rows[j].count > 0
    ensures Ranked(rows)[i].count > 0
  {
    RankedIsSorted(rows);
    assert Ranked(rows)[i] in multiset(rows);
  }

  lemma RowsAreSound(recent: seq<Alert>, order: seq<string>, groups: map<string, Group>)
    requires Dictionary(order, groups, recent)
    ensures SumCounts(Rows(order, groups)) == |recent|
    ensures forall j | 0 <= j < |order| :: Rows(order, groups)[j].count > 0
  {
    hide Key, IdentityOf, Tells, Members, KeysSeen;
    KeysSeenDistinct(recent);
    forall k | k in groups ensures groups[k].count == |Members(recent, k)| > 0 { TellsCount(groups[k], Members(recent, k)); }
    forall i | 0 <= i < |recent| ensures Key(recent[i]) in order { UnseenHasNoMembers(recent, Key(recent[i])); }
    GroupsPartition(recent, order);
    RowsCount(recent, order, groups);
  }

  lemma TellsCount(g: Group, ms: seq<Alert>)
    requires Tells(g, ms)
    ensures g.count == |ms| > 0
  {
  }

  // ---- theorems over two arrival orders ------------------------------------------------------------

  lemma KeysPermute(a: seq<Alert>, b: seq<Alert>)
    requires multiset(a) == multiset(b)
    ensures multiset(KeysSeen(a)) == multiset(KeysSeen(b))
  {
    hide Key, KeysSeen;
    KeysSeenDistinct(a);
    KeysSeenDistinct(b);
    SameElements(a, b);
    SameElements(b, a);
    forall k ensures multiset(KeysSeen(a))[k] == multiset(KeysSeen(b))[k] {
      UnseenHasNoMembers(a, k);
      UnseenHasNoMembers(b, k);
      DistinctCount(KeysSeen(a), k);
      DistinctCount(KeysSeen(b), k);
    }
  }

  lemma {:induction false} DistinctCount(ks: seq<string>, k: string)
    requires Distinct(ks)
    ensures multiset(ks)[k] == if k in ks then 1 else 0
  {
    if ks != [] {
      DistinctCount(ks[..|ks| - 1], k);
      assert ks == ks[..|ks| - 1] + [ks[|ks| - 1]];
    }
  }

  predicate SameStats(g: Group, h: Group) {
    g.key == h.key && g.count == h.count && g.first == h.first && g.last == h.last && g.riskMax == h.riskMax
  }

  predicate HasTwin(g: Group, hs: seq<Group>) { exists j :: 0 <= j < |hs| && SameStats(g, hs[j]) }

  /** Per group: whatever order the same alerts arrive in, the same keys appear, and the rows of a key agree on
      count, first and last time and risk maximum. */
  lemma GroupsIgnoreOrder(p: Payload, gs: seq<Group>, a: seq<Alert>, q: Payload, hs: seq<Group>, b: seq<Alert>,
      now: real, c: Settings)
    requires multiset(a) == multiset(b)
    requires Reports(p, gs, Recent(a, now, c.Window()), now, c) && Reports(q, hs, Recent(b, now, c.Window()), now, c)
    ensures p.groupCount == q.groupCount && p.suppressedTotal == q.suppressedTotal
    ensures forall i | 0 <= i < |gs| :: HasTwin(gs[i], hs)
  {
    hide Tells, Key, Ranked, KeysSeen, Members, Recent;
    var ra, rb := Recent(a, now, c.Window()), Recent(b, now, c.Window());
    RecentPermutes(a, b, now, c.Window());
    KeysPermute(ra, rb);
    SameSize(ra, rb);
    SameSize(KeysSeen(ra), KeysSeen(rb));
    SameElements(KeysSeen(ra), KeysSeen(rb));
    forall i | 0 <= i < |gs| ensures HasTwin(gs[i], hs) {
      var j :| 0 <= j < |hs| && KeysSeen(rb)[j] == KeysSeen(ra)[i];
      MembersPermute(ra, rb, gs[i].key);
      TellingIsUnique(gs[i], Members(ra, gs[i].key), hs[j], Members(rb, hs[j].key));
      assert SameStats(gs[i], hs[j]);
    }
  }

  /** Rows whose keys are permuted and whose ranks depend only on the key have permuted ranks. */
  lemma {:induction false} RanksPermute(gs: seq<Group>, hs: seq<Group>)
    requires |gs| == |hs|
    requires forall i, j | 0 <= i < j < |gs| :: gs[i].key != gs[j].key
    requires forall i | 0 <= i < |gs| :: HasTwin(gs[i], hs)
    ensures multiset(Ranks(gs)) == multiset(Ranks(hs))
  {
    if gs == [] {
      assert Ranks(gs) == [] == Ranks(hs);
    } else {
      var n := |gs| - 1;
      assert HasTwin(gs[n], hs);
      var j :| 0 <= j < |hs| && SameStats(gs[n], hs[j]);
      var rest := hs[..j] + hs[j + 1..];
      forall i | 0 <= i < n ensures HasTwin(gs[..n][i], rest) {
        assert HasTwin(gs[i], hs);
        var m :| 0 <= m < |hs| && SameStats(gs[i], hs[m]);
        assert rest[if m < j then m else m - 1] == hs[m];
      }
      RanksPermute(gs[..n], rest);
      assert Ranks(gs) == Ranks(gs[..n]) + [RankOf(gs[n])];
      assert Ranks(hs) == Ranks(hs[..j]) + [RankOf(hs[j])] + Ranks(hs[j + 1..]);
      assert Ranks(rest) == Ranks(hs[..j]) + Ranks(hs[j + 1..]);
    }
  }

  lemma {:induction false} PlacePermutesRanks(gs: seq<Group>, g: Group)
    ensures multiset(Ranks(Place(gs, g))) == multiset(Ranks(gs)) + multiset{RankOf(g)}
  {
    if gs != [] && !RankOf(gs[|gs| - 1]).AtLeast(RankOf(g)) {
      var front, z := gs[..|gs| - 1], gs[|gs| - 1];
      PlacePermutesRanks(front, g);
      assert Ranks(Place(front, g) + [z]) == Ranks(Place(front, g)) + [RankOf(z)];
      assert Ranks(gs) == Ranks(front) + [RankOf(z)];
    } else {
      assert Ranks(gs + [g]) == Ranks(gs) + [RankOf(g)];
    }
  }

  lemma {:induction false} RankedPermutesRanks(gs: seq<Group>)
    ensures multiset(Ranks(Ranked(gs))) == multiset(Ranks(gs))
  {
    if gs != [] {
      var n := |gs| - 1;
      RankedPermutesRanks(gs[..n]);
      PlacePermutesRanks(Ranked(gs[..n]), gs[n]);
      assert Ranks(gs) == Ranks(gs[..n]) + [RankOf(gs[n])];
    }
  }

  function SummaryRanks(ss: seq<Summary>): (r: seq<Rank>)
    ensures |r| == |ss|
  {
    seq(|ss|, i requires 0 <= i < |ss| => RankOf(ss[i].group))
  }

  /** Equal rank lists escalate at equal places. */
  lemma {:induction false} EscalatedFollowsRank(gs: seq<Group>, hs: seq<Group>, now: real, c: Settings)
    requires Ranks(gs) == Ranks(hs)
    ensures SummaryRanks(Escalated(Summaries(gs, now, c))) == SummaryRanks(Escalated(Summaries(hs, now, c)))
  {
    assert |gs| == |Ranks(gs)| == |hs|;
    if gs != [] {
      var n := |gs| - 1;
      var fs, ft := Summaries(gs, now, c), Summaries(hs, now, c);
      assert Ranks(gs[..n]) == Ranks(gs)[..n] == Ranks(hs)[..n] == Ranks(hs[..n]);
      EscalatedFollowsRank(gs[..n], hs[..n], now, c);
      assert fs[..n] == Summaries(gs[..n], now, c) && ft[..n] == Summaries(hs[..n], now, c);
      assert Ranks(gs)[n] == Ranks(hs)[n];
      assert fs[n].escalated == ft[n].escalated;
      var es, et := Escalated(fs[..n]), Escalated(ft[..n]);
      assert Escalated(fs) == if fs[n].escalated then es + [fs[n]] else es;
      assert Escalated(ft) == if ft[n].escalated then et + [ft[n]] else et;
      assert SummaryRanks(es + [fs[n]]) == SummaryRanks(es) + [RankOf(gs[n])];
      assert SummaryRanks(et + [ft[n]]) == SummaryRanks(et) + [RankOf(hs[n])];
    }
  }

  lemma TopRanks(ss: seq<Summary>, ts: seq<Summary>)
    requires SummaryRanks(ss) == SummaryRanks(ts)
    ensures SummaryRanks(Top(ss)) == SummaryRanks(Top(ts))
  {
    assert |ss| == |SummaryRanks(ss)| == |ts|;
    assert SummaryRanks(Top(ss)) == Top(SummaryRanks(ss));
    assert SummaryRanks(Top(ts)) == Top(SummaryRanks(ts));
  }

  /** On the page: the counts and risks of the rows shown, and of the escalations shown, are the same lists for
      every order of arrival; only rows of equal rank can change places. */
  lemma PageIgnoresOrder(p: Payload, gs: seq<Group>, a: seq<Alert>, q: Payload, hs: seq<Group>, b: seq<Alert>,
      now: real, c: Settings)
    requires multiset(a) == multiset(b)
    requires Reports(p, gs, Recent(a, now, c.Window()), now, c) && Reports(q, hs, Recent(b, now, c.Window()), now, c)
    ensures SummaryRanks(p.groups) == SummaryRanks(q.groups)
    ensures SummaryRanks(p.escalations) == SummaryRanks(q.escalations)
  {
    hide Tells, Key, Ranked, KeysSeen, Members, Recent, Escalated, SameStats;
    GroupsIgnoreOrder(p, gs, a, q, hs, b, now, c);
    KeysSeenDistinct(Recent(a, now, c.Window()));
    RanksPermute(gs, hs);
    RankedIsSorted(gs);
    RankedIsSorted(hs);
    RankedPermutesRanks(gs);
    RankedPermutesRanks(hs);
    DescendingIsUnique(Ranks(Ranked(gs)), Ranks(Ranked(hs)));
    EscalatedFollowsRank(Ranked(gs), Ranked(hs), now, c);
    assert SummaryRanks(Summaries(Ranked(gs), now, c)) == Ranks(Ranked(gs));
    assert SummaryRanks(Summaries(Ranked(hs), now, c)) == Ranks(Ranked(hs));
    TopRanks(Summaries(Ranked(gs), now, c), Summaries(Ranked(hs), now, c));
    TopRanks(Escalated(Summaries(Ranked(gs), now, c)), Escalated(Summaries(Ranked(hs), now, c)));
  }

  /** An alert without a movable bar shares its group with alerts of its own identity only. */
  lemma GroupIsHomogeneous(recent: seq<Alert>, k: string, x: Alert, y: Alert)
    requires !MovableBar(IdentityOf(x)) && x in Members(recent, k) && y in Members(recent, k)
    ensures IdentityOf(x) == IdentityOf(y)
  {
    hide Key, IdentityOf, MovableBar;
    assert x in multiset(Members(recent, k)) && y in multiset(Members(recent, k));
    MembersCount(recent, k, x);
    MembersCount(recent, k, y);
    KeyIsAmbiguousIff(x);
  }

  // ---- which alerts count, and which rows are shown ------------------------------------------------

  /** An alert counts, as often as it is listed, exactly when its time is positive and at most 30 seconds, the
      suppression window or the aggregation window ago. */
  lemma RecentIs(alerts: seq<Alert>, now: real, c: Settings, x: Alert)
    ensures multiset(Recent(alerts, now, c.Window()))[x] ==
      if x.ts > 0.0 && (now - x.ts <= 30.0 || now - x.ts <= c.suppression as real || now - x.ts <= c.aggregation as real)
      then multiset(alerts)[x]
      else 0
  {
    RecentCounts(alerts, now, c.Window(), x);
  }

  function GroupsOf(ss: seq<Summary>): (gs: seq<Group>)
    ensures |gs| == |ss|
  {
    seq(|ss|, i requires 0 <= i < |ss| => ss[i].group)
  }

  /** The rows that are to be escalated. */
  function Pressing(gs: seq<Group>, c: Settings): seq<Group> {
    if gs == [] then []
    else
      var g := gs[|gs| - 1];
      Pressing(gs[..|gs| - 1], c)
      + (if (g.count >= 2 && g.count >= c.escalationCount) || g.riskMax >= c.escalationRisk then [g] else [])
  }

  lemma {:induction false} PressingCounts(gs: seq<Group>, c: Settings, x: Group)
    ensures multiset(Pressing(gs, c))[x] ==
      if (x.count >= 2 && x.count >= c.escalationCount) || x.riskMax >= c.escalationRisk then multiset(gs)[x] else 0
  {
    if gs != [] {
      PressingCounts(gs[..|gs| - 1], c, x);
      assert gs == gs[..|gs| - 1] + [gs[|gs| - 1]];
    }
  }

  lemma PressingPermutes(a: seq<Group>, b: seq<Group>, c: Settings)
    requires multiset(a) == multiset(b)
    ensures multiset(Pressing(a, c)) == multiset(Pressing(b, c))
  {
    forall x ensures multiset(Pressing(a, c))[x] == multiset(Pressing(b, c))[x] {
      PressingCounts(a, c, x);
      PressingCounts(b, c, x);
    }
  }

  lemma {:induction false} EscalatedArePressing(gs: seq<Group>, now: real, c: Settings)
    ensures GroupsOf(Escalated(Summaries(gs, now, c))) == Pressing(gs, c)
  {
    if gs != [] {
      var n := |gs| - 1;
      EscalatedArePressing(gs[..n], now, c);
      var ss := Summaries(gs, now, c);
      assert ss[..n] == Summaries(gs[..n], now, c);
      var es := Escalated(ss[..n]);
      assert GroupsOf(es + [ss[n]]) == GroupsOf(es) + [gs[n]];
    }
  }

  lemma {:induction false} PressingDescends(gs: seq<Group>, c: Settings)
    requires Descending(Ranks(gs))
    ensures Descending(Ranks(Pressing(gs, c)))
    ensures forall g | g in Pressing(gs, c) :: g in gs
  {
    if gs != [] {
      var n := |gs| - 1;
      assert forall i | 0 <= i < n :: Ranks(gs[..n])[i] == Ranks(gs)[i];
      PressingDescends(gs[..n], c);
      var front := Pressing(gs[..n], c);
      forall i | 0 <= i < |front| ensures RankOf(front[i]).AtLeast(RankOf(gs[n])) {
        assert front[i] in gs[..n];
        var j :| 0 <= j < n && gs[j] == front[i];
        assert Ranks(gs)[j].AtLeast(Ranks(gs)[n]);
      }
      forall i, j | 0 <= i < j < |front + [gs[n]]|
        ensures Ranks(front + [gs[n]])[i].AtLeast(Ranks(front + [gs[n]])[j])
      {
        if j < |front| { assert Ranks(front)[i].AtLeast(Ranks(front)[j]); }
      }
      assert front + [] == front;
      assert Pressing(gs, c) == front || Pressing(gs, c) == front + [gs[n]];
    }
  }

  /** More alerts, or as many and no less risk. */
  predicate Outranks(g: Group, h: Group) { g.count > h.count || (g.count == h.count && g.riskMax >= h.riskMax) }

  /** The first ten of a descending list, and what is left out. */
  lemma TopIsBest(ss: seq<Summary>) returns (rest: seq<Group>)
    requires Descending(Ranks(GroupsOf(ss)))
    ensures |Top(ss)| == if |ss| < 10 then |ss| else 10
    ensures multiset(GroupsOf(Top(ss))) + multiset(rest) == multiset(GroupsOf(ss))
    ensures forall i, h | 0 <= i < |Top(ss)| && h in rest :: Outranks(Top(ss)[i].group, h)
    ensures forall i, j | 0 <= i < j < |Top(ss)| :: Outranks(Top(ss)[i].group, Top(ss)[j].group)
  {
    var n := |Top(ss)|;
    var gs := GroupsOf(ss);
    rest := gs[n..];
    assert GroupsOf(Top(ss)) == gs[..n] && gs == gs[..n] + rest;
    forall i, h | 0 <= i < n && h in rest ensures Outranks(Top(ss)[i].group, h) {
      var k :| 0 <= k < |rest| && rest[k] == h;
      assert Ranks(gs)[i].AtLeast(Ranks(gs)[n + k]);
    }
    forall i, j | 0 <= i < j < n ensures Outranks(Top(ss)[i].group, Top(ss)[j].group) {
      assert Ranks(gs)[i].AtLeast(Ranks(gs)[j]);
    }
  }

  /** The page shows ten groups or all of them, best first, and every one shown outranks every one left out; the same
      for the groups to be escalated. */
  lemma PageShowsTheBest(p: Payload, gs: seq<Group>, recent: seq<Alert>, now: real, c: Settings)
    returns (rest: seq<Group>, unescalated: seq<Group>)
    requires Reports(p, gs, recent, now, c)
    ensures |p.groups| == if p.groupCount < 10 then p.groupCount else 10
    ensures multiset(GroupsOf(p.groups)) + multiset(rest) == multiset(gs)
    ensures forall i, h | 0 <= i < |p.groups| && h in rest :: Outranks(p.groups[i].group, h)
    ensures forall i, j | 0 <= i < j < |p.groups| :: Outranks(p.groups[i].group, p.groups[j].group)
    ensures |p.escalations| == if |Pressing(gs, c)| < 10 then |Pressing(gs, c)| else 10
    ensures multiset(GroupsOf(p.escalations)) + multiset(unescalated) == multiset(Pressing(gs, c))
    ensures forall i, h | 0 <= i < |p.escalations| && h in unescalated :: Outranks(p.escalations[i].group, h)
    ensures forall i, j | 0 <= i < j < |p.escalations| :: Outranks(p.escalations[i].group, p.escalations[j].group)
  {
    hide Tells, KeysSeen, Members, Ranked, Escalated, Pressing, Descending, Outranks, Top;
    var ranked := Ranked(gs);
    var ss := Summaries(ranked, now, c);
    RankedIsSorted(gs);
    RankedKeepsSum(gs);
    assert GroupsOf(ss) == ranked;
    rest := TopIsBest(ss);
    EscalatedArePressing(ranked, now, c);
    PressingDescends(ranked, c);
    PressingPermutes(ranked, gs, c);
    SameSize(Pressing(ranked, c), Pressing(gs, c));
    unescalated := TopIsBest(Escalated(ss));
  }
}
