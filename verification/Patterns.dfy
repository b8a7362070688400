/** The regular expressions of the receipt projection, written as such, and the proof that the text checks of `Json` are
    what they match. */
module Patterns {
  import opened Json

  /** `cls{lo,hi}`, a literal text, one after the other, and `(...)?`. */
  datatype Re = Chars(cls: char -> bool, lo: nat, hi: nat) | Word(text: string) | Then(a: Re, b: Re) | Maybe(r: Re)

  predicate Matches(r: Re, s: string) {
    match r
    case Chars(cls, lo, hi) => lo <= |s| <= hi && forall i | 0 <= i < |s| :: cls(s[i])
    case Word(text) => s == text
    case Then(a, b) => exists k | 0 <= k <= |s| :: Matches(a, s[..k]) && Matches(b, s[k..])
    case Maybe(q) => s == "" || Matches(q, s)
  }

  const DIGIT := (c: char) => '0' <= c <= '9'
  const LOWER := (c: char) => 'a' <= c <= 'z'
  const ALNUM := (c: char) => 'A' <= c <= 'Z' || 'a' <= c <= 'z' || '0' <= c <= '9'

  function PointDigits(lo: nat, hi: nat): Re { Then(Word("."), Chars(DIGIT, lo, hi)) }

  function Regex(p: Pattern): Re {
    match p
    case Identifier =>
      Chars((c: char) => 'A' <= c <= 'Z' || 'a' <= c <= 'z' || '0' <= c <= '9' || c in {'.', '_', ':', '-'}, 1, 96)
    case EventKeyText => Chars((c: char) => 'a' <= c <= 'f' || '0' <= c <= '9', 24, 24)
    case Technique => Then(Word("T"), Then(Chars(DIGIT, 4, 4), Maybe(PointDigits(3, 3))))
    case SourceGroup => Then(Chars(LOWER, 1, 1), Chars((c: char) => 'a' <= c <= 'z' || '0' <= c <= '9' || c in {'_', '-'}, 0, 31))
    case Version => Then(Chars(DIGIT, 1, 3), Maybe(Then(PointDigits(1, 3), Maybe(PointDigits(1, 3)))))
    case Label =>
      Then(Chars(ALNUM, 1, 1),
           Chars((c: char) => 'A' <= c <= 'Z' || 'a' <= c <= 'z' || '0' <= c <= '9'
                              || c in {' ', '.', '_', ':', '/', '+', '(', ')', '[', ']', '-'}, 0, 95))
    case Timestamp => Chars((c: char) => '0' <= c <= '9' || c in {'T', 't', 'Z', 'z', ':', '+', '.', '-'}, 1, 32)
    case ProtocolText =>
      Chars((c: char) => 'A' <= c <= 'Z' || 'a' <= c <= 'z' || '0' <= c <= '9'
                         || c in {'.', '_', ':', '/', '+', '(', ')', '-'}, 0, 16)
    case FailureReason =>
      Then(Word("mio_failure:"), Chars((c: char) => 'A' <= c <= 'Z' || 'a' <= c <= 'z' || '0' <= c <= '9' || c == '_', 1, 48))
  }

  /** Every text check admits exactly what its regular expression matches. */
  lemma PatternIs(p: Pattern, s: string)
    ensures FullMatch(p, s) <==> Matches(Regex(p), s)
  {
    match p
    case Technique => TechniqueIs(s);
    case SourceGroup => SourceGroupIs(s);
    case Version => VersionIs(s);
    case Label => LabelIs(s);
    case FailureReason => FailureReasonIs(s);
    case _ =>
  }

  /** A sequence matches when its first part matches up to some point and the rest from there. */
  lemma SplitAt(a: Re, b: Re, s: string, k: nat)
    requires k <= |s| && Matches(a, s[..k]) && Matches(b, s[k..])
    ensures Matches(Then(a, b), s)
  {
  }

  lemma PointDigitsIs(s: string, lo: nat, hi: nat)
    ensures Matches(PointDigits(lo, hi), s) <==> s != "" && s[0] == '.' && lo <= |s| - 1 <= hi && Digits(s[1..])
  {
    if Matches(PointDigits(lo, hi), s) {
      var k :| 0 <= k <= |s| && Matches(Word("."), s[..k]) && Matches(Chars(DIGIT, lo, hi), s[k..]);
      assert k == 1 && s[0] == s[..k][0] == '.';
    }
    if s != "" && s[0] == '.' && lo <= |s| - 1 <= hi && Digits(s[1..]) {
      assert s[..1] == ".";
      SplitAt(Word("."), Chars(DIGIT, lo, hi), s, 1);
    }
  }

  function TechniqueNumber(): Re { Then(Chars(DIGIT, 4, 4), Maybe(PointDigits(3, 3))) }

  predicate IsNumber(t: string) {
    (|t| == 4 || |t| == 8) && Digits(t[..4]) && (|t| == 8 ==> t[4] == '.' && Digits(t[5..]))
  }

  lemma NumberMatches(t: string)
    requires IsNumber(t)
    ensures Matches(TechniqueNumber(), t)
  {
    if |t| == 8 {
      assert t[4..][1..] == t[5..];
      PointDigitsIs(t[4..], 3, 3);
    }
    hide PointDigits;
    SplitAt(Chars(DIGIT, 4, 4), Maybe(PointDigits(3, 3)), t, 4);
  }

  lemma MatchedNumber(t: string)
    requires Matches(TechniqueNumber(), t)
    ensures IsNumber(t)
  {
    hide PointDigits;
    var k :| 0 <= k <= |t| && Matches(Chars(DIGIT, 4, 4), t[..k]) && Matches(Maybe(PointDigits(3, 3)), t[k..]);
    if t[k..] != "" {
      PointDigitsIs(t[k..], 3, 3);
      assert t[4..][1..] == t[5..];
    }
  }

  lemma TechniqueIs(s: string)
    ensures IsTechnique(s) <==> Matches(Regex(Technique), s)
  {
    var word, number := Word("T"), TechniqueNumber();
    assert Regex(Technique) == Then(word, number);
    hide TechniqueNumber;
    if Matches(Then(word, number), s) {
      var k :| 0 <= k <= |s| && Matches(word, s[..k]) && Matches(number, s[k..]);
      assert k == 1 && s[0] == s[..k][0] == 'T';
      MatchedNumber(s[1..]);
      NumberOf(s);
    }
    if IsTechnique(s) {
      NumberOf(s);
      NumberMatches(s[1..]);
      assert s[..1] == "T";
      SplitAt(word, number, s, 1);
    }
  }

  lemma NumberOf(s: string)
    requires s != "" && s[0] == 'T'
    ensures IsTechnique(s) <==> IsNumber(s[1..])
  {
    var t := s[1..];
    if |s| >= 5 { assert t[..4] == s[1..5]; }
    if |s| == 9 { assert t[5..] == s[6..]; }
    hide Digits;
  }

  lemma SourceGroupIs(s: string)
    ensures IsSourceGroup(s) <==> Matches(Regex(SourceGroup), s)
  {
    var r := Regex(SourceGroup);
    if Matches(r, s) {
      var k :| 0 <= k <= |s| && Matches(r.a, s[..k]) && Matches(r.b, s[k..]);
      assert s[0] == s[..k][0];
      forall i | 1 <= i < |s| ensures r.b.cls(s[i]) { assert s[i] == s[k..][i - 1]; }
    }
    if IsSourceGroup(s) { SplitAt(r.a, r.b, s, 1); }
  }

  lemma LabelIs(s: string)
    ensures IsSourceLabel(s) <==> Matches(Regex(Label), s)
  {
    var r := Regex(Label);
    if Matches(r, s) {
      var k :| 0 <= k <= |s| && Matches(r.a, s[..k]) && Matches(r.b, s[k..]);
      assert s[0] == s[..k][0];
      forall i | 1 <= i < |s| ensures r.b.cls(s[i]) { assert s[i] == s[k..][i - 1]; }
    }
    if IsSourceLabel(s) { SplitAt(r.a, r.b, s, 1); }
  }

  lemma FailureReasonIs(s: string)
    ensures IsFailureReason(s) <==> Matches(Regex(FailureReason), s)
  {
    var r := Regex(FailureReason);
    assert |"mio_failure:"| == 12;
    if Matches(r, s) {
      var k :| 0 <= k <= |s| && Matches(r.a, s[..k]) && Matches(r.b, s[k..]);
      assert k == 12;
      forall i | 12 <= i < |s| ensures r.b.cls(s[i]) { assert s[i] == s[k..][i - 12]; }
    }
    if IsFailureReason(s) { SplitAt(r.a, r.b, s, 12); }
  }

  lemma NoMoreParts(s: string)
    ensures VersionParts(s, 0) <==> 1 <= |s| <= 3 && Digits(s)
  {
    assert s[..|s|] == s;
    if 1 <= |s| <= 3 && Digits(s) { assert Digits(s[..|s|]); }
  }

  /** One more part: digits, then nothing or a point and the rest. */
  lemma PartsUnfold(s: string, more: nat)
    requires more > 0
    ensures VersionParts(s, more) <==>
      exists k | 1 <= k <= 3 :: k <= |s| && Digits(s[..k]) && (k == |s| || (s[k] == '.' && VersionParts(s[k + 1..], more - 1)))
  {
  }

  /** A part with its point in front. */
  lemma PointPart(t: string)
    ensures t != "" ==> (Matches(PointDigits(1, 3), t) <==> t[0] == '.' && VersionParts(t[1..], 0))
  {
    if t != "" {
      PointDigitsIs(t, 1, 3);
      NoMoreParts(t[1..]);
    }
  }

  lemma TwoPointParts(t: string)
    ensures t != "" ==>
      (Matches(Then(PointDigits(1, 3), Maybe(PointDigits(1, 3))), t) <==> t[0] == '.' && VersionParts(t[1..], 1))
  {
    hide VersionParts, Matches, PointDigits;
    if t != "" {
      if Matches(Then(PointDigits(1, 3), Maybe(PointDigits(1, 3))), t) { MatchedParts(t); }
      if t[0] == '.' && VersionParts(t[1..], 1) { PartsMatch(t); }
    }
  }

  lemma MatchedParts(t: string)
    requires t != "" && Matches(Then(PointDigits(1, 3), Maybe(PointDigits(1, 3))), t)
    ensures t[0] == '.' && VersionParts(t[1..], 1)
  {
    var one, last := PointDigits(1, 3), Maybe(PointDigits(1, 3));
    var k :| 0 <= k <= |t| && Matches(one, t[..k]) && Matches(last, t[k..]);
    hide PointDigits;
    PointDigitsIs(t[..k], 1, 3);
    var n := k - 1;
    assert t[..k][1..] == t[1..][..n];
    if t[k..] != "" {
      PointPart(t[k..]);
      assert t[k..][1..] == t[1..][n + 1..] && t[1..][n] == t[k];
    }
    assert VersionParts(t[1..], 1);
  }

  lemma PartsMatch(t: string)
    requires t != "" && t[0] == '.' && VersionParts(t[1..], 1)
    ensures Matches(Then(PointDigits(1, 3), Maybe(PointDigits(1, 3))), t)
  {
    hide PointDigits;
    var one, last, u := PointDigits(1, 3), Maybe(PointDigits(1, 3)), t[1..];
    var n :| 1 <= n <= 3 && n <= |u| && Digits(u[..n]) && (n == |u| || (u[n] == '.' && VersionParts(u[n + 1..], 0)));
    PointDigitsIs(t[..n + 1], 1, 3);
    assert t[..n + 1][1..] == u[..n];
    if n < |u| {
      PointPart(t[n + 1..]);
      assert t[n + 1..][1..] == u[n + 1..];
    }
    SplitAt(one, last, t, n + 1);
  }

  lemma VersionIs(s: string)
    ensures IsAttackVersion(s) <==> Matches(Regex(Version), s)
  {
    var r := Regex(Version);
    if Matches(r, s) {
      var k :| 0 <= k <= |s| && Matches(r.a, s[..k]) && Matches(r.b, s[k..]);
      TwoPointParts(s[k..]);
      assert k < |s| ==> s[k..][1..] == s[k + 1..] && s[k..][0] == s[k];
      assert Digits(s[..k]);
    }
    if VersionParts(s, 2) {
      var k :| 1 <= k <= 3 && k <= |s| && Digits(s[..k]) && (k == |s| || (s[k] == '.' && VersionParts(s[k + 1..], 1)));
      TwoPointParts(s[k..]);
      assert k < |s| ==> s[k..][1..] == s[k + 1..];
      SplitAt(r.a, r.b, s, k);
    }
  }

  // ---- text that may be shown ----------------------------------------------------------------------

  /** `[^\x00-\x08\x0b\x0c\x0e-\x1f\x7f]` */
  predicate Forbidden(c: char) {
    '\0' <= c <= '\U{8}' || c == '\U{B}' || c == '\U{C}' || '\U{E}' <= c <= '\U{1F}' || c == '\U{7F}'
  }

  lemma SafeTextIs(s: string)
    ensures SafeText(s) <==> forall c | c in s :: !Forbidden(c)
    ensures forall c | c in s && c < ' ' && SafeText(s) :: c in {'\t', '\n', '\r'}
  {
    if SafeText(s) {
      forall c | c in s ensures !Forbidden(c) { var i :| 0 <= i < |s| && s[i] == c; assert SafeChar(s[i]); }
    }
    if forall c | c in s :: !Forbidden(c) {
      forall i | 0 <= i < |s| ensures SafeChar(s[i]) { assert s[i] in s; }
    }
  }
}
