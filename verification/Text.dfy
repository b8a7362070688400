/** Python string helpers shared by the models. Case folding is that of ASCII. */
module Text {

  /** Python's `str.isspace`. */
  predicate IsSpace(c: char) {
    || '\t' <= c <= '\r' || '\U{1C}' <= c <= ' ' || c == '\U{85}' || c == '\U{A0}' || c == '\U{1680}'
    || '\U{2000}' <= c <= '\U{200A}' || c in {'\U{2028}', '\U{2029}', '\U{202F}', '\U{205F}', '\U{3000}'}
  }

  /** `str.strip` */
  function Strip(s: string): string {
    if s != "" && IsSpace(s[0]) then Strip(s[1..])
    else if s != "" && IsSpace(s[|s| - 1]) then Strip(s[..|s| - 1])
    else s
  }

  function LowerChar(c: char): char { if 'A' <= c <= 'Z' then c - 'A' + 'a' else c }

  function UpperChar(c: char): char { if 'a' <= c <= 'z' then c - 'a' + 'A' else c }

  function Lower(s: string): string { seq(|s|, i requires 0 <= i < |s| => LowerChar(s[i])) }

  function Upper(s: string): string { seq(|s|, i requires 0 <= i < |s| => UpperChar(s[i])) }

  /** No space at either end. */
  predicate Tight(s: string) { s != "" ==> !IsSpace(s[0]) && !IsSpace(s[|s| - 1]) }

  lemma {:induction false} StripIsTight(s: string)
    ensures Tight(Strip(s)) && |Strip(s)| <= |s|
    decreases |s|
  {
    if s != "" && IsSpace(s[0]) { StripIsTight(s[1..]); }
    else if s != "" && IsSpace(s[|s| - 1]) { StripIsTight(s[..|s| - 1]); }
  }

  lemma TightIsStripped(s: string)
    requires Tight(s)
    ensures Strip(s) == s
  {
  }

  lemma CaseKeepsTight(s: string)
    ensures Tight(s) <==> Tight(Upper(s))
    ensures Tight(s) <==> Tight(Lower(s))
  {
  }

  lemma CaseTwice(s: string)
    ensures Upper(Upper(s)) == Upper(s) && Lower(Lower(s)) == Lower(s)
  {
  }

  /** Stripping cuts spaces at the two ends, all of them and nothing else. */
  lemma {:induction false} StripMeans(s: string) returns (from: nat, to: nat)
    ensures from <= to <= |s| && Strip(s) == s[from..to] && Tight(Strip(s))
    ensures forall i | 0 <= i < |s| && (i < from || to <= i) :: IsSpace(s[i])
    decreases |s|
  {
    StripIsTight(s);
    hide IsSpace;
    if s != "" && IsSpace(s[0]) {
      from, to := StripMeans(s[1..]);
      from, to := from + 1, to + 1;
      assert s[1..][from - 1..to - 1] == s[from..to];
      assert forall i | 1 <= i < |s| :: s[i] == s[1..][i - 1];
    } else if s != "" && IsSpace(s[|s| - 1]) {
      from, to := StripMeans(s[..|s| - 1]);
      assert s[..|s| - 1][from..to] == s[from..to];
      assert forall i | 0 <= i < |s| - 1 :: s[i] == s[..|s| - 1][i];
    } else {
      from, to := 0, |s|;
      assert s[0..|s|] == s;
    }
  }

  /** The letters a to z and A to Z change into each other; nothing else changes. */
  lemma CaseMeans(c: char)
    ensures 'a' <= c <= 'z' ==> LowerChar(UpperChar(c)) == c && 'A' <= UpperChar(c) <= 'Z' && LowerChar(c) == c
    ensures 'A' <= c <= 'Z' ==> UpperChar(LowerChar(c)) == c && 'a' <= LowerChar(c) <= 'z' && UpperChar(c) == c
    ensures !('a' <= c <= 'z') && !('A' <= c <= 'Z') ==> LowerChar(c) == c == UpperChar(c)
    ensures 'a' <= c <= 'z' ==> UpperChar(c) as int - 'A' as int == c as int - 'a' as int
  {
  }

  /** The spaces of Python, by code point. */
  lemma SpacesAre(c: char)
    ensures IsSpace(c) <==>
      c as int in {9, 10, 11, 12, 13, 28, 29, 30, 31, 32, 133, 160, 5760, 8192, 8193, 8194, 8195, 8196, 8197, 8198, 8199, 8200,
                   8201, 8202, 8232, 8233, 8239, 8287, 12288}
  {
  }

  // ---- searching and decimal numerals -------------------------------------------------------------

  /** Where `c` first occurs; `|s|` if it does not. */
  function IndexOf(s: string, c: char): (i: nat)
    ensures i <= |s| && c !in s[..i] && (i < |s| ==> s[i] == c)
  {
    if s == "" || s[0] == c then 0
    else
      var j := IndexOf(s[1..], c);
      assert s[..j + 1] == [s[0]] + s[1..][..j];
      j + 1
  }

  predicate AllDigits(s: string) { s != "" && forall i | 0 <= i < |s| :: '0' <= s[i] <= '9' }

  function DecimalValue(s: string): nat
    requires forall i | 0 <= i < |s| :: '0' <= s[i] <= '9'
  {
    if s == "" then 0 else 10 * DecimalValue(s[..|s| - 1]) + (s[|s| - 1] - '0') as nat
  }

  function Digit(n: nat): char
    requires n < 10
  {
    '0' + n as char
  }

  function Decimal(n: nat): string {
    if n < 10 then [Digit(n)] else Decimal(n / 10) + [Digit(n % 10)]
  }

  lemma {:induction false} DecimalRoundTrip(n: nat)
    ensures AllDigits(Decimal(n)) && DecimalValue(Decimal(n)) == n
  {
    if n < 10 {
      assert Decimal(n)[..0] == "";
    } else {
      DecimalRoundTrip(n / 10);
      var s := Decimal(n);
      assert s[..|s| - 1] == Decimal(n / 10);
    }
  }
}
