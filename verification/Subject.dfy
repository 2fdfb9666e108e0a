/** Subject normalisation: the fallback thread key that lets a reply join its root. */
module Subject {
  import opened Models
  import opened Whitespace

  // ---- Trimming and collapsing whitespace ----

  ghost predicate Blank(s: string) {
    forall i | 0 <= i < |s| :: IsSpace(s[i])
  }

  function TrimLeft(s: string): string {
    if s != "" && IsSpace(s[0]) then TrimLeft(s[1..]) else s
  }

  function TrimRight(s: string): string {
    if s != "" && IsSpace(s[|s| - 1]) then TrimRight(s[..|s| - 1]) else s
  }

  /** Every run of whitespace becomes one space. */
  function Collapse(s: string): string
    decreases |s|
  {
    if s == "" then ""
    else if IsSpace(s[0]) then
      ShrinksLeft(s[1..]);
      [' '] + Collapse(TrimLeft(s[1..]))
    else [s[0]] + Collapse(s[1..])
  }

  function Tidy(s: string): string {
    TrimRight(TrimLeft(Collapse(s)))
  }

  lemma ShrinksLeft(s: string)
    ensures |TrimLeft(s)| <= |s|
  {
  }

  // ---- Reply markers ----

  predicate IsLetter(c: char, lower: char, upper: char) {
    c == lower || c == upper
  }

  /** The length of the reply word (re, fwd, fw in any case) `s` starts with, or zero. */
  function WordLength(s: string): nat
    ensures WordLength(s) <= |s|
  {
    if |s| >= 2 && IsLetter(s[0], 'r', 'R') && IsLetter(s[1], 'e', 'E') then 2
    else if |s| >= 3 && IsLetter(s[0], 'f', 'F') && IsLetter(s[1], 'w', 'W') && IsLetter(s[2], 'd', 'D') then 3
    else if |s| >= 2 && IsLetter(s[0], 'f', 'F') && IsLetter(s[1], 'w', 'W') then 2
    else 0
  }

  /** `s` starts with a reply word, whitespace, and a colon. */
  predicate StartsWithMarker(s: string) {
    WordLength(s) > 0 && var rest := TrimLeft(s[WordLength(s)..]); rest != "" && rest[0] == ':'
  }

  function AfterMarker(s: string): (rest: string)
    requires StartsWithMarker(s)
    ensures |rest| < |s|
  {
    var rest := TrimLeft(s[WordLength(s)..]);
    ShrinksLeft(s[WordLength(s)..]);
    ShrinksLeft(rest[1..]);
    TrimLeft(rest[1..])
  }

  function DropMarkers(s: string): string
    decreases |s|
  {
    if StartsWithMarker(s) then DropMarkers(AfterMarker(s)) else s
  }

  /** The leading markers and the whitespace before them go; without a marker nothing does. */
  function StripReplyPrefix(s: string): string {
    if StartsWithMarker(TrimLeft(s)) then DropMarkers(TrimLeft(s)) else s
  }

  function Normalize(subject: string): string {
    if subject == "" then "" else Tidy(StripReplyPrefix(subject))
  }

  /** The provider's thread id, or the normalised subject in lower case. */
  function ThreadKey(provided: string, subject: string, lower: string -> string): string {
    if provided != "" then provided else lower(Normalize(subject))
  }

  // ---- Prepending markers ----

  function LowerCase(word: string): string {
    seq(|word|, i requires 0 <= i < |word| =>
      if 'A' <= word[i] <= 'Z' then word[i] - 'A' + 'a' else word[i])
  }

  /** One marker as a mail client may write it. */
  datatype Marker = Marker(lead: string, word: string, gap: string, tail: string) {
    ghost predicate Valid() {
      Blank(lead) && Blank(gap) && Blank(tail) && LowerCase(word) in {"re", "fwd", "fw"}
    }

    function Text(): string {
      lead + word + gap + [':'] + tail
    }
  }

  function Render(markers: seq<Marker>): string {
    if markers == [] then "" else markers[0].Text() + Render(markers[1..])
  }

  lemma {:induction false} TrimPast(blank: string, s: string)
    requires Blank(blank)
    ensures TrimLeft(blank + s) == TrimLeft(s)
  {
    if blank == "" {
      assert blank + s == s;
    } else {
      assert (blank + s)[1..] == blank[1..] + s;
      TrimPast(blank[1..], s);
    }
  }

  lemma ReplyWordIsRead(word: string)
    ensures LowerCase(word) in {"re", "fwd", "fw"} <==> 2 <= |word| <= 3 && WordLength(word) == |word|
  {
    var lower := LowerCase(word);
    assert |lower| == |word|;
    assert lower == "re" <==> |lower| == 2 && lower[0] == 'r' && lower[1] == 'e';
    assert lower == "fw" <==> |lower| == 2 && lower[0] == 'f' && lower[1] == 'w';
    assert lower == "fwd" <==> |lower| == 3 && lower[0] == 'f' && lower[1] == 'w' && lower[2] == 'd';
  }

  lemma WordIsRead(m: Marker, rest: string)
    requires m.Valid() && rest != "" && (rest[0] == ':' || IsSpace(rest[0]))
    ensures var t := m.word + rest; TrimLeft(t) == t && WordLength(t) == |m.word| && t[|m.word|..] == rest
  {
    var t := m.word + rest;
    ReplyWordIsRead(m.word);
    assert t[|m.word|] == rest[0];
  }

  lemma MarkerIsRead(m: Marker, s: string)
    requires m.Valid()
    ensures var t := TrimLeft(m.Text() + s); StartsWithMarker(t) && AfterMarker(t) == TrimLeft(s)
  {
    var afterWord := m.gap + ([':'] + (m.tail + s));
    var t := m.word + afterWord;
    assert m.Text() + s == m.lead + t;
    TrimPast(m.lead, t);
    WordIsRead(m, afterWord);
    TrimPast(m.gap, [':'] + (m.tail + s));
    assert ([':'] + (m.tail + s))[1..] == m.tail + s;
    TrimPast(m.tail, s);
  }

  /** What is left once the markers are gone. */
  function Core(s: string): string {
    DropMarkers(TrimLeft(s))
  }

  lemma {:induction false} CoreIgnoresMarkers(markers: seq<Marker>, s: string)
    requires forall m | m in markers :: m.Valid()
    ensures Core(Render(markers) + s) == Core(s)
  {
    if markers == [] {
      assert Render(markers) + s == s;
    } else {
      var rest := Render(markers[1..]) + s;
      assert Render(markers) + s == markers[0].Text() + rest;
      MarkerIsRead(markers[0], rest);
      CoreIgnoresMarkers(markers[1..], s);
    }
  }

  lemma {:induction false} TidyIgnoresLead(s: string)
    ensures Tidy(TrimLeft(s)) == Tidy(s)
  {
    if s != "" && IsSpace(s[0]) {
      TrimTwice(s[1..]);
      assert Collapse(s)[1..] == Collapse(TrimLeft(s));
      assert TrimLeft(Collapse(s)) == TrimLeft(Collapse(TrimLeft(s)));
    }
  }

  lemma {:induction false} TrimTwice(s: string)
    ensures TrimLeft(TrimLeft(s)) == TrimLeft(s)
    ensures TrimLeft(s) != "" ==> !IsSpace(TrimLeft(s)[0])
  {
    if s != "" && IsSpace(s[0]) {
      TrimTwice(s[1..]);
    }
  }

  lemma NormalizeIsTidyCore(s: string)
    ensures Normalize(s) == Tidy(Core(s))
  {
    TidyIgnoresLead(s);
  }

  /** Prepending any number of Re:, Fwd: or Fw: markers, in any case and with any spacing,
      leaves the normalised subject as it was. */
  lemma {:induction false} RepliesNormalizeToTheirRoot(markers: seq<Marker>, subject: string)
    requires forall m | m in markers :: m.Valid()
    ensures Normalize(Render(markers) + subject) == Normalize(subject)
  {
    CoreIgnoresMarkers(markers, subject);
    NormalizeIsTidyCore(Render(markers) + subject);
    NormalizeIsTidyCore(subject);
  }

  /** So a reply without a provider thread id gets its root's thread key. */
  lemma RepliesJoinTheirThread(markers: seq<Marker>, subject: string, lower: string -> string)
    requires forall m | m in markers :: m.Valid()
    ensures ThreadKey("", Render(markers) + subject, lower) == ThreadKey("", subject, lower)
  {
    RepliesNormalizeToTheirRoot(markers, subject);
  }

  // ---- Normalising twice ----

  /** Whitespace is single spaces only. */
  ghost predicate Neat(s: string) {
    && (forall i | 0 <= i < |s| && IsSpace(s[i]) :: s[i] == ' ')
    && (forall i | 0 < i < |s| :: !(IsSpace(s[i - 1]) && IsSpace(s[i])))
  }

  lemma {:induction false} CollapseIsNeat(s: string)
    ensures Neat(Collapse(s)) && (s != "" <==> Collapse(s) != "")
    ensures s != "" ==> (IsSpace(Collapse(s)[0]) <==> IsSpace(s[0]))
    decreases |s|
  {
    if s != "" {
      if IsSpace(s[0]) {
        ShrinksLeft(s[1..]);
        TrimTwice(s[1..]);
        CollapseIsNeat(TrimLeft(s[1..]));
      } else {
        CollapseIsNeat(s[1..]);
      }
    }
  }

  lemma {:induction false} NeatStaysPut(s: string)
    requires Neat(s)
    ensures Collapse(s) == s
  {
    if s != "" {
      assert forall i | 0 <= i < |s| - 1 :: s[1..][i] == s[i + 1];
      NeatStaysPut(s[1..]);
      if IsSpace(s[0]) {
        assert TrimLeft(s[1..]) == s[1..];
      }
    }
  }

  lemma {:induction false} TrimmedRight(s: string)
    ensures TrimRight(s) <= s && TrimRight(TrimRight(s)) == TrimRight(s)
    ensures s != "" && !IsSpace(s[0]) ==> TrimRight(s) != ""
  {
    if s != "" && IsSpace(s[|s| - 1]) {
      TrimmedRight(s[..|s| - 1]);
    }
  }

  /** A tidy text without leading whitespace: a prefix of its collapsed form. */
  lemma TidyOfTrimmed(s: string)
    requires s == "" || !IsSpace(s[0])
    ensures Tidy(s) == TrimRight(Collapse(s)) <= Collapse(s)
    ensures Neat(Tidy(s)) && Tidy(Tidy(s)) == Tidy(s) && TrimLeft(Tidy(s)) == Tidy(s)
  {
    CollapseIsNeat(s);
    TrimmedRight(Collapse(s));
    var tidy := Tidy(s);
    assert tidy == Collapse(s)[..|tidy|];
    assert Neat(tidy);
    NeatStaysPut(tidy);
  }

  lemma Regroup(a: string, b: string, c: string)
    ensures a + (b + c) == a + b + c
  {
  }

  lemma {:induction false} CollapseKeepsWord(s: string, k: nat)
    requires k <= |s| && forall i | 0 <= i < k :: !IsSpace(s[i])
    ensures Collapse(s) == s[..k] + Collapse(s[k..])
  {
    if k == 0 {
      assert s[0..] == s;
    } else {
      assert forall i | 0 <= i < k - 1 :: s[1..][i] == s[i + 1];
      CollapseKeepsWord(s[1..], k - 1);
      assert s[1..][k - 1..] == s[k..] && s[..k] == [s[0]] + s[1..][..k - 1];
      Regroup([s[0]], s[1..][..k - 1], Collapse(s[k..]));
    }
  }

  lemma {:induction false} CollapseKeepsHead(s: string)
    ensures TrimLeft(Collapse(s)) == Collapse(TrimLeft(s))
  {
    if s != "" && IsSpace(s[0]) {
      TrimTwice(s[1..]);
      CollapseIsNeat(TrimLeft(s[1..]));
      assert Collapse(s)[1..] == Collapse(TrimLeft(s[1..]));
    }
  }

  /** Collapsing and cutting the end off cannot make a marker appear. */
  lemma {:induction false} NoNewMarker(s: string, n: string)
    requires n <= Collapse(s) && StartsWithMarker(n)
    ensures StartsWithMarker(s)
  {
    var k, c := WordLength(n), Collapse(s);
    assert n == c[..|n|];
    assert forall i | 0 <= i < k :: n[i] == c[i] && !IsSpace(n[i]);
    WordsAlike(s, k);
    CollapseKeepsWord(s, k);
    assert c[k..] == Collapse(s[k..]);
    PrefixTrims(n[k..], c[k..]);
    CollapseKeepsHead(s[k..]);
    CollapseIsNeat(TrimLeft(s[k..]));
    assert Collapse(TrimLeft(s[k..])) != "" && Collapse(TrimLeft(s[k..]))[0] == ':';
    assert TrimLeft(s[k..])[0] == ':';
    WordFollowedByNoLetter(s, n, k);
  }

  /** The first characters of a collapsed text that are not whitespace are the text's own. */
  lemma {:induction false} WordsAlike(s: string, k: nat)
    requires k <= |Collapse(s)| && forall i | 0 <= i < k :: !IsSpace(Collapse(s)[i])
    ensures k <= |s| && s[..k] == Collapse(s)[..k] && forall i | 0 <= i < k :: !IsSpace(s[i])
  {
    if k > 0 {
      CollapseIsNeat(s);
      assert Collapse(s)[1..] == Collapse(s[1..]);
      assert forall i | 0 <= i < k - 1 :: Collapse(s[1..])[i] == Collapse(s)[i + 1];
      WordsAlike(s[1..], k - 1);
      assert s[..k] == [s[0]] + s[1..][..k - 1];
      assert Collapse(s)[..k] == [s[0]] + Collapse(s[1..])[..k - 1];
    }
  }

  lemma {:induction false} PrefixTrims(p: string, s: string)
    requires p <= s && TrimLeft(p) != ""
    ensures TrimLeft(s) != "" && TrimLeft(s)[0] == TrimLeft(p)[0]
  {
    if IsSpace(p[0]) {
      assert p[1..] <= s[1..];
      PrefixTrims(p[1..], s[1..]);
    }
  }

  lemma WordFollowedByNoLetter(s: string, n: string, k: nat)
    requires k == WordLength(n) > 0 && k <= |s| && s[..k] == n[..k]
    requires TrimLeft(s[k..]) != "" && TrimLeft(s[k..])[0] == ':'
    ensures WordLength(s) == k
  {
    assert forall i | 0 <= i < k :: s[i] == s[..k][i] == n[i];
    assert s[k..] != "" && (IsSpace(s[k]) || s[k] == ':');
  }

  lemma {:induction false} CoreHasNoMarker(s: string)
    requires s == "" || !IsSpace(s[0])
    ensures !StartsWithMarker(DropMarkers(s))
    ensures DropMarkers(s) == "" || !IsSpace(DropMarkers(s)[0])
    decreases |s|
  {
    if StartsWithMarker(s) {
      TrimTwice(TrimLeft(s[WordLength(s)..])[1..]);
      CoreHasNoMarker(AfterMarker(s));
    }
  }

  /** Normalising is idempotent. */
  lemma {:induction false} NormalizeTwice(subject: string)
    ensures Normalize(Normalize(subject)) == Normalize(subject)
  {
    var core := Core(subject);
    TrimTwice(subject);
    CoreHasNoMarker(TrimLeft(subject));
    NormalizeIsTidyCore(subject);
    TidyOfTrimmed(core);
    var n := Tidy(core);
    if StartsWithMarker(n) {
      NoNewMarker(core, n);
      assert false;
    }
    NormalizeIsTidyCore(n);
  }
}
