/** What normalising a subject computes, told from the subject's words and its reply markers. */
module SubjectWords {
  import opened Whitespace
  import opened Subject

  // ---- Words ----

  /** Where the first run of characters other than whitespace ends. */
  function WordEnd(s: string): (k: nat)
    ensures k <= |s| && (forall i | 0 <= i < k :: !IsSpace(s[i])) && (k < |s| ==> IsSpace(s[k]))
  {
    if s == "" || IsSpace(s[0]) then 0 else WordEnd(s[1..]) + 1
  }

  /** The words of a text: its maximal runs of characters other than whitespace. */
  function Words(s: string): seq<string>
    decreases |s|
  {
    if s == "" then []
    else if IsSpace(s[0]) then Words(s[1..])
    else [s[..WordEnd(s)]] + Words(s[WordEnd(s)..])
  }

  ghost predicate IsWord(word: string) {
    word != "" && forall i | 0 <= i < |word| :: !IsSpace(word[i])
  }

  /** The text is these words with whitespace before, between and after them. */
  ghost predicate LaidOut(s: string, words: seq<string>, gaps: seq<string>)
    decreases |words|
  {
    && |gaps| == |words| + 1 && Blank(gaps[0])
    && (words == [] ==> s == gaps[0])
    && (words != [] ==>
          && IsWord(words[0]) && gaps[0] + words[0] <= s
          && (|words| > 1 ==> gaps[1] != "")
          && LaidOut(s[|gaps[0] + words[0]|..], words[1..], gaps[1..]))
  }

  lemma {:induction false} SkipsBlank(blank: string, s: string)
    requires Blank(blank)
    ensures Words(blank + s) == Words(s)
  {
    if blank == "" {
      assert blank + s == s;
    } else {
      assert (blank + s)[1..] == blank[1..] + s;
      SkipsBlank(blank[1..], s);
    }
  }

  lemma {:induction false} BlankHasNoWords(blank: string)
    requires Blank(blank)
    ensures Words(blank) == []
  {
    SkipsBlank(blank, "");
    assert blank + "" == blank;
  }

  lemma {:induction false} WordEndsAt(word: string, rest: string)
    requires (forall i | 0 <= i < |word| :: !IsSpace(word[i])) && (rest == "" || IsSpace(rest[0]))
    ensures WordEnd(word + rest) == |word|
  {
    if word == "" {
      assert word + rest == rest;
    } else {
      assert (word + rest)[1..] == word[1..] + rest;
      WordEndsAt(word[1..], rest);
    }
  }

  lemma FirstWord(gap: string, word: string, rest: string)
    requires Blank(gap) && IsWord(word) && (rest == "" || IsSpace(rest[0]))
    ensures Words(gap + word + rest) == [word] + Words(rest)
  {
    var s := word + rest;
    assert gap + word + rest == gap + s;
    SkipsBlank(gap, s);
    WordEndsAt(word, rest);
    assert s[..|word|] == word && s[|word|..] == rest;
  }

  lemma {:induction false} LaidOutBegins(s: string, words: seq<string>, gaps: seq<string>)
    requires LaidOut(s, words, gaps) && gaps[0] != ""
    ensures s != "" && IsSpace(s[0])
  {
  }

  /** However words are laid out, they are the words of the text; */
  lemma {:induction false} LaidOutAreWords(s: string, words: seq<string>, gaps: seq<string>)
    requires LaidOut(s, words, gaps)
    ensures Words(s) == words
    decreases |words|
  {
    if words == [] {
      BlankHasNoWords(s);
    } else {
      var rest := s[|gaps[0] + words[0]|..];
      assert s == gaps[0] + words[0] + rest;
      LaidOutAreWords(rest, words[1..], gaps[1..]);
      if |words| > 1 {
        LaidOutBegins(rest, words[1..], gaps[1..]);
      } else {
        assert rest == gaps[1];
      }
      FirstWord(gaps[0], words[0], rest);
    }
  }

  /** and every text lays its words out. */
  lemma {:induction false} WordsAreLaidOut(s: string)
    ensures exists gaps :: LaidOut(s, Words(s), gaps)
    decreases |s|
  {
    if s == "" {
      assert LaidOut(s, Words(s), [""]);
    } else if IsSpace(s[0]) {
      WordsAreLaidOut(s[1..]);
      var gaps :| LaidOut(s[1..], Words(s[1..]), gaps);
      OneMoreBlank(s, Words(s), gaps);
    } else {
      var k := WordEnd(s);
      WordsAreLaidOut(s[k..]);
      var gaps :| LaidOut(s[k..], Words(s[k..]), gaps);
      assert s[|"" + s[..k]|..] == s[k..] && Words(s)[1..] == Words(s[k..]);
      assert ([""] + gaps)[1..] == gaps;
      assert LaidOut(s, Words(s), [""] + gaps);
    }
  }

  lemma OneMoreBlank(s: string, words: seq<string>, gaps: seq<string>)
    requires s != "" && IsSpace(s[0]) && LaidOut(s[1..], words, gaps)
    ensures LaidOut(s, words, [[s[0]] + gaps[0]] + gaps[1..])
  {
    var more := [[s[0]] + gaps[0]] + gaps[1..];
    assert s == [s[0]] + s[1..];
    if words != [] {
      assert s[|more[0] + words[0]|..] == s[1..][|gaps[0] + words[0]|..];
      assert more[0] + words[0] == [s[0]] + (gaps[0] + words[0]);
    }
  }

  // ---- Tidying ----

  function Joined(words: seq<string>): string {
    if words == [] then "" else if |words| == 1 then words[0] else words[0] + [' '] + Joined(words[1..])
  }

  /** Cutting the end off reaches into the front part only if the back part is blank. */
  lemma {:induction false} TrimsBackFirst(front: string, back: string)
    ensures TrimRight(front + back) == if Blank(back) then TrimRight(front) else front + TrimRight(back)
  {
    if back == "" {
      assert front + back == front;
    } else if IsSpace(back[|back| - 1]) {
      var less := back[..|back| - 1];
      assert (front + back)[..|front + back| - 1] == front + less;
      assert Blank(back) <==> Blank(less);
      TrimsBackFirst(front, less);
    }
  }

  lemma TrimmedWord(word: string)
    requires IsWord(word)
    ensures TrimRight(word) == word && TrimLeft(word) == word
  {
  }

  lemma {:induction false} TrimmedKeepsWords(s: string)
    ensures Words(TrimLeft(s)) == Words(s)
  {
    if s != "" && IsSpace(s[0]) {
      TrimmedKeepsWords(s[1..]);
    }
  }

  /** A text that begins with a word, then a gap and something more. */
  lemma TidyWordAndRest(word: string, rest: string)
    requires IsWord(word) && rest != "" && IsSpace(rest[0])
    ensures Collapse(word + rest) == word + ([' '] + Collapse(TrimLeft(rest)))
    ensures TrimLeft(word + rest) == word + rest
  {
    assert (word + rest)[..|word|] == word && (word + rest)[|word|..] == rest;
    assert forall i | 0 <= i < |word| :: (word + rest)[i] == word[i];
    CollapseKeepsWord(word + rest, |word|);
    assert TrimLeft(rest) == TrimLeft(rest[1..]);
  }

  lemma {:induction false} NoWordsIsBlank(s: string)
    ensures Words(s) == [] <==> Blank(s)
    ensures Words(s) == [] <==> TrimLeft(s) == ""
  {
    if s != "" && IsSpace(s[0]) {
      NoWordsIsBlank(s[1..]);
      assert s == [s[0]] + s[1..];
    }
  }

  lemma TidyGrows(word: string, later: string)
    requires IsWord(word) && (later == "" || !IsSpace(later[0]))
    requires TrimRight(Collapse(later)) == Joined(Words(later))
    ensures TrimRight(word + ([' '] + Collapse(later)))
         == if later == "" then word else word + [' '] + Joined(Words(later))
  {
    var back := [' '] + Collapse(later);
    TrimsBackFirst(word, back);
    TrimsBackFirst([' '], Collapse(later));
    CollapseIsNeat(later);
    if later == "" {
      assert Blank(back);
      TrimmedWord(word);
    } else {
      assert !IsSpace(back[1]) && !IsSpace(Collapse(later)[0]);
      Regroup(word, [' '], Joined(Words(later)));
    }
  }

  lemma JoinedGrows(word: string, words: seq<string>)
    ensures Joined([word] + words) == if words == [] then word else word + [' '] + Joined(words)
  {
    assert ([word] + words)[1..] == words;
  }

  lemma {:induction false} TidyJoinsFrom(s: string)
    requires s == "" || !IsSpace(s[0])
    ensures TrimRight(Collapse(s)) == Joined(Words(s))
    decreases |s|
  {
    if s != "" {
      var word, rest := s[..WordEnd(s)], s[WordEnd(s)..];
      var later := TrimLeft(rest);
      assert s == word + rest;
      ShrinksLeft(rest);
      TrimTwice(rest);
      TidyJoinsFrom(later);
      TrimmedKeepsWords(rest);
      NoWordsIsBlank(rest);
      JoinedGrows(word, Words(later));
      if rest == "" {
        CollapseKeepsWord(s, |word|);
        assert Collapse(s) == word;
        TrimmedWord(word);
      } else {
        TidyWordAndRest(word, rest);
        TidyGrows(word, later);
        TrimmedKeepsWords(later);
        NoWordsIsBlank(later);
      }
    }
  }

  /** Tidying joins the words of a text by single spaces. */
  lemma TidyJoinsWords(s: string)
    ensures Tidy(s) == Joined(Words(s))
  {
    TrimTwice(s);
    TrimmedKeepsWords(s);
    TidyJoinsFrom(TrimLeft(s));
    CollapseKeepsHead(s);
  }

  // ---- Markers ----

  /** No marker stands in front of the text. */
  ghost predicate Unmarked(s: string) {
    forall m: Marker, tail: string | m.Valid() :: s != m.Text() + tail
  }

  /** The subject is these markers and then the rest, in front of which stands no other. */
  ghost predicate Unmarks(subject: string, markers: seq<Marker>, rest: string) {
    subject == Render(markers) + rest && (forall m | m in markers :: m.Valid()) && Unmarked(rest)
  }

  /** The whitespace in front. */
  function Lead(s: string): string {
    if s != "" && IsSpace(s[0]) then [s[0]] + Lead(s[1..]) else ""
  }

  lemma {:induction false} LeadIsCut(s: string)
    ensures Blank(Lead(s)) && s == Lead(s) + TrimLeft(s)
  {
    if s != "" && IsSpace(s[0]) {
      LeadIsCut(s[1..]);
      Regroup([s[0]], Lead(s[1..]), TrimLeft(s[1..]));
    }
  }

  /** The marker in front of a text that starts with one. */
  function FirstMarker(s: string): Marker
    requires StartsWithMarker(TrimLeft(s))
  {
    var t := TrimLeft(s);
    var afterWord := t[WordLength(t)..];
    Marker(Lead(s), t[..WordLength(t)], Lead(afterWord), Lead(TrimLeft(afterWord)[1..]))
  }

  lemma TextReads(m: Marker, s: string)
    ensures m.Text() + s == m.lead + (m.word + (m.gap + ([':'] + (m.tail + s))))
  {
    var rest := m.tail + s;
    Regroup(m.lead + m.word + m.gap + [':'], m.tail, s);
    Regroup(m.lead + m.word + m.gap, [':'], rest);
    Regroup(m.lead + m.word, m.gap, [':'] + rest);
    Regroup(m.lead, m.word, m.gap + ([':'] + rest));
  }

  lemma ColonWasWritten(s: string)
    requires TrimLeft(s) != "" && TrimLeft(s)[0] == ':'
    ensures var rest := TrimLeft(s)[1..];
            Blank(Lead(s)) && Blank(Lead(rest)) && s == Lead(s) + ([':'] + (Lead(rest) + TrimLeft(rest)))
  {
    var rest := TrimLeft(s)[1..];
    LeadIsCut(s);
    LeadIsCut(rest);
    assert TrimLeft(s) == [':'] + rest;
  }

  lemma SpelledOut(lead: string, word: string, afterWord: string)
    requires Blank(lead) && LowerCase(word) in {"re", "fwd", "fw"}
    requires TrimLeft(afterWord) != "" && TrimLeft(afterWord)[0] == ':'
    ensures var rest := TrimLeft(afterWord)[1..];
            var m := Marker(lead, word, Lead(afterWord), Lead(rest));
            m.Valid() && lead + (word + afterWord) == m.Text() + TrimLeft(rest)
  {
    var rest := TrimLeft(afterWord)[1..];
    ColonWasWritten(afterWord);
    TextReads(Marker(lead, word, Lead(afterWord), Lead(rest)), TrimLeft(rest));
  }

  lemma WordIsWhole(t: string)
    requires StartsWithMarker(t)
    ensures LowerCase(t[..WordLength(t)]) in {"re", "fwd", "fw"}
  {
    ReplyWordIsRead(t[..WordLength(t)]);
  }

  /** A marker that is read was written. */
  lemma MarkerWasWritten(s: string)
    requires StartsWithMarker(TrimLeft(s))
    ensures FirstMarker(s).Valid() && s == FirstMarker(s).Text() + AfterMarker(TrimLeft(s))
  {
    var t := TrimLeft(s);
    LeadIsCut(s);
    WordIsWhole(t);
    SpelledOut(Lead(s), t[..WordLength(t)], t[WordLength(t)..]);
    assert t == t[..WordLength(t)] + t[WordLength(t)..];
  }

  lemma UnmarkedExactly(s: string)
    ensures Unmarked(s) <==> !StartsWithMarker(TrimLeft(s))
  {
    if StartsWithMarker(TrimLeft(s)) {
      MarkerWasWritten(s);
    }
    forall m: Marker, tail: string | m.Valid() && s == m.Text() + tail ensures StartsWithMarker(TrimLeft(s)) {
      MarkerIsRead(m, tail);
    }
  }

  // ---- What normalising computes ----

  lemma OneMoreMarker(m: Marker, subject: string, markers: seq<Marker>, rest: string)
    requires m.Valid() && Unmarks(subject, markers, rest)
    ensures Unmarks(m.Text() + subject, [m] + markers, rest)
  {
    assert ([m] + markers)[1..] == markers;
    Regroup(m.Text(), Render(markers), rest);
  }

  /** Every subject is some markers and an unmarked rest. */
  lemma {:induction false} EverySubjectUnmarks(subject: string)
    ensures exists markers, rest :: Unmarks(subject, markers, rest)
    decreases |subject|
  {
    UnmarkedExactly(subject);
    if Unmarked(subject) {
      assert Render([]) + subject == subject;
      assert Unmarks(subject, [], subject);
    } else {
      var m, after := FirstMarker(subject), AfterMarker(TrimLeft(subject));
      MarkerWasWritten(subject);
      ShrinksLeft(subject);
      EverySubjectUnmarks(after);
      var markers, rest :| Unmarks(after, markers, rest);
      OneMoreMarker(m, after, markers, rest);
    }
  }

  /** The normal form of a subject is the words left once its leading markers are gone, in
      order and joined by single spaces. */
  lemma NormalizeJoinsWords(subject: string, markers: seq<Marker>, rest: string)
    requires Unmarks(subject, markers, rest)
    ensures Normalize(subject) == Joined(Words(rest))
  {
    RepliesNormalizeToTheirRoot(markers, rest);
    UnmarkedExactly(rest);
    NormalizeIsTidyCore(rest);
    TidyIgnoresLead(rest);
    TidyJoinsWords(rest);
  }

  lemma OneMoreWord(word: string, words: seq<string>)
    requires IsWord(word) && Words(Joined(words)) == words
    ensures Words(Joined([word] + words)) == [word] + words
  {
    JoinedGrows(word, words);
    if words == [] {
      FirstWord("", word, "");
      assert "" + word + "" == word;
    } else {
      var rest := [' '] + Joined(words);
      FirstWord("", word, rest);
      SkipsBlank([' '], Joined(words));
      Regroup(word, [' '], Joined(words));
      assert "" + word == word;
    }
  }

  lemma {:induction false} JoinedHasWords(words: seq<string>)
    requires forall word | word in words :: IsWord(word)
    ensures Words(Joined(words)) == words
  {
    if words != [] {
      JoinedHasWords(words[1..]);
      OneMoreWord(words[0], words[1..]);
      assert [words[0]] + words[1..] == words;
    }
  }

  lemma {:induction false} AllAreWords(s: string)
    ensures forall word | word in Words(s) :: IsWord(word)
    decreases |s|
  {
    if s != "" {
      AllAreWords(if IsSpace(s[0]) then s[1..] else s[WordEnd(s)..]);
    }
  }

  /** Two subjects have one normal form if and only if the same words are left of them once their
      leading markers are gone. */
  lemma NormalizedAlikeExactly(one: string, ones: seq<Marker>, left: string,
                               other: string, others: seq<Marker>, right: string)
    requires Unmarks(one, ones, left) && Unmarks(other, others, right)
    ensures Normalize(one) == Normalize(other) <==> Words(left) == Words(right)
  {
    NormalizeJoinsWords(one, ones, left);
    NormalizeJoinsWords(other, others, right);
    AllAreWords(left);
    AllAreWords(right);
    JoinedHasWords(Words(left));
    JoinedHasWords(Words(right));
  }

  /** The words of a normal form are those left of the subject. */
  lemma NormalizeKeepsWords(subject: string, markers: seq<Marker>, rest: string)
    requires Unmarks(subject, markers, rest)
    ensures Words(Normalize(subject)) == Words(rest)
  {
    NormalizeJoinsWords(subject, markers, rest);
    AllAreWords(rest);
    JoinedHasWords(Words(rest));
  }

  /** The thread key: the provider's thread id if there is one, else those words in lower case. */
  lemma ThreadKeyJoinsWords(provided: string, subject: string, markers: seq<Marker>, rest: string,
                            lower: string -> string)
    requires Unmarks(subject, markers, rest)
    ensures provided != "" ==> ThreadKey(provided, subject, lower) == provided
    ensures provided == "" ==> ThreadKey(provided, subject, lower) == lower(Joined(Words(rest)))
  {
    NormalizeJoinsWords(subject, markers, rest);
  }
}
