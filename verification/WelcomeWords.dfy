/**
 What counts as an answer to the login invitation, word by word
 (apps/account-agent/internal/account/welcome.go).
 */
module WelcomeWords {
  import opened Basics
  import opened AgentParts
  import opened AccountLoop
  import opened Words

  /** The text in small letters, with a space for every punctuation mark. */
  predicate Plainly(l: Letters, text: string, plain: string) {
    && |plain| == |text|
    && forall i | 0 <= i < |text| ::
         plain[i] == if l.punctuation(l.lower(text[i])) then ' ' else l.lower(text[i])
  }

  /** The words of an utterance, without its outer white space, letter case and punctuation. */
  ghost predicate Utters(l: Letters, text: string, ws: seq<string>) {
    exists kept, plain :: IsTrimmed(text, kept) && Plainly(l, kept, plain) && WordsOf(plain, ws)
  }

  const AFFIRMATIVES: set<seq<string>> := {
    ["sim"], ["sim", "quero"], ["sim", "pode"], ["sim", "pode", "continuar"], ["sim", "desejo", "continuar"],
    ["sim", "quero", "continuar"], ["pode", "continuar"], ["quero", "continuar"], ["continuar"], ["vamos"], ["claro"]}

  const REFUSALS: set<seq<string>> := {
    ["n\U{E3}o"], ["nao"], ["n\U{E3}o", "quero"], ["nao", "quero"], ["n\U{E3}o", "quero", "continuar"],
    ["nao", "quero", "continuar"], ["n\U{E3}o", "desejo", "continuar"], ["nao", "desejo", "continuar"],
    ["agora", "n\U{E3}o"], ["agora", "nao"], ["cancelar"], ["encerre"], ["encerrar"]}

  /** The user accepts the invitation. */
  ghost predicate Affirms(l: Letters, text: string) {
    exists ws :: ws in AFFIRMATIVES && Utters(l, text, ws)
  }

  /** The user declines the invitation. */
  ghost predicate Refuses(l: Letters, text: string) {
    exists ws :: ws in REFUSALS && Utters(l, text, ws)
  }

  // ----- the words that the loop compares -----

  lemma {:induction false} FirstWordOf(text: string)
    ensures var w := FirstWord(text);
            && text[..|w|] == w && (forall i | 0 <= i < |w| :: !IsSpace(w[i]))
            && (|w| == |text| || IsSpace(text[|w|]))
  {
    if text != "" && !IsSpace(text[0]) {
      FirstWordOf(text[1..]);
      var rest := FirstWord(text[1..]);
      assert text[..|rest| + 1] == [text[0]] + text[1..][..|rest|];
    }
  }

  lemma {:induction false} FieldsOf(text: string) returns (ws: seq<string>)
    ensures WordsOf(text, ws) && Fields(text) == Joined(ws)
    decreases |text|
  {
    LeftIsBlank(text);
    var t := TrimLeft(text);
    var gap := text[..|text| - |t|];
    assert text == gap + t;
    if t == "" {
      ws := [];
    } else {
      var word := FirstWord(t);
      FirstWordOf(t);
      var later := FieldsOf(t[|word|..]);
      ws := [word] + later;
      WordThenRest(t, word, later);
      BlankFirst(gap, t, ws);
      FieldsJoin(t, word, later);
    }
  }

  lemma WordThenRest(t: string, word: string, later: seq<string>)
    requires |word| <= |t| && t[..|word|] == word && IsWord(word) && (|word| == |t| || IsSpace(t[|word|]))
    requires WordsOf(t[|word|..], later)
    ensures WordsOf(t, [word] + later) && AllWords(later)
  {
    WordsAreWords(t[|word|..], later);
    WordFirst(word, t[|word|..], later);
    assert word + t[|word|..] == t;
  }

  lemma FieldsJoin(t: string, word: string, later: seq<string>)
    requires word != "" && word == FirstWord(t) && Fields(t[|word|..]) == Joined(later) && AllWords(later)
    requires t != "" && TrimLeft(t) == t
    ensures Fields(t) == Joined([word] + later)
  {
    assert ([word] + later)[1..] == later;
    if later == [] {
      assert [word] + later == [word];
    }
  }

  lemma SaidWords(l: Letters, text: string) returns (ws: seq<string>)
    ensures Utters(l, text, ws) && AllWords(ws) && Fields(Cleaned(l, Trim(text))) == Joined(ws)
  {
    TrimTrims(text);
    ws := FieldsOf(Cleaned(l, Trim(text)));
    WordsAreWords(Cleaned(l, Trim(text)), ws);
    assert Plainly(l, Trim(text), Cleaned(l, Trim(text)));
  }

  lemma PlainIsUnique(l: Letters, text: string, x: string, y: string)
    requires Plainly(l, text, x) && Plainly(l, text, y)
    ensures x == y
  {
  }

  /** An utterance has one list of words only. */
  lemma UttersOneList(l: Letters, text: string, ws: seq<string>, vs: seq<string>)
    requires Utters(l, text, ws) && Utters(l, text, vs)
    ensures ws == vs
  {
    var kept, plain :| IsTrimmed(text, kept) && Plainly(l, kept, plain) && WordsOf(plain, ws);
    var other, clear :| IsTrimmed(text, other) && Plainly(l, other, clear) && WordsOf(clear, vs);
    TrimmedIsUnique(text, kept, other);
    PlainIsUnique(l, kept, plain, clear);
    WordsAreUnique(plain, ws, vs);
  }

  // ----- the listed answers -----

  lemma JoinOne(a: string)
    ensures Joined([a]) == a
  {
  }

  lemma JoinTwo(a: string, b: string)
    ensures Joined([a, b]) == a + " " + b
  {
    assert [a, b][1..] == [b];
  }

  lemma JoinThree(a: string, b: string, c: string)
    ensures Joined([a, b, c]) == a + " " + b + " " + c
  {
    assert [a, b, c][1..] == [b, c];
    JoinTwo(b, c);
    Associate(a + " ", b + " ", c);
    Associate(a + " ", b, " ");
  }

  predicate Letter(c: char) {
    'a' <= c <= 'z' || c == '\U{E3}'
  }

  predicate Lettered(word: string) {
    word != "" && forall i | 0 <= i < |word| :: Letter(word[i])
  }

  lemma LetteredIsWord(word: string)
    requires Lettered(word)
    ensures IsWord(word)
  {
    assert forall c: char | Letter(c) :: !IsSpace(c);
  }

  lemma SaysOne(ws: seq<string>, a: string, said: string)
    requires AllWords(ws) && Lettered(a) && said == a
    ensures Joined(ws) == said <==> ws == [a]
  {
    LetteredIsWord(a);
    JoinOne(a);
    if Joined(ws) == said {
      JoinedIsInjective(ws, [a]);
    }
  }

  lemma SaysTwo(ws: seq<string>, a: string, b: string, said: string)
    requires AllWords(ws) && Lettered(a) && Lettered(b) && said == a + " " + b
    ensures Joined(ws) == said <==> ws == [a, b]
  {
    LetteredIsWord(a);
    LetteredIsWord(b);
    JoinTwo(a, b);
    if Joined(ws) == said {
      JoinedIsInjective(ws, [a, b]);
    }
  }

  lemma SaysThree(ws: seq<string>, a: string, b: string, c: string, said: string)
    requires AllWords(ws) && Lettered(a) && Lettered(b) && Lettered(c) && said == a + " " + b + " " + c
    ensures Joined(ws) == said <==> ws == [a, b, c]
  {
    LetteredIsWord(a);
    LetteredIsWord(b);
    LetteredIsWord(c);
    JoinThree(a, b, c);
    if Joined(ws) == said {
      JoinedIsInjective(ws, [a, b, c]);
    }
  }

  lemma YesOne(ws: seq<string>, said: string)
    requires AllWords(ws) && said == Joined(ws)
    ensures said == "sim" <==> ws == ["sim"]
    ensures said == "continuar" <==> ws == ["continuar"]
    ensures said == "vamos" <==> ws == ["vamos"]
    ensures said == "claro" <==> ws == ["claro"]
  {
    SaysOne(ws, "sim", "sim");
    SaysOne(ws, "continuar", "continuar");
    SaysOne(ws, "vamos", "vamos");
    SaysOne(ws, "claro", "claro");
  }

  lemma YesTwo(ws: seq<string>, said: string)
    requires AllWords(ws) && said == Joined(ws)
    ensures said == "sim quero" <==> ws == ["sim", "quero"]
    ensures said == "sim pode" <==> ws == ["sim", "pode"]
    ensures said == "pode continuar" <==> ws == ["pode", "continuar"]
    ensures said == "quero continuar" <==> ws == ["quero", "continuar"]
  {
    SaysTwo(ws, "sim", "quero", "sim quero");
    SaysTwo(ws, "sim", "pode", "sim pode");
    SaysTwo(ws, "pode", "continuar", "pode continuar");
    SaysTwo(ws, "quero", "continuar", "quero continuar");
  }

  lemma YesThree(ws: seq<string>, said: string)
    requires AllWords(ws) && said == Joined(ws)
    ensures said == "sim pode continuar" <==> ws == ["sim", "pode", "continuar"]
    ensures said == "sim desejo continuar" <==> ws == ["sim", "desejo", "continuar"]
  {
    SaysThree(ws, "sim", "pode", "continuar", "sim pode continuar");
    SaysThree(ws, "sim", "desejo", "continuar", "sim desejo continuar");
  }

  lemma YesQuero(ws: seq<string>, said: string)
    requires AllWords(ws) && said == Joined(ws)
    ensures said == "sim quero continuar" <==> ws == ["sim", "quero", "continuar"]
  {
    SaysThree(ws, "sim", "quero", "continuar", "sim quero continuar");
  }

  lemma ListedYes(ws: seq<string>, said: string)
    requires said == "sim" <==> ws == ["sim"]
    requires said == "sim quero" <==> ws == ["sim", "quero"]
    requires said == "sim pode" <==> ws == ["sim", "pode"]
    requires said == "sim pode continuar" <==> ws == ["sim", "pode", "continuar"]
    requires said == "sim desejo continuar" <==> ws == ["sim", "desejo", "continuar"]
    requires said == "sim quero continuar" <==> ws == ["sim", "quero", "continuar"]
    requires said == "pode continuar" <==> ws == ["pode", "continuar"]
    requires said == "quero continuar" <==> ws == ["quero", "continuar"]
    requires said == "continuar" <==> ws == ["continuar"]
    requires said == "vamos" <==> ws == ["vamos"]
    requires said == "claro" <==> ws == ["claro"]
    ensures said in YES <==> ws in AFFIRMATIVES
  {
  }

  lemma AffirmativesAreYes(ws: seq<string>, said: string)
    requires AllWords(ws) && said == Joined(ws)
    ensures said in YES <==> ws in AFFIRMATIVES
  {
    YesOne(ws, said);
    YesTwo(ws, said);
    YesThree(ws, said);
    YesQuero(ws, said);
    ListedYes(ws, said);
  }

  lemma NoOne(ws: seq<string>, said: string)
    requires AllWords(ws) && said == Joined(ws)
    ensures said == "n\U{E3}o" <==> ws == ["n\U{E3}o"]
    ensures said == "nao" <==> ws == ["nao"]
    ensures said == "cancelar" <==> ws == ["cancelar"]
    ensures said == "encerre" <==> ws == ["encerre"]
    ensures said == "encerrar" <==> ws == ["encerrar"]
  {
    SaysOne(ws, "n\U{E3}o", "n\U{E3}o");
    SaysOne(ws, "nao", "nao");
    SaysOne(ws, "cancelar", "cancelar");
    SaysOne(ws, "encerre", "encerre");
    SaysOne(ws, "encerrar", "encerrar");
  }

  lemma NoTwo(ws: seq<string>, said: string)
    requires AllWords(ws) && said == Joined(ws)
    ensures said == "n\U{E3}o quero" <==> ws == ["n\U{E3}o", "quero"]
    ensures said == "nao quero" <==> ws == ["nao", "quero"]
    ensures said == "agora n\U{E3}o" <==> ws == ["agora", "n\U{E3}o"]
    ensures said == "agora nao" <==> ws == ["agora", "nao"]
  {
    SaysTwo(ws, "n\U{E3}o", "quero", "n\U{E3}o quero");
    SaysTwo(ws, "nao", "quero", "nao quero");
    SaysTwo(ws, "agora", "n\U{E3}o", "agora n\U{E3}o");
    SaysTwo(ws, "agora", "nao", "agora nao");
  }

  lemma NoQuero(ws: seq<string>, said: string)
    requires AllWords(ws) && said == Joined(ws)
    ensures said == "n\U{E3}o quero continuar" <==> ws == ["n\U{E3}o", "quero", "continuar"]
    ensures said == "nao quero continuar" <==> ws == ["nao", "quero", "continuar"]
  {
    SaysThree(ws, "n\U{E3}o", "quero", "continuar", "n\U{E3}o quero continuar");
    SaysThree(ws, "nao", "quero", "continuar", "nao quero continuar");
  }

  lemma NoDesejo(ws: seq<string>, said: string)
    requires AllWords(ws) && said == Joined(ws)
    ensures said == "n\U{E3}o desejo continuar" <==> ws == ["n\U{E3}o", "desejo", "continuar"]
  {
    SaysThree(ws, "n\U{E3}o", "desejo", "continuar", "n\U{E3}o desejo continuar");
  }

  lemma NaoDesejo(ws: seq<string>, said: string)
    requires AllWords(ws) && said == Joined(ws)
    ensures said == "nao desejo continuar" <==> ws == ["nao", "desejo", "continuar"]
  {
    SaysThree(ws, "nao", "desejo", "continuar", "nao desejo continuar");
  }

  lemma ListedNo(ws: seq<string>, said: string)
    requires said == "n\U{E3}o" <==> ws == ["n\U{E3}o"]
    requires said == "nao" <==> ws == ["nao"]
    requires said == "n\U{E3}o quero" <==> ws == ["n\U{E3}o", "quero"]
    requires said == "nao quero" <==> ws == ["nao", "quero"]
    requires said == "n\U{E3}o quero continuar" <==> ws == ["n\U{E3}o", "quero", "continuar"]
    requires said == "nao quero continuar" <==> ws == ["nao", "quero", "continuar"]
    requires said == "n\U{E3}o desejo continuar" <==> ws == ["n\U{E3}o", "desejo", "continuar"]
    requires said == "nao desejo continuar" <==> ws == ["nao", "desejo", "continuar"]
    requires said == "agora n\U{E3}o" <==> ws == ["agora", "n\U{E3}o"]
    requires said == "agora nao" <==> ws == ["agora", "nao"]
    requires said == "cancelar" <==> ws == ["cancelar"]
    requires said == "encerre" <==> ws == ["encerre"]
    requires said == "encerrar" <==> ws == ["encerrar"]
    ensures said in NO <==> ws in REFUSALS
  {
  }

  lemma RefusalsAreNo(ws: seq<string>, said: string)
    requires AllWords(ws) && said == Joined(ws)
    ensures said in NO <==> ws in REFUSALS
  {
    NoOne(ws, said);
    NoTwo(ws, said);
    NoQuero(ws, said);
    NoDesejo(ws, said);
    NaoDesejo(ws, said);
    ListedNo(ws, said);
  }

  lemma NoneIsBoth(ws: seq<string>)
    requires ws in AFFIRMATIVES
    ensures ws !in REFUSALS
  {
  }

  /**
   The loop takes an utterance for a yes if and only if its words are one of the affirmative answers, and for a no if
   and only if they are one of the refusals, and never for both.
   */
  lemma AnswersIff(l: Letters, text: string)
    ensures WelcomeAnswer(l, text) == Yes <==> Affirms(l, text)
    ensures WelcomeAnswer(l, text) == No <==> Refuses(l, text)
  {
    var ws := SaidWords(l, text);
    forall vs | Utters(l, text, vs)
      ensures vs == ws
    {
      UttersOneList(l, text, ws, vs);
    }
    AffirmativesAreYes(ws, Joined(ws));
    RefusalsAreNo(ws, Joined(ws));
    if ws in AFFIRMATIVES {
      NoneIsBoth(ws);
    }
  }
}
