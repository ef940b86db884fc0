/**
 What the user says, as the mapper's events tell it: the final user transcripts of each content, and where contents end
 (apps/personal-assistant-agent/internal/agent and apps/account-agent/internal/account: runtime.go).
 */
module Utterances {
  import opened Basics
  import R = RealtimeMapper
  import opened AgentParts
  import opened Words

  /** A content says something in a turn, or ends. */
  datatype Note = Said(cid: Id, turn: Id, text: string) | Ended(cid: Id)

  /** The final user transcripts among the events of a content. */
  function SaidIn(cid: Id, events: seq<R.ServerEvent>): seq<Note> {
    if events == [] then []
    else
      var e := events[0];
      (if e.Transcript? && e.role == R.User && e.stage == R.Final then [Said(cid, e.turn, e.text)] else []) +
      SaidIn(cid, events[1..])
  }

  /** What a provider event that was mapped to the events tells. */
  function NotesOf(e: R.ProviderEvent, events: seq<R.ServerEvent>): seq<Note> {
    match e
    case TextOutput(cid, _) => SaidIn(cid, events)
    case ContentEnd(cid, _) => [Ended(cid)]
    case _ => []
  }

  // ----- contents that are open, and pieces of speech that are finished -----

  /** The content has said something since it last ended. */
  predicate Open(ns: seq<Note>, cid: Id) {
    ns != [] &&
    var last := ns[|ns| - 1];
    if last.cid == cid then last.Said? else Open(ns[..|ns| - 1], cid)
  }

  /** All that the content has said since it last ended. */
  function OpenText(ns: seq<Note>, cid: Id): string {
    if ns == [] then ""
    else
      var before, last := ns[..|ns| - 1], ns[|ns| - 1];
      if last.cid != cid then OpenText(before, cid)
      else if last.Said? then OpenText(before, cid) + last.text
      else ""
  }

  /** The turn in which the content last said something. */
  function TurnOf(ns: seq<Note>, cid: Id): Id {
    if ns == [] then ""
    else
      var last := ns[|ns| - 1];
      if last.Said? && last.cid == cid then last.turn else TurnOf(ns[..|ns| - 1], cid)
  }

  /** What one content said in its turn. */
  datatype Piece = Piece(turn: Id, text: string)

  /** The pieces of the contents that have ended, in the order in which they ended. */
  function Pieces(ns: seq<Note>): seq<Piece> {
    if ns == [] then []
    else
      var before, last := ns[..|ns| - 1], ns[|ns| - 1];
      Pieces(before) +
      if last.Ended? && Open(before, last.cid) then [Piece(TurnOf(before, last.cid), OpenText(before, last.cid))]
      else []
  }

  /** The turn that ended a piece last. */
  function LastTurn(ps: seq<Piece>): Id {
    if ps == [] then "" else ps[|ps| - 1].turn
  }

  /** The texts of the turn since it took over: of the last pieces in a row that are its own. */
  function TextsOf(ps: seq<Piece>, turn: Id): seq<string> {
    if ps == [] || ps[|ps| - 1].turn != turn then []
    else TextsOf(ps[..|ps| - 1], turn) + [ps[|ps| - 1].text]
  }

  /** The texts in order, with a space before each and what has been joined so far without outer white space. */
  ghost predicate JoinsTo(texts: seq<string>, joined: string) {
    if texts == [] then joined == ""
    else
      var n := |texts| - 1;
      exists before :: JoinsTo(texts[..n], before) && IsTrimmed(before + " " + texts[n], joined)
  }

  /** Some turn has spoken, and no content is still speaking. */
  ghost predicate HasUtterance(ns: seq<Note>) {
    LastTurn(Pieces(ns)) != "" && forall cid :: !Open(ns, cid)
  }

  /** The whole of what the turn that spoke last has said since it took over. */
  ghost predicate IsUtterance(ns: seq<Note>, turn: Id, text: string) {
    HasUtterance(ns) && turn == LastTurn(Pieces(ns)) && JoinsTo(TextsOf(Pieces(ns), turn), text)
  }

  // ----- the loop's speech -----

  ghost predicate HoldsOpen(ns: seq<Note>, s: Speech) {
    && (forall cid :: cid in s.texts <==> Open(ns, cid))
    && forall cid | cid in s.texts ::
         cid in s.turns && s.texts[cid] == OpenText(ns, cid) && s.turns[cid] == TurnOf(ns, cid)
  }

  ghost predicate HoldsJoined(ps: seq<Piece>, s: Speech) {
    s.turn == LastTurn(ps) && JoinsTo(TextsOf(ps, s.turn), s.text)
  }

  /** The speech that the loop has collected is what the notes tell. */
  ghost predicate Represents(ns: seq<Note>, s: Speech) {
    HoldsOpen(ns, s) && HoldsJoined(Pieces(ns), s)
  }

  lemma NothingSaid()
    ensures Represents([], Speech(map[], map[], "", ""))
  {
    assert TextsOf([], "") == [];
  }

  lemma {:induction false} ClosedIsEmpty(ns: seq<Note>, cid: Id)
    requires !Open(ns, cid)
    ensures OpenText(ns, cid) == ""
  {
    if ns != [] && ns[|ns| - 1].cid != cid {
      ClosedIsEmpty(ns[..|ns| - 1], cid);
    }
  }

  lemma SaidRepresents(ns: seq<Note>, s: Speech, cid: Id, turn: Id, text: string)
    requires Represents(ns, s)
    ensures Represents(ns + [Said(cid, turn, text)],
                       s.(texts := s.texts[cid := Spoken(s, cid) + text], turns := s.turns[cid := turn]))
  {
    var more := ns + [Said(cid, turn, text)];
    assert more[..|more| - 1] == ns;
    assert Pieces(more) == Pieces(ns);
    if cid !in s.texts {
      ClosedIsEmpty(ns, cid);
    }
  }

  lemma {:induction false} FragmentsRepresent(ns: seq<Note>, s: Speech, cid: Id, events: seq<R.ServerEvent>)
    requires Represents(ns, s) && Fragments(s, cid, events).1
    ensures Represents(ns + SaidIn(cid, events), Fragments(s, cid, events).0)
    decreases |events|
  {
    if events == [] {
      assert ns + [] == ns;
    } else if FinalUserText(events[0]) {
      var e := events[0];
      SaidRepresents(ns, s, cid, e.turn, e.text);
      FragmentsRepresent(ns + [Said(cid, e.turn, e.text)],
                         s.(texts := s.texts[cid := Spoken(s, cid) + e.text], turns := s.turns[cid := e.turn]), cid,
                         events[1..]);
      Associate(ns, [Said(cid, e.turn, e.text)], SaidIn(cid, events[1..]));
    } else {
      FragmentsRepresent(ns, s, cid, events[1..]);
      assert [] + SaidIn(cid, events[1..]) == SaidIn(cid, events[1..]);
    }
  }

  lemma PieceJoins(ps: seq<Piece>, turn: Id, text: string, before: string, joined: string)
    requires JoinsTo(TextsOf(ps, turn), before) && IsTrimmed(before + " " + text, joined)
    ensures var more := ps + [Piece(turn, text)];
            LastTurn(more) == turn && JoinsTo(TextsOf(more, turn), joined)
  {
    var more := ps + [Piece(turn, text)];
    assert more[..|more| - 1] == ps;
    var texts := TextsOf(ps, turn) + [text];
    assert texts[..|texts| - 1] == TextsOf(ps, turn);
  }

  lemma EndedRepresents(ns: seq<Note>, s: Speech, cid: Id)
    requires Represents(ns, s)
    ensures Represents(ns + [Ended(cid)], Ending(s, cid))
  {
    var more := ns + [Ended(cid)];
    assert more[..|more| - 1] == ns;
    EndedCloses(ns, s, cid);
    if cid in s.texts {
      PieceEnds(Pieces(ns), s, cid);
    } else {
      assert Pieces(more) == Pieces(ns);
    }
  }

  lemma EndedCloses(ns: seq<Note>, s: Speech, cid: Id)
    requires HoldsOpen(ns, s)
    ensures HoldsOpen(ns + [Ended(cid)], Ending(s, cid))
  {
    var more := ns + [Ended(cid)];
    assert more[..|more| - 1] == ns;
  }

  lemma PieceEnds(ps: seq<Piece>, s: Speech, cid: Id)
    requires HoldsJoined(ps, s) && cid in s.texts && cid in s.turns
    ensures HoldsJoined(ps + [Piece(s.turns[cid], s.texts[cid])], Ending(s, cid))
  {
    var turn, text := s.turns[cid], s.texts[cid];
    var before := if s.turn != turn then "" else s.text;
    TrimTrims(before + " " + text);
    PieceJoins(ps, turn, text, before, Trim(before + " " + text));
  }

  lemma StartIsSilent(m: R.MapperState, e: R.ProviderEvent, random: Id, outcome: R.Outcome)
    requires R.Bounded(m) && outcome == R.Mapping(m, e, random).1 && outcome.Events? && e.ContentStart?
    ensures Silent(outcome.events)
  {
  }

  lemma EndIsSilent(m: R.MapperState, cid: Id, stop: R.StopReason)
    requires R.Bounded(m) && cid in m.contents && R.MappingEnd(m, cid, stop).1.Events?
    ensures Silent(R.MappingEnd(m, cid, stop).1.events)
  {
  }

  /** Only text that the provider puts out is transcribed. */
  lemma OnlyTextSpeaks(m: R.MapperState, e: R.ProviderEvent, random: Id, outcome: R.Outcome)
    requires R.Bounded(m) && outcome == R.Mapping(m, e, random).1 && outcome.Events? && !e.TextOutput?
    ensures Silent(outcome.events)
  {
    if e.ContentStart? {
      StartIsSilent(m, e, random, outcome);
    } else if e.ContentEnd? && !R.Stale(m, e.cid) {
      EndIsSilent(m, e.cid, e.stop);
    }
  }

  /** The loop collects what an event tells. */
  lemma CollectedRepresents(ns: seq<Note>, s: Speech, e: R.ProviderEvent, events: seq<R.ServerEvent>)
    requires Represents(ns, s) && Collecting(s, e, events).1 && (e.TextOutput? || Silent(events))
    ensures Represents(ns + NotesOf(e, events), Collecting(s, e, events).0)
  {
    if e.TextOutput? {
      FragmentsRepresent(ns, s, e.cid, events);
    } else {
      SilentFragments(s, ContentOf(e), events);
      if e.ContentEnd? {
        EndedRepresents(ns, s, e.cid);
      } else {
        assert ns + [] == ns;
      }
    }
  }

  /** The start of a content that is not the user's finds an utterance if and only if the notes hold one. */
  lemma BoundaryIff(ns: seq<Note>, s: Speech, e: R.ProviderEvent)
    requires Represents(ns, s)
    ensures AtBoundary(s, e) <==> e.ContentStart? && e.role != R.User && HasUtterance(ns)
    ensures AtBoundary(s, e) ==> IsUtterance(ns, s.turn, s.text)
  {
    if s.texts == map[] {
      assert forall cid :: Open(ns, cid) <==> cid in s.texts;
    } else {
      var cid :| cid in s.texts;
      assert Open(ns, cid);
    }
  }

  // ----- what an utterance is -----

  lemma {:induction false} JoinIsUnique(texts: seq<string>, x: string, y: string)
    requires JoinsTo(texts, x) && JoinsTo(texts, y)
    ensures x == y
  {
    if texts != [] {
      var n := |texts| - 1;
      var a :| JoinsTo(texts[..n], a) && IsTrimmed(a + " " + texts[n], x);
      var b :| JoinsTo(texts[..n], b) && IsTrimmed(b + " " + texts[n], y);
      JoinIsUnique(texts[..n], a, b);
      TrimmedIsUnique(a + " " + texts[n], x, y);
    }
  }

  /** At each point there is one utterance at most. */
  lemma UtteranceIsUnique(ns: seq<Note>, turn: Id, text: string, other: Id, said: string)
    requires IsUtterance(ns, turn, text) && IsUtterance(ns, other, said)
    ensures turn == other && text == said
  {
    JoinIsUnique(TextsOf(Pieces(ns), turn), text, said);
  }

  function Flattened(wss: seq<seq<string>>): seq<string> {
    if wss == [] then [] else Flattened(wss[..|wss| - 1]) + wss[|wss| - 1]
  }

  /** The words of an utterance are those of its texts, in order: none is missing and none is added. */
  lemma {:induction false} JoinKeepsWords(texts: seq<string>, joined: string, wss: seq<seq<string>>)
    requires JoinsTo(texts, joined) && |wss| == |texts| && forall i | 0 <= i < |texts| :: WordsOf(texts[i], wss[i])
    ensures WordsOf(joined, Flattened(wss))
  {
    if texts != [] {
      var n := |texts| - 1;
      var before :| JoinsTo(texts[..n], before) && IsTrimmed(before + " " + texts[n], joined);
      JoinKeepsWords(texts[..n], before, wss[..n]);
      WordsSpaced(before, Flattened(wss[..n]), texts[n], wss[n]);
      TrimmedHasWords(before + " " + texts[n], joined, Flattened(wss));
    }
  }
}
