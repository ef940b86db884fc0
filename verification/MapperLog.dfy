/**
 What a mapper tells, from nothing but what it has been called with and what it has told before
 (packages/go/realtime/mapper.go).
 */
module MapperLog {
  import opened Basics
  import opened RealtimeMapper
  import opened MapperRuns
  import opened MapperHistory

  // ----- what events tell -----

  /** The turn started last and how much of its audio was heard since, the state shown last, and the turns closed. */
  datatype Picture = Picture(turn: Id, heard: nat, shown: Activity, interrupted: set<Id>, completed: set<Id>)

  const BLANK: Picture := Picture("", 0, Idle, {}, {})

  function Seen(p: Picture, e: ServerEvent): Picture {
    match e
    case TurnStarted(turn) => p.(turn := turn, heard := 0)
    case TurnInterrupted(turn) => p.(interrupted := p.interrupted + {turn})
    case TurnCompleted(turn) => p.(completed := p.completed + {turn})
    case SessionState(_, activity) => p.(shown := activity)
    case AudioChunk(_, _, _, _) => p.(heard := p.heard + 1)
    case _ => p
  }

  function Picturing(p: Picture, events: seq<ServerEvent>): Picture
    decreases |events|
  {
    if events == [] then p else Picturing(Seen(p, events[0]), events[1..])
  }

  lemma {:induction false} PicturingParts(p: Picture, x: seq<ServerEvent>, y: seq<ServerEvent>)
    ensures Picturing(p, x + y) == Picturing(Picturing(p, x), y)
    decreases |x|
  {
    if x == [] {
      assert x + y == y;
    } else {
      assert (x + y)[0] == x[0] && (x + y)[1..] == x[1..] + y;
      PicturingParts(Seen(p, x[0]), x[1..], y);
    }
  }

  lemma SeenOne(p: Picture, e: ServerEvent)
    ensures Picturing(p, [e]) == Seen(p, e)
  {
    assert [e][1..] == [];
  }

  lemma SeenTwo(p: Picture, e: ServerEvent, f: ServerEvent)
    ensures Picturing(p, [e, f]) == Seen(Seen(p, e), f)
  {
    assert [e, f][1..] == [f];
    SeenOne(Seen(p, e), f);
  }

  // ----- the dialogue so far -----

  /** A call that was accepted, and the events it was answered with. */
  datatype Entry = Entry(call: Call, events: seq<ServerEvent>)

  function Told(log: seq<Entry>): seq<ServerEvent> {
    if log == [] then [] else Told(log[..|log| - 1]) + log[|log| - 1].events
  }

  function Pictured(log: seq<Entry>): Picture {
    Picturing(BLANK, Told(log))
  }

  /** Input has been opened and the user has not been heard since. */
  predicate Waits(log: seq<Entry>) {
    log != [] &&
    match log[|log| - 1].call
    case InputCall(_) => true
    case AssistantCall(_) => false
    case MapCall(ContentStart(_, User, _, _, _), _) => false
    case _ => Waits(log[..|log| - 1])
  }

  /** The input that was opened or queued last. */
  function LastInput(log: seq<Entry>): Id {
    if log == [] then ""
    else
      match log[|log| - 1].call
      case InputCall(id) => id
      case QueueCall(id) => id
      case _ => LastInput(log[..|log| - 1])
  }

  /** The content belongs to the turn that is on. */
  predicate Live(contents: map<Id, Content>, p: Picture, cid: Id) {
    cid in contents && contents[cid].turn == p.turn && p.turn !in p.interrupted
  }

  /** A content starts, says something or ends; turn is the one that is on after the call. */
  function NextContents(contents: map<Id, Content>, p: Picture, waits: bool, turn: Id, call: Call): map<Id, Content> {
    match call
    case MapCall(ContentStart(cid, role, kind, stage, rate), _) =>
      if role == User then contents[cid := Content(turn, kind, role, stage, 0, "")]
      else if waits then contents
      else contents[cid := Content(p.turn, kind, role, stage, rate, "")]
    case MapCall(TextOutput(cid, text), _) =>
      if Live(contents, p, cid) then contents[cid := contents[cid].(text := contents[cid].text + text)] else contents
    case MapCall(ContentEnd(cid, _), _) => if Live(contents, p, cid) then contents - {cid} else contents
    case _ => contents
  }

  /** The contents that have started and not ended, with what they have said. */
  function Contents(log: seq<Entry>): map<Id, Content> {
    if log == [] then map[]
    else
      var before := log[..|log| - 1];
      NextContents(Contents(before), Pictured(before), Waits(before), Pictured(log).turn, log[|log| - 1].call)
  }

  predicate IsFinalText(c: Content, role: Role) {
    c.kind == Text && c.stage == Final && c.role == role
  }

  function SpeechIn(speech: map<Id, string>, turn: Id): string {
    if turn in speech then speech[turn] else ""
  }

  /** A further text of the same turn. */
  function Continued(said: string, text: string): string {
    if said == "" then text else said + " " + text
  }

  /** What the user has said in each turn, in final texts that ended and were not answered yet. */
  function Speech(log: seq<Entry>): map<Id, string> {
    if log == [] then map[]
    else
      var before := log[..|log| - 1];
      var speech, contents := Speech(before), Contents(before);
      match log[|log| - 1].call
      case MapCall(ContentEnd(cid, stop), _) =>
        if !Live(contents, Pictured(before), cid) || stop == InterruptedTurn then speech
        else
          var c := contents[cid];
          if IsFinalText(c, User) then speech[c.turn := Continued(SpeechIn(speech, c.turn), c.text)]
          else if IsFinalText(c, Assistant) && SpeechIn(speech, c.turn) != "" then speech - {c.turn}
          else speech
      case _ => speech
  }

  // ----- what is told next -----

  /** The turn that is on is interrupted. */
  function Cut(p: Picture): seq<ServerEvent> {
    if p.turn == "" || p.turn in p.interrupted || p.shown == Idle then []
    else [TurnInterrupted(p.turn), SessionState(p.turn, Idle)]
  }

  /** The user speaks: a response that is on is interrupted. */
  function BargeIn(p: Picture): seq<ServerEvent> {
    if p.shown == Responding then Cut(p) else []
  }

  function Finish(p: Picture): seq<ServerEvent> {
    [TurnCompleted(p.turn), SessionState(p.turn, Idle)]
  }

  predicate IsClosed(p: Picture, turn: Id) {
    turn == "" || turn in p.completed || turn in p.interrupted
  }

  /** The user begins to speak, in the turn that is on, or else in the queued one, or else in a new one. */
  function SpeechStarts(p: Picture, queued: Id, random: Id): Option<seq<ServerEvent>> {
    var q := Picturing(p, BargeIn(p));
    if |q.completed| + |q.interrupted| >= 128 then None
    else if !IsClosed(q, q.turn) then Some(BargeIn(p) + [SessionState(q.turn, Listening)])
    else
      var turn := if IsClosed(q, queued) then random else queued;
      Some(BargeIn(p) + [TurnStarted(turn), SessionState(turn, Listening)])
  }

  /** Other content begins. */
  function ResponseStarts(p: Picture, waits: bool, open: nat, role: Role, kind: Kind,
                          stage: Stage): Option<seq<ServerEvent>> {
    if waits then Some([])
    else if open >= 1024 then None
    else if role == Assistant && (kind == Audio || stage == Speculative) && p.turn !in p.interrupted then
      Some([SessionState(p.turn, Responding)])
    else Some([])
  }

  /** What a content of the turn that is on tells. */
  function ContentTells(p: Picture, c: Content, said: string, e: ProviderEvent): Option<seq<ServerEvent>> {
    match e
    case TextOutput(_, text) =>
      if |c.text| + |text| > 8192 then None else Some([Transcript(p.turn, c.role, c.stage, text)])
    case AudioOutput(_, audio) =>
      if p.shown != Responding then Some([])
      else if audio.Base64? && 0 < |audio.pcm| <= 262144 && |audio.pcm| % 2 == 0 && c.rate == 24000 then
        Some([AudioChunk(p.turn, p.heard + 1, 24000, audio.pcm)])
      else None
    case ToolUse(_, id, name, arguments) => Some([ToolStarted(p.turn, id, name, arguments)])
    case ContentEnd(_, stop) =>
      if stop == InterruptedTurn then Some(Cut(p))
      else if IsFinalText(c, User) && |Continued(said, c.text)| > 8192 then None
      else if stop == EndTurn && p.shown == Responding &&
              ((IsFinalText(c, Assistant) && p.heard > 0) || c.kind == Audio) then Some(Finish(p))
      else Some([])
    case _ => Some([])
  }

  /** What a provider event tells. */
  function EventTells(p: Picture, waits: bool, queued: Id, contents: map<Id, Content>, speech: map<Id, string>,
                      e: ProviderEvent, random: Id): Option<seq<ServerEvent>> {
    match e
    case Failure => None
    case Interruption => Some(Cut(p))
    case CompletionEnd(stop) =>
      Some(if stop == EndTurn && p.shown == Responding && p.heard > 0 then Finish(p) else [])
    case ContentStart(_, role, kind, stage, _) =>
      if role == User then SpeechStarts(p, queued, random)
      else ResponseStarts(p, waits, |contents|, role, kind, stage)
    case Unrecognized => Some([])
    case _ =>
      if Live(contents, p, e.cid) then ContentTells(p, contents[e.cid], SpeechIn(speech, p.turn), e) else Some([])
  }

  function CallTells(p: Picture, waits: bool, queued: Id, contents: map<Id, Content>, speech: map<Id, string>,
                     call: Call): Option<seq<ServerEvent>> {
    match call
    case AssistantCall(id) => Some([TurnStarted(id), SessionState(id, Responding)])
    case QueueCall(_) => Some([])
    case InputCall(id) => Some(BargeIn(p) + [TurnStarted(id), SessionState(id, Listening)])
    case InterruptCall => Some(Cut(p))
    case MapCall(e, random) => EventTells(p, waits, queued, contents, speech, e, random)
  }

  /** What a call tells after the dialogue, unless the mapper fails. */
  function Due(log: seq<Entry>, call: Call): Option<seq<ServerEvent>> {
    CallTells(Pictured(log), Waits(log), LastInput(log), Contents(log), Speech(log), call)
  }

  // ----- the mapper's fields are what was called and told -----

  function PictureOf(s: MapperState): Picture {
    Picture(s.turn, s.sequence, s.activity, s.cancelled, s.answered)
  }

  predicate Tracks(log: seq<Entry>, s: MapperState) {
    && PictureOf(s) == Pictured(log)
    && s.waitingUser == Waits(log)
    && s.nextInput == LastInput(log)
    && s.contents == Contents(log)
    && s.users == Speech(log)
  }

  function Outcomes(due: Option<seq<ServerEvent>>): Outcome {
    if due.Some? then Events(due.value) else Failed
  }

  lemma CutIsDue(s: MapperState)
    ensures Interrupting(s).1 == Cut(PictureOf(s)) && InterruptingResponse(s).1 == BargeIn(PictureOf(s))
    ensures PictureOf(Interrupting(s).0) == Picturing(PictureOf(s), Cut(PictureOf(s)))
    ensures PictureOf(InterruptingResponse(s).0) == Picturing(PictureOf(s), BargeIn(PictureOf(s)))
  {
    var p := PictureOf(s);
    SeenTwo(p, TurnInterrupted(p.turn), SessionState(p.turn, Idle));
  }

  lemma SpeechStartIsDue(s: MapperState, e: ProviderEvent, random: Id)
    requires e.ContentStart? && e.role == User
    ensures MappingUserStart(s, e, random).1 == Outcomes(SpeechStarts(PictureOf(s), s.nextInput, random))
  {
    CutIsDue(s.(waitingUser := false));
  }

  lemma ContentIsDue(s: MapperState, e: ProviderEvent, random: Id)
    requires Bounded(s) && (e.TextOutput? || e.AudioOutput? || e.ToolUse? || e.ContentEnd?) && !Stale(s, e.cid)
    ensures Mapping(s, e, random).1 ==
            Outcomes(ContentTells(PictureOf(s), s.contents[e.cid], SpeechIn(s.users, s.turn), e))
  {
    CutIsDue(s.(contents := s.contents - {e.cid}));
  }

  lemma EventIsDue(s: MapperState, e: ProviderEvent, random: Id)
    requires Bounded(s)
    ensures Mapping(s, e, random).1 ==
            Outcomes(EventTells(PictureOf(s), s.waitingUser, s.nextInput, s.contents, s.users, e, random))
  {
    CutIsDue(s);
    if e.ContentStart? && e.role == User {
      SpeechStartIsDue(s, e, random);
    } else if (e.TextOutput? || e.AudioOutput? || e.ToolUse? || e.ContentEnd?) && !Stale(s, e.cid) {
      ContentIsDue(s, e, random);
    }
  }

  lemma CallIsDue(s: MapperState, call: Call)
    requires Bounded(s)
    ensures Step(s, call).1 ==
            Outcomes(CallTells(PictureOf(s), s.waitingUser, s.nextInput, s.contents, s.users, call))
  {
    CutIsDue(s);
    if call.MapCall? {
      EventIsDue(s, call.event, call.random);
    }
  }

  lemma StepIsDue(log: seq<Entry>, s: MapperState, call: Call)
    requires Bounded(s) && Tracks(log, s)
    ensures Step(s, call).1 == Outcomes(Due(log, call))
  {
    CallIsDue(s, call);
  }

  // ----- one more entry -----

  lemma PicturedOn(log: seq<Entry>, call: Call, events: seq<ServerEvent>)
    ensures Pictured(log + [Entry(call, events)]) == Picturing(Pictured(log), events)
  {
    var more := log + [Entry(call, events)];
    assert more[..|more| - 1] == log;
    PicturingParts(BLANK, Told(log), events);
  }

  /** The picture is that of the mapper's fields, after every call. */
  lemma PictureOn(s: MapperState, call: Call, s': MapperState, events: seq<ServerEvent>)
    requires Bounded(s) && Step(s, call) == (s', Events(events))
    ensures Picturing(PictureOf(s), events) == PictureOf(s')
  {
    match call
    case AssistantCall(id) => SeenTwo(PictureOf(s), TurnStarted(id), StateEvent(s'));
    case QueueCall(_) =>
    case InputCall(id) => InputPicture(s, id);
    case InterruptCall => CutIsDue(s);
    case MapCall(e, random) => MappedPicture(s, e, random, s', events);
  }

  lemma InputPicture(s: MapperState, id: Id)
    ensures Picturing(PictureOf(s), StartingInput(s, id).1) == PictureOf(StartingInput(s, id).0)
  {
    CutIsDue(s);
    var (s0, cut) := InterruptingResponse(s);
    PicturingParts(PictureOf(s), cut, [TurnStarted(id), StateEvent(StartingInput(s, id).0)]);
    SeenTwo(PictureOf(s0), TurnStarted(id), StateEvent(StartingInput(s, id).0));
  }

  lemma SpeechPicture(s: MapperState, e: ProviderEvent, random: Id)
    requires e.ContentStart? && MappingUserStart(s, e, random).1.Events?
    ensures Picturing(PictureOf(s), MappingUserStart(s, e, random).1.events) ==
            PictureOf(MappingUserStart(s, e, random).0)
  {
    var s' := MappingUserStart(s, e, random).0;
    CutIsDue(s.(waitingUser := false));
    var (s0, cut) := InterruptingResponse(s.(waitingUser := false));
    var (s1, started) := OpeningUserTurn(s0, random);
    PicturingParts(PictureOf(s), cut + started, [StateEvent(s')]);
    PicturingParts(PictureOf(s), cut, started);
    if started != [] {
      SeenOne(PictureOf(s0), started[0]);
    }
    SeenOne(PictureOf(s1), StateEvent(s'));
  }

  lemma FinishPicture(s: MapperState)
    ensures Picturing(PictureOf(s), Completing(s).1) == PictureOf(Completing(s).0)
  {
    SeenTwo(PictureOf(s), TurnCompleted(s.turn), StateEvent(Completing(s).0));
  }

  lemma EndPicture(s: MapperState, cid: Id, stop: StopReason)
    requires Bounded(s) && cid in s.contents && MappingEnd(s, cid, stop).1.Events?
    ensures Picturing(PictureOf(s), MappingEnd(s, cid, stop).1.events) == PictureOf(MappingEnd(s, cid, stop).0)
  {
    var c, s0 := s.contents[cid], s.(contents := s.contents - {cid});
    if stop == InterruptedTurn {
      CutIsDue(s0);
    } else {
      FinishPicture(RecordingFinal(s0, c).value);
    }
  }

  lemma MappedPicture(s: MapperState, e: ProviderEvent, random: Id, s': MapperState, events: seq<ServerEvent>)
    requires Bounded(s) && Mapping(s, e, random) == (s', Events(events))
    ensures Picturing(PictureOf(s), events) == PictureOf(s')
  {
    if e.Interruption? {
      CutIsDue(s);
    } else if e.CompletionEnd? {
      FinishPicture(s);
    } else if e.ContentStart? && e.role == User {
      SpeechPicture(s, e, random);
    } else if e.ContentEnd? && !Stale(s, e.cid) {
      EndPicture(s, e.cid, e.stop);
    } else if |events| == 1 {
      SeenOne(PictureOf(s), events[0]);
      assert events == [events[0]];
    }
  }

  lemma SpeechStartContents(s: MapperState, e: ProviderEvent, random: Id)
    requires e.ContentStart? && MappingUserStart(s, e, random).1.Events?
    ensures var s' := MappingUserStart(s, e, random).0;
            s'.contents == s.contents[e.cid := Content(s'.turn, e.kind, e.role, e.stage, 0, "")]
  {
  }

  lemma StepContents(s: MapperState, call: Call, s': MapperState)
    requires Bounded(s) && Step(s, call).1.Events? && s' == Step(s, call).0
    ensures s'.contents == NextContents(s.contents, PictureOf(s), s.waitingUser, s'.turn, call)
  {
    if call.MapCall? {
      var e := call.event;
      if e.ContentStart? && e.role == User {
        SpeechStartContents(s, e, call.random);
      } else if e.ContentEnd? && !Stale(s, e.cid) {
        EndKeepsBounded(s, e.cid, e.stop);
      }
    } else {
      OwnerKeepsContents(s, if call.InputCall? || call.AssistantCall? then call.id else "");
    }
  }

  lemma ContentsOn(log: seq<Entry>, s: MapperState, call: Call, s': MapperState, events: seq<ServerEvent>)
    requires Bounded(s) && Tracks(log, s) && Step(s, call) == (s', Events(events))
    requires Pictured(log + [Entry(call, events)]).turn == s'.turn
    ensures s'.contents == Contents(log + [Entry(call, events)])
  {
    var more := log + [Entry(call, events)];
    assert more[..|more| - 1] == log;
    StepContents(s, call, s');
  }

  lemma EndedSpeech(s: MapperState, cid: Id, stop: StopReason)
    requires Bounded(s) && cid in s.contents && MappingEnd(s, cid, stop).1.Events?
    ensures var c := s.contents[cid];
            MappingEnd(s, cid, stop).0.users ==
            if stop == InterruptedTurn then s.users
            else if IsFinalText(c, User) then s.users[c.turn := Continued(SpeechIn(s.users, c.turn), c.text)]
            else if IsFinalText(c, Assistant) && SpeechIn(s.users, c.turn) != "" then s.users - {c.turn}
            else s.users
  {
  }

  lemma SpeechOn(log: seq<Entry>, s: MapperState, call: Call, s': MapperState, events: seq<ServerEvent>)
    requires Bounded(s) && Tracks(log, s) && Step(s, call) == (s', Events(events))
    ensures s'.users == Speech(log + [Entry(call, events)])
  {
    var more := log + [Entry(call, events)];
    assert more[..|more| - 1] == log;
    if call.MapCall? && call.event.ContentEnd? && !Stale(s, call.event.cid) {
      EndedSpeech(s, call.event.cid, call.event.stop);
    } else {
      OtherStepsRemember(s, call);
    }
  }

  lemma MappedInputs(s: MapperState, e: ProviderEvent, random: Id)
    requires Bounded(s)
    ensures var s' := Mapping(s, e, random).0;
            && s'.nextInput == s.nextInput
            && s'.waitingUser == (s.waitingUser && !(e.ContentStart? && e.role == User))
  {
    if e.ContentEnd? && !Stale(s, e.cid) {
      EndedInputs(s, e.cid, e.stop);
    }
  }

  lemma EndedInputs(s: MapperState, cid: Id, stop: StopReason)
    requires Bounded(s) && cid in s.contents
    ensures MappingEnd(s, cid, stop).0.waitingUser == s.waitingUser
    ensures MappingEnd(s, cid, stop).0.nextInput == s.nextInput
  {
  }

  lemma InputsOn(log: seq<Entry>, s: MapperState, call: Call, s': MapperState, events: seq<ServerEvent>)
    requires Bounded(s) && Tracks(log, s) && Step(s, call) == (s', Events(events))
    ensures s'.waitingUser == Waits(log + [Entry(call, events)])
    ensures s'.nextInput == LastInput(log + [Entry(call, events)])
  {
    var more := log + [Entry(call, events)];
    assert more[..|more| - 1] == log;
    if call.MapCall? {
      MappedInputs(s, call.event, call.random);
    }
  }

  lemma TracksOn(log: seq<Entry>, s: MapperState, call: Call, s': MapperState, events: seq<ServerEvent>)
    requires Bounded(s) && Tracks(log, s) && Step(s, call) == (s', Events(events))
    ensures Tracks(log + [Entry(call, events)], s')
  {
    PicturedOn(log, call, events);
    PictureOn(s, call, s', events);
    ContentsOn(log, s, call, s', events);
    SpeechOn(log, s, call, s', events);
    InputsOn(log, s, call, s', events);
  }

  // ----- runs -----

  /** The dialogue of a mapper that gets these calls; its owner stops at the first failure. */
  function Dialogue(s: MapperState, calls: seq<Call>): seq<Entry>
    requires Bounded(s)
    decreases |calls|
  {
    if calls == [] || Step(s, calls[0]).1.Failed? then []
    else
      StepKeepsBounded(s, calls[0]);
      [Entry(calls[0], Step(s, calls[0]).1.events)] + Dialogue(Step(s, calls[0]).0, calls[1..])
  }

  /** Each call is answered with what is due after the dialogue before it, and refused exactly when nothing is. */
  predicate AllDue(before: seq<Entry>, calls: seq<Call>, log: seq<Entry>)
    decreases |calls|
  {
    if calls == [] then log == []
    else
      match Due(before, calls[0])
      case None => log == []
      case Some(events) =>
        log != [] && log[0] == Entry(calls[0], events) && AllDue(before + [log[0]], calls[1..], log[1..])
  }

  lemma {:induction false} DialogueIsDueFrom(before: seq<Entry>, s: MapperState, calls: seq<Call>)
    requires Bounded(s) && Tracks(before, s)
    ensures AllDue(before, calls, Dialogue(s, calls))
    decreases |calls|
  {
    if calls != [] {
      StepIsDue(before, s, calls[0]);
      var (s', outcome) := Step(s, calls[0]);
      if outcome.Events? {
        StepKeepsBounded(s, calls[0]);
        TracksOn(before, s, calls[0], s', outcome.events);
        DialogueIsDueFrom(before + [Entry(calls[0], outcome.events)], s', calls[1..]);
        assert Dialogue(s, calls)[1..] == Dialogue(s', calls[1..]);
      }
    }
  }

  /**
   Over every run of a mapper, whatever history it was opened with: each call is answered with exactly what is due
   after the dialogue so far, and is refused exactly when nothing is due.
   */
  lemma DialogueIsDue(history: seq<Message>, calls: seq<Call>)
    ensures AllDue([], calls, Dialogue(Fresh(history), calls))
    ensures Told(Dialogue(Fresh(history), calls)) == Emitted(Fresh(history), calls)
  {
    DialogueIsDueFrom([], Fresh(history), calls);
    DialogueTells(Fresh(history), calls);
  }

  lemma {:induction false} ToldParts(x: seq<Entry>, y: seq<Entry>)
    ensures Told(x + y) == Told(x) + Told(y)
  {
    if y == [] {
      assert x + y == x;
    } else {
      var n := |y| - 1;
      assert (x + y)[..|x + y| - 1] == x + y[..n];
      ToldParts(x, y[..n]);
      Associate(Told(x), Told(y[..n]), y[n].events);
    }
  }

  lemma {:induction false} DialogueTells(s: MapperState, calls: seq<Call>)
    requires Bounded(s)
    ensures Told(Dialogue(s, calls)) == Emitted(s, calls)
    decreases |calls|
  {
    if calls != [] && Step(s, calls[0]).1.Events? {
      var first := Entry(calls[0], Step(s, calls[0]).1.events);
      StepKeepsBounded(s, calls[0]);
      DialogueTells(Step(s, calls[0]).0, calls[1..]);
      ToldParts([first], Dialogue(Step(s, calls[0]).0, calls[1..]));
      assert Told([first]) == [] + first.events;
    }
  }

  // ----- what was said and answered -----

  /** The end of an answer completes what the user had said in its turn. */
  function AnsweredBy(contents: map<Id, Content>, p: Picture, speech: map<Id, string>, call: Call): seq<Exchanged> {
    match call
    case MapCall(ContentEnd(cid, stop), _) =>
      if Live(contents, p, cid) && stop != InterruptedTurn && IsFinalText(contents[cid], Assistant) &&
         SpeechIn(speech, p.turn) != ""
      then [Exchanged(SpeechIn(speech, p.turn), contents[cid].text)]
      else []
    case _ => []
  }

  /** The exchanges of a dialogue. */
  function Exchanges(log: seq<Entry>): seq<Exchanged> {
    if log == [] then []
    else
      var before := log[..|log| - 1];
      Exchanges(before) + AnsweredBy(Contents(before), Pictured(before), Speech(before), log[|log| - 1].call)
  }

  lemma CompletedBy(s: MapperState, call: Call)
    requires Bounded(s)
    ensures Completed(s, call) == AnsweredBy(s.contents, PictureOf(s), s.users, call)
  {
  }

  /** A call that fails completes nothing. */
  lemma FailureCompletesNothing(s: MapperState, call: Call)
    requires Bounded(s) && Step(s, call).1.Failed?
    ensures Completed(s, call) == []
  {
  }

  lemma {:induction false} ExchangesFrom(before: seq<Entry>, s: MapperState, calls: seq<Call>)
    requires Bounded(s) && Tracks(before, s)
    ensures Exchanges(before + Dialogue(s, calls)) == Exchanges(before) + CompletedIn(s, calls)
    decreases |calls|
  {
    if calls == [] {
      assert before + [] == before;
    } else {
      var (s', outcome) := Step(s, calls[0]);
      if outcome.Failed? {
        FailureCompletesNothing(s, calls[0]);
        assert before + [] == before;
      } else {
        StepKeepsBounded(s, calls[0]);
        TracksOn(before, s, calls[0], s', outcome.events);
        ExchangesFrom(before + [Entry(calls[0], outcome.events)], s', calls[1..]);
        CompletedBy(s, calls[0]);
        ExchangeOn(before, Entry(calls[0], outcome.events), Completed(s, calls[0]));
        Associate(before, [Entry(calls[0], outcome.events)], Dialogue(s', calls[1..]));
        Associate(Exchanges(before), Completed(s, calls[0]), CompletedIn(s', calls[1..]));
      }
    }
  }

  lemma ExchangeOn(before: seq<Entry>, entry: Entry, done: seq<Exchanged>)
    requires done == AnsweredBy(Contents(before), Pictured(before), Speech(before), entry.call)
    ensures Exchanges(before + [entry]) == Exchanges(before) + done
  {
    assert (before + [entry])[..|before|] == before;
  }

  /** The exchanges that the history remembers are those of the dialogue. */
  lemma CompletedIsSaid(history: seq<Message>, calls: seq<Call>)
    ensures CompletedIn(Fresh(history), calls) == Exchanges(Dialogue(Fresh(history), calls))
  {
    ExchangesFrom([], Fresh(history), calls);
    assert [] + Dialogue(Fresh(history), calls) == Dialogue(Fresh(history), calls);
    assert [] + CompletedIn(Fresh(history), calls) == CompletedIn(Fresh(history), calls);
  }
}
