/** Whole runs of the mapper: silence after interruption and audio numbering. */
module MapperRuns {
  import opened Basics
  import opened RealtimeMapper

  datatype Call =
    | AssistantCall(id: Id)
    | QueueCall(id: Id)
    | InputCall(id: Id)
    | InterruptCall
    | MapCall(event: ProviderEvent, random: Id)

  function Step(s: MapperState, call: Call): (MapperState, Outcome)
    requires Bounded(s)
  {
    match call
    case AssistantCall(id) => var (s', events) := StartingAssistant(s, id); (s', Events(events))
    case QueueCall(id) => (s.(nextInput := id), Events([]))
    case InputCall(id) => var (s', events) := StartingInput(s, id); (s', Events(events))
    case InterruptCall => var (s', events) := Interrupting(s); (s', Events(events))
    case MapCall(event, random) => Mapping(s, event, random)
  }

  function StepEvents(s: MapperState, call: Call): seq<ServerEvent>
    requires Bounded(s)
  {
    var outcome := Step(s, call).1;
    if outcome.Failed? then [] else outcome.events
  }

  lemma EndKeepsBounded(s: MapperState, cid: Id, stop: StopReason)
    requires Bounded(s) && cid in s.contents
    ensures MappingEnd(s, cid, stop).0.contents == s.contents - {cid}
  {
  }

  lemma MappingKeepsBounded(s: MapperState, e: ProviderEvent, random: Id)
    requires Bounded(s)
    ensures Bounded(Mapping(s, e, random).0)
  {
    if e.ContentEnd? && !Stale(s, e.cid) {
      EndKeepsBounded(s, e.cid, e.stop);
    }
  }

  lemma OwnerKeepsContents(s: MapperState, id: Id)
    ensures StartingInput(s, id).0.contents == s.contents && Interrupting(s).0.contents == s.contents
    ensures StartingAssistant(s, id).0.contents == s.contents
  {
  }

  lemma StepKeepsBounded(s: MapperState, call: Call)
    requires Bounded(s)
    ensures Bounded(Step(s, call).0)
  {
    if call.MapCall? {
      MappingKeepsBounded(s, call.event, call.random);
    }
  }

  /** Everything one mapper emits; the owner stops at the first failure. */
  function Emitted(s: MapperState, calls: seq<Call>): seq<ServerEvent>
    requires Bounded(s)
    decreases |calls|
  {
    if calls == [] || Step(s, calls[0]).1.Failed? then []
    else
      StepKeepsBounded(s, calls[0]);
      StepEvents(s, calls[0]) + Emitted(Step(s, calls[0]).0, calls[1..])
  }

  // ----- silence after an interruption -----

  /** Events that make a turn heard or seen to act. */
  predicate Carries(e: ServerEvent, turn: Id) {
    (e.Transcript? || e.AudioChunk? || e.ToolStarted? || e.TurnCompleted?) && e.turn == turn
  }

  /** A cancelled turn never plays: only StartAssistant may respond under it, and then it has no audio. */
  predicate Quiet(s: MapperState) {
    s.activity == Responding && s.turn in s.cancelled ==> s.sequence == 0
  }

  /** What one step may do to the turns that are, or become, cancelled. */
  ghost predicate SilentStep(s: MapperState, s': MapperState, events: seq<ServerEvent>) {
    && Quiet(s')
    && s.cancelled <= s'.cancelled
    && (forall i | 0 <= i < |events| :: SilentEvent(events, i, s.cancelled, s'.cancelled))
  }

  ghost predicate SilentEvent(events: seq<ServerEvent>, i: nat, before: set<Id>, after: set<Id>)
    requires i < |events|
  {
    && (forall turn | turn in before :: !Carries(events[i], turn) && events[i] != TurnInterrupted(turn))
    && (events[i].TurnInterrupted? ==>
          events[i].turn in after &&
          forall j | 0 <= j < |events| && j != i :: !Carries(events[j], events[i].turn) && events[j] != events[i])
  }

  lemma InterruptingSilence(s: MapperState)
    requires Quiet(s)
    ensures SilentStep(s, Interrupting(s).0, Interrupting(s).1)
  {
  }

  lemma UserStartSilence(s: MapperState, e: ProviderEvent, random: Id)
    requires e.ContentStart? && Quiet(s)
    ensures var (s', outcome) := MappingUserStart(s, e, random);
            SilentStep(s, s', if outcome.Failed? then [] else outcome.events)
  {
  }

  lemma EndSilence(s: MapperState, cid: Id, stop: StopReason)
    requires Bounded(s) && Quiet(s) && !Stale(s, cid)
    ensures var (s', outcome) := MappingEnd(s, cid, stop);
            SilentStep(s, s', if outcome.Failed? then [] else outcome.events)
  {
  }

  /** Other events are about the current turn, which is not cancelled while it has content. */
  lemma OtherMappingSilence(s: MapperState, e: ProviderEvent, random: Id)
    requires Bounded(s) && Quiet(s) && !e.Interruption?
    requires !(e.ContentStart? && e.role == User) && !(e.ContentEnd? && !Stale(s, e.cid))
    ensures SilentStep(s, Mapping(s, e, random).0, if Mapping(s, e, random).1.Failed? then []
                       else Mapping(s, e, random).1.events)
  {
  }

  lemma StepSilence(s: MapperState, call: Call)
    requires Bounded(s) && Quiet(s)
    ensures SilentStep(s, Step(s, call).0, StepEvents(s, call))
  {
    if call.MapCall? {
      MappingSilence(s, call.event, call.random);
    } else {
      OwnerSilence(s, call, Step(s, call).0, StepEvents(s, call));
    }
  }

  lemma OwnerSilence(s: MapperState, call: Call, s': MapperState, events: seq<ServerEvent>)
    requires Bounded(s) && Quiet(s) && !call.MapCall? && s' == Step(s, call).0 && events == StepEvents(s, call)
    ensures SilentStep(s, s', events)
  {
    InterruptingSilence(s);
  }

  lemma MappingSilence(s: MapperState, e: ProviderEvent, random: Id)
    requires Bounded(s) && Quiet(s)
    ensures SilentStep(s, Mapping(s, e, random).0, if Mapping(s, e, random).1.Failed? then []
                       else Mapping(s, e, random).1.events)
  {
    if e.Interruption? {
      InterruptingSilence(s);
    } else if e.ContentEnd? && !Stale(s, e.cid) {
      EndSilence(s, e.cid, e.stop);
    } else if e.ContentStart? && e.role == User {
      UserStartSilence(s, e, random);
    } else {
      OtherMappingSilence(s, e, random);
    }
  }

  lemma StepStaysSilent(s: MapperState, call: Call, turn: Id)
    requires Bounded(s) && Quiet(s) && turn in s.cancelled
    ensures Quiet(Step(s, call).0) && turn in Step(s, call).0.cancelled
    ensures forall e | e in StepEvents(s, call) :: !Carries(e, turn) && e != TurnInterrupted(turn)
  {
    StepSilence(s, call);
    SilentStepAvoids(s, Step(s, call).0, StepEvents(s, call), turn);
  }

  lemma SilentStepAvoids(s: MapperState, s': MapperState, events: seq<ServerEvent>, turn: Id)
    requires SilentStep(s, s', events) && turn in s.cancelled
    ensures forall e | e in events :: !Carries(e, turn) && e != TurnInterrupted(turn)
  {
    forall e | e in events
      ensures !Carries(e, turn) && e != TurnInterrupted(turn)
    {
      var i :| 0 <= i < |events| && events[i] == e;
      assert SilentEvent(events, i, s.cancelled, s'.cancelled);
    }
  }

  lemma SilentStepInterrupts(s: MapperState, s': MapperState, events: seq<ServerEvent>, i: nat)
    requires SilentStep(s, s', events) && i < |events| && events[i].TurnInterrupted?
    ensures events[i].turn in s'.cancelled
    ensures forall j | 0 <= j < |events| && j != i :: !Carries(events[j], events[i].turn) && events[j] != events[i]
  {
    assert SilentEvent(events, i, s.cancelled, s'.cancelled);
  }

  lemma {:induction false} CancelledStaysSilent(s: MapperState, calls: seq<Call>, turn: Id)
    requires Bounded(s) && Quiet(s) && turn in s.cancelled
    ensures forall e | e in Emitted(s, calls) :: Avoids(e, turn)
    decreases |calls|
  {
    if calls != [] && Step(s, calls[0]).1.Events? {
      StepKeepsBounded(s, calls[0]);
      StepStaysSilent(s, calls[0], turn);
      assert forall e | e in StepEvents(s, calls[0]) :: Avoids(e, turn);
      CancelledStaysSilent(Step(s, calls[0]).0, calls[1..], turn);
    }
  }

  /** Nothing of a turn follows its interruption. */
  ghost predicate Hushed(events: seq<ServerEvent>) {
    forall i, j | 0 <= i < j < |events| && events[i].TurnInterrupted? :: Avoids(events[j], events[i].turn)
  }

  predicate Avoids(e: ServerEvent, turn: Id) {
    !Carries(e, turn) && e != TurnInterrupted(turn)
  }

  lemma HushedConcat(first: seq<ServerEvent>, rest: seq<ServerEvent>)
    requires Hushed(first) && Hushed(rest)
    requires forall i, e | 0 <= i < |first| && first[i].TurnInterrupted? && e in rest :: Avoids(e, first[i].turn)
    ensures Hushed(first + rest)
  {
    var all := first + rest;
    forall i, j | 0 <= i < j < |all| && all[i].TurnInterrupted?
      ensures Avoids(all[j], all[i].turn)
    {
      var n := |first|;
      if j < n {
        assert Avoids(first[j], first[i].turn);
      } else if i < n {
        assert all[j] == rest[j - n] && rest[j - n] in rest && all[i] == first[i];
      } else {
        assert all[j] == rest[j - n] && all[i] == rest[i - n];
        assert Avoids(rest[j - n], rest[i - n].turn);
      }
    }
  }

  /** One step: what it emits is hushed, and what it interrupts is cancelled after it. */
  lemma StepHushed(s: MapperState, call: Call)
    requires Bounded(s) && Quiet(s)
    ensures Quiet(Step(s, call).0) && Hushed(StepEvents(s, call))
    ensures forall i | 0 <= i < |StepEvents(s, call)| && StepEvents(s, call)[i].TurnInterrupted? ::
              StepEvents(s, call)[i].turn in Step(s, call).0.cancelled
  {
    var events := StepEvents(s, call);
    StepSilence(s, call);
    forall i | 0 <= i < |events| && events[i].TurnInterrupted?
      ensures events[i].turn in Step(s, call).0.cancelled
      ensures forall j | 0 <= j < |events| && j != i :: Avoids(events[j], events[i].turn)
    {
      SilentStepInterrupts(s, Step(s, call).0, events, i);
      assert events[i] == TurnInterrupted(events[i].turn);
    }
  }

  lemma {:induction false} RunHushed(s: MapperState, calls: seq<Call>)
    requires Bounded(s) && Quiet(s)
    ensures Hushed(Emitted(s, calls))
    decreases |calls|
  {
    if calls != [] && !Step(s, calls[0]).1.Failed? {
      var s' := Step(s, calls[0]).0;
      StepKeepsBounded(s, calls[0]);
      StepHushed(s, calls[0]);
      HushedOnward(StepEvents(s, calls[0]), s', calls[1..]);
      RunHushed(s', calls[1..]);
      HushedConcat(StepEvents(s, calls[0]), Emitted(s', calls[1..]));
    }
  }

  lemma HushedOnward(first: seq<ServerEvent>, s: MapperState, calls: seq<Call>)
    requires Bounded(s) && Quiet(s)
    requires forall i | 0 <= i < |first| && first[i].TurnInterrupted? :: first[i].turn in s.cancelled
    ensures forall i, e | 0 <= i < |first| && first[i].TurnInterrupted? && e in Emitted(s, calls) ::
            Avoids(e, first[i].turn)
  {
    forall i | 0 <= i < |first| && first[i].TurnInterrupted?
      ensures forall e | e in Emitted(s, calls) :: Avoids(e, first[i].turn)
    {
      CancelledStaysSilent(s, calls, first[i].turn);
    }
  }

  /**
   Interrupted turns stay silent: after TurnInterrupted for a turn, no transcript, audio,
   tool or completion event of that turn follows, and the turn is not interrupted twice.
   Nothing is assumed about the calls.
   */
  lemma InterruptedTurnsStaySilent(s: MapperState, calls: seq<Call>, i: nat, j: nat)
    requires Bounded(s) && Quiet(s)
    requires i < j < |Emitted(s, calls)| && Emitted(s, calls)[i].TurnInterrupted?
    ensures !Carries(Emitted(s, calls)[j], Emitted(s, calls)[i].turn)
    ensures Emitted(s, calls)[j] != Emitted(s, calls)[i]
  {
    RunHushed(s, calls);
    var events := Emitted(s, calls);
    assert Avoids(events[j], events[i].turn);
  }

  // ----- audio numbering -----

  /**
   Chunks are numbered 1, 2, 3, ... within the turn last started; turn and last describe
   where the numbering stands before the events.
   */
  predicate Numbered(events: seq<ServerEvent>, turn: Id, last: nat) {
    if events == [] then true
    else match events[0]
      case TurnStarted(id) => Numbered(events[1..], id, 0)
      case AudioChunk(id, sequence, _, _) =>
        id == turn && sequence == last + 1 && Numbered(events[1..], turn, last + 1)
      case _ => Numbered(events[1..], turn, last)
  }

  /** Where the numbering stands after the events. */
  function Standing(events: seq<ServerEvent>, turn: Id, last: nat): (Id, nat) {
    if events == [] then (turn, last)
    else match events[0]
      case TurnStarted(id) => Standing(events[1..], id, 0)
      case AudioChunk(id, sequence, _, _) => Standing(events[1..], turn, sequence)
      case _ => Standing(events[1..], turn, last)
  }

  lemma {:induction false} NumberedConcat(first: seq<ServerEvent>, rest: seq<ServerEvent>, turn: Id, last: nat)
    requires Numbered(first, turn, last)
    requires Numbered(rest, Standing(first, turn, last).0, Standing(first, turn, last).1)
    ensures Numbered(first + rest, turn, last)
  {
    if first == [] {
      assert first + rest == rest;
    } else {
      assert (first + rest)[1..] == first[1..] + rest;
      match first[0]
      case TurnStarted(id) => NumberedConcat(first[1..], rest, id, 0);
      case AudioChunk(id, sequence, _, _) => NumberedConcat(first[1..], rest, turn, last + 1);
      case _ => NumberedConcat(first[1..], rest, turn, last);
    }
  }

  /** Where one event leaves the numbering. */
  function StandingOne(e: ServerEvent, turn: Id, last: nat): (Id, nat) {
    if e.TurnStarted? then (e.turn, 0) else if e.AudioChunk? then (turn, e.sequence) else (turn, last)
  }

  lemma NumberedOne(e: ServerEvent, turn: Id, last: nat)
    requires e.AudioChunk? ==> e.turn == turn && e.sequence == last + 1
    ensures Numbered([e], turn, last) && Standing([e], turn, last) == StandingOne(e, turn, last)
  {
    assert [e][1..] == [];
  }

  lemma NumberedPair(e: ServerEvent, state: ServerEvent, turn: Id, last: nat)
    requires !e.AudioChunk? && state.SessionState?
    ensures Numbered([e, state], turn, last) && Standing([e, state], turn, last) == StandingOne(e, turn, last)
  {
    assert [e, state] == [e] + [state];
    NumberedOne(e, turn, last);
    NumberedOne(state, StandingOne(e, turn, last).0, StandingOne(e, turn, last).1);
    Appended([e], [state], turn, last);
  }

  lemma InterruptingNumbered(s: MapperState)
    ensures var events := Interrupting(s).1;
            Numbered(events, s.turn, s.sequence) && Standing(events, s.turn, s.sequence) == (s.turn, s.sequence)
  {
    var (s', events) := Interrupting(s);
    if events != [] {
      NumberedPair(events[0], events[1], s.turn, s.sequence);
      assert events == [events[0], events[1]];
    }
  }

  lemma {:induction false} StandingConcat(first: seq<ServerEvent>, rest: seq<ServerEvent>, turn: Id, last: nat)
    ensures var (turn', last') := Standing(first, turn, last);
            Standing(first + rest, turn, last) == Standing(rest, turn', last')
  {
    if first == [] {
      assert first + rest == rest;
    } else {
      assert (first + rest)[1..] == first[1..] + rest;
      match first[0]
      case TurnStarted(id) => StandingConcat(first[1..], rest, id, 0);
      case AudioChunk(id, sequence, _, _) => StandingConcat(first[1..], rest, turn, sequence);
      case _ => StandingConcat(first[1..], rest, turn, last);
    }
  }

  lemma Appended(first: seq<ServerEvent>, rest: seq<ServerEvent>, turn: Id, last: nat)
    requires Numbered(first, turn, last)
    requires Numbered(rest, Standing(first, turn, last).0, Standing(first, turn, last).1)
    ensures Numbered(first + rest, turn, last)
    ensures Standing(first + rest, turn, last) ==
            Standing(rest, Standing(first, turn, last).0, Standing(first, turn, last).1)
  {
    NumberedConcat(first, rest, turn, last);
    StandingConcat(first, rest, turn, last);
  }

  lemma UserStartNumbered(s: MapperState, e: ProviderEvent, random: Id)
    requires Bounded(s) && e.ContentStart? && MappingUserStart(s, e, random).1.Events?
    ensures var (s', outcome) := MappingUserStart(s, e, random);
            Numbered(outcome.events, s.turn, s.sequence) &&
            Standing(outcome.events, s.turn, s.sequence) == (s'.turn, s'.sequence)
  {
    var (s', outcome) := MappingUserStart(s, e, random);
    var (s0, interrupted) := InterruptingResponse(s.(waitingUser := false));
    var (s1, started) := OpeningUserTurn(s0, random);
    InterruptingNumbered(s.(waitingUser := false));
    if started != [] {
      NumberedOne(started[0], s0.turn, s0.sequence);
    }
    Appended(interrupted, started, s.turn, s.sequence);
    NumberedOne(StateEvent(s'), s1.turn, s1.sequence);
    Appended(interrupted + started, [StateEvent(s')], s.turn, s.sequence);
  }

  lemma EndNumbered(s: MapperState, cid: Id, stop: StopReason)
    requires Bounded(s) && !Stale(s, cid) && MappingEnd(s, cid, stop).1.Events?
    ensures var (s', outcome) := MappingEnd(s, cid, stop);
            Numbered(outcome.events, s.turn, s.sequence) &&
            Standing(outcome.events, s.turn, s.sequence) == (s'.turn, s'.sequence)
  {
    var (s', outcome) := MappingEnd(s, cid, stop);
    if outcome.events != [] {
      assert outcome.events == [outcome.events[0], outcome.events[1]];
      NumberedPair(outcome.events[0], outcome.events[1], s.turn, s.sequence);
    }
  }

  lemma StepNumbered(s: MapperState, call: Call)
    requires Bounded(s) && Step(s, call).1.Events?
    ensures Numbered(StepEvents(s, call), s.turn, s.sequence)
    ensures Standing(StepEvents(s, call), s.turn, s.sequence) == (Step(s, call).0.turn, Step(s, call).0.sequence)
  {
    var events := StepEvents(s, call);
    if call.InputCall? {
      var (s0, interrupted) := InterruptingResponse(s);
      var s' := Step(s, call).0;
      InterruptingNumbered(s);
      NumberedPair(TurnStarted(call.id), StateEvent(s'), s.turn, s.sequence);
      Appended(interrupted, [TurnStarted(call.id), StateEvent(s')], s.turn, s.sequence);
    } else if call.MapCall? && call.event.ContentStart? && call.event.role == User {
      UserStartNumbered(s, call.event, call.random);
    } else if call.MapCall? && call.event.ContentEnd? && !Stale(s, call.event.cid) {
      EndNumbered(s, call.event.cid, call.event.stop);
    } else if |events| == 1 {
      assert events == [events[0]];
      NumberedOne(events[0], s.turn, s.sequence);
    } else if |events| == 2 {
      assert events == [events[0], events[1]];
      NumberedPair(events[0], events[1], s.turn, s.sequence);
    }
  }

  /** Between two starts, chunks carry the started turn and the numbers 1, 2, 3, ..., for all calls. */
  lemma {:induction false} AudioIsNumbered(s: MapperState, calls: seq<Call>)
    requires Bounded(s)
    ensures Numbered(Emitted(s, calls), s.turn, s.sequence)
    decreases |calls|
  {
    if calls != [] && Step(s, calls[0]).1.Events? {
      StepKeepsBounded(s, calls[0]);
      StepNumbered(s, calls[0]);
      var s' := Step(s, calls[0]).0;
      AudioIsNumbered(s', calls[1..]);
      Appended(StepEvents(s, calls[0]), Emitted(s', calls[1..]), s.turn, s.sequence);
    }
  }

  /** The sequence numbers of the chunks of one turn, in order of emission. */
  function NumbersOf(events: seq<ServerEvent>, turn: Id): seq<nat> {
    if events == [] then []
    else (if events[0].AudioChunk? && events[0].turn == turn then [events[0].sequence] else [])
         + NumbersOf(events[1..], turn)
  }

  function Starts(events: seq<ServerEvent>, turn: Id): nat {
    if events == [] then 0 else (if events[0] == TurnStarted(turn) then 1 else 0) + Starts(events[1..], turn)
  }

  function From(n: nat, count: nat): seq<nat> {
    seq(count, i requires 0 <= i => n + i)
  }

  predicate ChunkOf(e: ServerEvent, turn: Id) {
    e.AudioChunk? && e.turn == turn
  }

  /** The turn is started again after one of its chunks and before another. */
  predicate RestartsBetween(events: seq<ServerEvent>, turn: Id, i: nat, j: nat, k: nat)
    requires i < j < k < |events|
  {
    ChunkOf(events[i], turn) && events[j] == TurnStarted(turn) && ChunkOf(events[k], turn)
  }

  predicate Restarted(events: seq<ServerEvent>, turn: Id) {
    exists i: nat, j: nat, k: nat :: i < j < k < |events| && RestartsBetween(events, turn, i, j, k)
  }

  datatype Phase = Unheard | Sounding | Reopened

  /** Looks for a chunk, then a start, then a chunk, all of one turn. */
  predicate Resumes(events: seq<ServerEvent>, turn: Id, phase: Phase)
    decreases |events|
  {
    if events == [] then false
    else if phase == Unheard && ChunkOf(events[0], turn) then Resumes(events[1..], turn, Sounding)
    else if phase == Sounding && events[0] == TurnStarted(turn) then Resumes(events[1..], turn, Reopened)
    else (phase == Reopened && ChunkOf(events[0], turn)) || Resumes(events[1..], turn, phase)
  }

  lemma {:induction false} FoundAgain(events: seq<ServerEvent>, turn: Id, phase: Phase) returns (i: nat, j: nat, k: nat)
    requires Resumes(events, turn, phase)
    ensures k < |events| && ChunkOf(events[k], turn)
    ensures phase != Reopened ==> j < k && events[j] == TurnStarted(turn)
    ensures phase == Unheard ==> i < j && ChunkOf(events[i], turn)
    decreases |events|
  {
    i, j, k := 0, 0, 0;
    if phase == Unheard && ChunkOf(events[0], turn) {
      i, j, k := FoundAgain(events[1..], turn, Sounding);
      i, j, k := 0, j + 1, k + 1;
    } else if phase == Sounding && events[0] == TurnStarted(turn) {
      i, j, k := FoundAgain(events[1..], turn, Reopened);
      j, k := 0, k + 1;
    } else if !(phase == Reopened && ChunkOf(events[0], turn)) {
      i, j, k := FoundAgain(events[1..], turn, phase);
      i, j, k := i + 1, j + 1, k + 1;
    }
  }

  lemma {:induction false} FindsAgain(events: seq<ServerEvent>, turn: Id, phase: Phase, i: int, j: int, k: nat)
    requires k < |events| && ChunkOf(events[k], turn)
    requires phase != Reopened ==> 0 <= j < k && events[j] == TurnStarted(turn)
    requires phase == Unheard ==> 0 <= i < j && ChunkOf(events[i], turn)
    ensures Resumes(events, turn, phase)
    decreases |events|
  {
    if phase == Unheard && ChunkOf(events[0], turn) {
      FindsAgain(events[1..], turn, Sounding, i, j - 1, k - 1);
    } else if phase == Sounding && events[0] == TurnStarted(turn) {
      FindsAgain(events[1..], turn, Reopened, i, j, k - 1);
    } else if !(phase == Reopened && ChunkOf(events[0], turn)) {
      FindsAgain(events[1..], turn, phase, i - 1, j - 1, k - 1);
    }
  }

  lemma RestartedIff(events: seq<ServerEvent>, turn: Id)
    ensures Restarted(events, turn) <==> Resumes(events, turn, Unheard)
  {
    if Resumes(events, turn, Unheard) {
      var i, j, k := FoundAgain(events, turn, Unheard);
      assert RestartsBetween(events, turn, i, j, k);
    }
    if Restarted(events, turn) {
      var i: nat, j: nat, k: nat :| i < j < k < |events| && RestartsBetween(events, turn, i, j, k);
      FindsAgain(events, turn, Unheard, i, j, k);
    }
  }

  /** After heard chunks of a turn: whether the next would continue them, when the turn is the current one. */
  predicate InPhase(phase: Phase, current: Id, last: nat, turn: Id, heard: nat) {
    && (phase == Unheard <==> heard == 0)
    && (current == turn ==> last == if phase == Sounding then heard else 0)
  }

  lemma FromFirst(first: nat, rest: seq<nat>, n: nat)
    ensures [first] + rest == From(n, |rest| + 1) <==> first == n && rest == From(n + 1, |rest|)
  {
    assert From(n, |rest| + 1) == [n] + From(n + 1, |rest|);
    assert ([first] + rest)[1..] == rest && ([n] + From(n + 1, |rest|))[1..] == From(n + 1, |rest|);
    assert ([first] + rest)[0] == first && ([n] + From(n + 1, |rest|))[0] == n;
  }

  lemma {:induction false} NumbersGoOnIff(events: seq<ServerEvent>, current: Id, last: nat, turn: Id, heard: nat,
                                          phase: Phase)
    requires Numbered(events, current, last) && InPhase(phase, current, last, turn, heard)
    ensures NumbersOf(events, turn) == From(heard + 1, |NumbersOf(events, turn)|) <==> !Resumes(events, turn, phase)
    decreases |events|
  {
    if events != [] {
      match events[0]
      case TurnStarted(id) =>
        NumbersGoOnIff(events[1..], id, 0, turn, heard, if id == turn && phase == Sounding then Reopened else phase);
      case AudioChunk(id, sequence, _, _) =>
        if id != turn {
          NumbersGoOnIff(events[1..], current, last + 1, turn, heard, phase);
        } else {
          FromFirst(sequence, NumbersOf(events[1..], turn), heard + 1);
          if phase != Reopened {
            NumbersGoOnIff(events[1..], current, last + 1, turn, heard + 1, Sounding);
          }
        }
      case _ => NumbersGoOnIff(events[1..], current, last, turn, heard, phase);
    }
  }

  lemma NumbersIff(events: seq<ServerEvent>, current: Id, last: nat, turn: Id)
    requires Numbered(events, current, last) && last == 0
    ensures NumbersOf(events, turn) == From(1, |NumbersOf(events, turn)|) <==> !Restarted(events, turn)
  {
    NumbersGoOnIff(events, current, last, turn, 0, Unheard);
    RestartedIff(events, turn);
  }

  /**
   The chunks of a turn in the whole run are numbered exactly 1..n if and only if it is not restarted between two of
   them.
   */
  lemma TurnAudioIsOneToN(history: seq<Message>, calls: seq<Call>, turn: Id)
    ensures var events := Emitted(Fresh(history), calls);
            NumbersOf(events, turn) == From(1, |NumbersOf(events, turn)|) <==> !Restarted(events, turn)
  {
    AudioIsNumbered(Fresh(history), calls);
    NumbersIff(Emitted(Fresh(history), calls), Fresh(history).turn, 0, turn);
  }

  /** A turn that is restarted between two of its chunks is started twice. */
  lemma {:induction false} ResumingStarts(events: seq<ServerEvent>, current: Id, last: nat, turn: Id, phase: Phase)
    requires Numbered(events, current, last) && Resumes(events, turn, phase)
    ensures phase == Unheard ==> Starts(events, turn) >= if current == turn then 1 else 2
    ensures phase == Sounding ==> Starts(events, turn) >= 1
    decreases |events|
  {
    match events[0]
    case TurnStarted(id) =>
      if phase == Sounding && id == turn {
      } else if Resumes(events[1..], turn, phase) {
        ResumingStarts(events[1..], id, 0, turn, phase);
      }
    case AudioChunk(id, sequence, _, _) =>
      if phase == Unheard && id == turn {
        ResumingStarts(events[1..], current, last + 1, turn, Sounding);
      } else if Resumes(events[1..], turn, phase) {
        ResumingStarts(events[1..], current, last + 1, turn, phase);
      }
    case _ => ResumingStarts(events[1..], current, last, turn, phase);
  }

  lemma OnceNumbers(events: seq<ServerEvent>, current: Id, last: nat, turn: Id)
    requires Numbered(events, current, last) && last == 0 && current != turn && Starts(events, turn) <= 1
    ensures NumbersOf(events, turn) == From(1, |NumbersOf(events, turn)|)
  {
    NumbersIff(events, current, last, turn);
    RestartedIff(events, turn);
    if Resumes(events, turn, Unheard) {
      ResumingStarts(events, current, last, turn, Unheard);
    }
  }

  // ----- when a turn is started at most once -----

  /** The ids a call brings in: named by the owner, or drawn for new user speech. */
  function Supplied(call: Call): set<Id> {
    match call
    case AssistantCall(id) => {id}
    case QueueCall(id) => {id}
    case InputCall(id) => {id}
    case InterruptCall => {}
    case MapCall(event, random) => if event.ContentStart? && event.role == User then {random} else {}
  }

  /** Ids are never reused, and the greeting, if any, is begun before the first other id. */
  predicate FreshRun(calls: seq<Call>, used: set<Id>) {
    calls == [] ||
    (Supplied(calls[0]) !! used + {""} && (calls[0].AssistantCall? ==> used == {}) &&
     FreshRun(calls[1..], used + Supplied(calls[0])))
  }

  predicate StartInvariant(s: MapperState, used: set<Id>, started: set<Id>) {
    && started <= used
    && (s.turn == "" || s.turn in started)
    && (s.nextInput == "" || s.nextInput in used)
    && (s.nextInput in started ==> s.nextInput == s.turn || Closed(s, s.nextInput))
  }

  function StepStarted(s: MapperState, call: Call): Option<Id>
    requires Bounded(s)
  {
    match call
    case AssistantCall(id) => Some(id)
    case InputCall(id) => Some(id)
    case MapCall(event, random) =>
      if event.ContentStart? && event.role == User && Step(s, call).1.Events? then
        var s0 := InterruptingResponse(s.(waitingUser := false)).0;
        if Closed(s0, s0.turn) then Some(UserTurn(s0, random)) else None
      else None
    case _ => None
  }

  lemma {:induction false} StartsConcat(first: seq<ServerEvent>, rest: seq<ServerEvent>, turn: Id)
    ensures Starts(first + rest, turn) == Starts(first, turn) + Starts(rest, turn)
  {
    if first == [] {
      assert first + rest == rest;
    } else {
      StartsConcat(first[1..], rest, turn);
      assert (first + rest)[1..] == first[1..] + rest;
    }
  }

  lemma {:induction false} NoStarts(events: seq<ServerEvent>, turn: Id)
    requires forall i | 0 <= i < |events| :: !events[i].TurnStarted?
    ensures Starts(events, turn) == 0
  {
    if events != [] {
      NoStarts(events[1..], turn);
    }
  }

  lemma OneStart(before: seq<ServerEvent>, id: Id, after: seq<ServerEvent>, turn: Id)
    requires forall i | 0 <= i < |before| :: !before[i].TurnStarted?
    requires forall i | 0 <= i < |after| :: !after[i].TurnStarted?
    ensures Starts(before + [TurnStarted(id)] + after, turn) == if id == turn then 1 else 0
  {
    NoStarts(before, turn);
    NoStarts(after, turn);
    StartsConcat(before, [TurnStarted(id)], turn);
    StartsConcat(before + [TurnStarted(id)], after, turn);
    assert [TurnStarted(id)][1..] == [];
  }

  lemma UserStartStarts(s: MapperState, e: ProviderEvent, random: Id, turn: Id)
    requires Bounded(s) && e.ContentStart? && e.role == User && MappingUserStart(s, e, random).1.Events?
    ensures Starts(MappingUserStart(s, e, random).1.events, turn) ==
            if StepStarted(s, MapCall(e, random)) == Some(turn) then 1 else 0
  {
    var (s', outcome) := MappingUserStart(s, e, random);
    var (s0, interrupted) := InterruptingResponse(s.(waitingUser := false));
    var (s1, started) := OpeningUserTurn(s0, random);
    if started == [] {
      NoStarts(outcome.events, turn);
    } else {
      OneStart(interrupted, s1.turn, [StateEvent(s')], turn);
      assert outcome.events == interrupted + [TurnStarted(s1.turn)] + [StateEvent(s')];
    }
  }

  predicate StartsUserContent(call: Call) {
    call.MapCall? && call.event.ContentStart? && call.event.role == User
  }

  /** What a change that opens no turn keeps. */
  predicate KeepsTurn(s: MapperState, s': MapperState, outcome: Outcome) {
    && s'.turn == s.turn && s'.nextInput == s.nextInput
    && s.answered <= s'.answered && s.cancelled <= s'.cancelled
    && (outcome.Events? ==> forall i | 0 <= i < |outcome.events| :: !outcome.events[i].TurnStarted?)
  }

  lemma EndKeepsTurn(s: MapperState, cid: Id, stop: StopReason)
    requires Bounded(s) && cid in s.contents
    ensures KeepsTurn(s, MappingEnd(s, cid, stop).0, MappingEnd(s, cid, stop).1)
  {
  }

  lemma OtherMappingKeepsTurn(s: MapperState, call: Call)
    requires Bounded(s) && call.MapCall? && !StartsUserContent(call)
    ensures KeepsTurn(s, Step(s, call).0, Step(s, call).1)
  {
    if call.event.ContentEnd? && !Stale(s, call.event.cid) {
      EndKeepsTurn(s, call.event.cid, call.event.stop);
    }
  }

  lemma StepStarts(s: MapperState, call: Call, turn: Id)
    requires Bounded(s) && Step(s, call).1.Events?
    ensures Starts(StepEvents(s, call), turn) == if StepStarted(s, call) == Some(turn) then 1 else 0
  {
    var events, s' := StepEvents(s, call), Step(s, call).0;
    if call.InputCall? {
      var interrupted := InterruptingResponse(s).1;
      OneStart(interrupted, call.id, [StateEvent(s')], turn);
      assert events == interrupted + [TurnStarted(call.id)] + [StateEvent(s')];
    } else if call.AssistantCall? {
      OneStart([], call.id, [StateEvent(s')], turn);
      assert events == [] + [TurnStarted(call.id)] + [StateEvent(s')];
    } else if StartsUserContent(call) {
      UserStartStarts(s, call.event, call.random, turn);
    } else {
      if call.MapCall? {
        OtherMappingKeepsTurn(s, call);
      }
      NoStarts(events, turn);
    }
  }

  lemma UserStartKeepsStarts(s: MapperState, e: ProviderEvent, random: Id, used: set<Id>, started: set<Id>)
    requires Bounded(s) && e.ContentStart? && e.role == User && MappingUserStart(s, e, random).1.Events?
    requires StartInvariant(s, used, started) && random !in used + {""}
    ensures var begun := StepStarted(s, MapCall(e, random));
            var started' := if begun.Some? then started + {begun.value} else started;
            (begun.Some? ==> begun.value !in started) &&
            StartInvariant(MappingUserStart(s, e, random).0, used + {random}, started')
  {
    var s' := MappingUserStart(s, e, random).0;
    var s0 := InterruptingResponse(s.(waitingUser := false)).0;
    assert s'.nextInput == s0.nextInput == s.nextInput && s0.turn == s.turn;
    assert s'.answered == s0.answered && s'.cancelled == s0.cancelled;
  }

  lemma StepKeepsStarts(s: MapperState, call: Call, used: set<Id>, started: set<Id>)
    requires Bounded(s) && Step(s, call).1.Events? && StartInvariant(s, used, started)
    requires Supplied(call) !! used + {""} && (call.AssistantCall? ==> used == {})
    ensures var begun := StepStarted(s, call);
            var started' := if begun.Some? then started + {begun.value} else started;
            (begun.Some? ==> begun.value !in started) &&
            StartInvariant(Step(s, call).0, used + Supplied(call), started')
  {
    if StartsUserContent(call) {
      UserStartKeepsStarts(s, call.event, call.random, used, started);
    } else if call.MapCall? {
      OtherMappingKeepsTurn(s, call);
    }
  }

  lemma {:induction false} StartedAtMostOnceFrom(s: MapperState, calls: seq<Call>, used: set<Id>, started: set<Id>,
                                                 turn: Id)
    requires Bounded(s) && StartInvariant(s, used, started) && FreshRun(calls, used)
    ensures Starts(Emitted(s, calls), turn) <= if turn in started then 0 else 1
    decreases |calls|
  {
    if calls != [] && Step(s, calls[0]).1.Events? {
      var s', begun := Step(s, calls[0]).0, StepStarted(s, calls[0]);
      StepKeepsBounded(s, calls[0]);
      StepStarts(s, calls[0], turn);
      StepKeepsStarts(s, calls[0], used, started);
      var started' := if begun.Some? then started + {begun.value} else started;
      StartedAtMostOnceFrom(s', calls[1..], used + Supplied(calls[0]), started', turn);
      StartsConcat(StepEvents(s, calls[0]), Emitted(s', calls[1..]), turn);
    }
  }

  /** With fresh ids every turn is started at most once, so its chunks are numbered exactly 1..n. */
  lemma FreshIdsNumberEveryTurn(history: seq<Message>, calls: seq<Call>, turn: Id)
    requires FreshRun(calls, {}) && turn != ""
    ensures var events := Emitted(Fresh(history), calls);
            Starts(events, turn) <= 1 && NumbersOf(events, turn) == From(1, |NumbersOf(events, turn)|)
  {
    StartedAtMostOnceFrom(Fresh(history), calls, {}, {}, turn);
    AudioIsNumbered(Fresh(history), calls);
    OnceNumbers(Emitted(Fresh(history), calls), Fresh(history).turn, 0, turn);
  }
}
