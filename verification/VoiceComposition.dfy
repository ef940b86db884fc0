/**
 What the server emits is what the client plays: a session of mappers, renewals
 included, composed with the client's acceptance machine.
 */
module VoiceComposition {
  import opened Basics
  import opened RealtimeMapper
  import opened MapperRuns
  import opened VoiceSessions
  import opened ConversationClient

  datatype Reception = Reception(client: ClientState, effects: seq<Effect>, failure: Option<VoiceFailure>)

  /** The client handles events one by one and stops at the first failure. */
  function Receive(c: ClientState, events: seq<ServerEvent>): Reception
    decreases |events|
  {
    if events == [] then Reception(c, [], None)
    else
      var (c', handled) := HandlingServer(c, events[0]);
      if handled.Err? then Reception(c', [], Some(handled.error))
      else
        var rest := Receive(c', events[1..]);
        Reception(rest.client, handled.value + rest.effects, rest.failure)
  }

  /** Played audio, in order. */
  function Played(effects: seq<Effect>): seq<seq<bv8>> {
    if effects == [] then []
    else (if effects[0].Play? then [effects[0].pcm] else []) + Played(effects[1..])
  }

  /** Emitted audio that belongs to a turn, in order. */
  function Chunks(events: seq<ServerEvent>): seq<seq<bv8>> {
    if events == [] then []
    else (if events[0].AudioChunk? && events[0].turn != "" then [events[0].pcm] else []) + Chunks(events[1..])
  }

  /** Emitted chunks that belong to no turn. */
  function Orphans(events: seq<ServerEvent>): nat {
    if events == [] then 0
    else (if events[0].AudioChunk? && events[0].turn == "" then 1 else 0) + Orphans(events[1..])
  }

  function InterruptedIn(events: seq<ServerEvent>): set<Id> {
    if events == [] then {}
    else (if events[0].TurnInterrupted? then {events[0].turn} else {}) + InterruptedIn(events[1..])
  }

  /**
   Whether client and server stay together when turn t is opened and the client knows the turns in dead as interrupted.
   */
  predicate OpensSafely(s: MapperState, t: Id, dead: set<Id>) {
    ValidId(t) && t !in dead && (t == s.turn && t !in s.cancelled ==> s.sequence == 0)
  }

  /** A turn that is opened is valid, is not known as interrupted, and is not the current one once it has audio. */
  predicate Guarded(s: MapperState, dead: set<Id>, action: Action)
    requires Bounded(s)
  {
    action.Act? && StepStarted(s, action.call).Some? ==>
      OpensSafely(s, StepStarted(s, action.call).value, dead + InterruptedIn(StepEvents(s, action.call)))
  }

  ghost predicate Disciplined(s: MapperState, dead: set<Id>, actions: seq<Action>)
    requires Bounded(s)
    decreases |actions|
  {
    actions == [] ||
    (Guarded(s, dead, actions[0]) &&
     (Server(s, actions[0]).1.Events? ==>
        (ServerKeepsBounded(s, actions[0]);
         Disciplined(Server(s, actions[0]).0, dead + InterruptedIn(Server(s, actions[0]).1.events), actions[1..]))))
  }

  /** Server and client agree on the current turn and on its numbering. */
  predicate Coupled(s: MapperState, c: ClientState) {
    && (s.turn != "" && s.turn !in s.cancelled ==>
          c.outputTurn == Some(s.turn) && c.sequence == s.sequence && s.turn !in c.cancelled)
    && (s.turn != "" ==> ValidId(s.turn))
    && (c.outputTurn == None || c.outputTurn == Some(s.turn)) && c.outputTurn != Some("") && "" !in s.cancelled
    && Quiet(s)
  }

  // ----- one event list at a time -----

  lemma {:induction false} ReceiveConcat(c: ClientState, first: seq<ServerEvent>, rest: seq<ServerEvent>)
    ensures var a := Receive(c, first);
            Receive(c, first + rest) ==
            if a.failure.Some? then a
            else var b := Receive(a.client, rest); Reception(b.client, a.effects + b.effects, b.failure)
    decreases |first|
  {
    if first == [] {
      assert first + rest == rest;
    } else {
      assert (first + rest)[1..] == first[1..] + rest;
      var (c', handled) := HandlingServer(c, first[0]);
      if handled.Ok? {
        ReceiveConcat(c', first[1..], rest);
        var a := Receive(c', first[1..]);
        var b := Receive(a.client, rest);
        assert handled.value + (a.effects + b.effects) == (handled.value + a.effects) + b.effects;
      }
    }
  }

  lemma ReceiveOne(c: ClientState, e: ServerEvent)
    ensures var (c', handled) := HandlingServer(c, e);
            Receive(c, [e]) == if handled.Err? then Reception(c', [], Some(handled.error))
            else Reception(c', handled.value, None)
  {
    assert [e][1..] == [];
    var (c', handled) := HandlingServer(c, e);
    if handled.Ok? {
      assert handled.value + [] == handled.value;
    }
  }

  lemma {:induction false} PlayedConcat(first: seq<Effect>, rest: seq<Effect>)
    ensures Played(first + rest) == Played(first) + Played(rest)
  {
    if first == [] {
      assert first + rest == rest;
    } else {
      PlayedConcat(first[1..], rest);
      assert (first + rest)[1..] == first[1..] + rest;
    }
  }

  lemma EventsConcat(first: seq<ServerEvent>, rest: seq<ServerEvent>)
    ensures Chunks(first + rest) == Chunks(first) + Chunks(rest)
    ensures Orphans(first + rest) == Orphans(first) + Orphans(rest)
    ensures InterruptedIn(first + rest) == InterruptedIn(first) + InterruptedIn(rest)
  {
    ChunksConcat(first, rest);
    OrphansConcat(first, rest);
    InterruptedConcat(first, rest);
  }

  lemma {:induction false} ChunksConcat(first: seq<ServerEvent>, rest: seq<ServerEvent>)
    ensures Chunks(first + rest) == Chunks(first) + Chunks(rest)
  {
    if first == [] {
      assert first + rest == rest;
    } else {
      ChunksConcat(first[1..], rest);
      ConcatHead(first, rest);
    }
  }

  lemma {:induction false} OrphansConcat(first: seq<ServerEvent>, rest: seq<ServerEvent>)
    ensures Orphans(first + rest) == Orphans(first) + Orphans(rest)
  {
    if first == [] {
      assert first + rest == rest;
    } else {
      OrphansConcat(first[1..], rest);
      ConcatHead(first, rest);
    }
  }

  lemma {:induction false} InterruptedConcat(first: seq<ServerEvent>, rest: seq<ServerEvent>)
    ensures InterruptedIn(first + rest) == InterruptedIn(first) + InterruptedIn(rest)
  {
    if first == [] {
      assert first + rest == rest;
    } else {
      InterruptedConcat(first[1..], rest);
      ConcatHead(first, rest);
    }
  }

  lemma ConcatHead(first: seq<ServerEvent>, rest: seq<ServerEvent>)
    requires first != []
    ensures (first + rest)[0] == first[0] && (first + rest)[1..] == first[1..] + rest
  {
  }

  /**
   What receiving events must amount to: it fails only on the 129th interrupted turn;
   otherwise it plays exactly their chunks and rejects exactly their orphans.
   */
  ghost predicate Faithful(c: ClientState, events: seq<ServerEvent>) {
    var r := Receive(c, events);
    && (r.failure.None? <==> |c.cancelled + InterruptedIn(events)| <= MAX_CANCELLED)
    && (r.failure.None? ==>
          && Played(r.effects) == Chunks(events)
          && r.client.rejectedAudio == c.rejectedAudio + Orphans(events)
          && r.client.cancelled == c.cancelled + InterruptedIn(events))
  }

  lemma FaithfulConcat(c: ClientState, first: seq<ServerEvent>, rest: seq<ServerEvent>)
    requires Faithful(c, first)
    requires Receive(c, first).failure.None? ==> Faithful(Receive(c, first).client, rest)
    ensures Faithful(c, first + rest)
  {
    ReceiveConcat(c, first, rest);
    EventsConcat(first, rest);
    var r := Receive(c, first);
    var all := c.cancelled + InterruptedIn(first + rest);
    assert all == (c.cancelled + InterruptedIn(first)) + InterruptedIn(rest);
    if r.failure.None? {
      PlayedConcat(r.effects, Receive(r.client, rest).effects);
    } else {
      SubsetSize(c.cancelled + InterruptedIn(first), all);
    }
  }

  /** Events the client is ready for in state c. */
  predicate Expected(c: ClientState, e: ServerEvent) {
    match e
    case TurnStarted(turn) => ValidId(turn) && turn !in c.cancelled
    case TurnInterrupted(turn) => turn != ""
    case AudioChunk(turn, sequence, rate, pcm) =>
      turn != "" ==>
        c.outputTurn == Some(turn) && turn !in c.cancelled && sequence == c.sequence + 1 && Playable(Base64(pcm), rate)
    case _ => true
  }

  lemma FaithfulOne(c: ClientState, e: ServerEvent)
    requires |c.cancelled| <= MAX_CANCELLED && Expected(c, e)
    ensures Faithful(c, [e])
    ensures Receive(c, [e]).client == HandlingServer(c, e).0
    ensures HandlingServer(c, e).1.Err? ==> e.TurnInterrupted? && |c.cancelled + {e.turn}| > MAX_CANCELLED
  {
    HandledOne(c, e);
    ReceiveOne(c, e);
    MeasureOne(e);
  }

  lemma HandledOne(c: ClientState, e: ServerEvent)
    requires |c.cancelled| <= MAX_CANCELLED && Expected(c, e)
    ensures var (c', handled) := HandlingServer(c, e);
            var interrupted := if e.TurnInterrupted? then {e.turn} else {};
            && (handled.Ok? <==> |c.cancelled + interrupted| <= MAX_CANCELLED)
            && (handled.Ok? ==>
                  && Played(handled.value) == (if e.AudioChunk? && e.turn != "" then [e.pcm] else [])
                  && c'.rejectedAudio == c.rejectedAudio + (if e.AudioChunk? && e.turn == "" then 1 else 0)
                  && c'.cancelled == c.cancelled + interrupted)
  {
    assert c.cancelled + {} == c.cancelled;
    var handled := HandlingServer(c, e).1;
    if handled.Ok? {
      PlayedShort(handled.value);
    }
  }

  lemma MeasureOne(e: ServerEvent)
    ensures Chunks([e]) == if e.AudioChunk? && e.turn != "" then [e.pcm] else []
    ensures Orphans([e]) == if e.AudioChunk? && e.turn == "" then 1 else 0
    ensures InterruptedIn([e]) == if e.TurnInterrupted? then {e.turn} else {}
  {
    assert [e][1..] == [];
  }

  lemma PlayedShort(effects: seq<Effect>)
    ensures effects == [ClearPlayback] || effects == [ClearPlayback, RenewInput] ==> Played(effects) == []
    ensures |effects| == 1 && effects[0].Play? ==> Played(effects) == [effects[0].pcm]
  {
    if |effects| == 1 {
      assert effects[1..] == [];
    } else if |effects| == 2 {
      assert effects == [effects[0]] + [effects[1]];
      PlayedConcat([effects[0]], [effects[1]]);
    }
  }

  lemma FaithfulNone(c: ClientState)
    requires |c.cancelled| <= MAX_CANCELLED
    ensures Faithful(c, []) && Receive(c, []).client == c
  {
    assert c.cancelled + {} == c.cancelled;
  }

  /** What a step owes the composition. */
  ghost predicate Composes(s': MapperState, c: ClientState, events: seq<ServerEvent>) {
    Faithful(c, events) && (Receive(c, events).failure.None? ==> Coupled(s', Receive(c, events).client))
  }

  lemma ComposesOne(s': MapperState, c: ClientState, e: ServerEvent)
    requires |c.cancelled| <= MAX_CANCELLED && Expected(c, e)
    requires HandlingServer(c, e).1.Ok? ==> Coupled(s', HandlingServer(c, e).0)
    ensures Composes(s', c, [e])
  {
    FaithfulOne(c, e);
    ReceiveOne(c, e);
  }

  lemma ComposesConcat(s1: MapperState, s': MapperState, c: ClientState, first: seq<ServerEvent>,
                       rest: seq<ServerEvent>)
    requires Composes(s1, c, first)
    requires Receive(c, first).failure.None? ==> Composes(s', Receive(c, first).client, rest)
    ensures Composes(s', c, first + rest)
  {
    FaithfulConcat(c, first, rest);
    ReceiveConcat(c, first, rest);
  }

  lemma FaithfulBounds(c: ClientState, events: seq<ServerEvent>)
    requires Faithful(c, events) && Receive(c, events).failure.None?
    ensures |Receive(c, events).client.cancelled| <= MAX_CANCELLED
  {
  }

  /** Appending an event to a list that composes. */
  lemma ComposesThen(s1: MapperState, s': MapperState, c: ClientState, first: seq<ServerEvent>, e: ServerEvent)
    requires Composes(s1, c, first)
    requires var r := Receive(c, first);
             r.failure.None? && |r.client.cancelled| <= MAX_CANCELLED ==>
             Expected(r.client, e) && (HandlingServer(r.client, e).1.Ok? ==> Coupled(s', HandlingServer(r.client, e).0))
    ensures Composes(s', c, first + [e])
  {
    var r := Receive(c, first);
    if r.failure.None? {
      FaithfulBounds(c, first);
      ComposesOne(s', r.client, e);
    }
    ComposesConcat(s1, s', c, first, [e]);
  }

  // ----- one step at a time -----

  lemma InterruptingComposes(s: MapperState, c: ClientState)
    requires Coupled(s, c) && |c.cancelled| <= MAX_CANCELLED
    ensures Composes(Interrupting(s).0, c, Interrupting(s).1)
  {
    var (s', events) := Interrupting(s);
    if events == [] {
      FaithfulNone(c);
    } else {
      ComposesOne(s', c, TurnInterrupted(s.turn));
      ComposesThen(s', s', c, [TurnInterrupted(s.turn)], StateEvent(s'));
      assert events == [TurnInterrupted(s.turn)] + [StateEvent(s')];
    }
  }

  // ----- opening a turn -----

  /** How a call opens a turn: the state in which it does, after the events of an interruption. */
  datatype Opening = Opening(from: MapperState, before: seq<ServerEvent>)

  function OpeningOf(s: MapperState, call: Call): Opening
    requires Bounded(s)
  {
    match call
    case InputCall(_) => Opening(InterruptingResponse(s).0, InterruptingResponse(s).1)
    case MapCall(_, _) =>
      Opening(InterruptingResponse(s.(waitingUser := false)).0, InterruptingResponse(s.(waitingUser := false)).1)
    case _ => Opening(s, [])
  }

  function Opened(before: seq<ServerEvent>, t: Id, s': MapperState): seq<ServerEvent> {
    before + [TurnStarted(t)] + [StateEvent(s')]
  }

  lemma OpeningShape(s: MapperState, call: Call, t: Id)
    requires Bounded(s) && Step(s, call).1.Events? && StepStarted(s, call) == Some(t)
    ensures var o, s' := OpeningOf(s, call), Step(s, call).0;
            && StepEvents(s, call) == Opened(o.before, t, s')
            && s'.turn == t && s'.sequence == 0 && s'.cancelled == o.from.cancelled
            && o.from.turn == s.turn && o.from.sequence == s.sequence
  {
  }

  lemma BeforeComposes(s: MapperState, c: ClientState, call: Call)
    requires Bounded(s) && Coupled(s, c) && |c.cancelled| <= MAX_CANCELLED
    ensures Composes(OpeningOf(s, call).from, c, OpeningOf(s, call).before)
  {
    FaithfulNone(c);
    if call.InputCall? && s.activity == Responding {
      InterruptingComposes(s, c);
    } else if call.MapCall? && s.activity == Responding {
      InterruptingComposes(s.(waitingUser := false), c);
    }
  }

  lemma OpenedInterrupts(before: seq<ServerEvent>, t: Id, s': MapperState)
    ensures InterruptedIn(Opened(before, t, s')) == InterruptedIn(before)
  {
    InterruptedConcat(before + [TurnStarted(t)], [StateEvent(s')]);
    InterruptedConcat(before, [TurnStarted(t)]);
    MeasureOne(TurnStarted(t));
    MeasureOne(StateEvent(s'));
  }

  /** What the client makes of an opening. */
  lemma OpenedReceived(c: ClientState, before: seq<ServerEvent>, t: Id, s': MapperState)
    requires Receive(c, before).failure.None?
    ensures var r, r' := Receive(c, before).client, Receive(c, Opened(before, t, s'));
            if !ValidId(t) || t in r.cancelled then r'.failure == Some(InvalidEvent)
            else r'.failure.None? && r'.client == StartingTurn(r, Some(t)).0.(phase := Active(s'.activity))
  {
    var r := Receive(c, before).client;
    ReceiveConcat(c, before, [TurnStarted(t)]);
    ReceiveOne(r, TurnStarted(t));
    ReceiveConcat(c, before + [TurnStarted(t)], [StateEvent(s')]);
    ReceiveOne(HandlingServer(r, TurnStarted(t)).0, StateEvent(s'));
  }

  lemma StartedCouples(s: MapperState, s': MapperState, c: ClientState, t: Id)
    requires Coupled(s, c) && OpensSafely(s, t, c.cancelled)
    requires s'.turn == t && s'.sequence == 0 && s'.cancelled == s.cancelled
    ensures Expected(c, TurnStarted(t)) && Coupled(s', HandlingServer(c, TurnStarted(t)).0)
  {
  }

  lemma SafeOpeningComposes(s: MapperState, s': MapperState, c: ClientState, before: seq<ServerEvent>, t: Id)
    requires Composes(s, c, before)
    requires var r := Receive(c, before);
             r.failure.None? ==> OpensSafely(s, t, r.client.cancelled)
    requires s'.turn == t && s'.sequence == 0 && s'.cancelled == s.cancelled
    ensures Composes(s', c, Opened(before, t, s'))
  {
    var r := Receive(c, before);
    if r.failure.None? {
      StartedCouples(s, s', r.client, t);
    }
    ComposesThen(s, s', c, before, TurnStarted(t));
    ComposesThen(s', s', c, before + [TurnStarted(t)], StateEvent(s'));
  }

  lemma UnsafeOpeningFails(s: MapperState, s': MapperState, c: ClientState, before: seq<ServerEvent>, t: Id)
    requires Composes(s, c, before) && Receive(c, before).failure.None?
    requires !OpensSafely(s, t, Receive(c, before).client.cancelled)
    requires s'.turn == t && s'.sequence == 0 && s'.cancelled == s.cancelled
    ensures !Composes(s', c, Opened(before, t, s'))
  {
    OpenedReceived(c, before, t, s');
    OpenedInterrupts(before, t, s');
  }

  /** The interruptions of a step, as the client counts them. */
  function DeadAfter(s: MapperState, c: ClientState, call: Call): set<Id>
    requires Bounded(s)
  {
    c.cancelled + InterruptedIn(StepEvents(s, call))
  }

  /**
   In every coupled state, a call that opens turn t keeps client and server together exactly when the client has no
   room for another interruption, or t is valid, was not interrupted, and is not the current turn once it has audio.
   */
  lemma OpeningIsSafeIff(s: MapperState, c: ClientState, call: Call, t: Id)
    requires Bounded(s) && Coupled(s, c) && |c.cancelled| <= MAX_CANCELLED
    requires Step(s, call).1.Events? && StepStarted(s, call) == Some(t)
    ensures Composes(Step(s, call).0, c, StepEvents(s, call)) <==>
            |DeadAfter(s, c, call)| > MAX_CANCELLED || OpensSafely(s, t, DeadAfter(s, c, call))
  {
    var o, s' := OpeningOf(s, call), Step(s, call).0;
    OpeningShape(s, call, t);
    BeforeComposes(s, c, call);
    OpenedInterrupts(o.before, t, s');
    OpensIff(o.from, s', c, o.before, t);
  }

  lemma OpensIff(s: MapperState, s': MapperState, c: ClientState, before: seq<ServerEvent>, t: Id)
    requires Composes(s, c, before) && s'.turn == t && s'.sequence == 0 && s'.cancelled == s.cancelled
    ensures Composes(s', c, Opened(before, t, s')) <==>
            |c.cancelled + InterruptedIn(before)| > MAX_CANCELLED
            || OpensSafely(s, t, c.cancelled + InterruptedIn(before))
  {
    var r := Receive(c, before);
    if r.failure.None? && !OpensSafely(s, t, r.client.cancelled) {
      UnsafeOpeningFails(s, s', c, before, t);
    } else {
      SafeOpeningComposes(s, s', c, before, t);
    }
  }

  /** Opening a turn that the client knows as interrupted is an error at the client, in every coupled state. */
  lemma RestartingInterruptedTurnFails(s: MapperState, c: ClientState, call: Call, t: Id)
    requires Bounded(s) && Coupled(s, c) && |c.cancelled| <= MAX_CANCELLED
    requires Step(s, call).1.Events? && StepStarted(s, call) == Some(t) && t in c.cancelled
    ensures Receive(c, StepEvents(s, call)).failure == Some(InvalidEvent)
  {
    var o, s' := OpeningOf(s, call), Step(s, call).0;
    OpeningShape(s, call, t);
    BeforeComposes(s, c, call);
    if Receive(c, o.before).failure.None? {
      OpenedReceived(c, o.before, t, s');
    } else {
      BeforeFails(s, c, call);
      ReceiveConcat(c, o.before, [TurnStarted(t)]);
      ReceiveConcat(c, o.before + [TurnStarted(t)], [StateEvent(s')]);
    }
  }

  lemma BeforeFails(s: MapperState, c: ClientState, call: Call)
    requires Bounded(s) && Coupled(s, c) && Receive(c, OpeningOf(s, call).before).failure.Some?
    ensures Receive(c, OpeningOf(s, call).before).failure == Some(InvalidEvent)
  {
    var before := OpeningOf(s, call).before;
    if before != [] {
      assert before == [before[0]] + [before[1]];
      ReceiveConcat(c, [before[0]], [before[1]]);
      ReceiveOne(c, before[0]);
      ReceiveOne(HandlingServer(c, before[0]).0, before[1]);
    }
  }

  /**
   Opening the current turn again once it has audio goes unnoticed by the client, which keeps its numbering while the
   mapper restarts: the next chunk, whatever it holds, is out of order.
   */
  lemma RestartingCurrentTurnFails(s: MapperState, c: ClientState, call: Call, t: Id, rate: int, pcm: seq<bv8>)
    requires Bounded(s) && Coupled(s, c) && |c.cancelled| <= MAX_CANCELLED
    requires Step(s, call).1.Events? && StepStarted(s, call) == Some(t)
    requires |DeadAfter(s, c, call)| <= MAX_CANCELLED && t !in DeadAfter(s, c, call) && ValidId(t)
    requires t == s.turn && t !in s.cancelled && s.sequence > 0
    ensures var r := Receive(c, StepEvents(s, call));
            r.failure.None? && HandlingServer(r.client, AudioChunk(t, Step(s, call).0.sequence + 1, rate, pcm)).1 ==
              Err(AudioOrder)
  {
    var o, s' := OpeningOf(s, call), Step(s, call).0;
    OpeningShape(s, call, t);
    BeforeComposes(s, c, call);
    OpenedInterrupts(o.before, t, s');
    OpenedReceived(c, o.before, t, s');
  }

  /** New user speech in a turn that is already open. */
  lemma UserStartComposes(s: MapperState, c: ClientState, e: ProviderEvent, random: Id)
    requires Bounded(s) && Coupled(s, c) && |c.cancelled| <= MAX_CANCELLED && e.ContentStart? && e.role == User
    requires MappingUserStart(s, e, random).1.Events? && StepStarted(s, MapCall(e, random)).None?
    ensures Composes(MappingUserStart(s, e, random).0, c, MappingUserStart(s, e, random).1.events)
  {
    var o := OpeningOf(s, MapCall(e, random));
    ListeningShape(s, e, random);
    BeforeComposes(s, c, MapCall(e, random));
    ListeningComposes(o.from, MappingUserStart(s, e, random).0, c, o.before);
  }

  lemma ListeningShape(s: MapperState, e: ProviderEvent, random: Id)
    requires Bounded(s) && e.ContentStart? && e.role == User
    requires MappingUserStart(s, e, random).1.Events? && StepStarted(s, MapCall(e, random)).None?
    ensures var (s', outcome) := MappingUserStart(s, e, random);
            var o := OpeningOf(s, MapCall(e, random));
            && outcome.events == o.before + [StateEvent(s')]
            && s'.activity == Listening && s'.turn == o.from.turn && s'.sequence == o.from.sequence
               && s'.cancelled == o.from.cancelled
  {
  }

  lemma ListeningComposes(s: MapperState, s': MapperState, c: ClientState, events: seq<ServerEvent>)
    requires Composes(s, c, events) && s'.activity == Listening
    requires s'.turn == s.turn && s'.sequence == s.sequence && s'.cancelled == s.cancelled
    ensures Composes(s', c, events + [StateEvent(s')])
  {
    ComposesThen(s, s', c, events, StateEvent(s'));
  }

  /** Steps that leave turn, numbering and interruptions as they were. */
  predicate SameVoice(s: MapperState, s': MapperState) {
    s'.turn == s.turn && s'.sequence == s.sequence && s'.cancelled == s.cancelled && Quiet(s')
  }

  /** Events that carry no audio and open or close no turn. */
  predicate Plain(e: ServerEvent) {
    e.SessionState? || e.TurnCompleted? || e.Transcript? || e.ToolStarted?
  }

  lemma PlainComposes(s: MapperState, s': MapperState, c: ClientState, events: seq<ServerEvent>)
    requires Coupled(s, c) && |c.cancelled| <= MAX_CANCELLED && SameVoice(s, s')
    requires |events| <= 2 && forall i | 0 <= i < |events| :: Plain(events[i])
    ensures Composes(s', c, events)
  {
    FaithfulNone(c);
    if |events| == 1 {
      ComposesOne(s', c, events[0]);
      assert events == [events[0]];
    } else if |events| == 2 {
      ComposesOne(s', c, events[0]);
      ComposesThen(s', s', c, [events[0]], events[1]);
      assert events == [events[0]] + [events[1]];
    }
  }

  lemma AudioComposes(s: MapperState, c: ClientState, cid: Id, audio: Payload)
    requires Coupled(s, c) && |c.cancelled| <= MAX_CANCELLED && !Stale(s, cid)
    requires MappingAudio(s, s.contents[cid], audio).1.Events?
    ensures Composes(MappingAudio(s, s.contents[cid], audio).0, c, MappingAudio(s, s.contents[cid], audio).1.events)
  {
    var (s', outcome) := MappingAudio(s, s.contents[cid], audio);
    if outcome.events == [] {
      FaithfulNone(c);
    } else {
      ComposesOne(s', c, outcome.events[0]);
    }
  }

  lemma EndComposes(s: MapperState, c: ClientState, cid: Id, stop: StopReason)
    requires Bounded(s) && Coupled(s, c) && |c.cancelled| <= MAX_CANCELLED && !Stale(s, cid)
    requires MappingEnd(s, cid, stop).1.Events?
    ensures Composes(MappingEnd(s, cid, stop).0, c, MappingEnd(s, cid, stop).1.events)
  {
    if stop == InterruptedTurn {
      InterruptingComposes(s.(contents := s.contents - {cid}), c);
    } else {
      PlainComposes(s, MappingEnd(s, cid, stop).0, c, MappingEnd(s, cid, stop).1.events);
    }
  }

  lemma MapComposes(s: MapperState, c: ClientState, e: ProviderEvent, random: Id)
    requires Bounded(s) && Coupled(s, c) && |c.cancelled| <= MAX_CANCELLED
    requires StepStarted(s, MapCall(e, random)).None? && Mapping(s, e, random).1.Events?
    ensures Composes(Mapping(s, e, random).0, c, Mapping(s, e, random).1.events)
  {
    if e.Interruption? {
      InterruptingComposes(s, c);
    } else if e.ContentStart? && e.role == User {
      UserStartComposes(s, c, e, random);
    } else if e.AudioOutput? && !Stale(s, e.cid) {
      AudioComposes(s, c, e.cid, e.audio);
    } else if e.ContentEnd? && !Stale(s, e.cid) {
      EndComposes(s, c, e.cid, e.stop);
    } else {
      var (s', outcome) := Mapping(s, e, random);
      assert |outcome.events| <= 2 && forall i | 0 <= i < |outcome.events| :: Plain(outcome.events[i]);
      PlainComposes(s, s', c, outcome.events);
    }
  }

  /** What is withheld closes a turn at most, and the client is none the worse for not knowing. */
  lemma WithholdComposes(s: MapperState, c: ClientState, event: Closing, random: Id)
    requires Bounded(s) && Coupled(s, c) && |c.cancelled| <= MAX_CANCELLED
    ensures Composes(Mapping(s, event, random).0, c, [])
  {
    FaithfulNone(c);
    StepSilence(s, MapCall(event, random));
  }

  /** A call that opens no turn. */
  lemma OtherCallComposes(s: MapperState, c: ClientState, call: Call, s': MapperState, events: seq<ServerEvent>)
    requires Bounded(s) && Coupled(s, c) && |c.cancelled| <= MAX_CANCELLED && StepStarted(s, call).None?
    requires Step(s, call) == (s', Events(events))
    ensures Composes(s', c, events)
  {
    match call
    case QueueCall(id) => FaithfulNone(c);
    case InterruptCall => InterruptingComposes(s, c);
    case MapCall(e, random) => MapComposes(s, c, e, random);
  }

  /** An action keeps client and server together exactly when it is guarded, or the client has no room left. */
  lemma StepComposesIff(s: MapperState, c: ClientState, action: Action)
    requires Bounded(s) && Coupled(s, c) && |c.cancelled| <= MAX_CANCELLED && Server(s, action).1.Events?
    ensures var events := Server(s, action).1.events;
            Composes(Server(s, action).0, c, events) <==>
            Guarded(s, c.cancelled, action) || |c.cancelled + InterruptedIn(events)| > MAX_CANCELLED
  {
    match action
    case Renew(history) => ComposesOne(Fresh(history), c, SessionRenewed);
    case Announce(turn, operation, name, arguments) => ComposesOne(s, c, ToolStarted(turn, operation, name, arguments));
    case Withhold(event, random) => WithholdComposes(s, c, event, random);
    case Act(call) =>
      if StepStarted(s, call).Some? {
        OpeningIsSafeIff(s, c, call, StepStarted(s, call).value);
      } else {
        OtherCallComposes(s, c, call, Server(s, action).0, Server(s, action).1.events);
      }
  }

  // ----- whole sessions -----

  lemma {:induction false} SessionComposes(s: MapperState, c: ClientState, actions: seq<Action>)
    requires Bounded(s) && Coupled(s, c) && |c.cancelled| <= MAX_CANCELLED
    requires Disciplined(s, c.cancelled, actions)
    ensures Faithful(c, Written(s, actions))
    decreases |actions|
  {
    if actions == [] || Server(s, actions[0]).1.Failed? {
      FaithfulNone(c);
    } else {
      var s', events := Server(s, actions[0]).0, Server(s, actions[0]).1.events;
      ServerKeepsBounded(s, actions[0]);
      StepComposesIff(s, c, actions[0]);
      var r := Receive(c, events);
      if r.failure.None? {
        SessionComposes(s', r.client, actions[1..]);
      }
      FaithfulConcat(c, events, Written(s', actions[1..]));
    }
  }

  // ----- sessions with fresh ids -----

  predicate AllValid(ids: set<Id>) {
    forall id | id in ids :: ValidId(id)
  }

  /** Every id that a call brings in is one of the voice contract. */
  predicate SuppliesValid(calls: seq<Call>) {
    forall i | 0 <= i < |calls| :: AllValid(Supplied(calls[i]))
  }

  lemma {:induction false} InterruptedIsSaid(events: seq<ServerEvent>, t: Id)
    requires t in InterruptedIn(events)
    ensures TurnInterrupted(t) in events
  {
    if events[0] != TurnInterrupted(t) {
      InterruptedIsSaid(events[1..], t);
    }
  }

  /** An action interrupts the current turn, if any. */
  lemma ActionInterrupts(s: MapperState, action: Action, s': MapperState, events: seq<ServerEvent>, t: Id)
    requires Sane(s) && Server(s, action) == (s', Events(events)) && t in InterruptedIn(events)
    ensures t == s.turn && t != ""
  {
    InterruptedIsSaid(events, t);
    var i :| 0 <= i < |events| && events[i] == TurnInterrupted(t);
    ActionIsLawful(s, action, s', events, if t == "" then "a" else t);
  }

  lemma FreshIsGuarded(s: MapperState, dead: set<Id>, action: Action, used: set<Id>, started: set<Id>)
    requires Sane(s) && StartsKnown(s, used, started) && dead <= started && AllValid(used + Supplies(action))
    requires Supplies(action) !! used + {""} && (action.Act? && action.call.AssistantCall? ==> used == {})
    ensures Guarded(s, dead, action)
  {
    if action.Act? && StepStarted(s, action.call).Some? {
      var t, events := StepStarted(s, action.call).value, StepEvents(s, action.call);
      StartsSpeak(s, action.call);
      ServerKeepsStarts(s, action, used, started);
      assert t in used + Supplies(action);
      if t in InterruptedIn(events) {
        ActionInterrupts(s, action, Server(s, action).0, events, t);
      }
    }
  }

  lemma StartsSpeak(s: MapperState, call: Call)
    requires Bounded(s) && StepStarted(s, call).Some?
    ensures Step(s, call).1 == Events(StepEvents(s, call))
  {
  }

  lemma FreshKeepsDead(s: MapperState, dead: set<Id>, action: Action, used: set<Id>, started: set<Id>)
    requires Sane(s) && Server(s, action).1.Events? && StartsKnown(s, used, started) && dead <= started
    ensures dead + InterruptedIn(Server(s, action).1.events) <= started
  {
    forall t | t in InterruptedIn(Server(s, action).1.events)
      ensures t in started
    {
      ActionInterrupts(s, action, Server(s, action).0, Server(s, action).1.events, t);
    }
  }

  lemma {:induction false} FreshIsDisciplinedFrom(s: MapperState, dead: set<Id>, actions: seq<Action>, used: set<Id>,
                                                  started: set<Id>)
    requires Sane(s) && StartsKnown(s, used, started) && dead <= started && AllValid(used)
    requires FreshRun(CallsIn(actions), used) && SuppliesValid(CallsIn(actions))
    ensures Disciplined(s, dead, actions)
    decreases |actions|
  {
    if actions != [] {
      var action, rest := actions[0], actions[1..];
      assert actions == [action] + rest;
      FreshAction(action, rest, used);
      ValidAction(action, rest);
      FreshIsGuarded(s, dead, action, used, started);
      if Server(s, action).1.Events? {
        var (s', outcome) := Server(s, action);
        FreshKeepsDead(s, dead, action, used, started);
        ServerKeepsStarts(s, action, used, started);
        ActionIsLawful(s, action, s', outcome.events, "a");
        FreshIsDisciplinedFrom(s', dead + InterruptedIn(outcome.events), rest, used + Supplies(action),
                               Extended(started, ActionStarted(s, action)));
      }
    }
  }

  lemma ValidAction(action: Action, rest: seq<Action>)
    requires SuppliesValid(CallsIn([action] + rest))
    ensures AllValid(Supplies(action)) && SuppliesValid(CallsIn(rest))
  {
    assert ([action] + rest)[1..] == rest;
    var first, later := CallsBy(action), CallsIn(rest);
    assert first + later == CallsIn([action] + rest);
    if action.Act? {
      assert (first + later)[0] == action.call;
    }
    forall i | 0 <= i < |later|
      ensures AllValid(Supplied(later[i]))
    {
      assert (first + later)[|first| + i] == later[i];
    }
  }

  /** A session whose ids are valid and never used twice, renewals included, opens only turns that are safe to open. */
  lemma FreshIsDisciplined(history: seq<Message>, actions: seq<Action>)
    requires FreshRun(CallsIn(actions), {}) && SuppliesValid(CallsIn(actions))
    ensures Disciplined(Fresh(history), {}, actions)
  {
    FreshIsDisciplinedFrom(Fresh(history), {}, actions, {}, {});
  }

  function Attached(sessionId: string): ClientState {
    ClientState(Some(sessionId), None, Active(Idle), 0, 0, {})
  }

  /**
   The client fails exactly at more than 128 interrupted turns; else it plays the chunks in order and rejects the
   orphans.
   */
  ghost predicate PlaysAll(sessionId: string, events: seq<ServerEvent>) {
    var r := Receive(Attached(sessionId), events);
    && (r.failure.None? <==> |InterruptedIn(events)| <= MAX_CANCELLED)
    && (r.failure.None? ==> Played(r.effects) == Chunks(events) && r.client.rejectedAudio == Orphans(events))
  }

  /**
   For every session in which the turns opened are valid, were never interrupted, and are not the current one once it
   has audio, renewals included: the client raises no error exactly when at most 128 turns were interrupted,
   and then it plays every chunk emitted for a turn once and in order, and rejects exactly the
   chunks emitted before any turn was opened.
   */
  lemma EmittedIsPlayed(sessionId: string, history: seq<Message>, actions: seq<Action>)
    requires Disciplined(Fresh(history), {}, actions)
    ensures PlaysAll(sessionId, Written(Fresh(history), actions))
  {
    SessionComposes(Fresh(history), Attached(sessionId), actions);
    var events := Written(Fresh(history), actions);
    assert {} + InterruptedIn(events) == InterruptedIn(events);
  }
}
