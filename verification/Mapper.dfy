/**
 Turns provider events into client events (packages/go/realtime/mapper.go).

 MapperState and the functions below describe one call as a change of value;
 class Mapper is the mutable object and is proved against them. Texts are byte
 strings, so that |text| is the byte length the limits speak about.
 */
module RealtimeMapper {
  import opened Basics

  type Id = string

  datatype Role = User | Assistant | OtherRole
  datatype Kind = Text | Audio | OtherKind
  datatype Stage = Final | Speculative | OtherStage
  datatype StopReason = EndTurn | InterruptedTurn | OtherStop
  datatype Activity = Idle | Listening | Responding

  /** An audio field: strict base64 of some bytes, or something that does not decode. */
  datatype Payload = Base64(pcm: seq<bv8>) | Malformed

  datatype ProviderEvent =
    | Failure
    | Interruption
    | CompletionEnd(stop: StopReason)
    | ContentStart(cid: Id, role: Role, kind: Kind, stage: Stage, rate: int)
    | TextOutput(cid: Id, text: string)
    | AudioOutput(cid: Id, audio: Payload)
    | ToolUse(cid: Id, toolId: Id, toolName: string, arguments: string)
    | ContentEnd(cid: Id, stop: StopReason)
    | Unrecognized

  datatype ServerEvent =
    | TurnStarted(turn: Id)
    | TurnInterrupted(turn: Id)
    | TurnCompleted(turn: Id)
    | SessionState(turn: Id, activity: Activity)
    | Transcript(turn: Id, role: Role, stage: Stage, text: string)
    | AudioChunk(turn: Id, sequence: nat, rate: int, pcm: seq<bv8>)
    | ToolStarted(turn: Id, operation: Id, name: string, arguments: string)
    | SessionRenewed

  datatype Message = UserMessage(content: string) | AssistantMessage(content: string)

  datatype Content = Content(turn: Id, kind: Kind, role: Role, stage: Stage, rate: int, text: string)

  datatype Outcome = Events(events: seq<ServerEvent>) | Failed

  datatype MapperState = MapperState(
    turn: Id,
    activity: Activity,
    history: seq<Message>,
    nextInput: Id,
    answered: set<Id>,
    cancelled: set<Id>,
    contents: map<Id, Content>,
    users: map<Id, string>,
    sequence: nat,
    waitingUser: bool)

  const MAX_TURNS: nat := 128
  const MAX_CONTENTS: nat := 1024
  const MAX_TRANSCRIPT: nat := 8192
  const MAX_CHUNK: nat := 262144
  const OUTPUT_RATE: int := 24000
  const MAX_HISTORY_MESSAGES: nat := 32
  const MAX_HISTORY_BYTES: nat := 65536

  function Fresh(history: seq<Message>): MapperState {
    MapperState("", Idle, history, "", {}, {}, map[], map[], 0, false)
  }

  function StateEvent(s: MapperState): ServerEvent {
    SessionState(s.turn, s.activity)
  }

  function Closed(s: MapperState, turn: Id): bool {
    turn == "" || turn in s.answered || turn in s.cancelled
  }

  function StartingAssistant(s: MapperState, id: Id): (MapperState, seq<ServerEvent>) {
    var s' := s.(turn := id, activity := Responding, waitingUser := false, sequence := 0);
    (s', [TurnStarted(id), StateEvent(s')])
  }

  function Interrupting(s: MapperState): (MapperState, seq<ServerEvent>) {
    if s.turn == "" || s.turn in s.cancelled || s.activity == Idle then
      (s, [])
    else
      var s' := s.(cancelled := s.cancelled + {s.turn}, activity := Idle);
      (s', [TurnInterrupted(s.turn), StateEvent(s')])
  }

  function InterruptingResponse(s: MapperState): (MapperState, seq<ServerEvent>) {
    if s.activity == Responding then Interrupting(s) else (s, [])
  }

  function StartingInput(s: MapperState, id: Id): (MapperState, seq<ServerEvent>) {
    var (s0, events) := InterruptingResponse(s);
    var s' := s0.(nextInput := id, turn := id, activity := Listening, sequence := 0, waitingUser := true);
    (s', events + [TurnStarted(id), StateEvent(s')])
  }

  function Completing(s: MapperState): (MapperState, seq<ServerEvent>) {
    var s' := s.(activity := Idle, answered := s.answered + {s.turn});
    (s', [TurnCompleted(s.turn), StateEvent(s')])
  }

  /** The turn that new user speech opens; random is the freshly drawn id. */
  function UserTurn(s: MapperState, random: Id): Id {
    if Closed(s, s.nextInput) then random else s.nextInput
  }

  function OpeningUserTurn(s: MapperState, random: Id): (MapperState, seq<ServerEvent>) {
    if Closed(s, s.turn) then
      var id := UserTurn(s, random);
      (s.(turn := id, sequence := 0), [TurnStarted(id)])
    else
      (s, [])
  }

  function MappingUserStart(s: MapperState, e: ProviderEvent, random: Id): (MapperState, Outcome)
    requires e.ContentStart?
  {
    var (s0, interrupted) := InterruptingResponse(s.(waitingUser := false));
    var (s1, started) := OpeningUserTurn(s0, random);
    var s2 := s1.(activity := Listening);
    if |s2.answered| + |s2.cancelled| >= MAX_TURNS then
      (s2, Failed)
    else
      var s' := s2.(contents := s2.contents[e.cid := Content(s2.turn, e.kind, e.role, e.stage, 0, "")]);
      (s', Events(interrupted + started + [StateEvent(s')]))
  }

  function MappingOtherStart(s: MapperState, e: ProviderEvent): (MapperState, Outcome)
    requires e.ContentStart?
  {
    if s.waitingUser then
      (s, Events([]))
    else if |s.contents| >= MAX_CONTENTS then
      (s, Failed)
    else
      var s1 := s.(contents := s.contents[e.cid := Content(s.turn, e.kind, e.role, e.stage, e.rate, "")]);
      if e.role == Assistant && (e.kind == Audio || e.stage == Speculative) && s.turn !in s.cancelled then
        var s' := s1.(activity := Responding);
        (s', Events([StateEvent(s')]))
      else
        (s1, Events([]))
  }

  function MappingText(s: MapperState, cid: Id, text: string): (MapperState, Outcome)
    requires cid in s.contents
  {
    var c := s.contents[cid];
    if |c.text| + |text| > MAX_TRANSCRIPT then
      (s, Failed)
    else
      (s.(contents := s.contents[cid := c.(text := c.text + text)]),
       Events([Transcript(c.turn, c.role, c.stage, text)]))
  }

  predicate Playable(audio: Payload, rate: int) {
    audio.Base64? && 0 < |audio.pcm| <= MAX_CHUNK && |audio.pcm| % 2 == 0 && rate == OUTPUT_RATE
  }

  function MappingAudio(s: MapperState, c: Content, audio: Payload): (MapperState, Outcome) {
    if s.activity != Responding then
      (s, Events([]))
    else if !Playable(audio, c.rate) then
      (s, Failed)
    else
      (s.(sequence := s.sequence + 1), Events([AudioChunk(c.turn, s.sequence + 1, c.rate, audio.pcm)]))
  }

  function HistoryBytes(messages: seq<Message>): nat {
    if messages == [] then 0 else |messages[0].content| + HistoryBytes(messages[1..])
  }

  predicate Fits(messages: seq<Message>) {
    |messages| <= MAX_HISTORY_MESSAGES && HistoryBytes(messages) <= MAX_HISTORY_BYTES
  }

  lemma ShortHistoryFits(messages: seq<Message>)
    requires messages == [] || |messages[|messages| - 1].content| <= MAX_HISTORY_BYTES
    ensures |messages| <= 1 ==> Fits(messages)
  {
    assert |messages| == 1 ==> messages[1..] == [];
  }

  /** Drops the two oldest messages until the rest fits; the last message always fits alone. */
  function Evicted(messages: seq<Message>): seq<Message>
    requires messages == [] || |messages[|messages| - 1].content| <= MAX_HISTORY_BYTES
  {
    ShortHistoryFits(messages);
    if Fits(messages) then messages else Evicted(messages[2..])
  }

  function UserSpeech(s: MapperState, turn: Id): string {
    if turn in s.users then s.users[turn] else ""
  }

  /** Whether closing content c completes a USER and ASSISTANT exchange. */
  predicate ClosesExchange(s: MapperState, c: Content) {
    c.kind == Text && c.stage == Final && c.role == Assistant && UserSpeech(s, c.turn) != ""
  }

  function Exchange(s: MapperState, c: Content): seq<Message> {
    [UserMessage(UserSpeech(s, c.turn)), AssistantMessage(c.text)]
  }

  function JoinedSpeech(s: MapperState, c: Content): string {
    if UserSpeech(s, c.turn) == "" then c.text else UserSpeech(s, c.turn) + " " + c.text
  }

  /** The transcript part of a contentEnd; None is the transcript limit error. */
  function RecordingFinal(s: MapperState, c: Content): Option<MapperState>
    requires |c.text| <= MAX_TRANSCRIPT
  {
    if c.kind != Text || c.stage != Final then Some(s)
    else if c.role == User then
      if |JoinedSpeech(s, c)| > MAX_TRANSCRIPT then None
      else Some(s.(users := s.users[c.turn := JoinedSpeech(s, c)]))
    else if ClosesExchange(s, c) then
      Some(s.(history := Evicted(s.history + Exchange(s, c)), users := s.users - {c.turn}))
    else
      Some(s)
  }

  function MappingEnd(s: MapperState, cid: Id, stop: StopReason): (MapperState, Outcome)
    requires cid in s.contents && |s.contents[cid].text| <= MAX_TRANSCRIPT
  {
    var c := s.contents[cid];
    var s0 := s.(contents := s.contents - {cid});
    if stop == InterruptedTurn then
      var (s', events) := Interrupting(s0);
      (s', Events(events))
    else
      match RecordingFinal(s0, c)
      case None => (s0, Failed)
      case Some(s1) =>
        if stop == EndTurn && s1.activity == Responding &&
           ((c.kind == Text && c.stage == Final && c.role == Assistant && s1.sequence > 0) || c.kind == Audio)
        then
          var (s', events) := Completing(s1);
          (s', Events(events))
        else
          (s1, Events([]))
  }

  /** Transcripts never outgrow the limit that textOutput enforces. */
  predicate Bounded(s: MapperState) {
    forall cid | cid in s.contents :: |s.contents[cid].text| <= MAX_TRANSCRIPT
  }

  function Mapping(s: MapperState, e: ProviderEvent, random: Id): (MapperState, Outcome)
    requires Bounded(s)
  {
    if e.Failure? then
      (s, Failed)
    else if e.Interruption? then
      var (s', events) := Interrupting(s);
      (s', Events(events))
    else if e.CompletionEnd? then
      if e.stop == EndTurn && s.activity == Responding && s.sequence > 0 then
        var (s', events) := Completing(s);
        (s', Events(events))
      else
        (s, Events([]))
    else if e.ContentStart? then
      if e.role == User then MappingUserStart(s, e, random) else MappingOtherStart(s, e)
    else if e.Unrecognized? || Stale(s, e.cid) then
      (s, Events([]))
    else
      match e
      case TextOutput(cid, text) => MappingText(s, cid, text)
      case AudioOutput(cid, audio) => MappingAudio(s, s.contents[cid], audio)
      case ToolUse(cid, id, name, arguments) =>
        (s, Events([ToolStarted(s.contents[cid].turn, id, name, arguments)]))
      case ContentEnd(cid, stop) => MappingEnd(s, cid, stop)
  }

  /** Content that is unknown, or belongs to another or to an interrupted turn. */
  predicate Stale(s: MapperState, cid: Id) {
    cid !in s.contents || s.contents[cid].turn in s.cancelled || s.contents[cid].turn != s.turn
  }

  class Mapper {
    var TurnId: Id
    var State: Activity
    var History: seq<Message>
    var nextInput: Id
    var answered: set<Id>
    var cancelled: set<Id>
    var contents: map<Id, Content>
    var users: map<Id, string>
    var sequence: nat
    var waitingUser: bool

    ghost function Value(): MapperState
      reads this
    {
      MapperState(TurnId, State, History, nextInput, answered, cancelled, contents, users, sequence, waitingUser)
    }

    constructor (history: seq<Message>)
      ensures Value() == Fresh(history)
    {
      TurnId, State, History, nextInput := "", Idle, history, "";
      answered, cancelled, contents, users := {}, {}, map[], map[];
      sequence, waitingUser := 0, false;
    }

    method StartAssistant(id: Id) returns (events: seq<ServerEvent>)
      modifies this
      ensures (Value(), events) == StartingAssistant(old(Value()), id)
    {
      TurnId := id;
      State := Responding;
      waitingUser := false;
      sequence := 0;
      events := [TurnStarted(id), SessionState(TurnId, State)];
    }

    method QueueInput(id: Id)
      modifies this`nextInput
      ensures Value() == old(Value()).(nextInput := id)
    {
      nextInput := id;
    }

    method Interrupt() returns (events: seq<ServerEvent>)
      modifies this
      ensures (Value(), events) == Interrupting(old(Value()))
    {
      if TurnId == "" || TurnId in cancelled || State == Idle {
        return [];
      }
      cancelled := cancelled + {TurnId};
      State := Idle;
      events := [TurnInterrupted(TurnId), SessionState(TurnId, State)];
    }

    method StartInput(id: Id) returns (events: seq<ServerEvent>)
      modifies this
      ensures (Value(), events) == StartingInput(old(Value()), id)
    {
      events := [];
      if State == Responding {
        events := Interrupt();
      }
      nextInput := id;
      TurnId := id;
      State := Listening;
      sequence := 0;
      waitingUser := true;
      events := events + [TurnStarted(id), SessionState(TurnId, State)];
    }

    method Complete() returns (events: seq<ServerEvent>)
      modifies this
      ensures (Value(), events) == Completing(old(Value()))
    {
      State := Idle;
      answered := answered + {TurnId};
      events := [TurnCompleted(TurnId), SessionState(TurnId, State)];
    }

    method Evict()
      requires History == [] || |History[|History| - 1].content| <= MAX_HISTORY_BYTES
      modifies this`History
      ensures History == Evicted(old(History))
    {
      var size := SumBytes();
      while |History| > MAX_HISTORY_MESSAGES || size > MAX_HISTORY_BYTES
        invariant History == [] || |History[|History| - 1].content| <= MAX_HISTORY_BYTES
        invariant size == HistoryBytes(History)
        invariant Evicted(History) == Evicted(old(History))
        decreases |History|
      {
        ShortHistoryFits(History);
        History := History[2..];
        size := SumBytes();
      }
    }

    method SumBytes() returns (size: nat)
      ensures size == HistoryBytes(History)
    {
      size := 0;
      var i := 0;
      while i < |History|
        invariant 0 <= i <= |History|
        invariant size + HistoryBytes(History[i..]) == HistoryBytes(History)
      {
        size := size + |History[i].content|;
        assert History[i..][1..] == History[i + 1..];
        i := i + 1;
      }
    }

    /** New speech opens a turn of its own when the current one is closed. */
    method OpenUserTurn(random: Id) returns (events: seq<ServerEvent>)
      modifies this`TurnId, this`sequence
      ensures (Value(), events) == OpeningUserTurn(old(Value()), random)
    {
      if !(TurnId == "" || TurnId in answered || TurnId in cancelled) {
        return [];
      }
      var id := nextInput;
      if id == "" || id in answered || id in cancelled {
        id := random;
      }
      TurnId := id;
      sequence := 0;
      events := [TurnStarted(id)];
    }

    method StartUserContent(e: ProviderEvent, random: Id) returns (outcome: Outcome)
      requires e.ContentStart?
      modifies this
      ensures (Value(), outcome) == MappingUserStart(old(Value()), e, random)
    {
      waitingUser := false;
      var events := [];
      if State == Responding {
        events := Interrupt();
      }
      var started := OpenUserTurn(random);
      events := events + started;
      State := Listening;
      if |answered| + |cancelled| >= MAX_TURNS {
        return Failed;
      }
      contents := contents[e.cid := Content(TurnId, e.kind, e.role, e.stage, 0, "")];
      outcome := Events(events + [SessionState(TurnId, State)]);
    }

    method StartOtherContent(e: ProviderEvent) returns (outcome: Outcome)
      requires e.ContentStart?
      modifies this
      ensures (Value(), outcome) == MappingOtherStart(old(Value()), e)
    {
      if waitingUser {
        return Events([]);
      }
      if |contents| >= MAX_CONTENTS {
        return Failed;
      }
      contents := contents[e.cid := Content(TurnId, e.kind, e.role, e.stage, e.rate, "")];
      if e.role == Assistant && (e.kind == Audio || e.stage == Speculative) && TurnId !in cancelled {
        State := Responding;
        return Events([SessionState(TurnId, State)]);
      }
      outcome := Events([]);
    }

    method EndContent(cid: Id, stop: StopReason) returns (outcome: Outcome)
      requires cid in contents && |contents[cid].text| <= MAX_TRANSCRIPT
      modifies this
      ensures (Value(), outcome) == MappingEnd(old(Value()), cid, stop)
    {
      var c := contents[cid];
      contents := contents - {cid};
      if stop == InterruptedTurn {
        var events := Interrupt();
        return Events(events);
      }
      if c.kind == Text && c.stage == Final {
        var previous := if c.turn in users then users[c.turn] else "";
        if c.role == User {
          var text := if previous != "" then previous + " " + c.text else c.text;
          if |text| > MAX_TRANSCRIPT {
            return Failed;
          }
          users := users[c.turn := text];
        } else if c.role == Assistant && previous != "" {
          History := History + [UserMessage(previous), AssistantMessage(c.text)];
          Evict();
          users := users - {c.turn};
        }
        if c.role == Assistant && stop == EndTurn && State == Responding && sequence > 0 {
          var events := Complete();
          return Events(events);
        }
      }
      if c.kind == Audio && stop == EndTurn && State == Responding {
        var events := Complete();
        return Events(events);
      }
      outcome := Events([]);
    }

    method Map(e: ProviderEvent, random: Id) returns (outcome: Outcome)
      requires Bounded(Value())
      modifies this
      ensures (Value(), outcome) == Mapping(old(Value()), e, random)
    {
      if e.Failure? {
        return Failed;
      }
      if e.Interruption? {
        var events := Interrupt();
        return Events(events);
      }
      if e.CompletionEnd? && e.stop == EndTurn && State == Responding && sequence > 0 {
        var events := Complete();
        return Events(events);
      }
      if e.ContentStart? {
        if e.role == User {
          outcome := StartUserContent(e, random);
        } else {
          outcome := StartOtherContent(e);
        }
        return;
      }
      if e.CompletionEnd? || e.Unrecognized? {
        return Events([]);
      }
      if e.cid !in contents || contents[e.cid].turn in cancelled || contents[e.cid].turn != TurnId {
        return Events([]);
      }
      var c := contents[e.cid];
      match e {
        case TextOutput(cid, text) =>
          if |c.text| + |text| > MAX_TRANSCRIPT {
            return Failed;
          }
          contents := contents[cid := c.(text := c.text + text)];
          outcome := Events([Transcript(c.turn, c.role, c.stage, text)]);
        case AudioOutput(_, audio) =>
          if State != Responding {
            return Events([]);
          }
          if !Playable(audio, c.rate) {
            return Failed;
          }
          sequence := sequence + 1;
          outcome := Events([AudioChunk(c.turn, sequence, c.rate, audio.pcm)]);
        case ToolUse(_, id, name, arguments) =>
          outcome := Events([ToolStarted(c.turn, id, name, arguments)]);
        case ContentEnd(cid, stop) =>
          outcome := EndContent(cid, stop);
      }
    }
  }
}
