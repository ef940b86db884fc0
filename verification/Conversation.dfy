/**
 The client's turn and audio acceptance machine
 (apps/apple/VoiceCore/Sources/VoiceCore/ConversationState.swift).
 */
module ConversationClient {
  import opened Basics
  import opened RealtimeMapper

  datatype VoiceFailure = InvalidEvent | Disconnected | SessionMismatch | AudioOrder | AudioFormat

  datatype Body = ErrorBody | Ready | FromServer(event: ServerEvent) | Stopped | Informational

  /** An event as it arrives on the socket, stamped with a version and a session. */
  datatype Delivery = Delivery(version: int, sessionId: Option<string>, body: Body)

  datatype Effect = ReadyEffect | ClearPlayback | Play(pcm: seq<bv8>) | RenewInput | StoppedEffect

  datatype Phase = Detached | Connecting | Active(activity: Activity)

  datatype ClientState = ClientState(
    sessionId: Option<string>,
    outputTurn: Option<Id>,
    phase: Phase,
    rejectedAudio: nat,
    sequence: nat,
    cancelled: set<Id>)

  const MAX_CANCELLED: nat := 128
  const MAX_ENCODED: nat := 350000

  type Handled = Result<seq<Effect>, VoiceFailure>

  /** Empty identifiers are omitted on the wire. */
  function Named(turn: Id): Option<Id> {
    if turn == "" then None else Some(turn)
  }

  /** Characters of padded base64 text for n bytes. */
  function EncodedLength(n: nat): nat {
    4 * ((n + 2) / 3)
  }

  function Disconnecting(c: ClientState): ClientState {
    c.(phase := Detached, sessionId := None, outputTurn := None, sequence := 0)
  }

  function StartingTurn(c: ClientState, turn: Option<Id>): (ClientState, Handled) {
    if turn.None? || !ValidId(turn.value) || turn.value in c.cancelled then (c, Err(InvalidEvent))
    else if turn == c.outputTurn then (c, Ok([]))
    else (c.(outputTurn := turn, sequence := 0), Ok([ClearPlayback]))
  }

  function InterruptingTurn(c: ClientState, turn: Option<Id>): (ClientState, Handled) {
    if turn.None? then (c, Err(InvalidEvent))
    else
      var c1 := c.(cancelled := c.cancelled + {turn.value});
      if |c1.cancelled| > MAX_CANCELLED then (c1, Err(InvalidEvent))
      else if turn == c.outputTurn then (c1.(outputTurn := None, sequence := 0), Ok([ClearPlayback]))
      else (c1, Ok([]))
  }

  function Playing(c: ClientState, turn: Option<Id>, sequence: nat, rate: int, pcm: seq<bv8>): (ClientState, Handled) {
    if turn.None? || turn != c.outputTurn || turn.value in c.cancelled then
      (c.(rejectedAudio := c.rejectedAudio + 1), Ok([]))
    else if sequence != c.sequence + 1 then
      (c.(rejectedAudio := c.rejectedAudio + 1), Err(AudioOrder))
    else if rate != OUTPUT_RATE || EncodedLength(|pcm|) > MAX_ENCODED || pcm == [] || |pcm| % 2 != 0
            || |pcm| > MAX_CHUNK then
      (c, Err(AudioFormat))
    else
      (c.(sequence := c.sequence + 1), Ok([Play(pcm)]))
  }

  /** Transcripts and tool operations do not touch this part of the state. */
  function HandlingServer(c: ClientState, e: ServerEvent): (ClientState, Handled) {
    match e
    case SessionState(_, activity) => (c.(phase := Active(activity)), Ok([]))
    case TurnStarted(turn) => StartingTurn(c, Named(turn))
    case TurnInterrupted(turn) => InterruptingTurn(c, Named(turn))
    case AudioChunk(turn, sequence, rate, pcm) => Playing(c, Named(turn), sequence, rate, pcm)
    case TurnCompleted(_) => (c.(phase := Active(Idle)), Ok([]))
    case SessionRenewed =>
      (c.(outputTurn := None, sequence := 0, phase := Active(Idle)), Ok([ClearPlayback, RenewInput]))
    case Transcript(_, _, _, _) => (c, Ok([]))
    case ToolStarted(_, _, _, _) => (c, Ok([]))
  }

  function Handling(c: ClientState, d: Delivery): (ClientState, Handled) {
    if d.version != 1 && d.version != 2 then (c, Err(InvalidEvent))
    else if d.body.ErrorBody? then (c, Err(Disconnected))
    else if d.body.Ready? then
      if c.sessionId.Some? || d.sessionId.None? || !ValidId(d.sessionId.value) then (c, Err(InvalidEvent))
      else (c.(sessionId := d.sessionId, phase := Active(Idle)), Ok([ReadyEffect]))
    else if c.sessionId.None? || d.sessionId != c.sessionId then (c, Err(SessionMismatch))
    else if d.body.Stopped? then (Disconnecting(c), Ok([ClearPlayback, StoppedEffect]))
    else if d.body.Informational? then (c, Ok([]))
    else HandlingServer(c, d.body.event)
  }

  class ConversationState {
    var sessionId: Option<string>
    var outputTurnId: Option<Id>
    var state: Phase
    var rejectedAudio: nat
    var sequence: nat
    var cancelled: set<Id>

    ghost function Value(): ClientState
      reads this
    {
      ClientState(sessionId, outputTurnId, state, rejectedAudio, sequence, cancelled)
    }

    constructor ()
      ensures Value() == ClientState(None, None, Detached, 0, 0, {})
    {
      sessionId, outputTurnId, state, rejectedAudio, sequence, cancelled := None, None, Detached, 0, 0, {};
    }

    method Disconnect()
      modifies this
      ensures Value() == Disconnecting(old(Value()))
    {
      state := Detached;
      sessionId := None;
      outputTurnId := None;
      sequence := 0;
    }

    method Handle(d: Delivery) returns (handled: Handled)
      modifies this
      ensures (Value(), handled) == Handling(old(Value()), d)
    {
      if d.version != 1 && d.version != 2 {
        return Err(InvalidEvent);
      }
      if d.body.ErrorBody? {
        return Err(Disconnected);
      }
      if d.body.Ready? {
        if sessionId.Some? || d.sessionId.None? || !ValidId(d.sessionId.value) {
          return Err(InvalidEvent);
        }
        sessionId := d.sessionId;
        state := Active(Idle);
        return Ok([ReadyEffect]);
      }
      if sessionId.None? || d.sessionId != sessionId {
        return Err(SessionMismatch);
      }
      match d.body {
        case Stopped =>
          Disconnect();
          handled := Ok([ClearPlayback, StoppedEffect]);
        case FromServer(event) =>
          handled := HandleServer(event);
        case Informational =>
          handled := Ok([]);
      }
    }

    method HandleServer(e: ServerEvent) returns (handled: Handled)
      modifies this
      ensures (Value(), handled) == HandlingServer(old(Value()), e)
    {
      match e {
        case SessionState(_, activity) =>
          state := Active(activity);
        case TurnStarted(id) =>
          var turn := Named(id);
          if turn.None? || !ValidId(turn.value) || turn.value in cancelled {
            return Err(InvalidEvent);
          }
          if turn != outputTurnId {
            outputTurnId := turn;
            sequence := 0;
            return Ok([ClearPlayback]);
          }
        case TurnInterrupted(id) =>
          var turn := Named(id);
          if turn.None? {
            return Err(InvalidEvent);
          }
          cancelled := cancelled + {turn.value};
          if |cancelled| > MAX_CANCELLED {
            return Err(InvalidEvent);
          }
          if turn == outputTurnId {
            outputTurnId := None;
            sequence := 0;
            return Ok([ClearPlayback]);
          }
        case AudioChunk(id, number, rate, pcm) =>
          var turn := Named(id);
          if turn.None? || turn != outputTurnId || turn.value in cancelled {
            rejectedAudio := rejectedAudio + 1;
            return Ok([]);
          }
          if number != sequence + 1 {
            rejectedAudio := rejectedAudio + 1;
            return Err(AudioOrder);
          }
          if rate != OUTPUT_RATE || EncodedLength(|pcm|) > MAX_ENCODED || pcm == [] || |pcm| % 2 != 0
             || |pcm| > MAX_CHUNK {
            return Err(AudioFormat);
          }
          sequence := sequence + 1;
          return Ok([Play(pcm)]);
        case TurnCompleted(_) =>
          state := Active(Idle);
        case SessionRenewed =>
          outputTurnId := None;
          sequence := 0;
          state := Active(Idle);
          return Ok([ClearPlayback, RenewInput]);
        case Transcript(_, _, _, _) =>
        case ToolStarted(_, _, _, _) =>
      }
      handled := Ok([]);
    }
  }
}
