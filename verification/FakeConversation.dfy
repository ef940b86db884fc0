/**
 The input side of a fake conversation: one listening turn at a time
 (apps/personal-assistant-agent/internal/fake/conversation/session.go, fake_session.go).
 */
module FakeConversation {
  import opened Basics
  import opened AudioCapture

  datatype State = Idle | Listening | Responding | Closed

  datatype Talk = Talk(id: string, state: State, turn: string, sequence: nat, pcm: seq<byte>, used: set<string>)

  datatype Refusal = InvalidSession | InvalidAudio | InvalidTurn | UnexpectedSequence | TurnTooLong | NothingToCommit
    | NoActiveTurn

  const MAX_TURN_BYTES: nat := 30 * 16000 * 2
  const MAX_TURNS: nat := 128

  predicate DecodedAudio(pcm: seq<byte>) {
    pcm != [] && |pcm| % 2 == 0 && |pcm| <= MAX_BUFFER
  }

  predicate OpensTurn(t: Talk, turn: string) {
    t.state == Idle || (t.state == Responding && turn != t.turn)
  }

  /** A frame that arrives; the result names the turn it interrupts, or nothing. */
  function Appending(t: Talk, session: string, turn: string, sequence: nat,
                     pcm: seq<byte>): (Talk, Result<string, Refusal>) {
    if t.state == Closed || session != t.id then (t, Err(InvalidSession))
    else if !DecodedAudio(pcm) then (t, Err(InvalidAudio))
    else if OpensTurn(t, turn) then
      if sequence != 1 || turn in t.used || |t.used| >= MAX_TURNS then (t, Err(InvalidTurn))
      else (Talk(t.id, Listening, turn, 1, pcm, t.used + {turn}), Ok(if t.state == Responding then t.turn else ""))
    else if t.state != Listening || turn != t.turn || sequence != t.sequence + 1 then (t, Err(UnexpectedSequence))
    else if |t.pcm| + |pcm| > MAX_TURN_BYTES then (t, Err(TurnTooLong))
    else (t.(sequence := sequence, pcm := t.pcm + pcm), Ok(""))
  }

  function Committing(t: Talk, turn: string): (Talk, Result<seq<byte>, Refusal>) {
    if t.state != Listening || turn != t.turn || t.pcm == [] then (t, Err(NothingToCommit))
    else (t.(state := Responding, pcm := []), Ok(t.pcm))
  }

  function Cancelling(t: Talk, turn: string): (Talk, Result<(), Refusal>) {
    if turn != t.turn || (t.state != Listening && t.state != Responding) then (t, Err(NoActiveTurn))
    else (t.(state := Idle, pcm := []), Ok(()))
  }

  function CompletingTurn(t: Talk, turn: string): (Talk, bool) {
    if t.state != Responding || t.turn != turn then (t, false) else (t.(state := Idle), true)
  }

  class Session {
    const id: string
    var state: State
    var turn: string
    var sequence: nat
    var pcm: seq<byte>
    var usedTurns: set<string>

    ghost function Value(): Talk reads this {
      Talk(id, state, turn, sequence, pcm, usedTurns)
    }

    constructor (id: string)
      ensures Value() == Talk(id, Idle, "", 0, [], {})
    {
      this.id := id;
      state, turn, sequence, pcm, usedTurns := Idle, "", 0, [], {};
    }

    method Append(sessionId: string, turnId: string, number: nat, audio: seq<byte>) returns (r: Result<string, Refusal>)
      modifies this
      ensures (Value(), r) == Appending(old(Value()), sessionId, turnId, number, audio)
    {
      if state == Closed || sessionId != id {
        return Err(InvalidSession);
      }
      if !DecodedAudio(audio) {
        return Err(InvalidAudio);
      }
      var newTurn := state == Idle || (state == Responding && turnId != turn);
      if newTurn {
        if number != 1 || turnId in usedTurns || |usedTurns| >= MAX_TURNS {
          return Err(InvalidTurn);
        }
      } else if state != Listening || turnId != turn || number != sequence + 1 {
        return Err(UnexpectedSequence);
      }
      if !newTurn && |pcm| + |audio| > MAX_TURN_BYTES {
        return Err(TurnTooLong);
      }
      var interrupted := "";
      if newTurn {
        if state == Responding {
          interrupted := turn;
        }
        turn := turnId;
        usedTurns := usedTurns + {turnId};
        pcm := [];
        state := Listening;
      }
      sequence := number;
      assert [] + audio == audio;
      pcm := pcm + audio;
      r := Ok(interrupted);
    }

    method Commit(turnId: string) returns (r: Result<seq<byte>, Refusal>)
      modifies this
      ensures (Value(), r) == Committing(old(Value()), turnId)
    {
      if state != Listening || turnId != turn || |pcm| == 0 {
        return Err(NothingToCommit);
      }
      r := Ok(pcm);
      pcm := [];
      state := Responding;
    }

    method Cancel(turnId: string) returns (r: Result<(), Refusal>)
      modifies this
      ensures (Value(), r) == Cancelling(old(Value()), turnId)
    {
      if turnId != turn || (state != Listening && state != Responding) {
        return Err(NoActiveTurn);
      }
      state := Idle;
      pcm := [];
      r := Ok(());
    }

    method Complete(turnId: string) returns (done: bool)
      modifies this
      ensures (Value(), done) == CompletingTurn(old(Value()), turnId)
    {
      if state != Responding || turn != turnId {
        return false;
      }
      state := Idle;
      done := true;
    }

    method Close()
      modifies this
      ensures Value() == old(Value()).(state := Closed, pcm := [])
    {
      state := Closed;
      pcm := [];
    }
  }

  // ----- a turn of frames -----

  /** The session after an event; an event that is refused is reported and changes nothing. */
  function Receiving(t: Talk, e: Event): Talk {
    match e
    case Audio(session, turn, sequence, pcm) => Appending(t, session, turn, sequence, pcm).0
    case Commit(turn) => Committing(t, turn).0
    case Cancel(turn) => Cancelling(t, turn).0
    case Stop => t.(state := Closed, pcm := [])
    case Other => t
  }

  function Received(t: Talk, events: seq<Event>): Talk {
    if events == [] then t else Receiving(Received(t, events[..|events| - 1]), events[|events| - 1])
  }

  /** A session that will open this turn at its first frame. */
  predicate ReadyFor(t: Talk, turn: string) {
    OpensTurn(t, turn) && turn !in t.used && |t.used| < MAX_TURNS
  }

  predicate Quiet(events: seq<Event>) {
    forall i | 0 <= i < |events| :: events[i].Audio? || events[i].Other?
  }

  function AudioOf(events: seq<Event>): seq<Event> {
    if events == [] then []
    else
      var last := events[|events| - 1];
      AudioOf(events[..|events| - 1]) + if last.Audio? then [last] else []
  }

  /** Frames that fit in a turn of 30 seconds. */
  const MAX_FRAMES: nat := MAX_TURN_BYTES / FRAME

  function Fitting(k: nat): nat {
    if k < MAX_FRAMES then k else MAX_FRAMES
  }

  /** The state after k frames of bytes: the session keeps those that fit and refuses all later ones. */
  predicate After(t: Talk, start: Talk, turn: string, k: nat, bytes: seq<byte>) {
    if k == 0 then t == start
    else
      && |bytes| >= k * FRAME
      && t == Talk(start.id, Listening, turn, Fitting(k), bytes[..Fitting(k) * FRAME], start.used + {turn})
  }

  lemma AfterNext(t: Talk, start: Talk, turn: string, k: nat, bytes: seq<byte>)
    requires start.state != Closed && ReadyFor(start, turn) && |bytes| >= (k + 1) * FRAME
    requires After(t, start, turn, k, bytes)
    ensures After(Receiving(t, Audio(start.id, turn, k + 1, bytes[k * FRAME..(k + 1) * FRAME])), start, turn, k + 1,
                  bytes)
  {
    var frame := bytes[k * FRAME..(k + 1) * FRAME];
    assert |frame| == FRAME;
    if 0 < k {
      assert t.turn == turn && t.state == Listening && |t.pcm| == Fitting(k) * FRAME;
      if k < MAX_FRAMES {
        assert |t.pcm| + |frame| <= MAX_TURN_BYTES;
        assert bytes[..k * FRAME] + frame == bytes[..(k + 1) * FRAME];
      }
    } else {
      assert bytes[..FRAME] == frame;
    }
  }

  lemma {:induction false} ReceivedFrames(start: Talk, turn: string, events: seq<Event>, bytes: seq<byte>)
    requires start.state != Closed && ReadyFor(start, turn) && Quiet(events)
    requires |AudioOf(events)| <= |Frames(bytes)|
    requires AudioOf(events) == Numbered(start.id, turn, 1, Frames(bytes))[..|AudioOf(events)|]
    ensures After(Received(start, events), start, turn, |AudioOf(events)|, bytes)
  {
    if events != [] {
      var before, last := events[..|events| - 1], events[|events| - 1];
      var k := |AudioOf(before)|;
      var all := Numbered(start.id, turn, 1, Frames(bytes));
      assert AudioOf(before) == AudioOf(events)[..k];
      assert all[..|AudioOf(events)|][..k] == all[..k];
      ReceivedFrames(start, turn, before, bytes);
      if last.Audio? {
        assert last == AudioOf(events)[k] == all[k];
        FrameAt(bytes, k);
        AfterNext(Received(start, before), start, turn, k, bytes);
      }
    }
  }
}
