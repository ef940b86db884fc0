/**
 What the client's player holds: playing appends a chunk, and clearing the playback empties the queue
 (apps/apple/VoiceCore/Sources/VoiceCore/ConversationState.swift).
 */
module Playback {
  import opened Basics
  import opened RealtimeMapper
  import opened MapperRuns
  import opened ConversationClient
  import opened VoiceSessions
  import opened VoiceComposition

  /** The queue of the player after the effects. */
  function Queue(queue: seq<seq<bv8>>, effects: seq<Effect>): seq<seq<bv8>>
    decreases |effects|
  {
    if effects == [] then queue
    else
      match effects[0]
      case Play(pcm) => Queue(queue + [pcm], effects[1..])
      case ClearPlayback => Queue([], effects[1..])
      case _ => Queue(queue, effects[1..])
  }

  lemma {:induction false} QueueParts(queue: seq<seq<bv8>>, x: seq<Effect>, y: seq<Effect>)
    ensures Queue(queue, x + y) == Queue(Queue(queue, x), y)
    decreases |x|
  {
    if x == [] {
      assert x + y == y;
    } else {
      assert (x + y)[0] == x[0] && (x + y)[1..] == x[1..] + y;
      match x[0]
      case Play(pcm) => QueueParts(queue + [pcm], x[1..], y);
      case ClearPlayback => QueueParts([], x[1..], y);
      case _ => QueueParts(queue, x[1..], y);
    }
  }

  // ----- what the queue should hold, in terms of the events -----

  /** The audio of one turn among the events, in order. */
  function AudioOf(events: seq<ServerEvent>, turn: Id): seq<seq<bv8>> {
    if events == [] then []
    else
      var n := |events| - 1;
      AudioOf(events[..n], turn) + if ChunkOf(events[n], turn) then [events[n].pcm] else []
  }

  /** Another turn opens, the turn is interrupted, or the stream is renewed. */
  predicate Cuts(e: ServerEvent, turn: Id) {
    (e.TurnStarted? && e.turn != turn) || e == TurnInterrupted(turn) || e == SessionRenewed
  }

  /** Every opening of the turn has been cut off since. */
  predicate Off(events: seq<ServerEvent>, turn: Id) {
    forall k | 0 <= k < |events| && events[k] == TurnStarted(turn) ::
      exists j :: k < j < |events| && Cuts(events[j], turn)
  }

  ghost predicate AllOff(events: seq<ServerEvent>) {
    forall turn :: Off(events, turn)
  }

  /** The m-th event opens a turn that was off, and nothing has cut it off since. */
  predicate OpenSince(events: seq<ServerEvent>, turn: Id, m: nat) {
    && m < |events| && events[m] == TurnStarted(turn) && Off(events[..m], turn)
    && forall k | m < k < |events| :: !Cuts(events[k], turn)
  }

  /** The queue holds exactly the audio of the turn that is open since it was opened, and nothing when none is. */
  ghost predicate HoldsOpenTurn(queue: seq<seq<bv8>>, events: seq<ServerEvent>) {
    && (AllOff(events) ==> queue == [])
    && forall turn, m: nat :: OpenSince(events, turn, m) ==> queue == AudioOf(events[m..], turn)
  }

  /** What the client's state says of the events so far, and of the queue. */
  ghost predicate Tracks(c: ClientState, queue: seq<seq<bv8>>, events: seq<ServerEvent>) {
    match c.outputTurn
    case None => queue == [] && AllOff(events)
    case Some(turn) =>
      && turn !in c.cancelled && turn != ""
      && exists m: nat :: OpenSince(events, turn, m) && queue == AudioOf(events[m..], turn)
  }

  // ----- one more event -----

  lemma OffOnceCut(events: seq<ServerEvent>, e: ServerEvent, turn: Id)
    requires Cuts(e, turn) || (Off(events, turn) && e != TurnStarted(turn))
    ensures Off(events + [e], turn)
  {
    var more := events + [e];
    forall k | 0 <= k < |more| && more[k] == TurnStarted(turn)
      ensures exists j :: k < j < |more| && Cuts(more[j], turn)
    {
      assert k < |events| && events[k] == TurnStarted(turn);
      if Cuts(e, turn) {
        assert Cuts(more[|events|], turn);
      } else {
        var j :| k < j < |events| && Cuts(events[j], turn);
        assert Cuts(more[j], turn);
      }
    }
  }

  lemma OpenStays(events: seq<ServerEvent>, e: ServerEvent, turn: Id, m: nat)
    requires OpenSince(events, turn, m) && !Cuts(e, turn)
    ensures OpenSince(events + [e], turn, m)
    ensures AudioOf((events + [e])[m..], turn) ==
            AudioOf(events[m..], turn) + if ChunkOf(e, turn) then [e.pcm] else []
  {
    var more := events + [e];
    assert more[..m] == events[..m];
    assert more[m..][..|events| - m] == events[m..] && more[m..][|events| - m] == e;
  }

  lemma Opens(events: seq<ServerEvent>, turn: Id)
    requires Off(events, turn)
    ensures OpenSince(events + [TurnStarted(turn)], turn, |events|)
    ensures AudioOf((events + [TurnStarted(turn)])[|events|..], turn) == []
  {
    var more := events + [TurnStarted(turn)];
    assert more[..|events|] == events && more[|events|..] == [TurnStarted(turn)];
    assert AudioOf([], turn) == [];
    assert [TurnStarted(turn)][..0] == [];
  }

  /** At most one turn is open, and since one opening. */
  lemma OthersAreOff(events: seq<ServerEvent>, turn: Id, m: nat, other: Id)
    requires OpenSince(events, turn, m) && other != turn
    ensures Off(events, other)
  {
    forall k | 0 <= k < |events| && events[k] == TurnStarted(other)
      ensures exists j :: k < j < |events| && Cuts(events[j], other)
    {
      assert k > m ==> Cuts(events[k], turn);
      assert Cuts(events[m], other);
    }
  }

  lemma CutBetween(events: seq<ServerEvent>, turn: Id, m: nat, n: nat)
    requires m < n <= |events| && events[m] == TurnStarted(turn) && Off(events[..n], turn)
    ensures exists j :: m < j < n && Cuts(events[j], turn)
  {
    assert events[..n][m] == TurnStarted(turn);
    var j :| m < j < n && Cuts(events[..n][j], turn);
    assert Cuts(events[j], turn);
  }

  lemma OpenIsUnique(events: seq<ServerEvent>, turn: Id, m: nat, other: Id, n: nat)
    requires OpenSince(events, turn, m) && OpenSince(events, other, n)
    ensures turn == other && m == n
  {
    if turn != other {
      OthersAreOff(events, turn, m, other);
      assert false;
    } else if m < n {
      CutBetween(events, turn, m, n);
      assert false;
    } else if n < m {
      CutBetween(events, turn, n, m);
      assert false;
    }
  }

  lemma TracksHold(c: ClientState, queue: seq<seq<bv8>>, events: seq<ServerEvent>)
    requires Tracks(c, queue, events)
    ensures HoldsOpenTurn(queue, events)
  {
    if c.outputTurn.Some? {
      var turn := c.outputTurn.value;
      var m: nat :| OpenSince(events, turn, m) && queue == AudioOf(events[m..], turn);
      assert !Off(events, turn);
      forall other, n: nat | OpenSince(events, other, n)
        ensures queue == AudioOf(events[n..], other)
      {
        OpenIsUnique(events, turn, m, other, n);
      }
    } else {
      forall other, n: nat
        ensures !OpenSince(events, other, n)
      {
        assert Off(events, other);
      }
    }
  }

  /** The events that open nothing and cut nothing off that is open. */
  lemma StaysOn(c: ClientState, queue: seq<seq<bv8>>, events: seq<ServerEvent>, e: ServerEvent, c': ClientState)
    requires Tracks(c, queue, events) && c'.outputTurn == c.outputTurn
    requires match c.outputTurn
             case None => !e.TurnStarted?
             case Some(turn) => !Cuts(e, turn) && turn !in c'.cancelled
    ensures Tracks(c', queue + if c.outputTurn.Some? && ChunkOf(e, c.outputTurn.value) then [e.pcm] else [],
                   events + [e])
  {
    if c.outputTurn.None? {
      forall turn
        ensures Off(events + [e], turn)
      {
        OffOnceCut(events, e, turn);
      }
    } else {
      var turn := c.outputTurn.value;
      var m: nat :| OpenSince(events, turn, m) && queue == AudioOf(events[m..], turn);
      OpenStays(events, e, turn, m);
    }
  }

  /** The stream is renewed, or the open turn is interrupted. */
  lemma GoesOff(c: ClientState, queue: seq<seq<bv8>>, events: seq<ServerEvent>, e: ServerEvent, c': ClientState)
    requires Tracks(c, queue, events) && c'.outputTurn == None
    requires e == SessionRenewed || (c.outputTurn.Some? && e == TurnInterrupted(c.outputTurn.value))
    ensures Tracks(c', [], events + [e])
  {
    forall turn
      ensures Off(events + [e], turn)
    {
      if !Cuts(e, turn) {
        var m: nat :| OpenSince(events, c.outputTurn.value, m);
        OthersAreOff(events, c.outputTurn.value, m, turn);
      }
      OffOnceCut(events, e, turn);
    }
  }

  /** Another turn than the open one opens. */
  lemma GoesOn(c: ClientState, queue: seq<seq<bv8>>, events: seq<ServerEvent>, turn: Id, c': ClientState)
    requires Tracks(c, queue, events) && c.outputTurn != Some(turn) && c'.outputTurn == Some(turn)
    requires turn !in c'.cancelled && turn != ""
    ensures Tracks(c', [], events + [TurnStarted(turn)])
  {
    if c.outputTurn.Some? {
      var m: nat :| OpenSince(events, c.outputTurn.value, m);
      OthersAreOff(events, c.outputTurn.value, m, turn);
    }
    assert Off(events, turn);
    Opens(events, turn);
  }

  lemma StepTracks(c: ClientState, queue: seq<seq<bv8>>, events: seq<ServerEvent>, e: ServerEvent, c': ClientState,
                   effects: seq<Effect>)
    requires Tracks(c, queue, events) && HandlingServer(c, e) == (c', Ok(effects))
    ensures Tracks(c', Queue(queue, effects), events + [e])
  {
    if e.TurnStarted? && c.outputTurn != Some(e.turn) {
      GoesOn(c, queue, events, e.turn, c');
    } else if e == SessionRenewed || (e.TurnInterrupted? && c.outputTurn == Some(e.turn)) {
      GoesOff(c, queue, events, e, c');
    } else {
      StaysOn(c, queue, events, e, c');
      assert queue + [] == queue;
    }
  }

  // ----- whole sessions -----

  lemma ReceivedPrefix(c: ClientState, events: seq<ServerEvent>, n: nat)
    requires n <= |events| && Receive(c, events).failure.None?
    ensures Receive(c, events[..n]).failure.None?
  {
    assert events == events[..n] + events[n..];
    ReceiveConcat(c, events[..n], events[n..]);
  }

  lemma {:induction false} ReceivedTracks(c: ClientState, events: seq<ServerEvent>)
    requires c.outputTurn == None && Receive(c, events).failure.None?
    ensures Tracks(Receive(c, events).client, Queue([], Receive(c, events).effects), events)
  {
    if events == [] {
      assert forall turn :: Off(events, turn);
    } else {
      var before, e := events[..|events| - 1], events[|events| - 1];
      assert events == before + [e];
      ReceiveConcat(c, before, [e]);
      var r := Receive(c, before);
      ReceiveOne(r.client, e);
      ReceivedTracks(c, before);
      var (c', handled) := HandlingServer(r.client, e);
      StepTracks(r.client, Queue([], r.effects), before, e, c', handled.value);
      QueueParts([], r.effects, handled.value);
    }
  }

  /** The queue of a client that has attached to a session and received the events. */
  function Queued(sessionId: string, events: seq<ServerEvent>): seq<seq<bv8>> {
    Queue([], Receive(Attached(sessionId), events).effects)
  }

  /**
   Whatever the events are: as long as the client accepts them, after each of them the player holds exactly the audio
   of the turn that is open, in order and since that turn was opened, and nothing when no turn is.
   */
  lemma QueueHoldsOpenTurn(sessionId: string, events: seq<ServerEvent>, n: nat)
    requires n <= |events| && Receive(Attached(sessionId), events).failure.None?
    ensures HoldsOpenTurn(Queued(sessionId, events[..n]), events[..n])
  {
    var c := Attached(sessionId);
    ReceivedPrefix(c, events, n);
    ReceivedTracks(c, events[..n]);
    TracksHold(Receive(c, events[..n]).client, Queued(sessionId, events[..n]), events[..n]);
  }

  /** A renewal, an interruption of the open turn and the opening of another turn leave nothing to play. */
  predicate Silences(events: seq<ServerEvent>, n: nat)
    requires n < |events|
  {
    || events[n] == SessionRenewed
    || (events[n].TurnInterrupted? && !Off(events[..n], events[n].turn))
    || (events[n].TurnStarted? && Off(events[..n], events[n].turn))
  }

  lemma {:induction false} OpenOrOff(events: seq<ServerEvent>, turn: Id)
    ensures Off(events, turn) || exists m: nat :: OpenSince(events, turn, m)
  {
    if events != [] {
      var before, e := events[..|events| - 1], events[|events| - 1];
      assert events == before + [e];
      OpenOrOff(before, turn);
      if Off(before, turn) {
        if e == TurnStarted(turn) {
          Opens(before, turn);
        } else {
          OffOnceCut(before, e, turn);
        }
      } else {
        var m: nat :| OpenSince(before, turn, m);
        if Cuts(e, turn) {
          OffOnceCut(before, e, turn);
        } else {
          OpenStays(before, e, turn, m);
        }
      }
    }
  }

  lemma SilencedIsEmpty(queue: seq<seq<bv8>>, events: seq<ServerEvent>, n: nat)
    requires n < |events| && Silences(events, n) && HoldsOpenTurn(queue, events[..n + 1])
    ensures queue == []
  {
    var before, e := events[..n], events[n];
    assert events[..n + 1] == before + [e];
    if e.TurnStarted? {
      Opens(before, e.turn);
    } else {
      forall turn
        ensures Off(before + [e], turn)
      {
        if e.TurnInterrupted? {
          OpenOrOff(before, e.turn);
          var m: nat :| OpenSince(before, e.turn, m);
          if turn != e.turn {
            OthersAreOff(before, e.turn, m, turn);
          }
        }
        OffOnceCut(before, e, turn);
      }
    }
  }

  /**
   Events that the client plays in full, as those of both loops are, with at most 128 interrupted turns: after each of
   them the player holds exactly the audio of the open turn, and it is empty right after a renewal, an interruption of
   the open turn and the opening of another one.
   */
  lemma PlayedIsQueued(sessionId: string, events: seq<ServerEvent>, n: nat)
    requires PlaysAll(sessionId, events) && |InterruptedIn(events)| <= MAX_CANCELLED && n < |events|
    ensures HoldsOpenTurn(Queued(sessionId, events[..n + 1]), events[..n + 1])
    ensures Silences(events, n) ==> Queued(sessionId, events[..n + 1]) == []
  {
    QueueHoldsOpenTurn(sessionId, events, n + 1);
    if Silences(events, n) {
      SilencedIsEmpty(Queued(sessionId, events[..n + 1]), events, n);
    }
  }

  /** The same over every disciplined session of mappers. */
  lemma SessionIsQueued(sessionId: string, history: seq<Message>, actions: seq<Action>, n: nat)
    requires Disciplined(Fresh(history), {}, actions) && n < |Written(Fresh(history), actions)|
    requires |InterruptedIn(Written(Fresh(history), actions))| <= MAX_CANCELLED
    ensures var events := Written(Fresh(history), actions);
            && HoldsOpenTurn(Queued(sessionId, events[..n + 1]), events[..n + 1])
            && (Silences(events, n) ==> Queued(sessionId, events[..n + 1]) == [])
  {
    var events := Written(Fresh(history), actions);
    EmittedIsPlayed(sessionId, history, actions);
    PlayedIsQueued(sessionId, events, n);
  }

  /**
   Once the client has received the events without failing, the server's stop empties the player and is reported, and
   no further event of any session is accepted.
   */
  lemma StopEmpties(sessionId: string, events: seq<ServerEvent>, version: int)
    requires Receive(Attached(sessionId), events).failure.None? && (version == 1 || version == 2)
    ensures var (c, handled) := Handling(Receive(Attached(sessionId), events).client,
                                         Delivery(version, Some(sessionId), Stopped));
            && handled.Ok? && StoppedEffect in handled.value && Queue(Queued(sessionId, events), handled.value) == []
            && forall v, id, e :: Handling(c, Delivery(v, id, FromServer(e))).1.Err?
  {
    ReceivedSession(Attached(sessionId), events);
    assert [ClearPlayback, StoppedEffect][1..] == [StoppedEffect] && [StoppedEffect][1..] == [];
  }

  lemma {:induction false} ReceivedSession(c: ClientState, events: seq<ServerEvent>)
    ensures Receive(c, events).client.sessionId == c.sessionId
    decreases |events|
  {
    if events != [] {
      ReceivedSession(HandlingServer(c, events[0]).0, events[1..]);
    }
  }

  // ----- what else the client is told -----

  function Renewals(events: seq<ServerEvent>): nat {
    if events == [] then 0 else (if events[0] == SessionRenewed then 1 else 0) + Renewals(events[1..])
  }

  function InputRenewals(effects: seq<Effect>): nat {
    if effects == [] then 0 else (if effects[0] == RenewInput then 1 else 0) + InputRenewals(effects[1..])
  }

  lemma {:induction false} InputRenewalsParts(x: seq<Effect>, y: seq<Effect>)
    ensures InputRenewals(x + y) == InputRenewals(x) + InputRenewals(y)
  {
    if x == [] {
      assert x + y == y;
    } else {
      assert (x + y)[0] == x[0] && (x + y)[1..] == x[1..] + y;
      InputRenewalsParts(x[1..], y);
    }
  }

  /** The input is renewed once for each renewal of the stream. */
  lemma {:induction false} InputIsRenewed(c: ClientState, events: seq<ServerEvent>)
    requires Receive(c, events).failure.None?
    ensures InputRenewals(Receive(c, events).effects) == Renewals(events)
    decreases |events|
  {
    if events != [] {
      var (c', handled) := HandlingServer(c, events[0]);
      InputIsRenewed(c', events[1..]);
      InputRenewalsParts(handled.value, Receive(c', events[1..]).effects);
    }
  }

  /** The activity that was told last: the end of a turn and a renewal tell that the assistant is idle. */
  function LastTold(events: seq<ServerEvent>): Activity {
    if events == [] then Idle
    else
      match events[|events| - 1]
      case SessionState(_, activity) => activity
      case TurnCompleted(_) => Idle
      case SessionRenewed => Idle
      case _ => LastTold(events[..|events| - 1])
  }

  /** The phase that the client shows is the one it was told last. */
  lemma {:induction false} ShowsLastTold(sessionId: string, events: seq<ServerEvent>)
    requires Receive(Attached(sessionId), events).failure.None?
    ensures Receive(Attached(sessionId), events).client.phase == Active(LastTold(events))
  {
    if events != [] {
      var before, e := events[..|events| - 1], events[|events| - 1];
      assert events == before + [e];
      ReceiveConcat(Attached(sessionId), before, [e]);
      ReceiveOne(Receive(Attached(sessionId), before).client, e);
      ShowsLastTold(sessionId, before);
    }
  }
}
