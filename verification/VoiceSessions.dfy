/**
 A voice session as its owner conducts it: the mappers of its streams one after the other, what the owner passes on of
 what they emit, and what of an interrupted turn can still be heard.
 */
module VoiceSessions {
  import opened Basics
  import opened RealtimeMapper
  import opened MapperRuns

  /** An event of the provider that opens no turn. */
  type Closing = e: ProviderEvent | e.ToolUse? || e.ContentEnd? witness ContentEnd("", OtherStop)

  /**
   The owner's actions: a call to the mapper whose events are passed on, an event that is mapped in silence, a tool
   call that the owner announces itself, and a new stream with a new mapper.
   */
  datatype Action =
    | Act(call: Call)
    | Withhold(event: Closing, random: Id)
    | Announce(turn: Id, operation: Id, name: string, arguments: string)
    | Renew(history: seq<Message>)

  function Server(s: MapperState, action: Action): (MapperState, Outcome)
    requires Bounded(s)
  {
    match action
    case Act(call) => Step(s, call)
    case Withhold(event, random) =>
      var (s', outcome) := Step(s, MapCall(event, random));
      (s', if outcome.Failed? then Failed else Events([]))
    case Announce(turn, operation, name, arguments) => (s, Events([ToolStarted(turn, operation, name, arguments)]))
    case Renew(history) => (Fresh(history), Events([SessionRenewed]))
  }

  lemma ServerKeepsBounded(s: MapperState, action: Action)
    requires Bounded(s)
    ensures Bounded(Server(s, action).0)
  {
    match action
    case Act(call) => StepKeepsBounded(s, call);
    case Withhold(event, random) => StepKeepsBounded(s, MapCall(event, random));
    case _ =>
  }

  /** Everything a session writes; it ends where a call fails. */
  function Written(s: MapperState, actions: seq<Action>): seq<ServerEvent>
    requires Bounded(s)
    decreases |actions|
  {
    if actions == [] || Server(s, actions[0]).1.Failed? then []
    else
      ServerKeepsBounded(s, actions[0]);
      Server(s, actions[0]).1.events + Written(Server(s, actions[0]).0, actions[1..])
  }

  /** The mapper after a session in which no call fails. */
  function Reached(s: MapperState, actions: seq<Action>): (r: Option<MapperState>)
    requires Bounded(s)
    ensures r.Some? ==> Bounded(r.value)
    decreases |actions|
  {
    if actions == [] then Some(s)
    else if Server(s, actions[0]).1.Failed? then None
    else
      ServerKeepsBounded(s, actions[0]);
      Reached(Server(s, actions[0]).0, actions[1..])
  }

  lemma {:induction false} SessionParts(s: MapperState, x: seq<Action>, y: seq<Action>)
    requires Bounded(s) && Reached(s, x).Some?
    ensures Reached(s, x + y) == Reached(Reached(s, x).value, y)
    ensures Written(s, x + y) == Written(s, x) + Written(Reached(s, x).value, y)
    decreases |x|
  {
    if x == [] {
      assert x + y == y;
    } else {
      assert (x + y)[0] == x[0] && (x + y)[1..] == x[1..] + y;
      ServerKeepsBounded(s, x[0]);
      SessionParts(Server(s, x[0]).0, x[1..], y);
      Associate(Server(s, x[0]).1.events, Written(Server(s, x[0]).0, x[1..]), Written(Reached(s, x).value, y));
    }
  }

  lemma OneAction(s: MapperState, action: Action)
    requires Bounded(s) && Server(s, action).1.Events?
    ensures Bounded(Server(s, action).0)
    ensures Reached(s, [action]) == Some(Server(s, action).0) && Written(s, [action]) == Server(s, action).1.events
  {
    ServerKeepsBounded(s, action);
    assert [action][1..] == [];
  }

  lemma TwoActions(s: MapperState, first: Action, second: Action)
    requires Bounded(s) && Server(s, first).1.Events? && Bounded(Server(s, first).0)
    requires Server(Server(s, first).0, second).1.Events?
    ensures Bounded(Server(Server(s, first).0, second).0)
    ensures Reached(s, [first, second]) == Some(Server(Server(s, first).0, second).0)
    ensures Written(s, [first, second]) == Server(s, first).1.events + Server(Server(s, first).0, second).1.events
  {
    OneAction(s, first);
    OneAction(Server(s, first).0, second);
    SessionParts(s, [first], [second]);
    assert [first] + [second] == [first, second];
  }

  // ----- what is heard of a turn -----

  /** Events in which a turn speaks or ends. A tool call is announced by the owner. */
  predicate Sounds(e: ServerEvent, turn: Id) {
    ((e.Transcript? || e.AudioChunk? || e.TurnCompleted?) && e.turn == turn) || e == TurnInterrupted(turn)
  }

  /** A mapper speaks only of its current turn, and comes to another by starting it. */
  ghost predicate SpeaksOfOthers(s': MapperState, events: seq<ServerEvent>, turn: Id) {
    && (forall i | 0 <= i < |events| :: !Sounds(events[i], turn) && events[i] != SessionRenewed)
    && (s'.turn == turn ==> exists i :: 0 <= i < |events| && events[i] == TurnStarted(turn))
  }

  lemma MappingOthers(s: MapperState, e: ProviderEvent, random: Id, turn: Id)
    requires Bounded(s) && s.turn != turn && Mapping(s, e, random).1.Events? && !(e.ContentStart? && e.role == User)
    ensures SpeaksOfOthers(Mapping(s, e, random).0, Mapping(s, e, random).1.events, turn)
    ensures Mapping(s, e, random).0.turn == s.turn
  {
  }

  lemma UserStartOthers(s: MapperState, e: ProviderEvent, random: Id, turn: Id)
    requires s.turn != turn && e.ContentStart? && MappingUserStart(s, e, random).1.Events?
    ensures SpeaksOfOthers(MappingUserStart(s, e, random).0, MappingUserStart(s, e, random).1.events, turn)
  {
    var (s', outcome) := MappingUserStart(s, e, random);
    var (s0, interrupted) := InterruptingResponse(s.(waitingUser := false));
    var started := OpeningUserTurn(s0, random).1;
    if started != [] {
      assert outcome.events[|interrupted|] == TurnStarted(s'.turn);
    }
  }

  lemma OwnerOthers(s: MapperState, call: Call, s': MapperState, events: seq<ServerEvent>, turn: Id)
    requires Bounded(s) && s.turn != turn && !call.MapCall? && Step(s, call) == (s', Events(events))
    ensures SpeaksOfOthers(s', events, turn)
  {
    match call
    case InputCall(id) => assert events[|InterruptingResponse(s).1|] == TurnStarted(id);
    case AssistantCall(id) => assert events[0] == TurnStarted(id);
    case _ =>
  }

  lemma StepOthers(s: MapperState, call: Call, s': MapperState, events: seq<ServerEvent>, turn: Id)
    requires Bounded(s) && s.turn != turn && Step(s, call) == (s', Events(events))
    ensures SpeaksOfOthers(s', events, turn)
  {
    if !call.MapCall? {
      OwnerOthers(s, call, s', events, turn);
    } else if call.event.ContentStart? && call.event.role == User {
      UserStartOthers(s, call.event, call.random, turn);
    } else {
      MappingOthers(s, call.event, call.random, turn);
    }
  }

  lemma StepRenewsNothing(s: MapperState, call: Call)
    requires Bounded(s) && Step(s, call).1.Events?
    ensures forall i | 0 <= i < |Step(s, call).1.events| :: Step(s, call).1.events[i] != SessionRenewed
  {
    StepOthers(s, call, Step(s, call).0, Step(s, call).1.events, if s.turn == "" then "a" else "");
  }

  /** What every mapper of a session keeps. */
  predicate Sane(s: MapperState) {
    Bounded(s) && Quiet(s) && "" !in s.cancelled
  }

  /** Only a turn with a name is cancelled. */
  predicate NamesCancelled(s: MapperState, s': MapperState) {
    s'.cancelled == s.cancelled || (s.turn != "" && s'.cancelled == s.cancelled + {s.turn})
  }

  lemma MappingNamesCancelled(s: MapperState, e: ProviderEvent, random: Id)
    requires Bounded(s) && !(e.ContentEnd? && !Stale(s, e.cid))
    ensures NamesCancelled(s, Mapping(s, e, random).0)
  {
  }

  lemma EndNamesCancelled(s: MapperState, cid: Id, stop: StopReason)
    requires Bounded(s) && cid in s.contents
    ensures NamesCancelled(s, MappingEnd(s, cid, stop).0)
  {
  }

  lemma StepNamesCancelled(s: MapperState, call: Call, s': MapperState)
    requires Bounded(s) && s' == Step(s, call).0
    ensures NamesCancelled(s, s')
  {
    if call.MapCall? {
      if call.event.ContentEnd? && !Stale(s, call.event.cid) {
        EndNamesCancelled(s, call.event.cid, call.event.stop);
      } else {
        MappingNamesCancelled(s, call.event, call.random);
      }
    }
  }

  lemma StepSane(s: MapperState, call: Call, s': MapperState)
    requires Sane(s) && s' == Step(s, call).0
    ensures Sane(s')
  {
    StepKeepsBounded(s, call);
    StepSilence(s, call);
    StepNamesCancelled(s, call, s');
  }

  // ----- a session, one action at a time -----

  /** What an action finds, says and leaves. */
  datatype Moment = Moment(before: MapperState, said: seq<ServerEvent>, after: MapperState)

  function Moments(s: MapperState, actions: seq<Action>): seq<Moment>
    requires Bounded(s)
    decreases |actions|
  {
    if actions == [] || Server(s, actions[0]).1.Failed? then []
    else
      ServerKeepsBounded(s, actions[0]);
      var (s', outcome) := Server(s, actions[0]);
      [Moment(s, outcome.events, s')] + Moments(s', actions[1..])
  }

  function Said(ms: seq<Moment>): seq<ServerEvent> {
    if ms == [] then [] else ms[0].said + Said(ms[1..])
  }

  predicate NoSound(events: seq<ServerEvent>, turn: Id) {
    forall i | 0 <= i < |events| :: !Sounds(events[i], turn)
  }

  /** What a moment may say of a turn. */
  predicate Lawful(m: Moment, turn: Id) {
    && (m.said == [SessionRenewed] || forall i | 0 <= i < |m.said| :: m.said[i] != SessionRenewed)
    && (m.said == [SessionRenewed] ==> m.after.turn != turn)
    && (turn in m.before.cancelled || m.before.turn != turn ==> NoSound(m.said, turn))
    && (turn in m.before.cancelled && m.said != [SessionRenewed] ==> turn in m.after.cancelled)
    && (m.before.turn != turn && m.after.turn == turn ==> TurnStarted(turn) in m.said)
    && (forall i | 0 <= i < |m.said| && m.said[i].TurnInterrupted? :: m.said[i].turn != "")
    && HushedAfter(m.said, m.after.cancelled, turn)
  }

  /** If the turn is interrupted, it is cancelled then and not heard again. */
  predicate HushedAfter(events: seq<ServerEvent>, cancelled: set<Id>, turn: Id) {
    && (TurnInterrupted(turn) in events ==> turn in cancelled)
    && (forall i, j | 0 <= i < j < |events| && events[i] == TurnInterrupted(turn) :: !Sounds(events[j], turn))
  }

  lemma CallHushes(s: MapperState, call: Call, s': MapperState, events: seq<ServerEvent>, turn: Id)
    requires Sane(s) && Step(s, call) == (s', Events(events))
    ensures HushedAfter(events, s'.cancelled, turn)
    ensures forall i | 0 <= i < |events| && events[i].TurnInterrupted? :: events[i].turn != ""
  {
    StepHushed(s, call);
    StepSane(s, call, s');
    HushedFor(events, s'.cancelled, turn);
  }

  lemma HushedFor(events: seq<ServerEvent>, cancelled: set<Id>, turn: Id)
    requires Hushed(events) && forall i | 0 <= i < |events| && events[i].TurnInterrupted? :: events[i].turn in cancelled
    ensures HushedAfter(events, cancelled, turn)
  {
    forall i, j | 0 <= i < j < |events| && events[i] == TurnInterrupted(turn)
      ensures !Sounds(events[j], turn)
    {
      assert Avoids(events[j], events[i].turn);
    }
  }

  lemma CallStaysSilent(s: MapperState, call: Call, s': MapperState, events: seq<ServerEvent>, turn: Id)
    requires Sane(s) && Step(s, call) == (s', Events(events)) && turn in s.cancelled
    ensures NoSound(events, turn) && turn in s'.cancelled
  {
    StepStaysSilent(s, call, turn);
    forall i | 0 <= i < |events|
      ensures !Sounds(events[i], turn)
    {
      assert events[i] in StepEvents(s, call);
    }
  }

  lemma CallIsLawful(s: MapperState, call: Call, s': MapperState, events: seq<ServerEvent>, turn: Id)
    requires Sane(s) && turn != "" && Step(s, call) == (s', Events(events))
    ensures Lawful(Moment(s, events, s'), turn)
  {
    StepRenewsNothing(s, call);
    assert forall i | 0 <= i < |events| :: events[i] != SessionRenewed;
    assert events != [] ==> events[0] != SessionRenewed;
    CallHushes(s, call, s', events, turn);
    if turn in s.cancelled {
      CallStaysSilent(s, call, s', events, turn);
    }
    if turn != s.turn {
      StepOthers(s, call, s', events, turn);
    }
  }

  lemma SilenceIsLawful(s: MapperState, call: Call, s': MapperState, turn: Id)
    requires Sane(s) && turn != "" && Step(s, call).0 == s' && call.MapCall?
    requires (call.event.ToolUse? || call.event.ContentEnd?)
    requires Step(s, call).1.Events?
    ensures Lawful(Moment(s, [], s'), turn)
  {
    CallIsLawful(s, call, s', Step(s, call).1.events, turn);
    if s.turn != turn {
      MappingOthers(s, call.event, call.random, turn);
    }
  }

  lemma ActionIsLawful(s: MapperState, action: Action, s': MapperState, events: seq<ServerEvent>, turn: Id)
    requires Sane(s) && turn != "" && Server(s, action) == (s', Events(events))
    ensures Sane(s') && Lawful(Moment(s, events, s'), turn)
  {
    match action
    case Act(call) =>
      StepSane(s, call, s');
      CallIsLawful(s, call, s', events, turn);
    case Withhold(event, random) =>
      StepSane(s, MapCall(event, random), s');
      SilenceIsLawful(s, MapCall(event, random), s', turn);
    case _ =>
  }

  /** Moments that follow one another, as seen by a turn. */
  predicate Chained(ms: seq<Moment>, turn: Id) {
    && (forall k | 0 <= k < |ms| :: Lawful(ms[k], turn))
    && (forall k | 0 < k < |ms| :: ms[k].before == ms[k - 1].after)
  }

  lemma {:induction false} SessionIsChained(s: MapperState, actions: seq<Action>, turn: Id)
    requires Sane(s) && turn != ""
    ensures var ms := Moments(s, actions);
            Chained(ms, turn) && (ms != [] ==> ms[0].before == s) && Said(ms) == Written(s, actions)
    decreases |actions|
  {
    if actions != [] && Server(s, actions[0]).1.Events? {
      var (s', outcome) := Server(s, actions[0]);
      ActionIsLawful(s, actions[0], s', outcome.events, turn);
      SessionIsChained(s', actions[1..], turn);
      FirstIsChained(Moment(s, outcome.events, s'), Moments(s', actions[1..]), turn);
    }
  }

  lemma FirstIsChained(m: Moment, rest: seq<Moment>, turn: Id)
    requires Lawful(m, turn) && Chained(rest, turn) && (rest != [] ==> rest[0].before == m.after)
    ensures Chained([m] + rest, turn) && Said([m] + rest) == m.said + Said(rest)
  {
    assert ([m] + rest)[1..] == rest;
  }

  // ----- silence after an interruption -----

  /** A turn that is not the current one is not heard before it is started. */
  lemma {:induction false} StartedBefore(ms: seq<Moment>, turn: Id, j: nat) returns (m: nat)
    requires Chained(ms, turn) && (ms != [] ==> ms[0].before.turn != turn) && j < |Said(ms)|
    requires Sounds(Said(ms)[j], turn)
    ensures m < j && Said(ms)[m] == TurnStarted(turn)
  {
    var first := ms[0].said;
    assert j >= |first|;
    if ms[0].after.turn == turn {
      m :| 0 <= m < |first| && first[m] == TurnStarted(turn);
    } else {
      m := StartedBefore(ms[1..], turn, j - |first|);
      m := m + |first|;
    }
  }

  /** After a renewal no turn is heard before it is started. */
  lemma {:induction false} StartedAfterRenewal(ms: seq<Moment>, turn: Id, k: nat, j: nat) returns (m: nat)
    requires Chained(ms, turn) && k < j < |Said(ms)| && Said(ms)[k] == SessionRenewed && Sounds(Said(ms)[j], turn)
    ensures k < m < j && Said(ms)[m] == TurnStarted(turn)
  {
    var first := ms[0].said;
    if k < |first| {
      assert first[k] == SessionRenewed;
      m := StartedBefore(ms[1..], turn, j - |first|);
    } else {
      m := StartedAfterRenewal(ms[1..], turn, k - |first|, j - |first|);
    }
    m := m + |first|;
  }

  /** A cancelled turn is heard again only on another stream. */
  lemma {:induction false} RenewedBefore(ms: seq<Moment>, turn: Id, j: nat) returns (k: nat)
    requires Chained(ms, turn) && (ms != [] ==> turn in ms[0].before.cancelled) && j < |Said(ms)|
    requires Sounds(Said(ms)[j], turn)
    ensures k < j && Said(ms)[k] == SessionRenewed
  {
    var first := ms[0].said;
    assert j >= |first|;
    if first == [SessionRenewed] {
      k := 0;
    } else {
      k := RenewedBefore(ms[1..], turn, j - |first|);
      k := k + |first|;
    }
  }

  /** An interrupted turn is heard again only when the stream was renewed in between. */
  lemma {:induction false} RenewedBetween(ms: seq<Moment>, turn: Id, i: nat, j: nat) returns (k: nat)
    requires Chained(ms, turn) && i < j < |Said(ms)| && Said(ms)[i] == TurnInterrupted(turn)
    requires Sounds(Said(ms)[j], turn)
    ensures i < k < j && Said(ms)[k] == SessionRenewed
  {
    var first := ms[0].said;
    if i < |first| {
      k := RenewedBefore(ms[1..], turn, j - |first|);
    } else {
      k := RenewedBetween(ms[1..], turn, i - |first|, j - |first|);
    }
    k := k + |first|;
  }

  predicate NoRenewal(events: seq<ServerEvent>) {
    forall k | 0 <= k < |events| :: events[k] != SessionRenewed
  }

  /** Until the stream is renewed a cancelled turn stays cancelled. */
  lemma {:induction false} StaysCancelled(ms: seq<Moment>, turn: Id)
    requires Chained(ms, turn) && ms != [] && turn in ms[0].before.cancelled && NoRenewal(Said(ms))
    ensures turn in ms[|ms| - 1].after.cancelled
  {
    var first, rest := ms[0].said, ms[1..];
    assert first != [SessionRenewed] by {
      assert first != [] ==> first[0] == Said(ms)[0];
    }
    if rest != [] {
      assert forall k | 0 <= k < |Said(rest)| :: Said(rest)[k] == Said(ms)[|first| + k];
      StaysCancelled(rest, turn);
    }
  }

  lemma {:induction false} InterruptedIsCancelled(ms: seq<Moment>, turn: Id, i: nat)
    requires Chained(ms, turn) && i < |Said(ms)| && Said(ms)[i] == TurnInterrupted(turn) && NoRenewal(Said(ms)[i..])
    ensures ms != [] && turn in ms[|ms| - 1].after.cancelled
  {
    var first, rest := ms[0].said, ms[1..];
    if i < |first| {
      assert first[i] == TurnInterrupted(turn);
      if rest != [] {
        assert forall k | 0 <= k < |Said(rest)| :: Said(rest)[k] == Said(ms)[i..][|first| + k - i];
        StaysCancelled(rest, turn);
      }
    } else {
      assert Said(rest)[i - |first|..] == Said(ms)[i..];
      InterruptedIsCancelled(rest, turn, i - |first|);
    }
  }

  lemma {:induction false} LastMoment(s: MapperState, actions: seq<Action>)
    requires Bounded(s) && Reached(s, actions).Some?
    ensures var ms := Moments(s, actions);
            Reached(s, actions).value == if ms == [] then s else ms[|ms| - 1].after
    decreases |actions|
  {
    if actions != [] {
      ServerKeepsBounded(s, actions[0]);
      LastMoment(Server(s, actions[0]).0, actions[1..]);
    }
  }

  /** A turn whose interruption has been written is cancelled until the stream is renewed. */
  lemma InterruptionIsKept(history: seq<Message>, actions: seq<Action>, i: nat)
    requires Reached(Fresh(history), actions).Some? && i < |Written(Fresh(history), actions)|
    requires Written(Fresh(history), actions)[i].TurnInterrupted? && NoRenewal(Written(Fresh(history), actions)[i..])
    ensures Written(Fresh(history), actions)[i].turn in Reached(Fresh(history), actions).value.cancelled
  {
    var turn := Written(Fresh(history), actions)[i].turn;
    var ms := Moments(Fresh(history), actions);
    SessionIsChained(Fresh(history), actions, "a");
    InterruptsNamed(ms, "a", i);
    SessionIsChained(Fresh(history), actions, turn);
    InterruptedIsCancelled(ms, turn, i);
    LastMoment(Fresh(history), actions);
  }

  /** Between two events the stream is renewed and then the turn started again. */
  predicate ReopenedBetween(events: seq<ServerEvent>, i: nat, j: nat, turn: Id)
    requires i < j < |events|
  {
    exists k, m :: i < k < m < j && events[k] == SessionRenewed && events[m] == TurnStarted(turn)
  }

  /** Only turns with a name are interrupted. */
  lemma {:induction false} InterruptsNamed(ms: seq<Moment>, turn: Id, i: nat)
    requires Chained(ms, turn) && i < |Said(ms)| && Said(ms)[i].TurnInterrupted?
    ensures Said(ms)[i].turn != ""
  {
    if i < |ms[0].said| {
      assert ms[0].said[i] == Said(ms)[i];
    } else {
      InterruptsNamed(ms[1..], turn, i - |ms[0].said|);
    }
  }

  /** The turn of an interruption, and the session as it sees it. */
  lemma InterruptedSession(history: seq<Message>, actions: seq<Action>, i: nat) returns (ms: seq<Moment>, turn: Id)
    requires i < |Written(Fresh(history), actions)| && Written(Fresh(history), actions)[i].TurnInterrupted?
    ensures turn != "" && Written(Fresh(history), actions)[i] == TurnInterrupted(turn)
    ensures Said(ms) == Written(Fresh(history), actions)
    ensures Chained(ms, turn) && (ms != [] ==> ms[0].before == Fresh(history))
  {
    ms := Moments(Fresh(history), actions);
    turn := Written(Fresh(history), actions)[i].turn;
    SessionIsChained(Fresh(history), actions, "a");
    InterruptsNamed(ms, "a", i);
    SessionIsChained(Fresh(history), actions, turn);
  }

  /**
   Over every session, after TurnInterrupted for a turn, no transcript, audio, completion or second interruption of it
   follows until the stream has been renewed and the turn then started again under the same id.
   */
  lemma SilentUntilReopened(history: seq<Message>, actions: seq<Action>, i: nat, j: nat)
    requires var events := Written(Fresh(history), actions);
             i < j < |events| && events[i].TurnInterrupted? && Sounds(events[j], events[i].turn)
    ensures var events := Written(Fresh(history), actions);
            ReopenedBetween(events, i, j, events[i].turn)
  {
    var ms, turn := InterruptedSession(history, actions, i);
    var k := RenewedBetween(ms, turn, i, j);
    var m := StartedAfterRenewal(ms, turn, k, j);
  }

  // ----- fresh ids -----

  function CallsBy(action: Action): seq<Call> {
    match action
    case Act(call) => [call]
    case Withhold(event, random) => [MapCall(event, random)]
    case _ => []
  }

  /** The calls that the mappers of a session receive. */
  function CallsIn(actions: seq<Action>): seq<Call> {
    if actions == [] then [] else CallsBy(actions[0]) + CallsIn(actions[1..])
  }

  lemma {:induction false} CallsParts(x: seq<Action>, y: seq<Action>)
    ensures CallsIn(x + y) == CallsIn(x) + CallsIn(y)
  {
    if x == [] {
      assert x + y == y;
    } else {
      assert (x + y)[0] == x[0] && (x + y)[1..] == x[1..] + y;
      CallsParts(x[1..], y);
      Associate(CallsBy(x[0]), CallsIn(x[1..]), CallsIn(y));
    }
  }

  /** What an action with fresh ids starts. */
  function ActionStarted(s: MapperState, action: Action): Option<Id>
    requires Bounded(s)
  {
    if action.Act? then StepStarted(s, action.call) else None
  }

  function Supplies(action: Action): set<Id> {
    if action.Act? then Supplied(action.call) else {}
  }

  function Extended(started: set<Id>, begun: Option<Id>): set<Id> {
    if begun.Some? then started + {begun.value} else started
  }

  /** The turns started in the session so far, and the ids that have been supplied in it. */
  predicate StartsKnown(s: MapperState, used: set<Id>, started: set<Id>) {
    StartInvariant(s, used, started) && "" !in used
  }

  lemma {:induction false} FreshAction(action: Action, rest: seq<Action>, used: set<Id>)
    requires FreshRun(CallsIn([action] + rest), used)
    ensures FreshRun(CallsIn(rest), used + Supplies(action)) && Supplies(action) !! used + {""}
    ensures action.Act? && action.call.AssistantCall? ==> used == {}
  {
    assert ([action] + rest)[1..] == rest;
    var calls := CallsBy(action) + CallsIn(rest);
    if CallsBy(action) == [] {
      assert calls == CallsIn(rest) && used + {} == used;
    } else {
      assert calls[1..] == CallsIn(rest);
    }
  }

  lemma ServerKeepsStarts(s: MapperState, action: Action, used: set<Id>, started: set<Id>)
    requires Bounded(s) && Server(s, action).1.Events? && StartsKnown(s, used, started)
    requires Supplies(action) !! used + {""} && (action.Act? && action.call.AssistantCall? ==> used == {})
    ensures var begun := ActionStarted(s, action);
            && (begun.Some? ==> begun.value !in started)
            && StartsKnown(Server(s, action).0, used + Supplies(action), Extended(started, begun))
  {
    match action
    case Act(call) => StepKeepsStarts(s, call, used, started);
    case Withhold(event, random) => StepKeepsStarts(s, MapCall(event, random), used, started);
    case _ =>
  }

  lemma ServerStarts(s: MapperState, action: Action, turn: Id)
    requires Bounded(s) && Server(s, action).1.Events?
    ensures Starts(Server(s, action).1.events, turn) == if ActionStarted(s, action) == Some(turn) then 1 else 0
  {
    if action.Act? {
      StepStarts(s, action.call, turn);
    } else {
      NoStarts(Server(s, action).1.events, turn);
    }
  }

  lemma {:induction false} StartsOnceFrom(s: MapperState, actions: seq<Action>, used: set<Id>, started: set<Id>,
                                          turn: Id)
    requires Bounded(s) && StartsKnown(s, used, started) && FreshRun(CallsIn(actions), used)
    ensures Starts(Written(s, actions), turn) <= if turn in started then 0 else 1
    decreases |actions|
  {
    if actions != [] && Server(s, actions[0]).1.Events? {
      var s', begun := Server(s, actions[0]).0, ActionStarted(s, actions[0]);
      assert actions == [actions[0]] + actions[1..];
      FreshAction(actions[0], actions[1..], used);
      ServerKeepsBounded(s, actions[0]);
      ServerStarts(s, actions[0], turn);
      ServerKeepsStarts(s, actions[0], used, started);
      StartsOnceFrom(s', actions[1..], used + Supplies(actions[0]), Extended(started, begun), turn);
      StartsConcat(Server(s, actions[0]).1.events, Written(s', actions[1..]), turn);
    }
  }

  /** When no id of a session is used twice, renewals included, every turn is started at most once in it. */
  lemma StartsOnce(history: seq<Message>, actions: seq<Action>, turn: Id)
    requires FreshRun(CallsIn(actions), {})
    ensures Starts(Written(Fresh(history), actions), turn) <= 1
  {
    StartsOnceFrom(Fresh(history), actions, {}, {}, turn);
  }

  lemma {:induction false} CountsStart(events: seq<ServerEvent>, m: nat, turn: Id)
    requires m < |events| && events[m] == TurnStarted(turn)
    ensures Starts(events, turn) >= 1
  {
    if m > 0 {
      CountsStart(events[1..], m - 1, turn);
    }
  }

  lemma {:induction false} CountsStarts(events: seq<ServerEvent>, m: nat, n: nat, turn: Id)
    requires m < n < |events| && events[m] == TurnStarted(turn) && events[n] == TurnStarted(turn)
    ensures Starts(events, turn) >= 2
  {
    if m > 0 {
      CountsStarts(events[1..], m - 1, n - 1, turn);
    } else {
      CountsStart(events[1..], n - 1, turn);
    }
  }

  /** No call brings in the turn. */
  predicate Unsupplied(calls: seq<Call>, turn: Id) {
    forall n | 0 <= n < |calls| :: turn !in Supplied(calls[n])
  }

  lemma ServerStartsSupplied(s: MapperState, action: Action, turn: Id)
    requires Bounded(s) && Server(s, action).1.Events? && s.nextInput != turn && turn !in Supplies(action) && turn != ""
    ensures ActionStarted(s, action) != Some(turn) && Server(s, action).0.nextInput != turn
  {
    match action
    case Act(call) =>
      if call.MapCall? && !StartsUserContent(call) {
        OtherMappingKeepsTurn(s, call);
      }
    case Withhold(event, random) => OtherMappingKeepsTurn(s, MapCall(event, random));
    case _ =>
  }

  lemma UnsuppliedFirst(action: Action, rest: seq<Action>, turn: Id)
    requires Unsupplied(CallsIn([action] + rest), turn)
    ensures turn !in Supplies(action) && Unsupplied(CallsIn(rest), turn)
  {
    assert ([action] + rest)[1..] == rest;
    var first, later := CallsBy(action), CallsIn(rest);
    assert action.Act? ==> (first + later)[0] == action.call;
    forall n | 0 <= n < |later|
      ensures turn !in Supplied(later[n])
    {
      assert (first + later)[|first| + n] == later[n];
    }
  }

  /** A turn that waits nowhere and is not brought in is not started. */
  lemma {:induction false} UnsuppliedNeverStarts(s: MapperState, actions: seq<Action>, turn: Id)
    requires Bounded(s) && s.nextInput != turn && turn != "" && Unsupplied(CallsIn(actions), turn)
    ensures Starts(Written(s, actions), turn) == 0
    decreases |actions|
  {
    if actions != [] && Server(s, actions[0]).1.Events? {
      var s' := Server(s, actions[0]).0;
      assert actions == [actions[0]] + actions[1..];
      UnsuppliedFirst(actions[0], actions[1..], turn);
      ServerKeepsBounded(s, actions[0]);
      ServerStarts(s, actions[0], turn);
      ServerStartsSupplied(s, actions[0], turn);
      UnsuppliedNeverStarts(s', actions[1..], turn);
      StartsConcat(Server(s, actions[0]).1.events, Written(s', actions[1..]), turn);
    }
  }

  /** With fresh ids an interrupted turn stays silent for the rest of the session. */
  lemma FreshStaysSilent(history: seq<Message>, actions: seq<Action>, i: nat, j: nat)
    requires FreshRun(CallsIn(actions), {})
    requires i < j < |Written(Fresh(history), actions)| && Written(Fresh(history), actions)[i].TurnInterrupted?
    ensures !Sounds(Written(Fresh(history), actions)[j], Written(Fresh(history), actions)[i].turn)
  {
    var events := Written(Fresh(history), actions);
    var ms, turn := InterruptedSession(history, actions, i);
    if Sounds(events[j], turn) {
      var k := RenewedBetween(ms, turn, i, j);
      var n := StartedAfterRenewal(ms, turn, k, j);
      var m := StartedBefore(ms, turn, i);
      StartsOnce(history, actions, turn);
      CountsStarts(events, m, n, turn);
      assert false;
    }
  }
}
