/**
 What the personal assistant's loop tells the app, over all its runs
 (apps/personal-assistant-agent/internal/agent/runtime.go): a voice session, and the app plays it.
 */
module AgentVoice {
  import opened Basics
  import R = RealtimeMapper
  import A = ActionRuntime
  import P = Approval
  import M = MapperRuns
  import opened AgentParts
  import opened AgentLoop
  import opened AgentRuns
  import opened MapperLife
  import opened AgentTurns
  import opened VoiceSessions
  import V = VoiceComposition

  /** The voice events among the outputs. */
  function Told(outputs: seq<Output>): seq<R.ServerEvent> {
    if outputs == [] then []
    else (if outputs[0].Voice? then [outputs[0].e] else []) + Told(outputs[1..])
  }

  lemma {:induction false} ToldParts(x: seq<Output>, y: seq<Output>)
    ensures Told(x + y) == Told(x) + Told(y)
  {
    if x == [] {
      assert x + y == y;
    } else {
      assert (x + y)[0] == x[0] && (x + y)[1..] == x[1..] + y;
      ToldParts(x[1..], y);
      Associate(if x[0].Voice? then [x[0].e] else [], Told(x[1..]), Told(y));
    }
  }

  predicate Wordless(outputs: seq<Output>) {
    forall i | 0 <= i < |outputs| :: !outputs[i].Voice?
  }

  lemma {:induction false} ToldNothing(outputs: seq<Output>)
    requires Wordless(outputs)
    ensures Told(outputs) == []
  {
    if outputs != [] {
      ToldNothing(outputs[1..]);
    }
  }

  lemma {:induction false} ToldVoices(events: seq<R.ServerEvent>)
    ensures Told(Voices(events)) == events
  {
    if events != [] {
      assert Voices(events)[1..] == Voices(events[1..]);
      ToldVoices(events[1..]);
    }
  }

  lemma ToldOne(before: seq<Output>, e: R.ServerEvent, after: seq<Output>)
    requires Wordless(before) && Wordless(after)
    ensures Told(before + [Voice(e)] + after) == [e]
  {
    ToldParts(before + [Voice(e)], after);
    ToldParts(before, [Voice(e)]);
    ToldNothing(before);
    ToldNothing(after);
    assert [Voice(e)][1..] == [];
  }

  // ----- a step as actions on the mapper -----

  function Announcement(call: StagedCall): Action {
    Announce(call.turn, call.operation, call.name, call.arguments)
  }

  /**
   How a mapped event is passed on: tool calls are announced when they close, and a call that is active swallows its
   end.
   */
  function Passing(a: Agent, e: R.ProviderEvent, random: Id): seq<Action> {
    if e.ToolUse? then [Withhold(e, random)]
    else if e.ContentEnd? && e.cid in a.staged then
      if a.staged[e.cid].operation in a.pool.active then [Withhold(e, random)]
      else [Announcement(a.staged[e.cid]), Act(M.MapCall(e, random))]
    else [Act(M.MapCall(e, random))]
  }

  /** Nothing is passed on of an event that ends the loop. */
  predicate Accepts(a: Agent, e: R.ProviderEvent, random: Id)
    requires R.Bounded(a.mapper)
  {
    var outcome := R.Mapping(a.mapper, e, random).1;
    outcome.Events? && Collecting(a.speech, e, outcome.events).1
  }

  /** What a step does to the mapper of the open stream, and says. */
  function ActionsOf(a: Agent, step: Step): seq<Action>
    requires R.Bounded(a.mapper)
  {
    match step
    case TakeStep(_, AudioAppend(turn, sequence)) =>
      if Hearing(a.inputs, turn, sequence).1 == Opened then [Act(M.InputCall(turn))] else []
    case TakeStep(_, TurnCancel(turn)) =>
      if turn != a.mapper.turn || a.mapper.activity == R.Idle then []
      else if a.pool.active != {} then [Act(M.InterruptCall)]
      else [Act(M.InterruptCall), Renew(a.mapper.history)]
    case RenewStep(late) =>
      if a.pool.active != {} || (a.mapper.activity != R.Idle && !late) then []
      else [Act(M.InterruptCall), Renew(a.mapper.history)]
    case TimeOutStep => [Act(M.InterruptCall)]
    case MapStep(_, e, random) => if Accepts(a, e, random) then Passing(a, e, random) else []
    case _ => []
  }

  /** The outputs are what the actions write, and unless the loop has ended its mapper is where they lead. */
  predicate Conveys(s: R.MapperState, actions: seq<Action>, a: Agent, said: seq<R.ServerEvent>)
    requires R.Bounded(s)
  {
    Reached(s, actions).Some? && said == Written(s, actions) && (!a.over ==> Reached(s, actions).value == a.mapper)
  }

  lemma NothingConveys(s: R.MapperState, a: Agent, outputs: seq<Output>)
    requires R.Bounded(s) && Wordless(outputs) && (a.over || a.mapper == s)
    ensures Conveys(s, [], a, Told(outputs))
  {
    ToldNothing(outputs);
  }

  lemma CallConveys(s: R.MapperState, call: M.Call, a: Agent, events: seq<R.ServerEvent>, outputs: seq<Output>)
    requires R.Bounded(s) && M.Step(s, call) == (a.mapper, R.Events(events)) && Wordless(outputs)
    ensures Conveys(s, [Act(call)], a, Told(Voices(events) + outputs))
  {
    OneAction(s, Act(call));
    ToldParts(Voices(events), outputs);
    ToldVoices(events);
    ToldNothing(outputs);
  }

  /** An interruption, and then another stream. */
  lemma RenewalConveys(s: R.MapperState, a: Agent, events: seq<R.ServerEvent>)
    requires R.Bounded(s) && events == R.Interrupting(s).1 && a.mapper == R.Fresh(s.history)
    ensures Conveys(s, [Act(M.InterruptCall), Renew(s.history)], a,
                    Told(Voices(events) + [Planned(P.InterruptOp), Voice(R.SessionRenewed)]))
  {
    M.StepKeepsBounded(s, M.InterruptCall);
    TwoActions(s, Act(M.InterruptCall), Renew(s.history));
    ToldParts(Voices(events), [Planned(P.InterruptOp), Voice(R.SessionRenewed)]);
    ToldVoices(events);
    ToldOne([Planned(P.InterruptOp)], R.SessionRenewed, []);
    assert [Planned(P.InterruptOp)] + [Voice(R.SessionRenewed)] + [] ==
           [Planned(P.InterruptOp), Voice(R.SessionRenewed)];
  }

  lemma RenewingConveys(a: Agent, late: bool)
    requires R.Bounded(a.mapper)
    ensures Conveys(a.mapper, ActionsOf(a, RenewStep(late)), Renewing(a, late).0, Told(Renewing(a, late).1))
  {
    if a.pool.active != {} || (a.mapper.activity != R.Idle && !late) {
      NothingConveys(a.mapper, Renewing(a, late).0, Renewing(a, late).1);
    } else {
      RenewalConveys(a.mapper, Renewing(a, late).0, R.Interrupting(a.mapper).1);
    }
  }

  lemma CancellingConveys(a: Agent, now: int, turn: Id)
    requires R.Bounded(a.mapper)
    ensures Conveys(a.mapper, ActionsOf(a, TakeStep(now, TurnCancel(turn))), Cancelling(a, turn).0,
                    Told(Cancelling(a, turn).1))
  {
    if turn != a.mapper.turn || a.mapper.activity == R.Idle {
      NothingConveys(a.mapper, Cancelling(a, turn).0, Cancelling(a, turn).1);
    } else if a.pool.active != {} {
      CallConveys(a.mapper, M.InterruptCall, Cancelling(a, turn).0, R.Interrupting(a.mapper).1,
                  [Error("mcp_in_progress")]);
    } else {
      RenewalConveys(a.mapper, Cancelling(a, turn).0, R.Interrupting(a.mapper).1);
    }
  }

  lemma HearingConveys(a: Agent, now: int, turn: Id, sequence: nat)
    requires R.Bounded(a.mapper)
    ensures Conveys(a.mapper, ActionsOf(a, TakeStep(now, AudioAppend(turn, sequence))),
                    HearingAudio(a, turn, sequence).0,
                    Told(HearingAudio(a, turn, sequence).1))
  {
    if Hearing(a.inputs, turn, sequence).1 == Opened {
      CallConveys(a.mapper, M.InputCall(turn), HearingAudio(a, turn, sequence).0, R.StartingInput(a.mapper, turn).1,
                  [ToEar(a.stream, turn, sequence)]);
    } else {
      NothingConveys(a.mapper, HearingAudio(a, turn, sequence).0, HearingAudio(a, turn, sequence).1);
    }
  }

  lemma TakingConveys(h: A.Host, a: Agent, now: int, e: Input)
    requires R.Bounded(a.mapper)
    ensures Conveys(a.mapper, ActionsOf(a, TakeStep(now, e)), Taking(h, a, now, e).0, Told(Taking(h, a, now, e).1))
  {
    match e
    case AudioAppend(turn, sequence) => HearingConveys(a, now, turn, sequence);
    case TurnCancel(turn) => CancellingConveys(a, now, turn);
    case _ => NothingConveys(a.mapper, Taking(h, a, now, e).0, Taking(h, a, now, e).1);
  }

  lemma TimingOutConveys(a: Agent)
    requires R.Bounded(a.mapper)
    ensures Conveys(a.mapper, ActionsOf(a, TimeOutStep), TimingOut(a).0, Told(TimingOut(a).1))
  {
    CallConveys(a.mapper, M.InterruptCall, TimingOut(a).0, R.Interrupting(a.mapper).1, [Error("provider_timeout")]);
  }

  // ----- provider events -----

  /** A closed call is announced, whatever comes of it. */
  ghost predicate OnlyAnnounces(call: StagedCall, a: Agent, r: Reaction) {
    && Told(r.1) == [R.ToolStarted(call.turn, call.operation, call.name, call.arguments)]
    && r.0.mapper == a.mapper && r.0.over == a.over
  }

  lemma FollowingAnnounces(a: Agent, call: StagedCall, op: P.Op, j: A.Job, immediate: Option<A.ToolResult>)
    ensures OnlyAnnounces(call, a, Following(a, call, op, j, immediate))
  {
    var (a', outputs) := Following(a, call, op, j, immediate);
    ToldOne([Planned(op)], CallStarted(call)[0].e, outputs[2..]);
    assert [Planned(op)] + [CallStarted(call)[0]] + outputs[2..] == outputs;
  }

  lemma CancelledAnnounces(a: Agent, call: StagedCall, j: A.Job, result: A.ToolResult)
    ensures OnlyAnnounces(call, a, (a, CallStarted(call) + Answering(a, call, j, result)))
  {
    ToldOne([], CallStarted(call)[0].e, Answering(a, call, j, result));
    assert [] + [CallStarted(call)[0]] + Answering(a, call, j, result) ==
           CallStarted(call) + Answering(a, call, j, result);
  }

  lemma RunningAnnounces(h: A.Host, a: Agent, now: int, call: StagedCall)
    ensures OnlyAnnounces(call, a, Running(h, a, now, call))
  {
    if call.cancelled || call.turn != a.mapper.turn {
      CancelledAnnounces(a, call, A.Job(call.operation, call.name, None, call.turn, "", false),
                         A.Failure("turn_cancelled"));
    } else {
      var planned := A.Planning(h, a.planner, now, call.operation, call.name, call.turn, call.arguments);
      var op := P.PlanOp(now, call.operation, call.name, call.turn, call.arguments);
      FollowingAnnounces(a.(planner := planned.0), call, op, planned.1.0, planned.1.1);
    }
  }

  /** An announced call, and then what the mapper made of the end of its content. */
  lemma ClosingConveys(s: R.MapperState, e: R.ProviderEvent, random: Id, call: StagedCall, a: Agent, r: Reaction,
                       events: seq<R.ServerEvent>)
    requires R.Bounded(s) && R.Mapping(s, e, random) == (a.mapper, R.Events(events)) && OnlyAnnounces(call, a, r)
    ensures Conveys(s, [Announcement(call), Act(M.MapCall(e, random))], r.0, Told(r.1 + Voices(events)))
  {
    TwoActions(s, Announcement(call), Act(M.MapCall(e, random)));
    ToldParts(r.1, Voices(events));
    ToldVoices(events);
  }

  lemma WithheldConveys(s: R.MapperState, e: R.ProviderEvent, random: Id, a: Agent, outputs: seq<Output>)
    requires R.Bounded(s) && (e.ToolUse? || e.ContentEnd?) && R.Mapping(s, e, random).1.Events?
    requires (a.over || a.mapper == R.Mapping(s, e, random).0) && Wordless(outputs)
    ensures Conveys(s, [Withhold(e, random)], a, Told(outputs))
  {
    OneAction(s, Withhold(e, random));
    ToldNothing(outputs);
  }

  lemma PassedConveys(s: R.MapperState, e: R.ProviderEvent, random: Id, a: Agent, events: seq<R.ServerEvent>)
    requires R.Bounded(s) && R.Mapping(s, e, random) == (a.mapper, R.Events(events))
    ensures Conveys(s, [Act(M.MapCall(e, random))], a, Told(Voices(events)))
  {
    CallConveys(s, M.MapCall(e, random), a, events, []);
    assert Voices(events) + [] == Voices(events);
  }

  lemma ToolsConvey(h: A.Host, s: R.MapperState, a: Agent, now: int, e: R.ProviderEvent, random: Id,
                    events: seq<R.ServerEvent>)
    requires R.Bounded(s) && R.Mapping(s, e, random) == (a.mapper, R.Events(events))
    ensures Conveys(s, Passing(a, e, random), Tools(h, a, now, e, events).0, Told(Tools(h, a, now, e, events).1))
  {
    var r := Tools(h, a, now, e, events);
    if e.ToolUse? {
      WithheldConveys(s, e, random, r.0, r.1);
    } else if e.ContentEnd? && e.cid in a.staged {
      var call, a1 := a.staged[e.cid], a.(staged := a.staged - {e.cid});
      if call.operation in a.pool.active {
        WithheldConveys(s, e, random, r.0, r.1);
      } else {
        RunningAnnounces(h, a1, now, call);
        ClosingConveys(s, e, random, call, a1, Running(h, a1, now, call), events);
      }
    } else {
      PassedConveys(s, e, random, a, events);
    }
  }

  lemma ReactingConveys(h: A.Host, s: R.MapperState, a: Agent, now: int, e: R.ProviderEvent, random: Id,
                        events: seq<R.ServerEvent>)
    requires R.Bounded(s) && R.Mapping(s, e, random) == (a.mapper, R.Events(events))
    requires Collecting(a.speech, e, events).1
    ensures var r := Reacting(h, a, now, e, R.Events(events));
            Conveys(s, Passing(a, e, random), r.0, Told(r.1))
  {
    var a0 := a.(speech := Collecting(a.speech, e, events).0);
    var (a1, observed) := Observing(h, a0, now, e);
    ToolsConvey(h, s, a1, now, e, random, events);
    ToldParts(observed, Tools(h, a1, now, e, events).1);
    ToldNothing(observed);
  }

  lemma MappingConveys(h: A.Host, a: Agent, now: int, e: R.ProviderEvent, random: Id)
    requires R.Bounded(a.mapper)
    ensures Conveys(a.mapper, ActionsOf(a, MapStep(now, e, random)), Mapping(h, a, now, e, random).0,
                    Told(Mapping(h, a, now, e, random).1))
  {
    var (m, outcome) := R.Mapping(a.mapper, e, random);
    if Accepts(a, e, random) {
      ReactingConveys(h, a.mapper, a.(mapper := m), now, e, random, outcome.events);
    } else {
      NothingConveys(a.mapper, Mapping(h, a, now, e, random).0, Mapping(h, a, now, e, random).1);
    }
  }

  lemma StepConveys(h: A.Host, a: Agent, step: Step)
    requires R.Bounded(a.mapper) && Enabled(a, step)
    ensures Conveys(a.mapper, ActionsOf(a, step), Next(h, a, step).0, Told(Next(h, a, step).1))
  {
    match step
    case TakeStep(now, e) => TakingConveys(h, a, now, e);
    case RenewStep(late) => RenewingConveys(a, late);
    case TimeOutStep => TimingOutConveys(a);
    case FinishStep(_, _) => NothingConveys(a.mapper, Next(h, a, step).0, []);
    case DeliverStep => NothingConveys(a.mapper, Delivering(h, a).0, Delivering(h, a).1);
    case MapStep(now, e, random) => MappingConveys(h, a, now, e, random);
  }

  // ----- runs -----

  /** The session that a run conducts. */
  ghost function ActionsIn(h: A.Host, steps: seq<Step>): seq<Action> {
    if steps == [] then []
    else
      var before, step := steps[..|steps| - 1], steps[|steps| - 1];
      var a := Run(h, before).0;
      ActionsIn(h, before) + if Enabled(a, step) then ActionsOf(a, step) else []
  }

  lemma ConveysOn(s: R.MapperState, x: seq<Action>, a: Agent, said: seq<R.ServerEvent>, y: seq<Action>, a': Agent,
                  more: seq<R.ServerEvent>)
    requires R.Bounded(s) && Conveys(s, x, a, said) && !a.over && R.Bounded(a.mapper) && Conveys(a.mapper, y, a', more)
    ensures Conveys(s, x + y, a', said + more)
  {
    SessionParts(s, x, y);
  }

  lemma {:induction false} RunConveys(h: A.Host, steps: seq<Step>)
    ensures Conveys(R.Fresh([]), ActionsIn(h, steps), Run(h, steps).0, Told(Run(h, steps).1))
  {
    if steps != [] {
      var before, step := steps[..|steps| - 1], steps[|steps| - 1];
      RunConveys(h, before);
      var (a, outputs) := Run(h, before);
      if Enabled(a, step) {
        StepConveys(h, a, step);
        ToldParts(outputs, Next(h, a, step).1);
        ConveysOn(R.Fresh([]), ActionsIn(h, before), a, Told(outputs), ActionsOf(a, step), Next(h, a, step).0,
                  Told(Next(h, a, step).1));
      } else {
        assert ActionsIn(h, before) + [] == ActionsIn(h, before);
      }
    }
  }

  /**
   Over every run, once TurnInterrupted has been put out for a turn, no transcript, audio, completion or interruption of
   it is, until the stream has been renewed and the turn then started again under the same id.
   */
  lemma InterruptedStaysSilent(h: A.Host, steps: seq<Step>, i: nat, j: nat)
    requires var said := Told(Run(h, steps).1);
             i < j < |said| && said[i].TurnInterrupted? && Sounds(said[j], said[i].turn)
    ensures ReopenedBetween(Told(Run(h, steps).1), i, j, Told(Run(h, steps).1)[i].turn)
  {
    RunConveys(h, steps);
    SilentUntilReopened([], ActionsIn(h, steps), i, j);
  }

  /** A turn whose interruption has been put out is cancelled in the mapper until the stream is renewed. */
  lemma InterruptionStands(h: A.Host, steps: seq<Step>, i: nat)
    requires !Run(h, steps).0.over && i < |Told(Run(h, steps).1)|
    requires Told(Run(h, steps).1)[i].TurnInterrupted? && NoRenewal(Told(Run(h, steps).1)[i..])
    ensures Told(Run(h, steps).1)[i].turn in Run(h, steps).0.mapper.cancelled
  {
    RunConveys(h, steps);
    InterruptionIsKept([], ActionsIn(h, steps), i);
  }

  // ----- fresh ids -----

  lemma CallsOne(action: Action)
    ensures CallsIn([action]) == CallsBy(action)
  {
    assert [action][1..] == [];
  }

  lemma CallsTwo(first: Action, second: Action)
    ensures CallsIn([first, second]) == CallsBy(first) + CallsBy(second)
  {
    CallsOne(first);
    CallsOne(second);
    CallsParts([first], [second]);
    assert [first] + [second] == [first, second];
  }

  lemma PassingCalls(a: Agent, e: R.ProviderEvent, random: Id)
    ensures CallsIn(Passing(a, e, random)) == [M.MapCall(e, random)]
  {
    if e.ToolUse? || (e.ContentEnd? && e.cid in a.staged && a.staged[e.cid].operation in a.pool.active) {
      CallsOne(Withhold(e, random));
    } else if e.ContentEnd? && e.cid in a.staged {
      CallsTwo(Announcement(a.staged[e.cid]), Act(M.MapCall(e, random)));
    } else {
      CallsOne(Act(M.MapCall(e, random)));
    }
  }

  /** The calls of a step, unless the loop ends with it. */
  predicate SameCalls(actions: seq<Action>, calls: seq<M.Call>) {
    CallsIn(actions) == [] || CallsIn(actions) == calls
  }

  lemma InterruptionCalls(history: seq<R.Message>)
    ensures CallsIn([Act(M.InterruptCall)]) == [M.InterruptCall]
    ensures CallsIn([Act(M.InterruptCall), Renew(history)]) == [M.InterruptCall]
  {
    CallsOne(Act(M.InterruptCall));
    CallsTwo(Act(M.InterruptCall), Renew(history));
  }

  lemma StepMakesCalls(a: Agent, step: Step)
    requires R.Bounded(a.mapper)
    ensures SameCalls(ActionsOf(a, step), CallsOf(a, step)) && |CallsOf(a, step)| <= 1
  {
    InterruptionCalls(a.mapper.history);
    match step
    case TakeStep(_, AudioAppend(turn, sequence)) => CallsOne(Act(M.InputCall(turn)));
    case MapStep(_, e, random) => PassingCalls(a, e, random);
    case _ =>
  }

  /** Inputs are named once and by valid ids, and those named are used. */
  ghost predicate OwnCalls(calls: seq<M.Call>, used: set<Id>) {
    && OwnInputs(calls) && NamesOnce(calls, used)
    && forall j | 0 <= j < |calls| && Named(calls[j]) :: ValidId(calls[j].id)
  }

  /** A call of the client names an input that has not been named before, by a valid id. */
  predicate NamesNew(calls: seq<M.Call>, used: set<Id>, used': set<Id>) {
    && used <= used' && |calls| <= 1
    && (calls != [] && Named(calls[0]) ==> ValidId(calls[0].id) && calls[0].id !in used && calls[0].id in used')
    && (calls != [] ==> !calls[0].AssistantCall?)
  }

  lemma OwnCallsGrow(calls: seq<M.Call>, used: set<Id>, more: seq<M.Call>, used': set<Id>)
    requires OwnCalls(calls, used) && NamesNew(more, used, used')
    ensures OwnCalls(calls + more, used')
  {
    if more == [] {
      assert calls + more == calls;
    } else {
      OwnInputsGrow(calls, used, more[0]);
      assert calls + more == calls + [more[0]];
    }
  }

  lemma StepNames(h: A.Host, a: Agent, step: Step)
    requires R.Bounded(a.mapper) && Enabled(a, step)
    ensures NamesNew(CallsIn(ActionsOf(a, step)), a.inputs.used, Next(h, a, step).0.inputs.used)
  {
    StepMakesCalls(a, step);
    StepUses(h, a, step);
  }

  lemma {:induction false} RunOwnsCalls(h: A.Host, steps: seq<Step>)
    ensures OwnCalls(CallsIn(ActionsIn(h, steps)), Run(h, steps).0.inputs.used)
  {
    if steps != [] {
      var before, step := steps[..|steps| - 1], steps[|steps| - 1];
      RunOwnsCalls(h, before);
      var a := Run(h, before).0;
      if Enabled(a, step) {
        CallsParts(ActionsIn(h, before), ActionsOf(a, step));
        StepNames(h, a, step);
        OwnCallsGrow(CallsIn(ActionsIn(h, before)), a.inputs.used, CallsIn(ActionsOf(a, step)),
                     Next(h, a, step).0.inputs.used);
      } else {
        assert ActionsIn(h, before) + [] == ActionsIn(h, before);
      }
    }
  }

  /** An interrupted turn is not heard again. */
  ghost predicate StaysSilent(said: seq<R.ServerEvent>) {
    forall i, j | 0 <= i < j < |said| && said[i].TurnInterrupted? :: !Sounds(said[j], said[i].turn)
  }

  lemma FreshSessionStaysSilent(actions: seq<Action>)
    requires M.FreshRun(CallsIn(actions), {})
    ensures StaysSilent(Written(R.Fresh([]), actions))
  {
    var said := Written(R.Fresh([]), actions);
    forall i, j | 0 <= i < j < |said| && said[i].TurnInterrupted?
      ensures !Sounds(said[j], said[i].turn)
    {
      FreshStaysSilent([], actions, i, j);
    }
  }

  /**
   Over every run, across renewals, all ids are fresh exactly when those that the server draws are not empty, not drawn
   again and not named by the client; and then an interrupted turn is not heard again on any stream.
   */
  lemma SessionIsFreshIff(h: A.Host, steps: seq<Step>)
    ensures var calls := CallsIn(ActionsIn(h, steps));
            && (M.FreshRun(calls, {}) <==> DrawsFresh(calls))
            && (DrawsFresh(calls) ==> StaysSilent(Told(Run(h, steps).1)))
  {
    RunOwnsCalls(h, steps);
    RunConveys(h, steps);
    FreshIffDrawsFresh(CallsIn(ActionsIn(h, steps)));
    if DrawsFresh(CallsIn(ActionsIn(h, steps))) {
      FreshSessionStaysSilent(ActionsIn(h, steps));
    }
  }

  // ----- what the app plays -----

  /** What the app takes in: the voice events before the first error, which ends its session. */
  function TakenIn(outputs: seq<Output>): seq<R.ServerEvent> {
    if outputs == [] || outputs[0].Error? then []
    else (if outputs[0].Voice? then [outputs[0].e] else []) + TakenIn(outputs[1..])
  }

  predicate Errorless(outputs: seq<Output>) {
    forall i | 0 <= i < |outputs| :: !outputs[i].Error?
  }

  lemma {:induction false} TakenParts(x: seq<Output>, y: seq<Output>)
    ensures TakenIn(x + y) == if Errorless(x) then Told(x) + TakenIn(y) else TakenIn(x)
  {
    if x == [] {
      assert x + y == y;
    } else {
      assert (x + y)[0] == x[0] && (x + y)[1..] == x[1..] + y;
      if !x[0].Error? {
        assert Errorless(x) <==> Errorless(x[1..]);
        TakenParts(x[1..], y);
        Associate(if x[0].Voice? then [x[0].e] else [], Told(x[1..]), TakenIn(y));
      }
    }
  }

  /** An error is the last that a step puts out. */
  predicate ErrorsEnd(outputs: seq<Output>) {
    forall i | 0 <= i < |outputs| - 1 :: !outputs[i].Error?
  }

  lemma TakenInFull(outputs: seq<Output>)
    requires ErrorsEnd(outputs)
    ensures TakenIn(outputs) == Told(outputs)
  {
    if outputs != [] {
      var n := |outputs| - 1;
      assert outputs == outputs[..n] + [outputs[n]];
      TakenParts(outputs[..n], [outputs[n]]);
      ToldParts(outputs[..n], [outputs[n]]);
      assert [outputs[n]][1..] == [];
    }
  }

  lemma RunningErrorless(h: A.Host, a: Agent, now: int, call: StagedCall)
    ensures Errorless(Running(h, a, now, call).1)
  {
  }

  lemma ToolsErrorsEnd(h: A.Host, a: Agent, now: int, e: R.ProviderEvent, events: seq<R.ServerEvent>)
    ensures ErrorsEnd(Tools(h, a, now, e, events).1)
  {
    if e.ContentEnd? && e.cid in a.staged {
      RunningErrorless(h, a.(staged := a.staged - {e.cid}), now, a.staged[e.cid]);
    }
  }

  lemma MappingErrorsEnd(h: A.Host, a: Agent, now: int, e: R.ProviderEvent, random: Id)
    requires R.Bounded(a.mapper)
    ensures ErrorsEnd(Mapping(h, a, now, e, random).1)
  {
    var (m, outcome) := R.Mapping(a.mapper, e, random);
    if Accepts(a, e, random) {
      var a0 := a.(mapper := m, speech := Collecting(a.speech, e, outcome.events).0);
      ToolsErrorsEnd(h, Observing(h, a0, now, e).0, now, e, outcome.events);
    }
  }

  lemma TakingErrorsEnd(h: A.Host, a: Agent, now: int, e: Input)
    ensures ErrorsEnd(Taking(h, a, now, e).1)
  {
  }

  lemma StepErrorsEnd(h: A.Host, a: Agent, step: Step)
    requires R.Bounded(a.mapper) && Enabled(a, step)
    ensures ErrorsEnd(Next(h, a, step).1)
  {
    match step
    case TakeStep(now, e) => TakingErrorsEnd(h, a, now, e);
    case MapStep(now, e, random) => MappingErrorsEnd(h, a, now, e, random);
    case _ =>
  }

  /** What the app takes in is what a run up to the first error tells it. */
  lemma {:induction false} TakenIsTold(h: A.Host, steps: seq<Step>) returns (n: nat)
    ensures n <= |steps| && TakenIn(Run(h, steps).1) == Told(Run(h, steps[..n]).1)
  {
    n := |steps|;
    assert steps[..n] == steps;
    if steps != [] {
      var before, step := steps[..|steps| - 1], steps[|steps| - 1];
      var (a, outputs) := Run(h, before);
      var k := TakenIsTold(h, before);
      assert before[..k] == steps[..k];
      if !Enabled(a, step) {
        n := k;
      } else {
        StepErrorsEnd(h, a, step);
        TakenInFull(Next(h, a, step).1);
        TakenParts(outputs, Next(h, a, step).1);
        ToldParts(outputs, Next(h, a, step).1);
        n := if Errorless(outputs) then |steps| else k;
      }
    }
  }

  lemma {:induction false} ActionsGrow(h: A.Host, steps: seq<Step>, n: nat) returns (more: seq<Action>)
    requires n <= |steps|
    ensures ActionsIn(h, steps) == ActionsIn(h, steps[..n]) + more
    decreases |steps|
  {
    if n == |steps| {
      more := [];
      assert steps[..n] == steps;
    } else {
      var before, step := steps[..|steps| - 1], steps[|steps| - 1];
      var a := Run(h, before).0;
      more := ActionsGrow(h, before, n);
      assert before[..n] == steps[..n];
      more := more + if Enabled(a, step) then ActionsOf(a, step) else [];
    }
  }

  /** The ids that the server draws are ids of the voice contract. */
  predicate DrawsValid(calls: seq<M.Call>) {
    forall j | 0 <= j < |calls| && !Named(calls[j]) :: V.AllValid(M.Supplied(calls[j]))
  }

  lemma FirstCalls(x: seq<M.Call>, y: seq<M.Call>)
    requires DrawsFresh(x + y) && DrawsValid(x + y)
    ensures DrawsFresh(x) && DrawsValid(x)
  {
    forall j | 0 <= j < |x| && !Named(x[j])
      ensures "" !in M.Supplied(x[j]) && V.AllValid(M.Supplied(x[j]))
    {
      assert (x + y)[j] == x[j];
    }
    forall i, j | 0 <= i < j < |x| && !(Named(x[i]) && Named(x[j]))
      ensures Apart(x, i, j)
    {
      assert (x + y)[i] == x[i] && (x + y)[j] == x[j];
      assert Apart(x + y, i, j);
    }
  }

  lemma FreshSessionPlays(sessionId: string, actions: seq<Action>, used: set<Id>)
    requires OwnCalls(CallsIn(actions), used) && DrawsFresh(CallsIn(actions)) && DrawsValid(CallsIn(actions))
    ensures V.PlaysAll(sessionId, Written(R.Fresh([]), actions))
  {
    var calls := CallsIn(actions);
    FreshIffDrawsFresh(calls);
    forall i | 0 <= i < |calls|
      ensures V.AllValid(M.Supplied(calls[i]))
    {
    }
    V.FreshIsDisciplined([], actions);
    V.EmittedIsPlayed(sessionId, [], actions);
  }

  /**
   Over every run in which the ids that the server draws are valid, not drawn again and not named by the client, the
   app plays what the loop tells it: it fails exactly when more than 128 turns are interrupted, and otherwise plays
   every chunk of a turn once and in order, across renewals.
   */
  lemma LoopIsPlayed(h: A.Host, steps: seq<Step>, sessionId: string)
    requires DrawsFresh(CallsIn(ActionsIn(h, steps))) && DrawsValid(CallsIn(ActionsIn(h, steps)))
    ensures V.PlaysAll(sessionId, TakenIn(Run(h, steps).1))
  {
    var n := TakenIsTold(h, steps);
    var more := ActionsGrow(h, steps, n);
    CallsParts(ActionsIn(h, steps[..n]), more);
    FirstCalls(CallsIn(ActionsIn(h, steps[..n])), CallsIn(more));
    RunOwnsCalls(h, steps[..n]);
    RunConveys(h, steps[..n]);
    FreshSessionPlays(sessionId, ActionsIn(h, steps[..n]), Run(h, steps[..n]).0.inputs.used);
  }
}
