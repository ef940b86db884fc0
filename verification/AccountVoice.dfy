/**
 What the account agent's loop tells the app, over all its runs (apps/account-agent/internal/account/runtime.go):
 a voice session that begins with the opening turn, and the app plays it.
 */
module AccountVoice {
  import opened Basics
  import R = RealtimeMapper
  import A = ActionRuntime
  import P = Approval
  import M = MapperRuns
  import opened AgentParts
  import opened WorkerPool
  import opened AgentLoop
  import opened AgentRuns
  import opened MapperLife
  import opened AgentVoice
  import opened AccountLoop
  import opened AccountRuns
  import opened AccountTurns
  import opened VoiceSessions
  import V = VoiceComposition

  // ----- a step as actions on the mapper -----

  /** An utterance that refuses the invitation ends the loop. */
  predicate Refuses(l: Letters, waiting: bool, s: Speech, e: R.ProviderEvent) {
    AtBoundary(s, e) && waiting && WelcomeAnswer(l, s.text) == No
  }

  /** What a mapped event says, when the loop does not end with it. */
  function MappedActions(l: Letters, c: Account, e: R.ProviderEvent, random: Id, outcome: R.Outcome): seq<Action> {
    if outcome.Failed? then []
    else
      var (speech, ok) := Collecting(c.agent.speech, e, outcome.events);
      if !ok || Refuses(l, c.waiting, speech, e) then [] else Passing(c.agent, e, random)
  }

  /** An operation that the app has approved is announced when it is released. */
  function PressedActions(h: A.Host, c: Account, now: int, operation: Id, approved: bool): seq<Action> {
    if c.agent.planner.pending.None? || !approved then []
    else
      var p := c.agent.planner.pending.value;
      var (s, accepted) := A.Confirming(h, c.agent.planner, now, operation, approved);
      if !accepted then []
      else ReleasedActions(A.Planning(h, s, now, p.operationId, P.DotsToUnderscores(p.name), p.turn, p.args).1)
  }

  function ReleasedActions(planned: (A.Job, Option<A.ToolResult>)): seq<Action> {
    if planned.1.Some? then [] else [Announce(planned.0.turn, planned.0.id, planned.0.name, "")]
  }

  /** What a step does to the mapper of the open stream, and says. */
  function AccountActionsOf(h: A.Host, l: Letters, c: Account, step: Step): seq<Action>
    requires R.Bounded(c.agent.mapper) && Enabled(c.agent, step)
  {
    match step
    case TakeStep(_, AudioAppend(turn, sequence)) =>
      if c.greeting && Hearing(c.agent.inputs, turn, sequence).1 == Opened then [Act(M.QueueCall(turn))]
      else ActionsOf(c.agent, step)
    case TakeStep(now, ToolConfirm(operation, approved)) =>
      if operation == WELCOME && c.waiting then [] else PressedActions(h, c, now, operation, approved)
    case DeliverStep =>
      var d := c.agent.pool.channel[0];
      if d.worker.job.id in c.uiJobs then [Renew(c.agent.mapper.history + [R.AssistantMessage(Summary(d.result))])]
      else []
    case MapStep(_, e, random) =>
      if Filtering(c, e).1 then [] else MappedActions(l, c, e, random, R.Mapping(c.agent.mapper, e, random).1)
    case _ => ActionsOf(c.agent, step)
  }

  // ----- each step conveys its actions -----

  lemma LoginPlannedIsWordless(c: Account, op: P.Op, s: A.PlannerState, j: A.Job, immediate: Option<A.ToolResult>)
    ensures Wordless(LoginPlanned(c, op, s, j, immediate).1) && Errorless(LoginPlanned(c, op, s, j, immediate).1)
    ensures LoginPlanned(c, op, s, j, immediate).0.agent.over == c.agent.over
  {
  }

  lemma BeginningIsWordless(h: A.Host, c: Account, now: int, turn: Id)
    ensures Wordless(BeginningLogin(h, c, now, turn).1) && Errorless(BeginningLogin(h, c, now, turn).1)
    ensures BeginningLogin(h, c, now, turn).0.agent.over == c.agent.over
  {
    var planned := A.Planning(h, c.agent.planner, now, WELCOME, LOGIN_MODEL_NAME, turn, "{}");
    LoginPlannedIsWordless(c.(waiting := false), P.PlanOp(now, WELCOME, LOGIN_MODEL_NAME, turn, "{}"), planned.0,
                           planned.1.0, planned.1.1);
  }

  lemma PressedConveys(c: Account, begun: seq<Output>, s: A.PlannerState, j: A.Job, immediate: Option<A.ToolResult>)
    requires R.Bounded(c.agent.mapper) && Wordless(begun) && Errorless(begun)
    ensures var r := Pressed(c, begun, s, j, immediate);
            Conveys(c.agent.mapper, ReleasedActions((j, immediate)), r.0.agent, Told(r.1)) && ErrorsEnd(r.1)
  {
    var (c', outputs) := Pressed(c, begun, s, j, immediate);
    if immediate.Some? {
      NothingConveys(c.agent.mapper, c'.agent, outputs);
    } else {
      var e := R.ToolStarted(j.turn, j.id, j.name, "");
      OneAction(c.agent.mapper, Announce(j.turn, j.id, j.name, ""));
      ToldOne(begun, e, [Begin(Worker(j, None))]);
      assert begun + [Voice(e)] + [Begin(Worker(j, None))] == outputs;
    }
  }

  lemma ApprovingConveys(h: A.Host, c: Account, begun: seq<Output>, now: int, s: A.PlannerState, p: A.Pending)
    requires R.Bounded(c.agent.mapper) && Wordless(begun) && Errorless(begun)
    ensures var r := Approving(h, c, begun, now, s, p);
            var actions := ReleasedActions(A.Planning(h, s, now, p.operationId, P.DotsToUnderscores(p.name), p.turn,
                                                      p.args).1);
            Conveys(c.agent.mapper, actions, r.0.agent, Told(r.1)) && ErrorsEnd(r.1)
  {
    var name := P.DotsToUnderscores(p.name);
    var planned := A.Planning(h, s, now, p.operationId, name, p.turn, p.args);
    PressedConveys(c, begun + [Planned(P.PlanOp(now, p.operationId, name, p.turn, p.args))], planned.0, planned.1.0,
                   planned.1.1);
  }

  lemma PressingConveys(h: A.Host, c: Account, now: int, operation: Id, approved: bool)
    requires R.Bounded(c.agent.mapper)
    ensures var r := Pressing(h, c, now, operation, approved);
            Conveys(c.agent.mapper, PressedActions(h, c, now, operation, approved), r.0.agent, Told(r.1))
            && ErrorsEnd(r.1)
  {
    if c.agent.planner.pending.Some? && A.Confirming(h, c.agent.planner, now, operation, approved).1 && approved {
      ApprovingConveys(h, c, [Planned(P.ConfirmOp(now, operation, approved))], now,
                       A.Confirming(h, c.agent.planner, now, operation, approved).0, c.agent.planner.pending.value);
    } else {
      NothingConveys(c.agent.mapper, Pressing(h, c, now, operation, approved).0.agent,
                     Pressing(h, c, now, operation, approved).1);
    }
  }

  lemma ConfirmConveys(h: A.Host, c: Account, now: int, operation: Id, approved: bool, r: Response)
    requires R.Bounded(c.agent.mapper) && r == TakingAccount(h, c, now, ToolConfirm(operation, approved))
    ensures var actions := if operation == WELCOME && c.waiting then []
            else PressedActions(h, c, now, operation, approved);
            Conveys(c.agent.mapper, actions, r.0.agent, Told(r.1)) && ErrorsEnd(r.1)
  {
    if operation == WELCOME && c.waiting {
      BeginningIsWordless(h, c, now, WELCOME);
      ConfirmStays(h, c, now, operation, approved);
      NothingConveys(c.agent.mapper, r.0.agent, r.1);
    } else {
      PressingConveys(h, c, now, operation, approved);
    }
  }

  lemma HearingConveysToo(c: Account, now: int, turn: Id, sequence: nat)
    requires R.Bounded(c.agent.mapper)
    ensures var r := HearingAccount(c, turn, sequence);
            var queues := c.greeting && Hearing(c.agent.inputs, turn, sequence).1 == Opened;
            var actions :=
              if queues then [Act(M.QueueCall(turn))]
              else ActionsOf(c.agent, TakeStep(now, AudioAppend(turn, sequence)));
            Conveys(c.agent.mapper, actions, r.0.agent, Told(r.1))
  {
    if c.greeting && Hearing(c.agent.inputs, turn, sequence).1 == Opened {
      OneAction(c.agent.mapper, Act(M.QueueCall(turn)));
      ToldNothing([ToEar(c.agent.stream, turn, sequence)]);
    } else {
      HearingConveys(c.agent, now, turn, sequence);
    }
  }

  lemma DeliveringConveys(h: A.Host, c: Account, d: Delivery, r: Response)
    requires R.Bounded(c.agent.mapper) && c.agent.pool.channel != [] && d == c.agent.pool.channel[0]
    requires r == DeliveringUi(h, c)
    ensures Conveys(c.agent.mapper, [Renew(c.agent.mapper.history + [R.AssistantMessage(Summary(d.result))])],
                    r.0.agent, Told(r.1))
  {
    OneAction(c.agent.mapper, Renew(c.agent.mapper.history + [R.AssistantMessage(Summary(d.result))]));
    var before := [Planned(P.CompleteOp(d.worker.job, d.result)), ToolOutcome(d.worker.job, d.result),
                   Planned(P.InterruptOp)];
    ToldOne(before, R.SessionRenewed, []);
    assert before + [Voice(R.SessionRenewed)] + [] == r.1;
  }

  // ----- provider events -----

  lemma RunningAccountAnnounces(h: A.Host, a: Agent, now: int, call: StagedCall)
    ensures OnlyAnnounces(call, a, RunningAccount(h, a, now, call)) && Errorless(RunningAccount(h, a, now, call).1)
  {
    if !(call.cancelled || call.turn != a.mapper.turn) && AsksLogin(call) {
      CancelledAnnounces(a, call, A.Job(call.operation, LOGIN, None, call.turn, "", false),
                         A.Failure("use_pending_login_invitation"));
    } else {
      RunningAnnounces(h, a, now, call);
      RunningErrorless(h, a, now, call);
    }
  }

  lemma ToolsAccountConvey(h: A.Host, s: R.MapperState, a: Agent, now: int, e: R.ProviderEvent, random: Id,
                           events: seq<R.ServerEvent>)
    requires R.Bounded(s) && R.Mapping(s, e, random) == (a.mapper, R.Events(events))
    ensures var r := ToolsAccount(h, a, now, e, events);
            Conveys(s, Passing(a, e, random), r.0, Told(r.1)) && ErrorsEnd(r.1)
  {
    if e.ContentEnd? && e.cid in a.staged {
      var call, a1, r := a.staged[e.cid], a.(staged := a.staged - {e.cid}), ToolsAccount(h, a, now, e, events);
      if call.operation in a.pool.active {
        WithheldConveys(s, e, random, r.0, r.1);
      } else {
        RunningAccountAnnounces(h, a1, now, call);
        ClosingConveys(s, e, random, call, a1, RunningAccount(h, a1, now, call), events);
      }
    } else {
      ToolsConvey(h, s, a, now, e, random, events);
      ToolsErrorsEnd(h, a, now, e, events);
    }
  }

  lemma AcceptingIsWordless(h: A.Host, c: Account, now: int, turn: Id, before: A.PlannerState, observed: seq<Output>)
    requires Wordless(observed) && Errorless(observed)
    ensures var (c2, begun) := BeginningLogin(h, c, now, turn);
            var outputs := observed + begun + Dropped(before, c2.agent.planner);
            Wordless(outputs) && Errorless(outputs) && c2.agent.over == c.agent.over
  {
    BeginningIsWordless(h, c, now, turn);
  }

  /** Observing says nothing; it ends the loop only when the invitation is refused. */
  lemma ObservingIsWordless(h: A.Host, l: Letters, c: Account, now: int, e: R.ProviderEvent)
    ensures var r := ObservingAccount(h, l, c, now, e);
            Wordless(r.1) && Errorless(r.1) && r.0.agent.over ==
              (c.agent.over || Refuses(l, c.waiting, c.agent.speech, e))
  {
    if AtBoundary(c.agent.speech, e) {
      var (a, observed) := Observing(h, c.agent, now, e);
      AcceptingIsWordless(h, c.(agent := a), now, a.speech.turn, c.agent.planner, observed);
    }
  }

  /** The calls that wait are the same after observing, and so are the active ones unless other content begins. */
  lemma ObservingPasses(h: A.Host, l: Letters, c: Account, now: int, e: R.ProviderEvent, random: Id)
    ensures Passing(ObservingAccount(h, l, c, now, e).0.agent, e, random) == Passing(c.agent, e, random)
  {
  }

  lemma ReactingToConveys(h: A.Host, l: Letters, s: R.MapperState, c: Account, now: int, e: R.ProviderEvent, random: Id,
                          events: seq<R.ServerEvent>)
    requires R.Bounded(s) && R.Mapping(s, e, random) == (c.agent.mapper, R.Events(events)) && !c.agent.over
    ensures var r := ReactingTo(h, l, c, now, e, events);
            Conveys(s, if Refuses(l, c.waiting, c.agent.speech, e) then []
                    else Passing(c.agent, e, random), r.0.agent, Told(r.1)) && ErrorsEnd(r.1)
  {
    var (c1, observed) := ObservingAccount(h, l, c, now, e);
    ObservingIsWordless(h, l, c, now, e);
    if c1.agent.over {
      NothingConveys(s, c1.agent, observed);
    } else {
      ObservingStays(h, l, c, now, e);
      ObservingPasses(h, l, c, now, e, random);
      ToolsAccountConvey(h, s, c1.agent, now, e, random, events);
      ToldParts(observed, ToolsAccount(h, c1.agent, now, e, events).1);
      ToldNothing(observed);
    }
  }

  lemma MappedConveys(h: A.Host, l: Letters, s: R.MapperState, c: Account, now: int, e: R.ProviderEvent, random: Id,
                      outcome: R.Outcome, r: Response)
    requires R.Bounded(s) && R.Mapping(s, e, random) == (c.agent.mapper, outcome) && !c.agent.over
    requires r == ReactingAccount(h, l, c, now, e, outcome)
    ensures Conveys(s, MappedActions(l, c, e, random, outcome), r.0.agent, Told(r.1)) && ErrorsEnd(r.1)
  {
    if outcome.Failed? || !Collecting(c.agent.speech, e, outcome.events).1 {
      NothingConveys(s, r.0.agent, r.1);
    } else {
      CollectedConveys(h, l, s, c, now, e, random, outcome.events, Collecting(c.agent.speech, e, outcome.events).0);
    }
  }

  lemma CollectedConveys(h: A.Host, l: Letters, s: R.MapperState, c: Account, now: int, e: R.ProviderEvent, random: Id,
                         events: seq<R.ServerEvent>, speech: Speech)
    requires R.Bounded(s) && R.Mapping(s, e, random) == (c.agent.mapper, R.Events(events)) && !c.agent.over
    ensures var r := ReactingTo(h, l, c.(agent := c.agent.(speech := speech)), now, e, events);
            Conveys(s, if Refuses(l, c.waiting, speech, e) then []
                    else Passing(c.agent, e, random), r.0.agent, Told(r.1)) && ErrorsEnd(r.1)
  {
    ReactingToConveys(h, l, s, c.(agent := c.agent.(speech := speech)), now, e, random, events);
  }

  lemma MappingAccountConveys(h: A.Host, l: Letters, c: Account, now: int, e: R.ProviderEvent, random: Id, r: Response)
    requires R.Bounded(c.agent.mapper) && Enabled(c.agent, MapStep(now, e, random))
    requires r == MappingAccount(h, l, c, now, e, random)
    ensures Conveys(c.agent.mapper, AccountActionsOf(h, l, c, MapStep(now, e, random)), r.0.agent, Told(r.1))
    ensures ErrorsEnd(r.1)
  {
    var (c1, ignored) := Filtering(c, e);
    if ignored {
      NothingConveys(c.agent.mapper, c1.agent, []);
    } else {
      var (m, outcome) := R.Mapping(c.agent.mapper, e, random);
      MappedConveys(h, l, c.agent.mapper, c1.(agent := c1.agent.(mapper := m)), now, e, random, outcome, r);
    }
  }

  lemma TakingAccountConveys(h: A.Host, l: Letters, c: Account, now: int, e: Input, r: Response)
    requires R.Bounded(c.agent.mapper) && Enabled(c.agent, TakeStep(now, e)) && r == TakingAccount(h, c, now, e)
    ensures Conveys(c.agent.mapper, AccountActionsOf(h, l, c, TakeStep(now, e)), r.0.agent, Told(r.1)) && ErrorsEnd(r.1)
  {
    match e
    case AudioAppend(turn, sequence) => HearingConveysToo(c, now, turn, sequence);
    case ToolConfirm(operation, approved) => ConfirmConveys(h, c, now, operation, approved, r);
    case _ =>
      TakingConveys(h, c.agent, now, e);
      TakingErrorsEnd(h, c.agent, now, e);
  }

  lemma DeliveringAccountConveys(h: A.Host, l: Letters, c: Account, r: Response)
    requires R.Bounded(c.agent.mapper) && Enabled(c.agent, DeliverStep) && r == DeliveringAccount(h, c)
    ensures Conveys(c.agent.mapper, AccountActionsOf(h, l, c, DeliverStep), r.0.agent, Told(r.1)) && ErrorsEnd(r.1)
  {
    if c.agent.pool.channel[0].worker.job.id in c.uiJobs {
      DeliveringConveys(h, c, c.agent.pool.channel[0], r);
    } else {
      NothingConveys(c.agent.mapper, r.0.agent, r.1);
    }
  }

  lemma AccountStepConveys(h: A.Host, l: Letters, c: Account, step: Step, r: Response)
    requires R.Bounded(c.agent.mapper) && Enabled(c.agent, step) && r == NextAccount(h, l, c, step)
    ensures Conveys(c.agent.mapper, AccountActionsOf(h, l, c, step), r.0.agent, Told(r.1)) && ErrorsEnd(r.1)
  {
    match step
    case TakeStep(now, e) => TakingAccountConveys(h, l, c, now, e, r);
    case RenewStep(late) => RenewingConveys(c.agent, late);
    case TimeOutStep => TimingOutConveys(c.agent);
    case FinishStep(_, _) => NothingConveys(c.agent.mapper, r.0.agent, []);
    case DeliverStep => DeliveringAccountConveys(h, l, c, r);
    case MapStep(now, e, random) => MappingAccountConveys(h, l, c, now, e, random, r);
  }

  // ----- runs -----

  /** The events that begin the opening turn, before the loop's first step. */
  function Greeting(authenticated: bool): seq<R.ServerEvent> {
    R.StartingAssistant(R.Fresh([]), OpeningTurn(authenticated)).1
  }

  /** The session that a run conducts. */
  ghost function AccountActionsIn(h: A.Host, l: Letters, authenticated: bool, steps: seq<Step>): seq<Action> {
    if steps == [] then [Act(M.AssistantCall(OpeningTurn(authenticated)))]
    else
      var before, step := steps[..|steps| - 1], steps[|steps| - 1];
      var c := RunAccount(h, l, authenticated, before).0;
      AccountActionsIn(h, l, authenticated, before) + if Enabled(c.agent, step) then AccountActionsOf(h, l, c, step)
      else []
  }

  /** All that the loop tells the app in a run. */
  ghost function ToldIn(h: A.Host, l: Letters, authenticated: bool, steps: seq<Step>): seq<R.ServerEvent> {
    Greeting(authenticated) + Told(RunAccount(h, l, authenticated, steps).1)
  }

  lemma {:induction false} AccountRunConveys(h: A.Host, l: Letters, authenticated: bool, steps: seq<Step>)
    ensures Conveys(R.Fresh([]), AccountActionsIn(h, l, authenticated, steps),
                    RunAccount(h, l, authenticated, steps).0.agent,
                    ToldIn(h, l, authenticated, steps))
  {
    if steps == [] {
      OneAction(R.Fresh([]), Act(M.AssistantCall(OpeningTurn(authenticated))));
      assert Greeting(authenticated) + Told([]) == Greeting(authenticated);
    } else {
      var before, step := steps[..|steps| - 1], steps[|steps| - 1];
      AccountRunConveys(h, l, authenticated, before);
      var (c, outputs) := RunAccount(h, l, authenticated, before);
      var actions := AccountActionsIn(h, l, authenticated, before);
      if Enabled(c.agent, step) {
        var r := NextAccount(h, l, c, step);
        AccountStepConveys(h, l, c, step, r);
        ToldParts(outputs, r.1);
        Associate(Greeting(authenticated), Told(outputs), Told(r.1));
        ConveysOn(R.Fresh([]), actions, c.agent, Greeting(authenticated) + Told(outputs),
                  AccountActionsOf(h, l, c, step), r.0.agent, Told(r.1));
      } else {
        assert actions + [] == actions;
      }
    }
  }

  /**
   Over every run, once TurnInterrupted has been put out for a turn, no transcript, audio, completion or interruption of
   it is, until the stream has been renewed and the turn then started again under the same id.
   */
  lemma InterruptedStaysSilent(h: A.Host, l: Letters, authenticated: bool, steps: seq<Step>, i: nat, j: nat)
    requires var said := ToldIn(h, l, authenticated, steps);
             i < j < |said| && said[i].TurnInterrupted? && Sounds(said[j], said[i].turn)
    ensures ReopenedBetween(ToldIn(h, l, authenticated, steps), i, j, ToldIn(h, l, authenticated, steps)[i].turn)
  {
    AccountRunConveys(h, l, authenticated, steps);
    SilentUntilReopened([], AccountActionsIn(h, l, authenticated, steps), i, j);
  }

  /** A turn whose interruption has been put out is cancelled in the mapper until the stream is renewed. */
  lemma InterruptionStands(h: A.Host, l: Letters, authenticated: bool, steps: seq<Step>, i: nat)
    requires !RunAccount(h, l, authenticated, steps).0.agent.over && i < |ToldIn(h, l, authenticated, steps)|
    requires var said := ToldIn(h, l, authenticated, steps);
             said[i].TurnInterrupted? && NoRenewal(said[i..])
    ensures ToldIn(h, l, authenticated, steps)[i].turn in RunAccount(h, l, authenticated,
                                                                     steps).0.agent.mapper.cancelled
  {
    AccountRunConveys(h, l, authenticated, steps);
    InterruptionIsKept([], AccountActionsIn(h, l, authenticated, steps), i);
  }

  // ----- fresh ids -----

  lemma PressedMakesNoCalls(h: A.Host, c: Account, now: int, operation: Id, approved: bool)
    ensures CallsIn(PressedActions(h, c, now, operation, approved)) == []
  {
    var actions := PressedActions(h, c, now, operation, approved);
    if actions != [] {
      CallsOne(actions[0]);
    }
  }

  lemma MappedMakesCalls(l: Letters, c: Account, e: R.ProviderEvent, random: Id, outcome: R.Outcome)
    ensures SameCalls(MappedActions(l, c, e, random, outcome), [M.MapCall(e, random)])
  {
    PassingCalls(c.agent, e, random);
  }

  lemma AccountStepMakesCalls(h: A.Host, l: Letters, c: Account, step: Step)
    requires R.Bounded(c.agent.mapper) && Enabled(c.agent, step)
    ensures SameCalls(AccountActionsOf(h, l, c, step), AccountCallsOf(c, step)) && |AccountCallsOf(c, step)| <= 1
  {
    match step
    case TakeStep(_, AudioAppend(turn, sequence)) =>
      StepMakesCalls(c.agent, step);
      CallsOne(Act(M.QueueCall(turn)));
    case TakeStep(now, ToolConfirm(operation, approved)) => PressedMakesNoCalls(h, c, now, operation, approved);
    case DeliverStep =>
      CallsOne(Renew(c.agent.mapper.history + [R.AssistantMessage(Summary(c.agent.pool.channel[0].result))]));
    case MapStep(_, e, random) => MappedMakesCalls(l, c, e, random, R.Mapping(c.agent.mapper, e, random).1);
    case _ => StepMakesCalls(c.agent, step);
  }

  lemma AccountStepNames(h: A.Host, l: Letters, c: Account, step: Step)
    requires R.Bounded(c.agent.mapper) && Enabled(c.agent, step)
    ensures NamesNew(CallsIn(AccountActionsOf(h, l, c, step)), c.agent.inputs.used,
                     NextAccount(h, l, c, step).0.agent.inputs.used)
  {
    AccountStepMakesCalls(h, l, c, step);
    AccountStepUses(h, l, c, step);
  }

  lemma {:induction false} AccountRunOwnsCalls(h: A.Host, l: Letters, authenticated: bool, steps: seq<Step>)
    ensures OwnCalls(CallsIn(AccountActionsIn(h, l, authenticated, steps)),
                     RunAccount(h, l, authenticated, steps).0.agent.inputs.used)
  {
    if steps == [] {
      CallsOne(Act(M.AssistantCall(OpeningTurn(authenticated))));
    } else {
      var before, step := steps[..|steps| - 1], steps[|steps| - 1];
      AccountRunOwnsCalls(h, l, authenticated, before);
      var c := RunAccount(h, l, authenticated, before).0;
      var actions := AccountActionsIn(h, l, authenticated, before);
      if Enabled(c.agent, step) {
        CallsParts(actions, AccountActionsOf(h, l, c, step));
        AccountStepNames(h, l, c, step);
        OwnCallsGrow(CallsIn(actions), c.agent.inputs.used, CallsIn(AccountActionsOf(h, l, c, step)),
                     NextAccount(h, l, c, step).0.agent.inputs.used);
      } else {
        assert actions + [] == actions;
      }
    }
  }

  /**
   Over every run, across renewals, all ids are fresh exactly when the opening turn's and those that the server draws
   are not empty, not drawn again and not named by the client; and then an interrupted turn is not heard again on any
   stream.
   */
  lemma SessionIsFreshIff(h: A.Host, l: Letters, authenticated: bool, steps: seq<Step>)
    ensures var calls := CallsIn(AccountActionsIn(h, l, authenticated, steps));
            && (M.FreshRun(calls, {}) <==> DrawsFresh(calls))
            && (DrawsFresh(calls) ==> StaysSilent(ToldIn(h, l, authenticated, steps)))
  {
    AccountRunOwnsCalls(h, l, authenticated, steps);
    AccountRunConveys(h, l, authenticated, steps);
    FreshIffDrawsFresh(CallsIn(AccountActionsIn(h, l, authenticated, steps)));
    if DrawsFresh(CallsIn(AccountActionsIn(h, l, authenticated, steps))) {
      FreshSessionStaysSilent(AccountActionsIn(h, l, authenticated, steps));
    }
  }

  // ----- what the app plays -----

  /** What the app takes in is what a run up to the first error tells it. */
  lemma {:induction false} AccountTakenIsTold(h: A.Host, l: Letters, authenticated: bool, steps: seq<Step>)
    returns (n: nat)
    ensures n <= |steps|
    ensures TakenIn(RunAccount(h, l, authenticated, steps).1) == Told(RunAccount(h, l, authenticated, steps[..n]).1)
  {
    n := |steps|;
    assert steps[..n] == steps;
    if steps != [] {
      var before, step := steps[..|steps| - 1], steps[|steps| - 1];
      var (c, outputs) := RunAccount(h, l, authenticated, before);
      var k := AccountTakenIsTold(h, l, authenticated, before);
      assert before[..k] == steps[..k];
      if !Enabled(c.agent, step) {
        n := k;
      } else {
        var r := NextAccount(h, l, c, step);
        AccountStepConveys(h, l, c, step, r);
        TakenInFull(r.1);
        TakenParts(outputs, r.1);
        ToldParts(outputs, r.1);
        n := if Errorless(outputs) then |steps| else k;
      }
    }
  }

  lemma {:induction false} AccountActionsGrow(h: A.Host, l: Letters, authenticated: bool, steps: seq<Step>, n: nat)
    returns (more: seq<Action>)
    requires n <= |steps|
    ensures AccountActionsIn(h, l, authenticated, steps) == AccountActionsIn(h, l, authenticated, steps[..n]) + more
    decreases |steps|
  {
    if n == |steps| {
      more := [];
      assert steps[..n] == steps;
    } else {
      var before, step := steps[..|steps| - 1], steps[|steps| - 1];
      var c := RunAccount(h, l, authenticated, before).0;
      more := AccountActionsGrow(h, l, authenticated, before, n);
      assert before[..n] == steps[..n];
      var last := if Enabled(c.agent, step) then AccountActionsOf(h, l, c, step) else [];
      Associate(AccountActionsIn(h, l, authenticated, before[..n]), more, last);
      more := more + last;
    }
  }

  /**
   Over every run in which the ids that the server draws are valid, not drawn again and not named by the client, the
   app plays what the loop tells it, opening turn and renewals included, as in the personal assistant.
   */
  lemma AccountLoopIsPlayed(h: A.Host, l: Letters, authenticated: bool, steps: seq<Step>, sessionId: string)
    requires DrawsFresh(CallsIn(AccountActionsIn(h, l, authenticated, steps)))
    requires DrawsValid(CallsIn(AccountActionsIn(h, l, authenticated, steps)))
    ensures V.PlaysAll(sessionId, Greeting(authenticated) + TakenIn(RunAccount(h, l, authenticated, steps).1))
  {
    var n := AccountTakenIsTold(h, l, authenticated, steps);
    var actions := AccountActionsIn(h, l, authenticated, steps[..n]);
    var more := AccountActionsGrow(h, l, authenticated, steps, n);
    CallsParts(actions, more);
    FirstCalls(CallsIn(actions), CallsIn(more));
    AccountRunOwnsCalls(h, l, authenticated, steps[..n]);
    AccountRunConveys(h, l, authenticated, steps[..n]);
    FreshSessionPlays(sessionId, actions, RunAccount(h, l, authenticated, steps[..n]).0.agent.inputs.used);
  }
}
