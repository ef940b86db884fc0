/**
 When the agent loops ask the planner, and what they tell of its answers
 (apps/personal-assistant-agent/internal/agent and apps/account-agent/internal/account: runtime.go, tools.go).
 */
module LoopOps {
  import opened Basics
  import R = RealtimeMapper
  import A = ActionRuntime
  import P = Approval
  import opened AgentParts
  import opened WorkerPool
  import opened AgentLoop
  import opened AgentRuns
  import opened AgentPlans
  import opened AccountLoop
  import opened AccountRuns
  import opened WelcomeWords

  // ----- a call that closes -----

  /** What the model and the app are told of a call that no worker takes, and that the app is asked to confirm. */
  predicate IsTold(a: Agent, call: StagedCall, j: A.Job, result: A.ToolResult, told: seq<Output>) {
    && |told| == (if a.planner.pending.Some? then 3 else 2)
    && told[0] == ToModel(a.stream, Worker(j, Some(call.asked)), result) && told[1] == ToolOutcome(j, result)
    && (a.planner.pending.Some? ==> told[2] == AskConfirmation(call.turn, a.planner.pending.value))
  }

  /** What the planner says to the call. */
  function Answer(h: A.Host, a: Agent, now: int, call: StagedCall): (A.Job, Option<A.ToolResult>) {
    A.Planning(h, a.planner, now, call.operation, call.name, call.turn, call.arguments).1
  }

  /**
   A call that closes is announced. One of another turn, or that was never announced by the mapper, is told to be
   cancelled and not planned. Any other is planned; its job begins if the planner releases it and fewer than four are
   active, and else the planner's answer, or that the tools are busy, is told.
   */
  lemma CallIsAnswered(h: A.Host, a: Agent, now: int, call: StagedCall)
    ensures var (a', outputs) := Running(h, a, now, call);
            var started := Voice(R.ToolStarted(call.turn, call.operation, call.name, call.arguments));
            var (j, answer) := Answer(h, a, now, call);
            if call.cancelled || call.turn != a.mapper.turn then
              && outputs != [] && outputs[0] == started && a' == a
              && IsTold(a, call, A.Job(call.operation, call.name, None, call.turn, "", false),
                        A.Failure("turn_cancelled"), outputs[1..])
            else
              && |outputs| >= 2 && outputs[1] == started
              && outputs[0] == Planned(P.PlanOp(now, call.operation, call.name, call.turn, call.arguments))
              && (if answer.None? && |a.pool.active| < 4 then
                    && outputs[2..] == [Begin(Worker(j, Some(call.asked)))]
                    && a'.pool == Pool(a.pool.active + {j.id}, a.pool.running + [Worker(j, Some(call.asked))],
                                       a.pool.channel)
                  else
                    && IsTold(a', call, j, if answer.Some? then answer.value else A.Failure("tool_busy"), outputs[2..])
                    && a'.pool == a.pool)
  {
  }

  // ----- the personal assistant -----

  predicate Rotates(a: Agent, step: Step) {
    match step
    case TakeStep(_, TurnCancel(turn)) => turn == a.mapper.turn && a.mapper.activity != R.Idle && a.pool.active == {}
    case RenewStep(late) => (a.mapper.activity == R.Idle || late) && a.pool.active == {}
    case _ => false
  }

  /** The content of a call ends that waits for it, of the turn that is on, and not under way. */
  predicate Closes(a: Agent, e: R.ProviderEvent, turn: Id) {
    && e.ContentEnd? && e.cid in a.staged && a.staged[e.cid].operation !in a.pool.active
    && !a.staged[e.cid].cancelled && a.staged[e.cid].turn == turn
  }

  function PlanOf(now: int, call: StagedCall): P.Op {
    P.PlanOp(now, call.operation, call.name, call.turn, call.arguments)
  }

  /** What the planner is asked in a step. */
  function AskedIn(a: Agent, step: Step): seq<P.Op>
    requires R.Bounded(a.mapper) && (step.DeliverStep? ==> a.pool.channel != [])
  {
    match step
    case TakeStep(now, ToolConfirm(operation, approved)) => [P.ConfirmOp(now, operation, approved)]
    case DeliverStep => [P.CompleteOp(a.pool.channel[0].worker.job, a.pool.channel[0].result)]
    case MapStep(now, e, random) =>
      var (m, outcome) := R.Mapping(a.mapper, e, random);
      if outcome.Failed? || !Collecting(a.speech, e, outcome.events).1 then []
      else
        var s := Collecting(a.speech, e, outcome.events).0;
        if AtBoundary(s, e) then [P.ObserveOp(now, s.turn, s.text)]
        else if Closes(a, e, m.turn) then [PlanOf(now, a.staged[e.cid])]
        else []
    case _ => if Rotates(a, step) then [P.InterruptOp] else []
  }

  lemma OpsOfVoices(events: seq<R.ServerEvent>)
    ensures OpsOf(Voices(events)) == []
  {
    OpsOfFree(Voices(events));
  }

  lemma RunningAsks(h: A.Host, a: Agent, now: int, call: StagedCall)
    ensures OpsOf(Running(h, a, now, call).1) ==
            if call.cancelled || call.turn != a.mapper.turn then [] else [PlanOf(now, call)]
  {
    var outputs := Running(h, a, now, call).1;
    if call.cancelled || call.turn != a.mapper.turn {
      OpsOfFree(outputs);
    } else {
      OpsOfOne([], PlanOf(now, call), outputs[1..]);
      assert [] + [outputs[0]] + outputs[1..] == outputs;
    }
  }

  lemma ToolsAsk(h: A.Host, a: Agent, now: int, e: R.ProviderEvent, events: seq<R.ServerEvent>)
    ensures OpsOf(Tools(h, a, now, e, events).1) ==
            if Closes(a, e, a.mapper.turn) then [PlanOf(now, a.staged[e.cid])] else []
  {
    if e.ContentEnd? && e.cid in a.staged && a.staged[e.cid].operation !in a.pool.active {
      var a1 := a.(staged := a.staged - {e.cid});
      RunningAsks(h, a1, now, a.staged[e.cid]);
      OpsOfVoices(events);
      OpsOfParts(Running(h, a1, now, a.staged[e.cid]).1, Voices(events));
    } else {
      OpsOfFree(Tools(h, a, now, e, events).1);
    }
  }

  lemma ReactingAsks(h: A.Host, a: Agent, now: int, e: R.ProviderEvent, events: seq<R.ServerEvent>)
    requires Collecting(a.speech, e, events).1
    ensures var s := Collecting(a.speech, e, events).0;
            OpsOf(Reacting(h, a, now, e, R.Events(events)).1) ==
            if AtBoundary(s, e) then [P.ObserveOp(now, s.turn, s.text)]
            else if Closes(a, e, a.mapper.turn) then [PlanOf(now, a.staged[e.cid])]
            else []
  {
    var a0 := a.(speech := Collecting(a.speech, e, events).0);
    var (a1, observed) := Observing(h, a0, now, e);
    ToolsAsk(h, a1, now, e, events);
    OpsOfParts(observed, Tools(h, a1, now, e, events).1);
    if AtBoundary(a0.speech, e) {
      OpsOfOne([], observed[0].op, []);
      assert [] + observed + [] == observed;
    } else {
      OpsOfFree(observed);
    }
  }

  lemma RotationAsks(before: seq<Output>)
    requires Free(Calls, before)
    ensures OpsOf(before + [Planned(P.InterruptOp), Voice(R.SessionRenewed)]) == [P.InterruptOp]
  {
    OpsOfOne(before, P.InterruptOp, [Voice(R.SessionRenewed)]);
    assert before + [Planned(P.InterruptOp)] + [Voice(R.SessionRenewed)] ==
           before + [Planned(P.InterruptOp), Voice(R.SessionRenewed)];
  }

  lemma TakingAsks(h: A.Host, a: Agent, now: int, e: Input)
    requires R.Bounded(a.mapper)
    ensures OpsOf(Taking(h, a, now, e).1) == AskedIn(a, TakeStep(now, e))
  {
    match e
    case ToolConfirm(operation, approved) =>
      var after := Taking(h, a, now, e).1[1..];
      OpsOfOne([], P.ConfirmOp(now, operation, approved), after);
      assert [] + [Planned(P.ConfirmOp(now, operation, approved))] + after == Taking(h, a, now, e).1;
    case TurnCancel(turn) =>
      if Rotates(a, TakeStep(now, e)) {
        RotationAsks(Interrupted(a).1);
      } else {
        OpsOfFree(Taking(h, a, now, e).1);
      }
    case _ => OpsOfFree(Taking(h, a, now, e).1);
  }

  lemma RenewingAsks(a: Agent, late: bool)
    requires R.Bounded(a.mapper)
    ensures OpsOf(Renewing(a, late).1) == AskedIn(a, RenewStep(late))
  {
    if Rotates(a, RenewStep(late)) {
      RotationAsks(Interrupted(a).1);
    } else {
      OpsOfFree(Renewing(a, late).1);
    }
  }

  lemma DeliveringAsks(h: A.Host, a: Agent)
    requires a.pool.channel != []
    ensures var d := a.pool.channel[0];
            OpsOf(Delivering(h, a).1) == [P.CompleteOp(d.worker.job, d.result)]
  {
    var op, outputs := Delivering(h, a).1[0].op, Delivering(h, a).1;
    OpsOfOne([], op, outputs[1..]);
    assert [] + [outputs[0]] + outputs[1..] == outputs;
  }

  /** In every state and for every step: what the planner is asked, and when. */
  lemma StepAsksPlanner(h: A.Host, a: Agent, step: Step)
    requires R.Bounded(a.mapper) && Enabled(a, step)
    ensures OpsOf(Next(h, a, step).1) == AskedIn(a, step)
  {
    match step
    case TakeStep(now, e) => TakingAsks(h, a, now, e);
    case RenewStep(late) => RenewingAsks(a, late);
    case TimeOutStep => OpsOfFree(TimingOut(a).1);
    case FinishStep(_, _) => OpsOfFree([]);
    case DeliverStep => DeliveringAsks(h, a);
    case MapStep(now, e, random) =>
      var (m, outcome) := R.Mapping(a.mapper, e, random);
      if outcome.Events? && Collecting(a.speech, e, outcome.events).1 {
        ReactingAsks(h, a.(mapper := m), now, e, outcome.events);
      } else {
        OpsOfFree([Error("provider_failed")]);
      }
  }

  // ----- the account agent -----

  /** The planner call with which the login of the invitation is asked for. */
  function LoginOp(now: int, turn: Id): P.Op {
    P.PlanOp(now, "account-login-consent", "identity_begin_login", turn, "{}")
  }

  /** What the planner is asked when the app confirms or refuses: the decision, and the request once approved. */
  function PressAsks(h: A.Host, s: A.PlannerState, now: int, operation: Id, approved: bool): seq<P.Op> {
    var decided := P.ConfirmOp(now, operation, approved);
    if s.pending.None? || !A.Confirming(h, s, now, operation, approved).1 then []
    else if !approved then [decided]
    else
      var p := s.pending.value;
      [decided, P.PlanOp(now, p.operationId, P.DotsToUnderscores(p.name), p.turn, p.args)]
  }

  /** What the planner is told of an utterance, and asked when it accepts the invitation. */
  ghost function SpeechAsks(l: Letters, c: Account, s: Speech, now: int): seq<P.Op> {
    [P.ObserveOp(now, s.turn, s.text)] + if c.waiting && Affirms(l, s.text) then [LoginOp(now, s.turn)] else []
  }

  /** What the planner is asked once an event's speech is collected, while this turn is on. */
  ghost function EventAsks(l: Letters, c: Account, s: Speech, turn: Id, now: int, e: R.ProviderEvent): seq<P.Op> {
    if AtBoundary(s, e) then SpeechAsks(l, c, s, now)
    else if Closes(c.agent, e, turn) && !AsksLogin(c.agent.staged[e.cid]) then [PlanOf(now, c.agent.staged[e.cid])]
    else []
  }

  /** What the planner is asked of a mapped event. */
  ghost function OutcomeAsks(l: Letters, c: Account, now: int, e: R.ProviderEvent, turn: Id,
                             outcome: R.Outcome): seq<P.Op> {
    if outcome.Failed? || !Collecting(c.agent.speech, e, outcome.events).1 then []
    else EventAsks(l, c, Collecting(c.agent.speech, e, outcome.events).0, turn, now, e)
  }

  /** What the planner is asked in a step. */
  ghost function AskedOfAccount(h: A.Host, l: Letters, c: Account, step: Step): seq<P.Op>
    requires R.Bounded(c.agent.mapper) && (step.DeliverStep? ==> c.agent.pool.channel != [])
  {
    var a := c.agent;
    match step
    case TakeStep(now, ToolConfirm(operation, approved)) =>
      if operation == "account-login-consent" && c.waiting then
        if approved then [LoginOp(now, operation)] else []
      else PressAsks(h, a.planner, now, operation, approved)
    case DeliverStep =>
      var d := a.pool.channel[0];
      [P.CompleteOp(d.worker.job, d.result)] + if d.worker.job.id in c.uiJobs then [P.InterruptOp] else []
    case MapStep(now, e, random) =>
      var (m, outcome) := R.Mapping(a.mapper, e, random);
      if Filtering(c, e).1 then [] else OutcomeAsks(l, c, now, e, m.turn, outcome)
    case _ => if Rotates(a, step) then [P.InterruptOp] else []
  }

  lemma OneOp(op: P.Op, after: seq<Output>)
    requires Free(Calls, after)
    ensures OpsOf([Planned(op)] + after) == [op]
  {
    OpsOfOne([], op, after);
    assert [] + [Planned(op)] + after == [Planned(op)] + after;
  }

  lemma BeginningAsks(h: A.Host, c: Account, now: int, turn: Id)
    ensures OpsOf(BeginningLogin(h, c, now, turn).1) == [LoginOp(now, turn)]
  {
    var outputs := BeginningLogin(h, c, now, turn).1;
    OneOp(LoginOp(now, turn), outputs[1..]);
    assert outputs == [outputs[0]] + outputs[1..];
  }

  lemma ApprovingAsks(h: A.Host, c: Account, now: int, operation: Id, s: A.PlannerState, p: A.Pending)
    ensures OpsOf(Approving(h, c, [Planned(P.ConfirmOp(now, operation, true))], now, s, p).1) ==
            [P.ConfirmOp(now, operation, true),
             P.PlanOp(now, p.operationId, P.DotsToUnderscores(p.name), p.turn, p.args)]
  {
    var outputs := Approving(h, c, [Planned(P.ConfirmOp(now, operation, true))], now, s, p).1;
    OneOp(outputs[0].op, []);
    OneOp(outputs[1].op, outputs[2..]);
    OpsOfParts([outputs[0]], [outputs[1]] + outputs[2..]);
    assert [outputs[0]] + [] == [outputs[0]];
    assert outputs == [outputs[0]] + ([outputs[1]] + outputs[2..]);
  }

  lemma PressingAsks(h: A.Host, c: Account, now: int, operation: Id, approved: bool)
    ensures OpsOf(Pressing(h, c, now, operation, approved).1) == PressAsks(h, c.agent.planner, now, operation, approved)
  {
    var s := c.agent.planner;
    if s.pending.None? || !A.Confirming(h, s, now, operation, approved).1 {
      OpsOfFree(Refusing(c).1);
    } else if approved {
      ApprovingAsks(h, c, now, operation, A.Confirming(h, s, now, operation, approved).0, s.pending.value);
    } else {
      OneOp(P.ConfirmOp(now, operation, approved), [ToolOutcome(PendingJob(s.pending.value), CANCELLED)]);
      assert Pressing(h, c, now, operation, approved).1 ==
             [Planned(P.ConfirmOp(now, operation, approved))] + [ToolOutcome(PendingJob(s.pending.value), CANCELLED)];
    }
  }

  lemma AccountTakingAsks(h: A.Host, l: Letters, c: Account, now: int, e: Input)
    requires R.Bounded(c.agent.mapper)
    ensures OpsOf(TakingAccount(h, c, now, e).1) == AskedOfAccount(h, l, c, TakeStep(now, e))
  {
    match e
    case ToolConfirm(operation, approved) =>
      if operation == WELCOME && c.waiting {
        if approved {
          BeginningAsks(h, c, now, WELCOME);
        } else {
          OpsOfFree([Stopped]);
        }
      } else {
        PressingAsks(h, c, now, operation, approved);
      }
    case AudioAppend(turn, sequence) => OpsOfFree(HearingAccount(c, turn, sequence).1);
    case _ => TakingAsks(h, c.agent, now, e);
  }

  lemma ThreeParts(op: P.Op, begun: seq<Output>, dropped: seq<Output>)
    requires Free(Calls, dropped)
    ensures OpsOf([Planned(op)] + begun + dropped) == [op] + OpsOf(begun)
  {
    OneOp(op, []);
    assert [Planned(op)] + [] == [Planned(op)];
    OpsOfParts([Planned(op)], begun);
    OpsOfParts([Planned(op)] + begun, dropped);
    OpsOfFree(dropped);
  }

  lemma SpokenAsks(h: A.Host, l: Letters, c: Account, now: int, e: R.ProviderEvent)
    requires AtBoundary(c.agent.speech, e)
    ensures OpsOf(ObservingAccount(h, l, c, now, e).1) == SpeechAsks(l, c, c.agent.speech, now)
  {
    var s := c.agent.speech;
    var (a, observed) := Observing(h, c.agent, now, e);
    var outputs := ObservingAccount(h, l, c, now, e).1;
    AnswersIff(l, s.text);
    if c.waiting && WelcomeAnswer(l, s.text) == Yes {
      var (c2, begun) := BeginningLogin(h, c.(agent := a), now, s.turn);
      BeginningAsks(h, c.(agent := a), now, s.turn);
      ThreeParts(P.ObserveOp(now, s.turn, s.text), begun, Dropped(c.agent.planner, c2.agent.planner));
    } else {
      OneOp(P.ObserveOp(now, s.turn, s.text), outputs[1..]);
      assert outputs == [outputs[0]] + outputs[1..];
    }
  }

  lemma RunningAccountAsks(h: A.Host, a: Agent, now: int, call: StagedCall)
    ensures OpsOf(RunningAccount(h, a, now, call).1) ==
            if call.cancelled || call.turn != a.mapper.turn || AsksLogin(call) then [] else [PlanOf(now, call)]
  {
    if !call.cancelled && call.turn == a.mapper.turn && AsksLogin(call) {
      OpsOfFree(RunningAccount(h, a, now, call).1);
    } else {
      RunningAsks(h, a, now, call);
    }
  }

  lemma ToolsAccountAsk(h: A.Host, a: Agent, now: int, e: R.ProviderEvent, events: seq<R.ServerEvent>)
    ensures OpsOf(ToolsAccount(h, a, now, e, events).1) ==
            if Closes(a, e, a.mapper.turn) && !AsksLogin(a.staged[e.cid]) then [PlanOf(now, a.staged[e.cid])] else []
  {
    if e.ContentEnd? && e.cid in a.staged {
      var a1 := a.(staged := a.staged - {e.cid});
      if a.staged[e.cid].operation in a.pool.active {
        OpsOfFree([]);
      } else {
        RunningAccountAsks(h, a1, now, a.staged[e.cid]);
        OpsOfVoices(events);
        OpsOfParts(RunningAccount(h, a1, now, a.staged[e.cid]).1, Voices(events));
      }
    } else {
      ToolsAsk(h, a, now, e, events);
    }
  }

  lemma ReactingToAsks(h: A.Host, l: Letters, c: Account, now: int, e: R.ProviderEvent, events: seq<R.ServerEvent>)
    requires !c.agent.over
    ensures OpsOf(ReactingTo(h, l, c, now, e, events).1) ==
            EventAsks(l, c, c.agent.speech, c.agent.mapper.turn, now, e)
  {
    var observed := ObservingAccount(h, l, c, now, e);
    if AtBoundary(c.agent.speech, e) {
      SpokenAsks(h, l, c, now, e);
    } else {
      OpsOfFree(observed.1);
    }
    if !observed.0.agent.over {
      ToolsAccountAsk(h, observed.0.agent, now, e, events);
      OpsOfParts(observed.1, ToolsAccount(h, observed.0.agent, now, e, events).1);
      assert OpsOf(observed.1) + [] == OpsOf(observed.1);
    }
  }

  lemma ReactingAccountAsks(h: A.Host, l: Letters, c: Account, now: int, e: R.ProviderEvent, outcome: R.Outcome)
    requires !c.agent.over
    ensures OpsOf(ReactingAccount(h, l, c, now, e, outcome).1) ==
            OutcomeAsks(l, c, now, e, c.agent.mapper.turn, outcome)
  {
    if outcome.Events? && Collecting(c.agent.speech, e, outcome.events).1 {
      var speech := Collecting(c.agent.speech, e, outcome.events).0;
      ReactingToAsks(h, l, c.(agent := c.agent.(speech := speech)), now, e, outcome.events);
    } else {
      OpsOfFree([Error("provider_failed")]);
    }
  }

  lemma SameAsks(l: Letters, c: Account, c': Account, s: Speech, turn: Id, now: int, e: R.ProviderEvent)
    requires c'.waiting == c.waiting && c'.agent.staged == c.agent.staged && c'.agent.pool == c.agent.pool
    ensures EventAsks(l, c', s, turn, now, e) == EventAsks(l, c, s, turn, now, e)
  {
  }

  lemma MappedAsks(h: A.Host, l: Letters, c: Account, c1: Account, now: int, e: R.ProviderEvent, m: R.MapperState,
                   outcome: R.Outcome)
    requires !c.agent.over && c1.waiting == c.waiting && c1.agent == c.agent.(mapper := m)
    ensures OpsOf(ReactingAccount(h, l, c1, now, e, outcome).1) == OutcomeAsks(l, c, now, e, m.turn, outcome)
  {
    ReactingAccountAsks(h, l, c1, now, e, outcome);
    if outcome.Events? {
      SameAsks(l, c, c1, Collecting(c.agent.speech, e, outcome.events).0, m.turn, now, e);
    }
  }

  /** An event that passes the filter is mapped and reacted to. */
  lemma PassedIs(h: A.Host, l: Letters, c: Account, c1: Account, now: int, e: R.ProviderEvent, random: Id,
                 m: R.MapperState, outcome: R.Outcome)
    requires R.Bounded(c.agent.mapper) && Filtering(c, e) == (c1, false)
    requires R.Mapping(c.agent.mapper, e, random) == (m, outcome)
    ensures MappingAccount(h, l, c, now, e, random) ==
            ReactingAccount(h, l, c1.(agent := c1.agent.(mapper := m)), now, e, outcome)
    ensures c1.waiting == c.waiting && c1.agent == c.agent
  {
  }

  lemma MappingAccountAsks(h: A.Host, l: Letters, c: Account, now: int, e: R.ProviderEvent, random: Id)
    requires R.Bounded(c.agent.mapper) && !c.agent.over
    ensures OpsOf(MappingAccount(h, l, c, now, e, random).1) == AskedOfAccount(h, l, c, MapStep(now, e, random))
  {
    var (c1, ignored) := Filtering(c, e);
    if ignored {
      OpsOfFree([]);
    } else {
      var (m, outcome) := R.Mapping(c.agent.mapper, e, random);
      PassedIs(h, l, c, c1, now, e, random, m, outcome);
      MappedAsks(h, l, c, c1.(agent := c1.agent.(mapper := m)), now, e, m, outcome);
    }
  }

  lemma DeliveringAccountAsks(h: A.Host, l: Letters, c: Account)
    requires R.Bounded(c.agent.mapper) && c.agent.pool.channel != []
    ensures OpsOf(DeliveringAccount(h, c).1) == AskedOfAccount(h, l, c, DeliverStep)
  {
    var d := c.agent.pool.channel[0];
    if d.worker.job.id in c.uiJobs {
      var completed, told := Planned(P.CompleteOp(d.worker.job, d.result)), ToolOutcome(d.worker.job, d.result);
      OneOp(P.CompleteOp(d.worker.job, d.result), [told]);
      RotationAsks([]);
      var rotated := [] + [Planned(P.InterruptOp), Voice(R.SessionRenewed)];
      OpsOfParts([completed] + [told], rotated);
      assert DeliveringAccount(h, c).1 == [completed] + [told] + rotated;
    } else {
      DeliveringAsks(h, c.agent);
    }
  }

  /** In every state of the account agent and for every step: what the planner is asked, and when. */
  lemma StepAsksAccount(h: A.Host, l: Letters, c: Account, step: Step)
    requires R.Bounded(c.agent.mapper) && Enabled(c.agent, step)
    ensures OpsOf(NextAccount(h, l, c, step).1) == AskedOfAccount(h, l, c, step)
  {
    match step
    case TakeStep(now, e) => AccountTakingAsks(h, l, c, now, e);
    case RenewStep(late) => RenewingAsks(c.agent, late);
    case TimeOutStep => OpsOfFree(TimingOutAccount(c).1);
    case FinishStep(_, _) => OpsOfFree([]);
    case DeliverStep => DeliveringAccountAsks(h, l, c);
    case MapStep(now, e, random) => MappingAccountAsks(h, l, c, now, e, random);
  }

  /** The app is told that the pending request was cancelled. */
  predicate TellsCancelled(p: A.Pending, outputs: seq<Output>) {
    ToolOutcome(A.Job(p.operationId, p.name, None, p.turn, p.args, false),
                A.Reply("{\"status\":\"cancelled\"}")) in outputs
  }

  /**
   When the app refuses the pending request, or an utterance drops it, the app is told that it was cancelled, unless
   the session is stopped by the same utterance.
   */
  lemma CancellationIsTold(h: A.Host, l: Letters, c: Account, now: int, e: R.ProviderEvent, operation: Id)
    requires c.agent.planner.pending.Some?
    ensures var (c', outputs) := Pressing(h, c, now, operation, false);
            c'.agent.planner.pending.None? ==> TellsCancelled(c.agent.planner.pending.value, outputs)
    ensures var (c', outputs) := ObservingAccount(h, l, c, now, e);
            c'.agent.planner.pending.None? && !(c.waiting && Refuses(l, c.agent.speech.text)) ==>
              TellsCancelled(c.agent.planner.pending.value, outputs)
  {
    var p := c.agent.planner.pending.value;
    var told := ToolOutcome(PendingJob(p), CANCELLED);
    AnswersIff(l, c.agent.speech.text);
    var outputs := ObservingAccount(h, l, c, now, e).1;
    if ObservingAccount(h, l, c, now, e).0.agent.planner.pending.None? &&
       !(c.waiting && Refuses(l, c.agent.speech.text)) {
      assert outputs[|outputs| - 1] == told;
    }
    var pressed := Pressing(h, c, now, operation, false);
    if pressed.0.agent.planner.pending.None? {
      assert pressed.1[1] == told;
    }
  }
}
