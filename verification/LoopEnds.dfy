/**
 When the agent loops end, what they forward to the provider, and what they start for the app
 (apps/personal-assistant-agent/internal/agent and apps/account-agent/internal/account: runtime.go).
 */
module LoopEnds {
  import opened Basics
  import R = RealtimeMapper
  import A = ActionRuntime
  import P = Approval
  import opened AgentParts
  import opened WorkerPool
  import opened AgentLoop
  import opened AgentRuns
  import opened AccountLoop
  import opened AccountRuns
  import opened WelcomeWords

  // ----- audio to the provider -----

  /** An accepted frame goes to the open stream, once and last; a refused one is reported. */
  ghost predicate Forwards(stream: nat, turn: Id, sequence: nat, accepted: bool, outputs: seq<Output>) {
    if accepted then
      && outputs != [] && outputs[|outputs| - 1] == ToEar(stream, turn, sequence)
      && forall i | 0 <= i < |outputs| - 1 :: !outputs[i].ToEar?
    else outputs == [Error("invalid_audio")]
  }

  /** In both loops. */
  lemma FramesAreForwarded(a: Agent, c: Account, turn: Id, sequence: nat)
    ensures Forwards(a.stream, turn, sequence, Hearing(a.inputs, turn, sequence).1 != Refused,
                     HearingAudio(a, turn, sequence).1)
    ensures Forwards(c.agent.stream, turn, sequence, Hearing(c.agent.inputs, turn, sequence).1 != Refused,
                     HearingAccount(c, turn, sequence).1)
  {
  }

  // ----- the end of the loop -----

  /**
   What the provider says that the loop cannot take: a failure, or more than it keeps of speech or of staged calls.
   */
  predicate Breaks(a: Agent, e: R.ProviderEvent, outcome: R.Outcome) {
    || outcome.Failed?
    || !Collecting(a.speech, e, outcome.events).1
    || (e.ToolUse? && |a.staged| >= 32)
  }

  /** The loop of the personal assistant ends. */
  predicate Ends(a: Agent, step: Step)
    requires R.Bounded(a.mapper)
  {
    match step
    case TakeStep(_, SessionStop) => true
    case TakeStep(_, TurnCancel(turn)) => turn == a.mapper.turn && a.mapper.activity != R.Idle && a.pool.active != {}
    case RenewStep(late) => late && a.pool.active != {}
    case TimeOutStep => true
    case MapStep(_, e, random) => Breaks(a, e, R.Mapping(a.mapper, e, random).1)
    case _ => false
  }

  lemma RunningGoesOn(h: A.Host, a: Agent, now: int, call: StagedCall)
    ensures Running(h, a, now, call).0.over == a.over
  {
  }

  lemma ToolsEndIff(h: A.Host, a: Agent, now: int, e: R.ProviderEvent, events: seq<R.ServerEvent>)
    ensures Tools(h, a, now, e, events).0.over <==> a.over || (e.ToolUse? && |a.staged| >= 32)
  {
    if e.ContentEnd? && e.cid in a.staged {
      RunningGoesOn(h, a.(staged := a.staged - {e.cid}), now, a.staged[e.cid]);
    }
  }

  lemma ReactingEndsIff(h: A.Host, a: Agent, now: int, e: R.ProviderEvent, outcome: R.Outcome)
    requires !a.over
    ensures Reacting(h, a, now, e, outcome).0.over <==> Breaks(a, e, outcome)
  {
    if outcome.Events? && Collecting(a.speech, e, outcome.events).1 {
      var a0 := a.(speech := Collecting(a.speech, e, outcome.events).0);
      ToolsEndIff(h, Observing(h, a0, now, e).0, now, e, outcome.events);
    }
  }

  lemma TakingEndsIff(h: A.Host, a: Agent, now: int, e: Input)
    requires R.Bounded(a.mapper) && !a.over
    ensures Taking(h, a, now, e).0.over <==> Ends(a, TakeStep(now, e))
  {
  }

  /** In every state and for every step: the loop ends exactly then. */
  lemma LoopEndsIff(h: A.Host, a: Agent, step: Step)
    requires R.Bounded(a.mapper) && Enabled(a, step)
    ensures Next(h, a, step).0.over <==> Ends(a, step)
  {
    match step
    case TakeStep(now, e) => TakingEndsIff(h, a, now, e);
    case MapStep(now, e, random) =>
      var (m, outcome) := R.Mapping(a.mapper, e, random);
      ReactingEndsIff(h, a.(mapper := m), now, e, outcome);
    case _ =>
  }

  /** The utterance that the event completes declines the invitation. */
  ghost predicate Declining(l: Letters, c: Account, e: R.ProviderEvent, outcome: R.Outcome) {
    && outcome.Events? && Collecting(c.agent.speech, e, outcome.events).1
    && var s := Collecting(c.agent.speech, e, outcome.events).0;
    c.waiting && AtBoundary(s, e) && Refuses(l, s.text)
  }

  /** The loop of the account agent ends. */
  ghost predicate AccountEnds(l: Letters, c: Account, step: Step)
    requires R.Bounded(c.agent.mapper)
  {
    match step
    case TakeStep(_, ToolConfirm(operation, approved)) =>
      operation == "account-login-consent" && c.waiting && !approved
    case MapStep(_, e, random) =>
      var outcome := R.Mapping(c.agent.mapper, e, random).1;
      !Filtering(c, e).1 && (Breaks(c.agent, e, outcome) || Declining(l, c, e, outcome))
    case _ => Ends(c.agent, step)
  }

  lemma BeginningGoesOn(h: A.Host, c: Account, now: int, turn: Id)
    ensures BeginningLogin(h, c, now, turn).0.agent.over == c.agent.over
    ensures BeginningLogin(h, c, now, turn).0.agent.staged == c.agent.staged
  {
  }

  lemma ObservingEndsIff(h: A.Host, l: Letters, c: Account, now: int, e: R.ProviderEvent)
    requires !c.agent.over
    ensures ObservingAccount(h, l, c, now, e).0.agent.over <==>
            c.waiting && AtBoundary(c.agent.speech, e) && Refuses(l, c.agent.speech.text)
    ensures ObservingAccount(h, l, c, now, e).0.agent.staged == c.agent.staged
  {
    AnswersIff(l, c.agent.speech.text);
    if AtBoundary(c.agent.speech, e) {
      BeginningGoesOn(h, c.(agent := Observing(h, c.agent, now, e).0), now, c.agent.speech.turn);
    }
  }

  lemma ToolsAccountEndIff(h: A.Host, a: Agent, now: int, e: R.ProviderEvent, events: seq<R.ServerEvent>)
    ensures ToolsAccount(h, a, now, e, events).0.over <==> a.over || (e.ToolUse? && |a.staged| >= 32)
  {
    if e.ContentEnd? && e.cid in a.staged {
      RunningGoesOn(h, a.(staged := a.staged - {e.cid}), now, a.staged[e.cid]);
    } else {
      ToolsEndIff(h, a, now, e, events);
    }
  }

  lemma ReactingToEndsIff(h: A.Host, l: Letters, c: Account, now: int, e: R.ProviderEvent, events: seq<R.ServerEvent>)
    requires !c.agent.over
    ensures ReactingTo(h, l, c, now, e, events).0.agent.over <==>
            (c.waiting && AtBoundary(c.agent.speech, e) && Refuses(l, c.agent.speech.text))
            || (e.ToolUse? && |c.agent.staged| >= 32)
  {
    ObservingEndsIff(h, l, c, now, e);
    ToolsAccountEndIff(h, ObservingAccount(h, l, c, now, e).0.agent, now, e, events);
  }

  lemma ReactingAccountEndsIff(h: A.Host, l: Letters, c: Account, now: int, e: R.ProviderEvent, outcome: R.Outcome)
    requires !c.agent.over
    ensures ReactingAccount(h, l, c, now, e, outcome).0.agent.over <==>
            Breaks(c.agent, e, outcome) || Declining(l, c, e, outcome)
  {
    if outcome.Events? && Collecting(c.agent.speech, e, outcome.events).1 {
      var speech := Collecting(c.agent.speech, e, outcome.events).0;
      ReactingToEndsIff(h, l, c.(agent := c.agent.(speech := speech)), now, e, outcome.events);
    }
  }

  lemma SameBreaks(l: Letters, c: Account, c1: Account, e: R.ProviderEvent, outcome: R.Outcome)
    requires c1.waiting == c.waiting && c1.agent.speech == c.agent.speech && c1.agent.staged == c.agent.staged
    ensures Breaks(c1.agent, e, outcome) == Breaks(c.agent, e, outcome)
    ensures Declining(l, c1, e, outcome) == Declining(l, c, e, outcome)
  {
  }

  lemma MappedEndsIff(h: A.Host, l: Letters, c: Account, c1: Account, now: int, e: R.ProviderEvent, m: R.MapperState,
                      outcome: R.Outcome)
    requires !c.agent.over && c1.waiting == c.waiting && c1.agent == c.agent.(mapper := m)
    ensures ReactingAccount(h, l, c1, now, e, outcome).0.agent.over <==>
            Breaks(c.agent, e, outcome) || Declining(l, c, e, outcome)
  {
    ReactingAccountEndsIff(h, l, c1, now, e, outcome);
    SameBreaks(l, c, c1, e, outcome);
  }

  lemma MappingEndsIff(h: A.Host, l: Letters, c: Account, now: int, e: R.ProviderEvent, random: Id, r: Response)
    requires R.Bounded(c.agent.mapper) && !c.agent.over && r == MappingAccount(h, l, c, now, e, random)
    ensures r.0.agent.over <==> AccountEnds(l, c, MapStep(now, e, random))
  {
    var (c1, ignored) := Filtering(c, e);
    if !ignored {
      var (m, outcome) := R.Mapping(c.agent.mapper, e, random);
      MappedEndsIff(h, l, c, c1.(agent := c1.agent.(mapper := m)), now, e, m, outcome);
    }
  }

  lemma PressingGoesOn(h: A.Host, c: Account, now: int, operation: Id, approved: bool)
    ensures Pressing(h, c, now, operation, approved).0.agent.over == c.agent.over
  {
  }

  lemma TakingAccountEndsIff(h: A.Host, l: Letters, c: Account, now: int, e: Input)
    requires R.Bounded(c.agent.mapper) && !c.agent.over
    ensures TakingAccount(h, c, now, e).0.agent.over <==> AccountEnds(l, c, TakeStep(now, e))
  {
    match e
    case ToolConfirm(operation, approved) => PressingGoesOn(h, c, now, operation, approved);
    case AudioAppend(_, _) =>
    case _ => TakingEndsIff(h, c.agent, now, e);
  }

  /** In every state of the account agent and for every step: the loop ends exactly then. */
  lemma AccountLoopEndsIff(h: A.Host, l: Letters, c: Account, step: Step)
    requires R.Bounded(c.agent.mapper) && Enabled(c.agent, step)
    ensures NextAccount(h, l, c, step).0.agent.over <==> AccountEnds(l, c, step)
  {
    match step
    case TakeStep(now, e) => TakingAccountEndsIff(h, l, c, now, e);
    case MapStep(now, e, random) => MappingEndsIff(h, l, c, now, e, random, MappingAccount(h, l, c, now, e, random));
    case _ =>
  }

  // ----- jobs of the app -----

  /** The planner's answer to a request of the app is told, or its job begins as one of the app. */
  ghost predicate StartsOrTells(c: Account, j: A.Job, answer: Option<A.ToolResult>, before: seq<Output>,
                                announced: seq<Output>, r: Response) {
    if answer.Some? then r.1 == before + [ToolOutcome(j, answer.value)] && r.0.agent.pool == c.agent.pool
    else
      && r.1 == before + announced + [Begin(Worker(j, None))] && j.id in r.0.uiJobs
      && r.0.agent.pool == Pool(c.agent.pool.active + {j.id}, c.agent.pool.running + [Worker(j, None)],
                                c.agent.pool.channel)
  }

  /** The login that an accepted invitation asks for begins if the planner releases it, and else its answer is told. */
  lemma LoginBegins(h: A.Host, c: Account, now: int, turn: Id)
    ensures var (j, answer) := A.Planning(h, c.agent.planner, now, WELCOME, LOGIN_MODEL_NAME, turn, "{}").1;
            StartsOrTells(c, j, answer, [Planned(P.PlanOp(now, WELCOME, LOGIN_MODEL_NAME, turn, "{}"))], [],
                          BeginningLogin(h, c, now, turn))
  {
  }

  /** And so does the request that the app approves, which is announced first. */
  lemma ApprovedBegins(h: A.Host, c: Account, now: int, operation: Id)
    requires c.agent.planner.pending.Some?
    ensures var (s, accepted) := A.Confirming(h, c.agent.planner, now, operation, true);
            accepted ==>
              var p, name := c.agent.planner.pending.value, P.DotsToUnderscores(c.agent.planner.pending.value.name);
              var (j, answer) := A.Planning(h, s, now, p.operationId, name, p.turn, p.args).1;
              StartsOrTells(c, j, answer,
                            [Planned(P.ConfirmOp(now, operation, true)),
                             Planned(P.PlanOp(now, p.operationId, name, p.turn, p.args))],
                            [Voice(R.ToolStarted(j.turn, j.id, j.name, ""))],
                            Pressing(h, c, now, operation, true))
  {
  }
}
