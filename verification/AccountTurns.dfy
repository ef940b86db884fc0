/** What the account agent's loop asks of its mappers, and how the audio of its turns is numbered. */
module AccountTurns {
  import opened Basics
  import R = RealtimeMapper
  import A = ActionRuntime
  import P = Approval
  import M = MapperRuns
  import opened AgentParts
  import opened WorkerPool
  import opened AgentLoop
  import opened AgentRuns
  import opened MapperLife
  import opened AgentTurns
  import opened AccountLoop
  import opened AccountRuns

  /** The calls that a step makes on the mapper it finds: some inputs wait, and some events are ignored. */
  function AccountCallsOf(c: Account, step: Step): seq<M.Call> {
    match step
    case TakeStep(_, AudioAppend(turn, sequence)) =>
      if Hearing(c.agent.inputs, turn, sequence).1 != Opened then []
      else if c.greeting then [M.QueueCall(turn)]
      else [M.InputCall(turn)]
    case MapStep(_, e, random) => if Filtering(c, e).1 then [] else [M.MapCall(e, random)]
    case _ => CallsOf(c.agent, step)
  }

  function AccountLives(l: Life, c: Account, step: Step, c': Account): Life {
    if c'.agent.stream != c.agent.stream then Born(c'.agent.mapper.history) else Aged(l, AccountCallsOf(c, step))
  }

  /** The life of the mapper that the loop has after these steps; the first mapper begins the opening turn. */
  ghost function AccountLifeOf(h: A.Host, l: Letters, authenticated: bool, steps: seq<Step>): Life {
    if steps == [] then Life([], [M.AssistantCall(OpeningTurn(authenticated))])
    else
      var before, step := steps[..|steps| - 1], steps[|steps| - 1];
      var c := RunAccount(h, l, authenticated, before).0;
      var life := AccountLifeOf(h, l, authenticated, before);
      if !Enabled(c.agent, step) then life else AccountLives(life, c, step, NextAccount(h, l, c, step).0)
  }

  /** Either another stream was opened with a mapper of its own, or the mapper has received these calls. */
  predicate Received(a: Agent, calls: seq<M.Call>, a': Agent)
    requires R.Bounded(a.mapper)
  {
    if a'.stream != a.stream then a'.mapper == R.Fresh(a'.mapper.history) else a'.mapper == After(a.mapper, calls)
  }

  // ----- each step makes its calls -----

  lemma PlannedStays(c: Account, op: P.Op, begun: seq<Output>, s: A.PlannerState, j: A.Job,
                     immediate: Option<A.ToolResult>)
    ensures LoginPlanned(c, op, s, j, immediate).0.agent.mapper == Pressed(c, begun, s, j, immediate).0.agent.mapper ==
            c.agent.mapper
    ensures LoginPlanned(c, op, s, j, immediate).0.agent.stream == Pressed(c, begun, s, j, immediate).0.agent.stream ==
            c.agent.stream
    ensures LoginPlanned(c, op, s, j, immediate).0.agent.inputs == Pressed(c, begun, s, j, immediate).0.agent.inputs ==
            c.agent.inputs
  {
  }

  /** The agent's mapper, stream and inputs are as before. */
  predicate Stays(a: Agent, a': Agent) {
    a'.mapper == a.mapper && a'.stream == a.stream && a'.inputs == a.inputs
  }

  lemma BeginningStays(h: A.Host, c: Account, now: int, turn: Id)
    ensures Stays(c.agent, BeginningLogin(h, c, now, turn).0.agent)
  {
    var planned := A.Planning(h, c.agent.planner, now, WELCOME, LOGIN_MODEL_NAME, turn, "{}");
    PlannedStays(c.(waiting := false), P.PlanOp(now, WELCOME, LOGIN_MODEL_NAME, turn, "{}"), [], planned.0, planned.1.0,
                 planned.1.1);
  }

  lemma ApprovingStays(h: A.Host, c: Account, begun: seq<Output>, now: int, s: A.PlannerState, p: A.Pending)
    ensures Stays(c.agent, Approving(h, c, begun, now, s, p).0.agent)
  {
    var name := P.DotsToUnderscores(p.name);
    var planned := A.Planning(h, s, now, p.operationId, name, p.turn, p.args);
    PlannedStays(c, P.InterruptOp, begun + [Planned(P.PlanOp(now, p.operationId, name, p.turn, p.args))],
                 planned.0, planned.1.0, planned.1.1);
  }

  lemma PressingStays(h: A.Host, c: Account, now: int, operation: Id, approved: bool)
    ensures Stays(c.agent, Pressing(h, c, now, operation, approved).0.agent)
  {
    if c.agent.planner.pending.Some? {
      ApprovingStays(h, c, [Planned(P.ConfirmOp(now, operation, approved))], now,
                     A.Confirming(h, c.agent.planner, now, operation, approved).0, c.agent.planner.pending.value);
    }
  }

  lemma ConfirmStays(h: A.Host, c: Account, now: int, operation: Id, approved: bool)
    ensures Stays(c.agent, TakingAccount(h, c, now, ToolConfirm(operation, approved)).0.agent)
  {
    if operation == WELCOME && c.waiting {
      BeginningStays(h, c, now, WELCOME);
    } else {
      PressingStays(h, c, now, operation, approved);
    }
  }

  lemma HearingReceives(c: Account, turn: Id, sequence: nat)
    requires R.Bounded(c.agent.mapper)
    ensures Received(c.agent, AccountCallsOf(c, TakeStep(0, AudioAppend(turn, sequence))),
                     HearingAccount(c, turn, sequence).0.agent)
  {
    HearingCalls(c.agent, turn, sequence);
    AfterOne(c.agent.mapper, M.QueueCall(turn));
  }

  lemma TakingReceives(h: A.Host, c: Account, now: int, e: Input)
    requires R.Bounded(c.agent.mapper)
    ensures Received(c.agent, AccountCallsOf(c, TakeStep(now, e)), TakingAccount(h, c, now, e).0.agent)
  {
    match e
    case AudioAppend(turn, sequence) => HearingReceives(c, turn, sequence);
    case ToolConfirm(operation, approved) => ConfirmStays(h, c, now, operation, approved);
    case _ => TakingCalls(h, c.agent, now, e);
  }

  lemma RunningStays(h: A.Host, a: Agent, now: int, call: StagedCall)
    ensures Stays(a, RunningAccount(h, a, now, call).0)
  {
  }

  lemma ToolsStays(h: A.Host, a: Agent, now: int, e: R.ProviderEvent, events: seq<R.ServerEvent>)
    ensures Stays(a, ToolsAccount(h, a, now, e, events).0)
  {
    if e.ContentEnd? && e.cid in a.staged {
      RunningStays(h, a.(staged := a.staged - {e.cid}), now, a.staged[e.cid]);
    }
  }

  lemma ObservingStays(h: A.Host, l: Letters, c: Account, now: int, e: R.ProviderEvent)
    ensures Stays(c.agent, ObservingAccount(h, l, c, now, e).0.agent)
  {
    if AtBoundary(c.agent.speech, e) && c.waiting && WelcomeAnswer(l, c.agent.speech.text) == Yes {
      BeginningStays(h, c.(agent := Observing(h, c.agent, now, e).0), now, c.agent.speech.turn);
    }
  }

  lemma ReactingToStays(h: A.Host, l: Letters, c: Account, now: int, e: R.ProviderEvent, events: seq<R.ServerEvent>)
    ensures Stays(c.agent, ReactingTo(h, l, c, now, e, events).0.agent)
  {
    ObservingStays(h, l, c, now, e);
    ToolsStays(h, ObservingAccount(h, l, c, now, e).0.agent, now, e, events);
  }

  lemma ReactingStays(h: A.Host, l: Letters, c: Account, now: int, e: R.ProviderEvent, outcome: R.Outcome)
    ensures Stays(c.agent, ReactingAccount(h, l, c, now, e, outcome).0.agent)
  {
    if outcome.Events? && Collecting(c.agent.speech, e, outcome.events).1 {
      ReactingToStays(h, l, c.(agent := c.agent.(speech := Collecting(c.agent.speech, e, outcome.events).0)), now, e,
                      outcome.events);
    }
  }

  lemma MappingReceives(h: A.Host, l: Letters, c: Account, now: int, e: R.ProviderEvent, random: Id)
    requires R.Bounded(c.agent.mapper)
    ensures var a' := MappingAccount(h, l, c, now, e, random).0.agent;
            Received(c.agent, AccountCallsOf(c, MapStep(now, e, random)), a') && a'.inputs == c.agent.inputs
  {
    MappedReceives(h, l, c, now, e, random, MappingAccount(h, l, c, now, e, random));
  }

  lemma MappedReceives(h: A.Host, l: Letters, c: Account, now: int, e: R.ProviderEvent, random: Id, r: Response)
    requires R.Bounded(c.agent.mapper) && r == MappingAccount(h, l, c, now, e, random)
    ensures Received(c.agent, AccountCallsOf(c, MapStep(now, e, random)), r.0.agent)
    ensures r.0.agent.inputs == c.agent.inputs
  {
    AfterOne(c.agent.mapper, M.MapCall(e, random));
    var (c1, ignored) := Filtering(c, e);
    if !ignored {
      var mapped := R.Mapping(c1.agent.mapper, e, random);
      ReactingStays(h, l, c1.(agent := c1.agent.(mapper := mapped.0)), now, e, mapped.1);
    }
  }

  lemma AccountStepCalls(h: A.Host, l: Letters, c: Account, step: Step)
    requires R.Bounded(c.agent.mapper) && Enabled(c.agent, step)
    ensures Received(c.agent, AccountCallsOf(c, step), NextAccount(h, l, c, step).0.agent)
  {
    NextReceives(h, l, c, step, NextAccount(h, l, c, step));
  }

  lemma NextReceives(h: A.Host, l: Letters, c: Account, step: Step, r: Response)
    requires R.Bounded(c.agent.mapper) && Enabled(c.agent, step) && r == NextAccount(h, l, c, step)
    ensures Received(c.agent, AccountCallsOf(c, step), r.0.agent)
  {
    match step
    case TakeStep(now, e) => TakingReceives(h, c, now, e);
    case RenewStep(late) => RenewingCalls(c.agent, late);
    case TimeOutStep => InterruptedCalls(c.agent);
    case MapStep(now, e, random) => MappingReceives(h, l, c, now, e, random);
    case _ =>
  }

  lemma AccountStepLives(life: Life, c: Account, step: Step, c': Account)
    requires Lived(life, c.agent.mapper) && R.Bounded(c.agent.mapper)
    requires Received(c.agent, AccountCallsOf(c, step), c'.agent)
    ensures Lived(AccountLives(life, c, step, c'), c'.agent.mapper)
  {
    LivesOn(life, c.agent.mapper, AccountCallsOf(c, step));
  }

  lemma OpeningLived(authenticated: bool)
    ensures Lived(Life([], [M.AssistantCall(OpeningTurn(authenticated))]), OpeningAccount(authenticated).agent.mapper)
  {
    AfterOne(R.Fresh([]), M.AssistantCall(OpeningTurn(authenticated)));
  }

  /** The loop's mapper is where the calls of its life have taken it. */
  lemma {:induction false} AccountMapperLived(h: A.Host, l: Letters, authenticated: bool, steps: seq<Step>)
    ensures Lived(AccountLifeOf(h, l, authenticated, steps), RunAccount(h, l, authenticated, steps).0.agent.mapper)
  {
    if steps == [] {
      OpeningLived(authenticated);
    } else {
      var before, step := steps[..|steps| - 1], steps[|steps| - 1];
      AccountMapperLived(h, l, authenticated, before);
      var c := RunAccount(h, l, authenticated, before).0;
      if Enabled(c.agent, step) {
        AccountStepCalls(h, l, c, step);
        AccountStepLives(AccountLifeOf(h, l, authenticated, before), c, step, NextAccount(h, l, c, step).0);
      }
    }
  }

  // ----- inputs are named once -----

  lemma AccountTakingUses(h: A.Host, c: Account, now: int, e: Input)
    requires R.Bounded(c.agent.mapper) && Enabled(c.agent, TakeStep(now, e))
    ensures UsesOne(c, TakeStep(now, e), TakingAccount(h, c, now, e).0)
  {
    if e.ToolConfirm? {
      ConfirmStays(h, c, now, e.operation, e.approved);
    }
  }

  /** No input is forgotten, and a call names a new one. */
  predicate UsesOne(c: Account, step: Step, c': Account) {
    var calls := AccountCallsOf(c, step);
    && c.agent.inputs.used <= c'.agent.inputs.used
    && (calls != [] && Named(calls[0]) ==>
          calls[0].id != "" && calls[0].id !in c.agent.inputs.used && calls[0].id in c'.agent.inputs.used)
  }

  lemma AccountStepUses(h: A.Host, l: Letters, c: Account, step: Step)
    requires R.Bounded(c.agent.mapper) && Enabled(c.agent, step)
    ensures UsesOne(c, step, NextAccount(h, l, c, step).0)
  {
    match step
    case TakeStep(now, e) => AccountTakingUses(h, c, now, e);
    case MapStep(now, e, random) => MappingReceives(h, l, c, now, e, random);
    case _ =>
  }

  lemma {:induction false} AccountLifeOwn(h: A.Host, l: Letters, authenticated: bool, steps: seq<Step>)
    ensures OwnLife(AccountLifeOf(h, l, authenticated, steps),
                    RunAccount(h, l, authenticated, steps).0.agent.inputs.used)
  {
    if steps != [] {
      var before, step := steps[..|steps| - 1], steps[|steps| - 1];
      AccountLifeOwn(h, l, authenticated, before);
      var c := RunAccount(h, l, authenticated, before).0;
      if Enabled(c.agent, step) {
        AccountStepUses(h, l, c, step);
        AgedOwn(AccountLifeOf(h, l, authenticated, before), c.agent.inputs.used, AccountCallsOf(c, step),
                NextAccount(h, l, c, step).0.agent.inputs.used);
      }
    }
  }

  /**
   Over every run, the calls of the current mapper use fresh ids exactly when the opening turn and the ids that the
   server draws are not empty, not drawn again, and not named by the client; and then each turn is started at most once
   and its audio is numbered from 1 without a gap.
   */
  lemma AccountTurnsAreFreshIff(h: A.Host, l: Letters, authenticated: bool, steps: seq<Step>, turn: Id)
    ensures var life := AccountLifeOf(h, l, authenticated, steps);
            && Lived(life, RunAccount(h, l, authenticated, steps).0.agent.mapper)
            && (M.FreshRun(life.calls, {}) <==> DrawsFresh(life.calls))
            && (DrawsFresh(life.calls) && turn != "" ==>
                  M.Starts(EmittedIn(life), turn) <= 1
                  && M.NumbersOf(EmittedIn(life), turn) == M.From(1, |M.NumbersOf(EmittedIn(life), turn)|))
  {
    var life := AccountLifeOf(h, l, authenticated, steps);
    AccountMapperLived(h, l, authenticated, steps);
    AccountLifeOwn(h, l, authenticated, steps);
    FreshIffDrawsFresh(life.calls);
    if DrawsFresh(life.calls) && turn != "" {
      M.FreshIdsNumberEveryTurn(life.history, life.calls, turn);
    }
  }
}
