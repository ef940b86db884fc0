/** Runs of the account agent's loop. */
module AccountRuns {
  import opened Basics
  import R = RealtimeMapper
  import A = ActionRuntime
  import P = Approval
  import M = MapperRuns
  import opened AgentParts
  import opened WorkerPool
  import opened AgentLoop
  import opened AgentRuns
  import opened AccountLoop

  /** The tools are bound by their model names, and the login has the policy of its trusted profile. */
  ghost predicate AccountHost(h: A.Host) {
    A.WellBound(h.tools) && forall n | n in h.tools && h.tools[n].toolName == LOGIN ::
      h.tools[n].policy == A.ExplicitIntent
  }

  ghost function NextAccount(h: A.Host, l: Letters, c: Account, step: Step): Response
    requires R.Bounded(c.agent.mapper) && Enabled(c.agent, step)
  {
    match step
    case TakeStep(now, e) => TakingAccount(h, c, now, e)
    case RenewStep(late) => RenewingAccount(c, late)
    case TimeOutStep => TimingOutAccount(c)
    case FinishStep(k, result) => (c.(agent := c.agent.(pool := Finishing(c.agent.pool, k, result))), [])
    case DeliverStep => DeliveringAccount(h, c)
    case MapStep(now, e, random) => MappingAccount(h, l, c, now, e, random)
  }

  // ----- the mapper stays within its limits -----

  lemma KeepsBounded(h: A.Host, l: Letters, c: Account, step: Step)
    requires R.Bounded(c.agent.mapper) && Enabled(c.agent, step)
    ensures R.Bounded(NextAccount(h, l, c, step).0.agent.mapper)
  {
    NextBounded(h, l, c, step, NextAccount(h, l, c, step));
  }

  lemma NextBounded(h: A.Host, l: Letters, c: Account, step: Step, r: Response)
    requires R.Bounded(c.agent.mapper) && Enabled(c.agent, step) && r == NextAccount(h, l, c, step)
    ensures R.Bounded(r.0.agent.mapper)
  {
    match step
    case TakeStep(now, e) => TakingBounded(h, c, now, e);
    case RenewStep(late) => M.OwnerKeepsContents(c.agent.mapper, "");
    case TimeOutStep => M.OwnerKeepsContents(c.agent.mapper, "");
    case FinishStep(_, _) =>
    case DeliverStep =>
    case MapStep(now, e, random) => MapBounded(h, l, c, now, e, random);
  }

  lemma MapBounded(h: A.Host, l: Letters, c: Account, now: int, e: R.ProviderEvent, random: Id)
    requires R.Bounded(c.agent.mapper)
    ensures R.Bounded(MappingAccount(h, l, c, now, e, random).0.agent.mapper)
  {
    var (c1, ignored) := Filtering(c, e);
    M.MappingKeepsBounded(c.agent.mapper, e, random);
    MappedMapper(h, l, c1, now, e, R.Mapping(c.agent.mapper, e, random));
  }

  lemma MappedMapper(h: A.Host, l: Letters, c: Account, now: int, e: R.ProviderEvent,
                     mapped: (R.MapperState, R.Outcome))
    ensures ReactingAccount(h, l, c.(agent := c.agent.(mapper := mapped.0)), now, e, mapped.1).0.agent.mapper ==
            mapped.0
  {
    ReactingMapper(h, l, c.(agent := c.agent.(mapper := mapped.0)), now, e, mapped.1);
  }

  lemma TakingBounded(h: A.Host, c: Account, now: int, e: Input)
    requires R.Bounded(c.agent.mapper)
    ensures R.Bounded(TakingAccount(h, c, now, e).0.agent.mapper)
  {
    match e
    case AudioAppend(turn, sequence) => HearingBounded(c, turn, sequence);
    case TurnCancel(turn) => CancellingBounded(c.agent, turn);
    case ToolConfirm(operation, approved) => ConfirmKeeps(h, c, now, operation, approved);
    case _ =>
  }

  lemma HearingBounded(c: Account, turn: Id, sequence: nat)
    requires R.Bounded(c.agent.mapper)
    ensures R.Bounded(HearingAccount(c, turn, sequence).0.agent.mapper)
  {
    HearingContents(c, turn, sequence, HearingAccount(c, turn, sequence));
  }

  lemma HearingContents(c: Account, turn: Id, sequence: nat, r: Response)
    requires r == HearingAccount(c, turn, sequence)
    ensures r.0.agent.mapper.contents == c.agent.mapper.contents
  {
    M.OwnerKeepsContents(c.agent.mapper, turn);
  }

  /** The agent's mapper and speech are as before, and so is the filter. */
  predicate Untouched(c: Account, c': Account) {
    c'.agent.mapper == c.agent.mapper && c'.agent.speech == c.agent.speech && c'.bootstrap == c.bootstrap &&
    c'.authenticated == c.authenticated
  }

  lemma PlannedKeeps(c: Account, op: P.Op, begun: seq<Output>, s: A.PlannerState, j: A.Job,
                     immediate: Option<A.ToolResult>)
    ensures Untouched(c, LoginPlanned(c, op, s, j, immediate).0) && Untouched(c, Pressed(c, begun, s, j, immediate).0)
    ensures LoginPlanned(c, op, s, j, immediate).0.waiting == c.waiting
    ensures Pressed(c, begun, s, j, immediate).0.waiting == c.waiting
    ensures LoginPlanned(c, op, s, j, immediate).0.agent.planner == s
    ensures Pressed(c, begun, s, j, immediate).0.agent.planner == s
  {
  }

  lemma BeginningKeeps(h: A.Host, c: Account, now: int, turn: Id)
    ensures Untouched(c, BeginningLogin(h, c, now, turn).0) && !BeginningLogin(h, c, now, turn).0.waiting
  {
    var planned := A.Planning(h, c.agent.planner, now, WELCOME, LOGIN_MODEL_NAME, turn, "{}");
    PlannedKeeps(c.(waiting := false), P.PlanOp(now, WELCOME, LOGIN_MODEL_NAME, turn, "{}"), [], planned.0, planned.1.0,
                 planned.1.1);
  }

  lemma ApprovingKeeps(h: A.Host, c: Account, begun: seq<Output>, now: int, s: A.PlannerState, p: A.Pending)
    ensures Untouched(c, Approving(h, c, begun, now, s, p).0)
    ensures Approving(h, c, begun, now, s, p).0.waiting == c.waiting
  {
    var name := P.DotsToUnderscores(p.name);
    var planned := A.Planning(h, s, now, p.operationId, name, p.turn, p.args);
    PlannedKeeps(c, P.InterruptOp, begun + [Planned(P.PlanOp(now, p.operationId, name, p.turn, p.args))],
                 planned.0, planned.1.0, planned.1.1);
  }

  lemma PressingKeeps(h: A.Host, c: Account, now: int, operation: Id, approved: bool)
    ensures Untouched(c, Pressing(h, c, now, operation, approved).0)
    ensures Pressing(h, c, now, operation, approved).0.waiting == c.waiting
  {
    if c.agent.planner.pending.Some? {
      ApprovingKeeps(h, c, [Planned(P.ConfirmOp(now, operation, approved))], now,
                     A.Confirming(h, c.agent.planner, now, operation, approved).0, c.agent.planner.pending.value);
    }
  }

  lemma ConfirmKeeps(h: A.Host, c: Account, now: int, operation: Id, approved: bool)
    ensures Untouched(c, TakingAccount(h, c, now, ToolConfirm(operation, approved)).0)
  {
    BeginningKeeps(h, c, now, WELCOME);
    PressingKeeps(h, c, now, operation, approved);
  }

  lemma ToolsKeep(h: A.Host, a: Agent, now: int, e: R.ProviderEvent, events: seq<R.ServerEvent>)
    ensures ToolsAccount(h, a, now, e, events).0.mapper == a.mapper
    ensures ToolsAccount(h, a, now, e, events).0.speech == a.speech
  {
    if e.ContentEnd? && e.cid in a.staged {
      RunningKeeps(h, a.(staged := a.staged - {e.cid}), now, a.staged[e.cid]);
    }
  }

  lemma RunningKeeps(h: A.Host, a: Agent, now: int, call: StagedCall)
    ensures RunningAccount(h, a, now, call).0.mapper == a.mapper && RunningAccount(h, a, now, call).0.speech == a.speech
  {
  }

  lemma ObservingKeeps(h: A.Host, l: Letters, c: Account, now: int, e: R.ProviderEvent)
    ensures var c' := ObservingAccount(h, l, c, now, e).0;
            c'.agent.mapper == c.agent.mapper && c'.agent.speech == c.agent.speech && c'.bootstrap == c.bootstrap &&
            c'.authenticated == c.authenticated && (c'.waiting ==> c.waiting)
  {
    if AtBoundary(c.agent.speech, e) {
      BeginningKeeps(h, c.(agent := Observing(h, c.agent, now, e).0), now, c.agent.speech.turn);
    }
  }

  lemma ReactingMapper(h: A.Host, l: Letters, c: Account, now: int, e: R.ProviderEvent, outcome: R.Outcome)
    ensures ReactingAccount(h, l, c, now, e, outcome).0.agent.mapper == c.agent.mapper
    ensures ReactingAccount(h, l, c, now, e, outcome).0.bootstrap == c.bootstrap
    ensures outcome.Failed? ==> ReactingAccount(h, l, c, now, e, outcome).0.agent.speech == c.agent.speech
    ensures outcome.Events? ==>
              ReactingAccount(h, l, c, now, e, outcome).0.agent.speech ==
                Collecting(c.agent.speech, e, outcome.events).0
  {
    if outcome.Events? && Collecting(c.agent.speech, e, outcome.events).1 {
      ReactingToKeeps(h, l, c.(agent := c.agent.(speech := Collecting(c.agent.speech, e, outcome.events).0)), now, e,
                      outcome.events);
    }
  }

  lemma ReactingToKeeps(h: A.Host, l: Letters, c: Account, now: int, e: R.ProviderEvent, events: seq<R.ServerEvent>)
    ensures var c' := ReactingTo(h, l, c, now, e, events).0;
            c'.agent.mapper == c.agent.mapper && c'.agent.speech == c.agent.speech && c'.bootstrap == c.bootstrap
  {
    var c1 := ObservingAccount(h, l, c, now, e).0;
    ObservingKeeps(h, l, c, now, e);
    ToolsKeep(h, c1.agent, now, e, events);
  }

  // ----- runs -----

  /** The loop after these steps, and all it has put out; steps that cannot happen are skipped. */
  ghost function RunAccount(h: A.Host, l: Letters, authenticated: bool, steps: seq<Step>): (r: Response)
    ensures R.Bounded(r.0.agent.mapper)
  {
    if steps == [] then (OpeningAccount(authenticated), [])
    else
      var (c, outputs) := RunAccount(h, l, authenticated, steps[..|steps| - 1]);
      var step := steps[|steps| - 1];
      if !Enabled(c.agent, step) then (c, outputs)
      else
        KeepsBounded(h, l, c, step);
        (NextAccount(h, l, c, step).0, outputs + NextAccount(h, l, c, step).1)
  }
}
