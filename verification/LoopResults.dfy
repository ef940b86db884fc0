/**
 What becomes of the results of the workers, over all runs of both agent loops
 (apps/personal-assistant-agent/internal/agent and apps/account-agent/internal/account: runtime.go, tools.go).
 */
module LoopResults {
  import R = RealtimeMapper
  import A = ActionRuntime
  import P = Approval
  import opened AgentParts
  import opened WorkerPool
  import opened AgentLoop
  import opened AgentRuns
  import opened AccountLoop
  import opened AccountRuns
  import opened AccountResults

  // ----- staged calls -----

  /**
   A staged call is the one the provider asked for, in the turn that is on; it is cancelled if the mapper was silent.
   */
  lemma StagedIsAsked(m: R.MapperState, e: R.ProviderEvent, random: Id, stream: nat)
    requires R.Bounded(m) && e.ToolUse? && R.Mapping(m, e, random).1.Events?
    ensures Staging(e, R.Mapping(m, e, random).1.events, R.Mapping(m, e, random).0.turn, stream) ==
            StagedCall(m.turn, e.toolId, e.toolName, e.arguments,
                       e.cid !in m.contents || m.contents[e.cid].turn != m.turn || m.turn in m.cancelled, stream)
  {
  }

  // ----- the personal assistant -----

  /** A worker that finishes in the step, with its result. */
  function FinishesIn(p: Pool, step: Step): seq<Delivery>
    requires step.FinishStep? ==> CanFinish(p, step.k)
  {
    if step.FinishStep? then [Delivery(p.running[step.k], step.result)] else []
  }

  /** The results of a run, in the order in which workers finished. */
  ghost function FinishedIn(h: A.Host, steps: seq<Step>): seq<Delivery> {
    if steps == [] then []
    else
      var before, step := steps[..|steps| - 1], steps[|steps| - 1];
      var a := Run(h, before).0;
      FinishedIn(h, before) + if Enabled(a, step) then FinishesIn(a.pool, step) else []
  }

  /** How many results the run has delivered. */
  ghost function DeliveriesIn(h: A.Host, steps: seq<Step>): nat {
    if steps == [] then 0
    else
      var before, step := steps[..|steps| - 1], steps[|steps| - 1];
      DeliveriesIn(h, before) + if Enabled(Run(h, before).0, step) && step.DeliverStep? then 1 else 0
  }

  /** The channel after a step: a worker adds its result, and a delivery takes the oldest. */
  predicate ChannelMoves(p: Pool, step: Step, p': Pool)
    requires step.FinishStep? ==> CanFinish(p, step.k)
  {
    p'.channel ==
    match step
    case FinishStep(k, result) => p.channel + [Delivery(p.running[k], result)]
    case DeliverStep => if p.channel == [] then [] else p.channel[1..]
    case _ => p.channel
  }

  lemma RunningKeepsChannel(h: A.Host, a: Agent, now: int, call: StagedCall)
    ensures Running(h, a, now, call).0.pool.channel == a.pool.channel
  {
  }

  lemma ToolsKeepChannel(h: A.Host, a: Agent, now: int, e: R.ProviderEvent, events: seq<R.ServerEvent>)
    ensures Tools(h, a, now, e, events).0.pool.channel == a.pool.channel
  {
    if e.ContentEnd? && e.cid in a.staged {
      RunningKeepsChannel(h, a.(staged := a.staged - {e.cid}), now, a.staged[e.cid]);
    }
  }

  lemma ReactingKeepsChannel(h: A.Host, a: Agent, now: int, e: R.ProviderEvent, outcome: R.Outcome)
    ensures Reacting(h, a, now, e, outcome).0.pool.channel == a.pool.channel
  {
    if outcome.Events? && Collecting(a.speech, e, outcome.events).1 {
      var a0 := a.(speech := Collecting(a.speech, e, outcome.events).0);
      ToolsKeepChannel(h, Observing(h, a0, now, e).0, now, e, outcome.events);
    }
  }

  lemma StepMovesChannel(h: A.Host, a: Agent, step: Step, r: Reaction)
    requires R.Bounded(a.mapper) && Enabled(a, step) && r == Next(h, a, step)
    ensures ChannelMoves(a.pool, step, r.0.pool)
  {
    match step
    case MapStep(now, e, random) =>
      ReactingKeepsChannel(h, a.(mapper := R.Mapping(a.mapper, e, random).0), now, e,
                           R.Mapping(a.mapper, e, random).1);
    case _ =>
  }

  /** What is in the channel are the results finished and not delivered yet, in order. */
  predicate Queues(finished: seq<Delivery>, delivered: nat, p: Pool) {
    delivered <= |finished| && p.channel == finished[delivered..]
  }

  lemma QueuesOn(finished: seq<Delivery>, delivered: nat, p: Pool, step: Step, p': Pool)
    requires step.FinishStep? ==> CanFinish(p, step.k)
    requires step.DeliverStep? ==> p.channel != []
    requires Queues(finished, delivered, p) && ChannelMoves(p, step, p')
    ensures Queues(finished + FinishesIn(p, step), delivered + if step.DeliverStep? then 1 else 0, p')
  {
    var more := finished + FinishesIn(p, step);
    if step.FinishStep? {
      assert more[delivered..] == finished[delivered..] + FinishesIn(p, step);
    } else {
      assert more == finished;
      if step.DeliverStep? {
        assert finished[delivered..][1..] == finished[delivered + 1..];
      }
    }
  }

  lemma {:induction false} RunQueues(h: A.Host, steps: seq<Step>)
    ensures Queues(FinishedIn(h, steps), DeliveriesIn(h, steps), Run(h, steps).0.pool)
  {
    if steps != [] {
      var before, step := steps[..|steps| - 1], steps[|steps| - 1];
      var a := Run(h, before).0;
      RunQueues(h, before);
      if Enabled(a, step) {
        StepMovesChannel(h, a, step, Next(h, a, step));
        QueuesOn(FinishedIn(h, before), DeliveriesIn(h, before), a.pool, step, Next(h, a, step).0.pool);
      } else {
        assert FinishedIn(h, before) + [] == FinishedIn(h, before);
      }
    }
  }

  /**
   Over every run, results are delivered in the order in which workers finished, none lost and none twice: the next
   delivery is of the oldest one not delivered, which the planner records, the open stream's model gets and the app is
   told.
   */
  lemma ResultsAreTold(h: A.Host, steps: seq<Step>)
    requires Enabled(Run(h, steps).0, DeliverStep)
    ensures DeliveriesIn(h, steps) < |FinishedIn(h, steps)|
    ensures var a, d := Run(h, steps).0, FinishedIn(h, steps)[DeliveriesIn(h, steps)];
            Next(h, a, DeliverStep).1 ==
            [Planned(P.CompleteOp(d.worker.job, d.result)), ToModel(a.stream, d.worker, d.result),
             ToolOutcome(d.worker.job, d.result)]
  {
    RunQueues(h, steps);
    assert Run(h, steps).0.pool.channel[0] == FinishedIn(h, steps)[DeliveriesIn(h, steps)];
  }

  // ----- the account agent -----

  /** The results of the first k steps, in the order in which workers finished. */
  ghost function FinishedBefore(r: Recording, k: nat): seq<Delivery>
    requires k <= |r.steps|
  {
    if k == 0 then []
    else
      FinishedBefore(r, k - 1) +
      if Happens(r, k - 1) then FinishesIn(At(r, k - 1).agent.pool, r.steps[k - 1]) else []
  }

  ghost function DeliveriesBefore(r: Recording, k: nat): nat
    requires k <= |r.steps|
  {
    if k == 0 then 0
    else DeliveriesBefore(r, k - 1) + if Happens(r, k - 1) && r.steps[k - 1].DeliverStep? then 1 else 0
  }

  lemma PressingKeepsChannel(h: A.Host, c: Account, now: int, operation: Id, approved: bool)
    ensures Pressing(h, c, now, operation, approved).0.agent.pool.channel == c.agent.pool.channel
  {
  }

  lemma HearingKeepsChannel(c: Account, turn: Id, sequence: nat)
    ensures HearingAccount(c, turn, sequence).0.agent.pool.channel == c.agent.pool.channel
  {
  }

  lemma OtherTakingKeepsChannel(h: A.Host, a: Agent, now: int, e: Input)
    ensures Taking(h, a, now, e).0.pool.channel == a.pool.channel
  {
  }

  lemma TakingKeepsChannel(h: A.Host, c: Account, now: int, e: Input)
    ensures TakingAccount(h, c, now, e).0.agent.pool.channel == c.agent.pool.channel
  {
    match e
    case ToolConfirm(operation, approved) => PressingKeepsChannel(h, c, now, operation, approved);
    case AudioAppend(turn, sequence) => HearingKeepsChannel(c, turn, sequence);
    case _ => OtherTakingKeepsChannel(h, c.agent, now, e);
  }

  lemma BeginningKeepsChannel(h: A.Host, c: Account, now: int, turn: Id)
    ensures BeginningLogin(h, c, now, turn).0.agent.pool.channel == c.agent.pool.channel
  {
  }

  lemma ObservingKeepsChannel(h: A.Host, l: Letters, c: Account, now: int, e: R.ProviderEvent)
    ensures ObservingAccount(h, l, c, now, e).0.agent.pool.channel == c.agent.pool.channel
  {
    if AtBoundary(c.agent.speech, e) {
      BeginningKeepsChannel(h, c.(agent := Observing(h, c.agent, now, e).0), now, c.agent.speech.turn);
    }
  }

  lemma RunningAccountKeepsChannel(h: A.Host, a: Agent, now: int, call: StagedCall)
    ensures RunningAccount(h, a, now, call).0.pool.channel == a.pool.channel
  {
    RunningKeepsChannel(h, a, now, call);
  }

  lemma ToolsAccountKeepChannel(h: A.Host, a: Agent, now: int, e: R.ProviderEvent, events: seq<R.ServerEvent>)
    ensures ToolsAccount(h, a, now, e, events).0.pool.channel == a.pool.channel
  {
    if e.ContentEnd? && e.cid in a.staged {
      RunningAccountKeepsChannel(h, a.(staged := a.staged - {e.cid}), now, a.staged[e.cid]);
    }
  }

  lemma ReactingToKeepsChannel(h: A.Host, l: Letters, c: Account, now: int, e: R.ProviderEvent,
                               events: seq<R.ServerEvent>)
    ensures ReactingTo(h, l, c, now, e, events).0.agent.pool.channel == c.agent.pool.channel
  {
    ObservingKeepsChannel(h, l, c, now, e);
    ToolsAccountKeepChannel(h, ObservingAccount(h, l, c, now, e).0.agent, now, e, events);
  }

  lemma ReactingAccountKeepsChannel(h: A.Host, l: Letters, c: Account, now: int, e: R.ProviderEvent, outcome: R.Outcome)
    ensures ReactingAccount(h, l, c, now, e, outcome).0.agent.pool.channel == c.agent.pool.channel
  {
    if outcome.Events? && Collecting(c.agent.speech, e, outcome.events).1 {
      var speech := Collecting(c.agent.speech, e, outcome.events).0;
      ReactingToKeepsChannel(h, l, c.(agent := c.agent.(speech := speech)), now, e, outcome.events);
    }
  }

  lemma MappingAccountKeepsChannel(h: A.Host, l: Letters, c: Account, now: int, e: R.ProviderEvent, random: Id)
    requires R.Bounded(c.agent.mapper)
    ensures MappingAccount(h, l, c, now, e, random).0.agent.pool.channel == c.agent.pool.channel
  {
    var (c1, ignored) := Filtering(c, e);
    if !ignored {
      var (m, outcome) := R.Mapping(c1.agent.mapper, e, random);
      ReactingAccountKeepsChannel(h, l, c1.(agent := c1.agent.(mapper := m)), now, e, outcome);
    }
  }

  lemma AccountMovesChannel(h: A.Host, l: Letters, c: Account, step: Step, r: Response)
    requires R.Bounded(c.agent.mapper) && Enabled(c.agent, step) && r == NextAccount(h, l, c, step)
    ensures ChannelMoves(c.agent.pool, step, r.0.agent.pool)
  {
    match step
    case TakeStep(now, e) => TakingKeepsChannel(h, c, now, e);
    case MapStep(now, e, random) => MappingAccountKeepsChannel(h, l, c, now, e, random);
    case _ =>
  }

  lemma {:induction false} AccountQueues(r: Recording, k: nat)
    requires k <= |r.steps|
    ensures Queues(FinishedBefore(r, k), DeliveriesBefore(r, k), At(r, k).agent.pool)
  {
    if k == 0 {
      OpeningQueues(r);
    } else {
      AccountQueues(r, k - 1);
      OneStep(r, k - 1);
      var c, step := At(r, k - 1), r.steps[k - 1];
      if Happens(r, k - 1) {
        AccountMovesChannel(r.host, r.letters, c, step, NextAccount(r.host, r.letters, c, step));
        QueuesOn(FinishedBefore(r, k - 1), DeliveriesBefore(r, k - 1), c.agent.pool, step, At(r, k).agent.pool);
      } else {
        assert FinishedBefore(r, k - 1) + [] == FinishedBefore(r, k - 1);
      }
    }
  }

  lemma OpeningQueues(r: Recording)
    ensures At(r, 0).agent.pool.channel == []
  {
    assert r.steps[..0] == [];
  }

  /** What the conversation is told of a job that the app confirmed. */
  function ToldOf(result: A.ToolResult): string {
    "Resultado da opera\U{E7}\U{E3}o confirmada no app: " +
    match result
    case Reply(text) => text
    case Failure(code) => code
    case _ => ""
  }

  /**
   Over every run, results are delivered in the order in which workers finished, as in the personal assistant. Each
   is recorded by the planner and told to the app; those of the model's jobs go to the open stream, and those of the
   app's jobs into the history with which another stream is opened.
   */
  lemma AccountResultsAreTold(r: Recording, k: nat)
    requires Happens(r, k) && r.steps[k].DeliverStep?
    ensures DeliveriesBefore(r, k) < |FinishedBefore(r, k)|
    ensures var c, d := At(r, k), FinishedBefore(r, k)[DeliveriesBefore(r, k)];
            var completed, told := Planned(P.CompleteOp(d.worker.job, d.result)), ToolOutcome(d.worker.job, d.result);
            if d.worker.job.id in c.uiJobs then
              && OutputsAt(r, k) == [completed, told, Planned(P.InterruptOp), Voice(R.SessionRenewed)]
              && At(r, k + 1).agent.mapper ==
                 R.Fresh(c.agent.mapper.history + [R.AssistantMessage(ToldOf(d.result))])
            else OutputsAt(r, k) == [completed, ToModel(c.agent.stream, d.worker, d.result), told]
  {
    AccountQueues(r, k);
    OneStep(r, k);
    var c := At(r, k);
    assert c.agent.pool.channel[0] == FinishedBefore(r, k)[DeliveriesBefore(r, k)];
    DeliveringTells(r.host, c, DeliveringAccount(r.host, c));
  }

  lemma DeliveringTells(h: A.Host, c: Account, r: Response)
    requires c.agent.pool.channel != [] && r == DeliveringAccount(h, c)
    ensures var d := c.agent.pool.channel[0];
            var completed, told := Planned(P.CompleteOp(d.worker.job, d.result)), ToolOutcome(d.worker.job, d.result);
            if d.worker.job.id in c.uiJobs then
              && r.1 == [completed, told, Planned(P.InterruptOp), Voice(R.SessionRenewed)]
              && r.0.agent.mapper == R.Fresh(c.agent.mapper.history + [R.AssistantMessage(ToldOf(d.result))])
            else r.1 == [completed, ToModel(c.agent.stream, d.worker, d.result), told]
  {
    var d := c.agent.pool.channel[0];
    assert Summary(d.result) == ToldOf(d.result) by {
      var prefix := "Resultado da opera\U{E7}\U{E3}o confirmada no app: ";
      assert prefix + "" == prefix;
    }
  }
}
