/**
 Work that the planner releases and the personal assistant's loop then refuses because four jobs are active
 (apps/personal-assistant-agent/internal/agent/tools.go).
 */
module BusyWork {
  import opened Basics
  import R = RealtimeMapper
  import A = ActionRuntime
  import P = Approval
  import opened AgentParts
  import opened WorkerPool
  import opened LoopWork
  import opened AgentLoop
  import opened AgentRuns
  import opened AgentPlans

  const BUSY: A.ToolResult := A.Failure("tool_busy")
  const UNKNOWN: A.ToolResult := A.Failure("mutation_outcome_pending_or_unknown")

  /** A job whose result the planner will record under this key. */
  ghost predicate Records(h: A.Host, j: A.Job, key: Digest) {
    j.key == Some(key) && A.CachesResults(h, j.name)
  }

  ghost predicate Recording(h: A.Host, p: Pool, key: Digest) {
    exists i :: 0 <= i < |Outstanding(p)| && Records(h, Outstanding(p)[i].job, key)
  }

  /** A mutation was attempted, and no result of it is, or will be, recorded. */
  ghost predicate Spent(h: A.Host, s: A.PlannerState, p: Pool, key: Digest) {
    key in s.attempted && key !in s.cache && !Recording(h, p, key)
  }

  /** What is at work for a mutation has been attempted. */
  ghost predicate Attempted(h: A.Host, s: A.PlannerState, p: Pool) {
    forall key | Recording(h, p, key) :: key in s.attempted
  }

  // ----- what a plan releases -----

  lemma PlanReleases(h: A.Host, s: A.PlannerState, now: int, id: Id, name: string, turn: Id, args: string)
    ensures var (s', (j, immediate)) := A.Planning(h, s, now, id, name, turn, args);
            && s.attempted <= s'.attempted && s'.cache == s.cache
            && (immediate.None? ==>
                  forall key | Records(h, j, key) :: key in s'.attempted && key !in s.attempted && key !in s.cache)
  {
  }

  /** A call that passes the planner's checks on its id, its arguments and the number of calls. */
  predicate Admitted(h: A.Host, s: A.PlannerState, id: Id, name: string, args: string)
    requires name in h.tools
  {
    var b := h.tools[name];
    && ValidId(id) && b.dateTimesOk(args) && b.schemaOk(args) && s.calls < A.MAX_CALLS
    && (id in s.seen ==> s.seen[id] == A.KeyOf(h, b.toolName, args))
  }

  /** A spent mutation is not released again: once admitted, it is refused as pending or unknown. */
  lemma SpentIsRefused(h: A.Host, s: A.PlannerState, p: Pool, now: int, id: Id, name: string, turn: Id, args: string)
    requires name in h.tools && h.tools[name].policy != A.ReadOnly
    requires Spent(h, s, p, A.KeyOf(h, h.tools[name].toolName, args))
    ensures var immediate := A.Planning(h, s, now, id, name, turn, args).1.1;
            immediate.Some? && (Admitted(h, s, id, name, args) ==> immediate == Some(UNKNOWN))
  {
  }

  // ----- steps of the loop -----

  /** The planner and the pool before and after a step: what was spent stays spent, what is at work was attempted. */
  ghost predicate KeepsSpent(h: A.Host, s: A.PlannerState, p: Pool, s': A.PlannerState, p': Pool) {
    && (Attempted(h, s, p) ==> Attempted(h, s', p'))
    && (forall key | Spent(h, s, p, key) :: Spent(h, s', p', key))
  }

  lemma SameRecordsKeep(h: A.Host, s: A.PlannerState, p: Pool, s': A.PlannerState, p': Pool)
    requires s.attempted <= s'.attempted && s'.cache == s.cache
    requires forall i | 0 <= i < |Outstanding(p')| :: Outstanding(p')[i] in Outstanding(p)
    ensures KeepsSpent(h, s, p, s', p')
  {
    forall key | Recording(h, p', key)
      ensures Recording(h, p, key)
    {
      var i :| 0 <= i < |Outstanding(p')| && Records(h, Outstanding(p')[i].job, key);
      var k :| 0 <= k < |Outstanding(p)| && Outstanding(p)[k] == Outstanding(p')[i];
      assert Records(h, Outstanding(p)[k].job, key);
    }
  }

  lemma LaunchKeeps(h: A.Host, s: A.PlannerState, p: Pool, s': A.PlannerState, w: Worker)
    requires s.attempted <= s'.attempted && s'.cache == s.cache
    requires forall key | Records(h, w.job, key) :: key in s'.attempted && key !in s.attempted
    ensures KeepsSpent(h, s, p, s', Launching(p, w))
  {
    var ws, ws' := Outstanding(p), Outstanding(Launching(p, w));
    assert ws' == ws + [w];
    forall key | Recording(h, Launching(p, w), key)
      ensures Recording(h, p, key) || Records(h, w.job, key)
    {
      var i :| 0 <= i < |ws'| && Records(h, ws'[i].job, key);
      if i < |ws| {
        assert Records(h, ws[i].job, key);
      }
    }
  }

  lemma DeliveryKeeps(h: A.Host, s: A.PlannerState, p: Pool)
    requires p.channel != []
    ensures KeepsSpent(h, s, p, A.Completing(h, s, p.channel[0].worker.job, p.channel[0].result), Receiving(p))
  {
    var d := p.channel[0];
    ReceivingOutstanding(p);
    var all, rest := Outstanding(p), Outstanding(Receiving(p));
    assert all[0] == d.worker;
    forall key | Recording(h, Receiving(p), key)
      ensures Recording(h, p, key)
    {
      var i :| 0 <= i < |rest| && Records(h, rest[i].job, key);
      assert Records(h, all[i + 1].job, key);
    }
    forall key | key in A.Completing(h, s, d.worker.job, d.result).cache && key !in s.cache
      ensures Recording(h, p, key)
    {
      assert Records(h, all[0].job, key);
    }
  }

  lemma FinishKeeps(h: A.Host, s: A.PlannerState, p: Pool, k: nat, result: A.ToolResult)
    requires CanFinish(p, k)
    ensures KeepsSpent(h, s, p, s, Finishing(p, k, result))
  {
    var w := Work(p, 0, map[], {});
    forall i | 0 <= i < |Outstanding(Finishing(p, k, result))|
      ensures Outstanding(Finishing(p, k, result))[i] in Outstanding(p)
    {
      MovingOutstanding(w, Finish(k, result), Outstanding(Finishing(p, k, result))[i]);
    }
    SameRecordsKeep(h, s, p, s, Finishing(p, k, result));
  }

  ghost predicate AgentKeeps(h: A.Host, a: Agent, a': Agent) {
    KeepsSpent(h, a.planner, a.pool, a'.planner, a'.pool)
  }

  lemma SamePoolKeeps(h: A.Host, a: Agent, a': Agent)
    requires a'.pool == a.pool && a'.planner.attempted == a.planner.attempted && a'.planner.cache == a.planner.cache
    ensures AgentKeeps(h, a, a')
  {
    SameRecordsKeep(h, a.planner, a.pool, a'.planner, a'.pool);
  }

  lemma FollowingKeeps(h: A.Host, a: Agent, s: A.PlannerState, call: StagedCall, op: P.Op, j: A.Job,
                       immediate: Option<A.ToolResult>)
    requires a.planner.attempted <= s.attempted && s.cache == a.planner.cache
    requires immediate.None? ==> forall key | Records(h, j, key) :: key in s.attempted && key !in a.planner.attempted
    ensures AgentKeeps(h, a, Following(a.(planner := s), call, op, j, immediate).0)
  {
    if immediate.None? && |a.pool.active| < MAX_ACTIVE {
      LaunchKeeps(h, a.planner, a.pool, s, Worker(j, Some(call.asked)));
    } else {
      SameRecordsKeep(h, a.planner, a.pool, s, a.pool);
    }
  }

  lemma RunningKeepsSpent(h: A.Host, a: Agent, now: int, call: StagedCall)
    ensures AgentKeeps(h, a, Running(h, a, now, call).0)
  {
    if call.cancelled || call.turn != a.mapper.turn {
      SamePoolKeeps(h, a, a);
    } else {
      PlanReleases(h, a.planner, now, call.operation, call.name, call.turn, call.arguments);
      var planned := A.Planning(h, a.planner, now, call.operation, call.name, call.turn, call.arguments);
      FollowingKeeps(h, a, planned.0, call, P.PlanOp(now, call.operation, call.name, call.turn, call.arguments),
                     planned.1.0, planned.1.1);
    }
  }

  lemma ToolsKeepSpent(h: A.Host, a: Agent, now: int, e: R.ProviderEvent, events: seq<R.ServerEvent>)
    ensures AgentKeeps(h, a, Tools(h, a, now, e, events).0)
  {
    if e.ContentEnd? && e.cid in a.staged && a.staged[e.cid].operation !in a.pool.active {
      RunningKeepsSpent(h, a.(staged := a.staged - {e.cid}), now, a.staged[e.cid]);
    } else {
      SamePoolKeeps(h, a, Tools(h, a, now, e, events).0);
    }
  }

  lemma ObservedKeeps(h: A.Host, s: A.PlannerState, now: int, turn: Id, text: string)
    ensures var s' := A.Observing(h, s, now, turn, text).0;
            s'.attempted == s.attempted && s'.cache == s.cache
  {
  }

  lemma KeepsChains(h: A.Host, a: Agent, b: Agent, c: Agent)
    requires AgentKeeps(h, a, b) && AgentKeeps(h, b, c)
    ensures AgentKeeps(h, a, c)
  {
  }

  lemma ReactingKeepsSpent(h: A.Host, a: Agent, now: int, e: R.ProviderEvent, outcome: R.Outcome)
    ensures AgentKeeps(h, a, Reacting(h, a, now, e, outcome).0)
  {
    if outcome.Failed? || !Collecting(a.speech, e, outcome.events).1 {
      SamePoolKeeps(h, a, Reacting(h, a, now, e, outcome).0);
    } else {
      var a0 := a.(speech := Collecting(a.speech, e, outcome.events).0);
      var a1 := Observing(h, a0, now, e).0;
      ObservedKeeps(h, a.planner, now, a0.speech.turn, a0.speech.text);
      SamePoolKeeps(h, a, a1);
      ToolsKeepSpent(h, a1, now, e, outcome.events);
      KeepsChains(h, a, a1, Tools(h, a1, now, e, outcome.events).0);
    }
  }

  lemma TakingKeepsSpent(h: A.Host, a: Agent, now: int, e: Input)
    ensures AgentKeeps(h, a, Taking(h, a, now, e).0)
  {
    SamePoolKeeps(h, a, Taking(h, a, now, e).0);
  }

  lemma MappingKeepsSpent(h: A.Host, a: Agent, now: int, e: R.ProviderEvent, random: Id)
    requires R.Bounded(a.mapper)
    ensures AgentKeeps(h, a, Mapping(h, a, now, e, random).0)
  {
    var mapped := R.Mapping(a.mapper, e, random);
    ReactingKeepsSpent(h, a.(mapper := mapped.0), now, e, mapped.1);
  }

  lemma StepKeepsSpent(h: A.Host, a: Agent, step: Step)
    requires R.Bounded(a.mapper) && Enabled(a, step)
    ensures AgentKeeps(h, a, Next(h, a, step).0)
  {
    match step
    case TakeStep(now, e) => TakingKeepsSpent(h, a, now, e);
    case RenewStep(late) => SamePoolKeeps(h, a, Renewing(a, late).0);
    case TimeOutStep => SamePoolKeeps(h, a, TimingOut(a).0);
    case FinishStep(k, result) => FinishKeeps(h, a.planner, a.pool, k, result);
    case DeliverStep => DeliveryKeeps(h, a.planner, a.pool);
    case MapStep(now, e, random) => MappingKeepsSpent(h, a, now, e, random);
  }

  // ----- runs -----

  lemma {:induction false} RunAttempted(h: A.Host, steps: seq<Step>)
    ensures Attempted(h, Run(h, steps).0.planner, Run(h, steps).0.pool)
  {
    if steps != [] {
      var before, step := steps[..|steps| - 1], steps[|steps| - 1];
      RunAttempted(h, before);
      var a := Run(h, before).0;
      if Enabled(a, step) {
        StepKeepsSpent(h, a, step);
      }
    }
  }

  lemma {:induction false} RunStaysSpent(h: A.Host, steps: seq<Step>, k: nat, key: Digest)
    requires k <= |steps| && Spent(h, Run(h, steps[..k]).0.planner, Run(h, steps[..k]).0.pool, key)
    ensures Spent(h, Run(h, steps).0.planner, Run(h, steps).0.pool, key)
    decreases |steps|
  {
    if k == |steps| {
      assert steps[..k] == steps;
    } else {
      var before, step := steps[..|steps| - 1], steps[|steps| - 1];
      assert before[..k] == steps[..k];
      RunStaysSpent(h, before, k, key);
      var a := Run(h, before).0;
      if Enabled(a, step) {
        StepKeepsSpent(h, a, step);
      }
    }
  }

  /** In this step the planner releases job j, planned under this name. */
  ghost predicate ReleasedIn(h: A.Host, a: Agent, outputs: seq<Output>, name: string, j: A.Job) {
    exists i :: 0 <= i < |outputs| && outputs[i].Planned? && outputs[i].op.PlanOp? && outputs[i].op.name == name &&
                ReleasesAt(h, a.planner, outputs[i].op, j)
  }

  /** A release begins when there is room for it, and is otherwise answered as busy and leaves its key attempted. */
  ghost predicate Answers(h: A.Host, a: Agent, a': Agent, outputs: seq<Output>, name: string, j: A.Job) {
    if |a.pool.active| < MAX_ACTIVE then exists w :: Begin(w) in outputs && w.job == j
    else
      && ToolOutcome(j, BUSY) in outputs && Free(Beginnings, outputs) && a'.pool == a.pool
      && (name in h.tools && h.tools[name].policy != A.ReadOnly ==>
            j.key.Some? && j.key.value !in a.planner.attempted && Spent(h, a'.planner, a'.pool, j.key.value)
            && (j.confirmed ==> a'.planner.pending.None?))
  }

  predicate IsPlan(o: Output) {
    o.Planned? && o.op.PlanOp?
  }

  predicate NoPlan(outputs: seq<Output>) {
    forall i | 0 <= i < |outputs| :: !IsPlan(outputs[i])
  }

  ghost predicate AllAnswered(h: A.Host, a: Agent, a': Agent, outputs: seq<Output>) {
    forall name, j | ReleasedIn(h, a, outputs, name, j) :: Answers(h, a, a', outputs, name, j)
  }

  lemma NothingReleased(h: A.Host, a: Agent, a': Agent, outputs: seq<Output>)
    requires NoPlan(outputs)
    ensures AllAnswered(h, a, a', outputs)
  {
    forall name, j
      ensures !ReleasedIn(h, a, outputs, name, j)
    {
      assert forall i | 0 <= i < |outputs| :: !IsPlan(outputs[i]);
    }
  }

  lemma ReleasedMutation(h: A.Host, s: A.PlannerState, now: int, id: Id, name: string, turn: Id, args: string)
    requires name in h.tools && h.tools[name].policy != A.ReadOnly
    ensures var (s', (j, immediate)) := A.Planning(h, s, now, id, name, turn, args);
            immediate.None? ==>
              && j.key.Some? && j.key.value in s'.attempted && j.key.value !in s.attempted && j.key.value !in s.cache
              && s'.cache == s.cache && (j.confirmed ==> s'.pending.None?)
  {
  }

  lemma BusyShape(a: Agent, call: StagedCall, op: P.Op, j: A.Job)
    requires |a.pool.active| >= MAX_ACTIVE
    ensures var (a', outputs) := Following(a, call, op, j, None);
            a' == a && ToolOutcome(j, BUSY) in outputs && Free(Beginnings, outputs)
  {
    var outputs := Following(a, call, op, j, None).1;
    assert outputs[3] == ToolOutcome(j, BUSY);
  }

  lemma RoomShape(a: Agent, call: StagedCall, op: P.Op, j: A.Job)
    requires |a.pool.active| < MAX_ACTIVE
    ensures Begin(Worker(j, Some(call.asked))) in Following(a, call, op, j, None).1
  {
    assert Following(a, call, op, j, None).1[2] == Begin(Worker(j, Some(call.asked)));
  }

  lemma FollowingAnswers(h: A.Host, a: Agent, s: A.PlannerState, call: StagedCall, op: P.Op, j: A.Job,
                         more: seq<Output>)
    requires Attempted(h, a.planner, a.pool) && Free(Beginnings, more)
    requires call.name in h.tools && h.tools[call.name].policy != A.ReadOnly ==>
               && j.key.Some? && j.key.value in s.attempted && j.key.value !in a.planner.attempted
                  && j.key.value !in a.planner.cache
               && s.cache == a.planner.cache && (j.confirmed ==> s.pending.None?)
    ensures var (a', outputs) := Following(a.(planner := s), call, op, j, None);
            Answers(h, a, a', outputs + more, call.name, j)
  {
    var b := a.(planner := s);
    if |a.pool.active| < MAX_ACTIVE {
      RoomShape(b, call, op, j);
    } else {
      BusyShape(b, call, op, j);
    }
  }

  lemma OnlyPlan(a: Agent, call: StagedCall, op: P.Op, j: A.Job, immediate: Option<A.ToolResult>, more: seq<Output>)
    requires NoPlan(more)
    ensures var all := Following(a, call, op, j, immediate).1 + more;
            all != [] && all[0] == Planned(op) && forall i | 0 < i < |all| :: !IsPlan(all[i])
  {
    var outputs := Following(a, call, op, j, immediate).1;
    var all := outputs + more;
    FollowingShape(a, call, op, j, immediate);
    forall i | 0 < i < |all|
      ensures !IsPlan(all[i])
    {
      if i < |outputs| {
        assert all[i] == outputs[1..][i - 1];
      } else {
        assert all[i] == more[i - |outputs|];
      }
    }
  }

  lemma RunningAnswers(h: A.Host, a: Agent, now: int, call: StagedCall, more: seq<Output>)
    requires Attempted(h, a.planner, a.pool) && NoPlan(more) && Free(Beginnings, more)
    ensures AllAnswered(h, a, Running(h, a, now, call).0, Running(h, a, now, call).1 + more)
  {
    if call.cancelled || call.turn != a.mapper.turn {
      NothingReleased(h, a, a, TurnCancelled(a, call).1 + more);
    } else {
      var op := P.PlanOp(now, call.operation, call.name, call.turn, call.arguments);
      PlannedAnswers(h, a, call, op, A.Planning(h, a.planner, now, call.operation, call.name, call.turn,
                                                call.arguments), more);
    }
  }

  lemma PlannedAnswers(h: A.Host, a: Agent, call: StagedCall, op: P.Op, planned: A.Planned, more: seq<Output>)
    requires Attempted(h, a.planner, a.pool) && NoPlan(more) && Free(Beginnings, more) && op.PlanOp?
    requires op.name == call.name
    requires planned == A.Planning(h, a.planner, op.now, op.id, op.name, op.turn, op.args)
    ensures var (a', outputs) := Following(a.(planner := planned.0), call, op, planned.1.0, planned.1.1);
            AllAnswered(h, a, a', outputs + more)
  {
    var (a', outputs) := Following(a.(planner := planned.0), call, op, planned.1.0, planned.1.1);
    forall name, j | ReleasedIn(h, a, outputs + more, name, j)
      ensures Answers(h, a, a', outputs + more, name, j)
    {
      var all := outputs + more;
      var i :| 0 <= i < |all| && all[i].Planned? && all[i].op.PlanOp? && all[i].op.name == name
      && ReleasesAt(h, a.planner, all[i].op, j);
      OnlyPlan(a.(planner := planned.0), call, op, planned.1.0, planned.1.1, more);
      assert i == 0;
      if name in h.tools && h.tools[name].policy != A.ReadOnly {
        ReleasedMutation(h, a.planner, op.now, op.id, op.name, op.turn, op.args);
      }
      FollowingAnswers(h, a, planned.0, call, op, j, more);
    }
  }

  lemma ToolsAnswer(h: A.Host, a: Agent, now: int, e: R.ProviderEvent, events: seq<R.ServerEvent>)
    requires Attempted(h, a.planner, a.pool)
    ensures AllAnswered(h, a, Tools(h, a, now, e, events).0, Tools(h, a, now, e, events).1)
  {
    if e.ContentEnd? && e.cid in a.staged && a.staged[e.cid].operation !in a.pool.active {
      var a1 := a.(staged := a.staged - {e.cid});
      RunningAnswers(h, a1, now, a.staged[e.cid], Voices(events));
      SameAnswers(h, a1, a, Running(h, a1, now, a.staged[e.cid]).0,
                  Running(h, a1, now, a.staged[e.cid]).1 + Voices(events));
    } else {
      NothingReleased(h, a, Tools(h, a, now, e, events).0, Tools(h, a, now, e, events).1);
    }
  }

  lemma SameAnswers(h: A.Host, a: Agent, b: Agent, a': Agent, outputs: seq<Output>)
    requires AllAnswered(h, a, a', outputs) && b.planner == a.planner && b.pool == a.pool
    ensures AllAnswered(h, b, a', outputs)
  {
    forall name, j | ReleasedIn(h, b, outputs, name, j)
      ensures Answers(h, b, a', outputs, name, j)
    {
      assert ReleasedIn(h, a, outputs, name, j);
      assert Answers(h, a, a', outputs, name, j);
    }
  }

  lemma ReactingAnswers(h: A.Host, a: Agent, now: int, e: R.ProviderEvent, outcome: R.Outcome)
    requires Attempted(h, a.planner, a.pool)
    ensures AllAnswered(h, a, Reacting(h, a, now, e, outcome).0, Reacting(h, a, now, e, outcome).1)
  {
    if outcome.Failed? || !Collecting(a.speech, e, outcome.events).1 {
      NothingReleased(h, a, Reacting(h, a, now, e, outcome).0, [Error("provider_failed")]);
    } else {
      var a0 := a.(speech := Collecting(a.speech, e, outcome.events).0);
      var (a1, observed) := Observing(h, a0, now, e);
      var (a2, outputs) := Tools(h, a1, now, e, outcome.events);
      if AtBoundary(a0.speech, e) {
        assert outputs == Voices(outcome.events);
        NothingReleased(h, a, a2, observed + outputs);
      } else {
        assert observed + outputs == outputs;
        ToolsAnswer(h, a1, now, e, outcome.events);
        SameAnswers(h, a1, a, a2, outputs);
      }
    }
  }

  lemma StepAnswers(h: A.Host, a: Agent, step: Step)
    requires R.Bounded(a.mapper) && Enabled(a, step) && Attempted(h, a.planner, a.pool)
    ensures AllAnswered(h, a, Next(h, a, step).0, Next(h, a, step).1)
  {
    match step
    case MapStep(now, e, random) =>
      var mapped := R.Mapping(a.mapper, e, random);
      var b := a.(mapper := mapped.0);
      ReactingAnswers(h, b, now, e, mapped.1);
      SameAnswers(h, b, a, Reacting(h, b, now, e, mapped.1).0, Reacting(h, b, now, e, mapped.1).1);
    case TakeStep(now, e) => NothingReleased(h, a, Taking(h, a, now, e).0, Taking(h, a, now, e).1);
    case RenewStep(late) => NothingReleased(h, a, Renewing(a, late).0, Renewing(a, late).1);
    case TimeOutStep => NothingReleased(h, a, TimingOut(a).0, TimingOut(a).1);
    case FinishStep(k, result) => NothingReleased(h, a, Next(h, a, step).0, []);
    case DeliverStep => NothingReleased(h, a, Delivering(h, a).0, Delivering(h, a).1);
  }

  /**
   Over every run, whatever the planner releases in a step begins in that step if fewer than four jobs are active, and
   is otherwise answered as busy. A mutation answered so has used up its confirmation.
   */
  lemma ReleasesBeginOrAreBusy(h: A.Host, steps: seq<Step>, step: Step)
    requires Enabled(Run(h, steps).0, step)
    ensures var a := Run(h, steps).0;
            AllAnswered(h, a, Next(h, a, step).0, Next(h, a, step).1)
  {
    RunAttempted(h, steps);
    StepAnswers(h, Run(h, steps).0, step);
  }

  /**
   A mutation that was answered as busy in step k never runs in the session: whatever happens next, a call for it that
   the planner admits is refused as pending or unknown, and no other call for it is released either.
   */
  lemma BusyNeverRuns(h: A.Host, steps: seq<Step>, k: nat, name: string, j: A.Job, now: int, id: Id, again: string,
                      turn: Id, args: string)
    requires k < |steps| && Enabled(Run(h, steps[..k]).0, steps[k])
    requires ReleasedIn(h, Run(h, steps[..k]).0, Next(h, Run(h, steps[..k]).0, steps[k]).1, name, j)
    requires |Run(h, steps[..k]).0.pool.active| >= MAX_ACTIVE && name in h.tools && h.tools[name].policy != A.ReadOnly
    requires again in h.tools && h.tools[again].policy != A.ReadOnly
    requires j.key == Some(A.KeyOf(h, h.tools[again].toolName, args))
    ensures var s := Run(h, steps).0.planner;
            var immediate := A.Planning(h, s, now, id, again, turn, args).1.1;
            immediate.Some? && (Admitted(h, s, id, again, args) ==> immediate == Some(UNKNOWN))
  {
    BusyIsSpent(h, steps, k, name, j);
    SpentIsRefused(h, Run(h, steps).0.planner, Run(h, steps).0.pool, now, id, again, turn, args);
  }

  lemma BusyIsSpent(h: A.Host, steps: seq<Step>, k: nat, name: string, j: A.Job)
    requires k < |steps| && Enabled(Run(h, steps[..k]).0, steps[k])
    requires ReleasedIn(h, Run(h, steps[..k]).0, Next(h, Run(h, steps[..k]).0, steps[k]).1, name, j)
    requires |Run(h, steps[..k]).0.pool.active| >= MAX_ACTIVE && name in h.tools && h.tools[name].policy != A.ReadOnly
    ensures j.key.Some? && Spent(h, Run(h, steps).0.planner, Run(h, steps).0.pool, j.key.value)
  {
    ReleasesBeginOrAreBusy(h, steps[..k], steps[k]);
    assert steps[..k + 1][..k] == steps[..k];
    var a := Run(h, steps[..k]).0;
    assert Answers(h, a, Next(h, a, steps[k]).0, Next(h, a, steps[k]).1, name, j);
    assert Run(h, steps[..k + 1]).0 == Next(h, a, steps[k]).0;
    RunStaysSpent(h, steps, k + 1, j.key.value);
  }
}
