/** What the planner is asked by the personal assistant's loop, and what begins because of it. */
module AgentPlans {
  import opened Basics
  import R = RealtimeMapper
  import A = ActionRuntime
  import P = Approval
  import opened AgentParts
  import opened WorkerPool
  import opened AgentLoop
  import E = ExactlyOnce
  import opened AgentRuns

  function OpOf(o: Output): P.Op {
    if o.Planned? then o.op else P.InterruptOp
  }

  /** The planner calls among the outputs. */
  function OpsOf(outputs: seq<Output>): seq<P.Op> {
    var calls := Only(Calls, outputs);
    seq(|calls|, i requires 0 <= i < |calls| => OpOf(calls[i]))
  }

  lemma OpsOfParts(x: seq<Output>, y: seq<Output>)
    ensures OpsOf(x + y) == OpsOf(x) + OpsOf(y)
  {
    OnlyParts(Calls, x, y);
  }

  lemma OpsOfOne(before: seq<Output>, op: P.Op, after: seq<Output>)
    requires Free(Calls, before) && Free(Calls, after)
    ensures OpsOf(before + [Planned(op)] + after) == [op]
  {
    OnlyOne(Calls, before, Planned(op), after);
  }

  lemma OpsOfFree(outputs: seq<Output>)
    requires Free(Calls, outputs)
    ensures OpsOf(outputs) == []
  {
    OnlyFree(Calls, outputs);
  }

  ghost predicate ReleasesAt(h: A.Host, s: A.PlannerState, op: P.Op, j: A.Job) {
    op.PlanOp? && A.Planning(h, s, op.now, op.id, op.name, op.turn, op.args).1 == (j, None)
  }

  /** A step makes at most one planner call, and begins only what that call releases. */
  ghost predicate PlannerStep(h: A.Host, s: A.PlannerState, s': A.PlannerState, outputs: seq<Output>) {
    var ops := OpsOf(outputs);
    || (ops == [] && s' == s && Free(Beginnings, outputs))
    || (|ops| == 1 && s' == P.Next(h, s, ops[0]) &&
        forall i | 0 <= i < |outputs| && outputs[i].Begin? :: ReleasesAt(h, s, ops[0], outputs[i].worker.job))
  }

  /** One call surrounded by outputs that are neither calls nor beginnings. */
  lemma OneCall(h: A.Host, s: A.PlannerState, before: seq<Output>, op: P.Op, after: seq<Output>)
    requires Free(Calls, before) && Free(Calls, after)
    requires forall i | 0 <= i < |before| :: !before[i].Begin?
    requires forall i | 0 <= i < |after| && after[i].Begin? :: ReleasesAt(h, s, op, after[i].worker.job)
    ensures PlannerStep(h, s, P.Next(h, s, op), before + [Planned(op)] + after)
  {
    OpsOfOne(before, op, after);
  }

  lemma NoCall(h: A.Host, s: A.PlannerState, outputs: seq<Output>)
    requires Free(Calls, outputs) && Free(Beginnings, outputs)
    ensures PlannerStep(h, s, s, outputs)
  {
    OpsOfFree(outputs);
  }

  lemma InterruptedThenRotating(h: A.Host, a: Agent, b: Agent, interrupted: seq<Output>)
    requires Free(Calls, interrupted) && Free(Beginnings, interrupted) && b.planner == a.planner
    ensures PlannerStep(h, a.planner, Rotating(b).0.planner, interrupted + Rotating(b).1)
  {
    OneCall(h, a.planner, interrupted, P.InterruptOp, [Voice(R.SessionRenewed)]);
    assert interrupted + [Planned(P.InterruptOp)] + [Voice(R.SessionRenewed)] == interrupted + Rotating(b).1;
  }

  lemma RenewingPlans(h: A.Host, a: Agent, late: bool)
    ensures PlannerStep(h, a.planner, Renewing(a, late).0.planner, Renewing(a, late).1)
  {
    if a.pool.active != {} || (a.mapper.activity != R.Idle && !late) {
      NoCall(h, a.planner, Renewing(a, late).1);
    } else {
      InterruptedThenRotating(h, a, Interrupted(a).0, Interrupted(a).1);
    }
  }

  lemma CancellingPlans(h: A.Host, a: Agent, turn: Id)
    ensures PlannerStep(h, a.planner, Cancelling(a, turn).0.planner, Cancelling(a, turn).1)
  {
    var (a1, interrupted) := Interrupted(a);
    if turn != a.mapper.turn || a.mapper.activity == R.Idle || a1.pool.active != {} {
      NoCall(h, a.planner, Cancelling(a, turn).1);
    } else {
      InterruptedThenRotating(h, a, a1.(inputs := a1.inputs.(id := "", sequence := 0)), interrupted);
    }
  }

  lemma TakingPlans(h: A.Host, a: Agent, now: int, e: Input)
    ensures PlannerStep(h, a.planner, Taking(h, a, now, e).0.planner, Taking(h, a, now, e).1)
  {
    match e
    case TurnCancel(turn) => CancellingPlans(h, a, turn);
    case ToolConfirm(operation, approved) => ConfirmingPlans(h, a, now, operation, approved);
    case AudioAppend(turn, sequence) => NoCall(h, a.planner, HearingAudio(a, turn, sequence).1);
    case _ => NoCall(h, a.planner, Taking(h, a, now, e).1);
  }

  lemma ConfirmingPlans(h: A.Host, a: Agent, now: int, operation: Id, approved: bool)
    ensures PlannerStep(h, a.planner, Confirming(h, a, now, operation, approved).0.planner,
                        Confirming(h, a, now, operation, approved).1)
  {
    var after := if A.Confirming(h, a.planner, now, operation, approved).1 then [] else [Error("invalid_confirmation")];
    OneCall(h, a.planner, [], P.ConfirmOp(now, operation, approved), after);
    assert [] + [Planned(P.ConfirmOp(now, operation, approved))] + after ==
           Confirming(h, a, now, operation, approved).1;
  }

  lemma DeliveringPlans(h: A.Host, a: Agent)
    requires a.pool.channel != []
    ensures PlannerStep(h, a.planner, Delivering(h, a).0.planner, Delivering(h, a).1)
  {
    var d := a.pool.channel[0];
    var op, after := P.CompleteOp(d.worker.job, d.result),
        [ToModel(a.stream, d.worker, d.result), ToolOutcome(d.worker.job, d.result)];
    OneCall(h, a.planner, [], op, after);
    assert [] + [Planned(op)] + after == Delivering(h, a).1;
  }

  lemma FollowingPlans(h: A.Host, s: A.PlannerState, a: Agent, call: StagedCall, op: P.Op, j: A.Job,
                       immediate: Option<A.ToolResult>, more: seq<Output>)
    requires a.planner == P.Next(h, s, op) && Free(Calls, more) && Free(Beginnings, more)
    requires immediate.None? ==> ReleasesAt(h, s, op, j)
    ensures PlannerStep(h, s, Following(a, call, op, j, immediate).0.planner,
                        Following(a, call, op, j, immediate).1 + more)
  {
    var outputs := Following(a, call, op, j, immediate).1;
    FollowingShape(a, call, op, j, immediate);
    FirstCall(h, s, op, j, outputs, more);
  }

  /** A planner call first, and then only beginnings of the job that it releases. */
  lemma FirstCall(h: A.Host, s: A.PlannerState, op: P.Op, j: A.Job, outputs: seq<Output>, more: seq<Output>)
    requires Free(Calls, more) && Free(Beginnings, more) && outputs != [] && outputs[0] == Planned(op)
    requires Free(Calls, outputs[1..])
    requires forall i | 0 <= i < |outputs[1..]| && outputs[1..][i].Begin? ::
             ReleasesAt(h, s, op, j) && outputs[1..][i].worker.job == j
    ensures PlannerStep(h, s, P.Next(h, s, op), outputs + more)
  {
    var after := outputs[1..] + more;
    OneCall(h, s, [], op, after);
    assert [] + [Planned(op)] + after == outputs + more;
  }

  lemma FollowingShape(a: Agent, call: StagedCall, op: P.Op, j: A.Job, immediate: Option<A.ToolResult>)
    ensures var r := Following(a, call, op, j, immediate);
            r.0.planner == a.planner && |r.1| > 0 && r.1[0] == Planned(op) && Free(Calls, r.1[1..]) &&
            forall i | 0 <= i < |r.1[1..]| && r.1[1..][i].Begin? :: immediate.None? && r.1[1..][i].worker.job == j
  {
  }

  lemma RunningPlans(h: A.Host, a: Agent, now: int, call: StagedCall, more: seq<Output>)
    requires Free(Calls, more) && Free(Beginnings, more)
    ensures PlannerStep(h, a.planner, Running(h, a, now, call).0.planner, Running(h, a, now, call).1 + more)
  {
    if call.cancelled || call.turn != a.mapper.turn {
      NoCall(h, a.planner, TurnCancelled(a, call).1 + more);
    } else {
      var op := P.PlanOp(now, call.operation, call.name, call.turn, call.arguments);
      var planned := A.Planning(h, a.planner, now, call.operation, call.name, call.turn, call.arguments);
      assert ReleasesAt(h, a.planner, op, planned.1.0) <==> planned.1.1.None?;
      FollowingPlans(h, a.planner, a.(planner := planned.0), call, op, planned.1.0, planned.1.1, more);
    }
  }

  lemma ToolsPlan(h: A.Host, a: Agent, now: int, e: R.ProviderEvent, events: seq<R.ServerEvent>)
    ensures PlannerStep(h, a.planner, Tools(h, a, now, e, events).0.planner, Tools(h, a, now, e, events).1)
  {
    if e.ContentEnd? && e.cid in a.staged && a.staged[e.cid].operation !in a.pool.active {
      RunningPlans(h, a.(staged := a.staged - {e.cid}), now, a.staged[e.cid], Voices(events));
    } else {
      NoCall(h, a.planner, Tools(h, a, now, e, events).1);
    }
  }

  lemma ReactingPlans(h: A.Host, a: Agent, now: int, e: R.ProviderEvent, outcome: R.Outcome)
    ensures PlannerStep(h, a.planner, Reacting(h, a, now, e, outcome).0.planner, Reacting(h, a, now, e, outcome).1)
  {
    if outcome.Failed? || !Collecting(a.speech, e, outcome.events).1 {
      NoCall(h, a.planner, [Error("provider_failed")]);
    } else {
      var a0 := a.(speech := Collecting(a.speech, e, outcome.events).0);
      ObservingPlans(h, a0, now, e, outcome.events, Observing(h, a0, now, e));
    }
  }

  lemma ObservingPlans(h: A.Host, a: Agent, now: int, e: R.ProviderEvent, events: seq<R.ServerEvent>,
                       observed: Reaction)
    requires observed == Observing(h, a, now, e)
    ensures PlannerStep(h, a.planner, Tools(h, observed.0, now, e, events).0.planner,
                        observed.1 + Tools(h, observed.0, now, e, events).1)
  {
    if AtBoundary(a.speech, e) {
      assert Tools(h, observed.0, now, e, events) == (observed.0, Voices(events));
      ObservedPlans(h, a.planner, P.ObserveOp(now, a.speech.turn, a.speech.text), Voices(events));
    } else {
      ToolsPlan(h, a, now, e, events);
      assert [] + Tools(h, a, now, e, events).1 == Tools(h, a, now, e, events).1;
    }
  }

  lemma ObservedPlans(h: A.Host, s: A.PlannerState, op: P.Op, rest: seq<Output>)
    requires Free(Calls, rest) && Free(Beginnings, rest)
    ensures PlannerStep(h, s, P.Next(h, s, op), [Planned(op)] + rest)
  {
    OneCall(h, s, [], op, rest);
    assert [] + [Planned(op)] + rest == [Planned(op)] + rest;
  }

  lemma StepPlans(h: A.Host, a: Agent, step: Step)
    requires R.Bounded(a.mapper) && Enabled(a, step)
    ensures PlannerStep(h, a.planner, Next(h, a, step).0.planner, Next(h, a, step).1)
  {
    match step
    case TakeStep(now, e) => TakingPlans(h, a, now, e);
    case RenewStep(late) => RenewingPlans(h, a, late);
    case TimeOutStep => NoCall(h, a.planner, TimingOut(a).1);
    case FinishStep(_, _) => NoCall(h, a.planner, []);
    case DeliverStep => DeliveringPlans(h, a);
    case MapStep(now, e, random) =>
      ReactingPlans(h, a.(mapper := R.Mapping(a.mapper, e, random).0), now, e, R.Mapping(a.mapper, e, random).1);
  }

  /** The planner is where its calls have taken it, and whatever has begun was released by one of them. */
  ghost predicate Accounted(h: A.Host, s: A.PlannerState, outputs: seq<Output>) {
    var ops := OpsOf(outputs);
    && s == P.StateAt(h, ops, |ops|)
    && forall i | 0 <= i < |outputs| && outputs[i].Begin? :: Released(h, ops, outputs[i].worker.job)
  }

  ghost predicate Released(h: A.Host, ops: seq<P.Op>, j: A.Job) {
    exists n :: P.Releases(h, ops, n, j)
  }

  lemma ReleasedGrows(h: A.Host, ops: seq<P.Op>, more: seq<P.Op>, j: A.Job)
    requires Released(h, ops, j)
    ensures Released(h, ops + more, j)
  {
    var n :| P.Releases(h, ops, n, j);
    E.StateAtPrefix(h, ops, more, n);
    assert P.Releases(h, ops + more, n, j);
  }

  lemma AccountedGrows(h: A.Host, s: A.PlannerState, s': A.PlannerState, outputs: seq<Output>, more: seq<Output>)
    requires Accounted(h, s, outputs) && PlannerStep(h, s, s', more)
    ensures Accounted(h, s', outputs + more)
  {
    var ops, later := OpsOf(outputs), OpsOf(more);
    OpsOfParts(outputs, more);
    E.StateAtPrefix(h, ops, later, |ops|);
    forall i | 0 <= i < |outputs + more| && (outputs + more)[i].Begin?
      ensures Released(h, ops + later, (outputs + more)[i].worker.job)
    {
      if i < |outputs| {
        ReleasedGrows(h, ops, later, outputs[i].worker.job);
      } else {
        var j := more[i - |outputs|].worker.job;
        assert ReleasesAt(h, s, later[0], j);
        assert P.Releases(h, ops + later, |ops|, j);
      }
    }
    assert |later| == 0 ==> ops + later == ops;
  }

  lemma {:induction false} PlannerAccounted(h: A.Host, steps: seq<Step>)
    ensures Accounted(h, Run(h, steps).0.planner, Run(h, steps).1)
  {
    if steps != [] {
      var before, step := steps[..|steps| - 1], steps[|steps| - 1];
      PlannerAccounted(h, before);
      var (a, outputs) := Run(h, before);
      if Enabled(a, step) {
        StepPlans(h, a, step);
        AccountedGrows(h, a.planner, Next(h, a, step).0.planner, outputs, Next(h, a, step).1);
      }
    }
  }
}
