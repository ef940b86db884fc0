/** The jobs and streams of the personal assistant's loop, over all its runs. */
module AgentWork {
  import opened Basics
  import R = RealtimeMapper
  import A = ActionRuntime
  import P = Approval
  import opened AgentParts
  import opened WorkerPool
  import opened LoopWork
  import opened AgentLoop
  import opened AgentRuns

  function WorkOf(a: Agent, app: set<Id>): Work {
    Work(a.pool, a.stream, a.staged, app)
  }

  function SentAs(o: Output): seq<Sent> {
    if o.ToModel? then [Sent(o.stream, o.worker)] else []
  }

  /** The results among the outputs that go to a model. */
  function SentOf(outputs: seq<Output>): seq<Sent> {
    if outputs == [] then []
    else SentOf(outputs[..|outputs| - 1]) + SentAs(outputs[|outputs| - 1])
  }

  lemma {:induction false} SentOfParts(x: seq<Output>, y: seq<Output>)
    ensures SentOf(x + y) == SentOf(x) + SentOf(y)
  {
    if y == [] {
      assert x + y == x;
    } else {
      var front := y[..|y| - 1];
      SentOfParts(x, front);
      assert (x + y)[..|x + y| - 1] == x + front;
      Associate(SentOf(x), SentOf(front), SentAs(y[|y| - 1]));
    }
  }

  predicate NoneSent(outputs: seq<Output>) {
    forall i | 0 <= i < |outputs| :: !outputs[i].ToModel?
  }

  lemma {:induction false} SentOfNone(outputs: seq<Output>)
    requires NoneSent(outputs)
    ensures SentOf(outputs) == []
  {
    if outputs != [] {
      SentOfNone(outputs[..|outputs| - 1]);
    }
  }

  lemma SentOfOne(before: seq<Output>, o: Output, after: seq<Output>)
    requires NoneSent(before) && o.ToModel? && NoneSent(after)
    ensures SentOf(before + [o] + after) == [Sent(o.stream, o.worker)]
  {
    SentOfParts(before + [o], after);
    SentOfParts(before, [o]);
    SentOfNone(before);
    SentOfNone(after);
    assert [o][..0] == [];
  }

  predicate ReachesWhoAsked(o: Output) {
    o.ToModel? ==> o.worker.asked == Some(o.stream)
  }

  predicate AllReach(outputs: seq<Output>) {
    forall i | 0 <= i < |outputs| :: ReachesWhoAsked(outputs[i])
  }

  lemma ReachParts(x: seq<Output>, y: seq<Output>)
    ensures AllReach(x + y) <==> AllReach(x) && AllReach(y)
  {
    if AllReach(x + y) {
      assert forall i | 0 <= i < |x| :: (x + y)[i] == x[i];
      assert forall i | 0 <= i < |y| :: (x + y)[|x| + i] == y[i];
    }
  }

  lemma OneReaches(o: Output)
    ensures Answered(SentAs(o)) <==> AllReach([o])
  {
    assert AllReach([o]) <==> ReachesWhoAsked([o][0]);
    if o.ToModel? {
      assert SentAs(o)[0] == Sent(o.stream, o.worker);
    }
  }

  lemma {:induction false} AnsweredIffReach(outputs: seq<Output>)
    ensures Answered(SentOf(outputs)) <==> AllReach(outputs)
  {
    if outputs != [] {
      var front, last := outputs[..|outputs| - 1], outputs[|outputs| - 1];
      AnsweredIffReach(front);
      AnsweredParts(SentOf(front), SentAs(last));
      ReachParts(front, [last]);
      assert outputs == front + [last];
      OneReaches(last);
    }
  }

  lemma AnsweredParts(x: seq<Sent>, y: seq<Sent>)
    ensures Answered(x + y) <==> Answered(x) && Answered(y)
  {
    if Answered(x + y) {
      assert forall i | 0 <= i < |x| :: (x + y)[i] == x[i];
      assert forall i | 0 <= i < |y| :: (x + y)[|x| + i] == y[i];
    }
  }

  // ----- each step is one change of the work -----

  lemma NothingMoves(w: Work, outputs: seq<Output>)
    requires NoneSent(outputs)
    ensures Moves(w, Nothing, w, SentOf(outputs))
  {
    SentOfNone(outputs);
  }

  lemma RotatingMoves(a: Agent, app: set<Id>, before: seq<Output>)
    requires a.pool.active == {} && NoneSent(before)
    ensures Moves(WorkOf(a, app), Rotate, WorkOf(Rotating(a).0, app), SentOf(before + Rotating(a).1))
  {
    SentOfNone(before + Rotating(a).1);
  }

  lemma RenewingMoves(a: Agent, app: set<Id>, late: bool) returns (c: Change)
    ensures (c.Nothing? || c.Rotate?)
    ensures Moves(WorkOf(a, app), c, WorkOf(Renewing(a, late).0, app), SentOf(Renewing(a, late).1))
  {
    if a.pool.active == {} && (a.mapper.activity == R.Idle || late) {
      RotatingMoves(Interrupted(a).0, app, Interrupted(a).1);
      c := Rotate;
    } else {
      NothingMoves(WorkOf(a, app), Renewing(a, late).1);
      c := Nothing;
    }
  }

  lemma CancellingMoves(a: Agent, app: set<Id>, turn: Id) returns (c: Change)
    ensures (c.Nothing? || c.Rotate?)
    ensures Moves(WorkOf(a, app), c, WorkOf(Cancelling(a, turn).0, app), SentOf(Cancelling(a, turn).1))
  {
    var (a1, interrupted) := Interrupted(a);
    if turn == a.mapper.turn && a.mapper.activity != R.Idle && a.pool.active == {} {
      RotatingMoves(a1.(inputs := a1.inputs.(id := "", sequence := 0)), app, interrupted);
      c := Rotate;
    } else {
      NothingMoves(WorkOf(a, app), Cancelling(a, turn).1);
      c := Nothing;
    }
  }

  lemma TakingMoves(h: A.Host, a: Agent, app: set<Id>, now: int, e: Input) returns (c: Change)
    ensures (c.Nothing? || c.Rotate?)
    ensures Moves(WorkOf(a, app), c, WorkOf(Taking(h, a, now, e).0, app), SentOf(Taking(h, a, now, e).1))
  {
    if e.TurnCancel? {
      c := CancellingMoves(a, app, e.turn);
    } else {
      NothingMoves(WorkOf(a, app), Taking(h, a, now, e).1);
      c := Nothing;
    }
  }

  lemma DeliveringMoves(h: A.Host, a: Agent, app: set<Id>)
    requires a.pool.channel != [] && a.pool.channel[0].worker.job.id !in app
    ensures Moves(WorkOf(a, app), Send, WorkOf(Delivering(h, a).0, app), SentOf(Delivering(h, a).1))
  {
    var d := a.pool.channel[0];
    var op, o := Planned(P.CompleteOp(d.worker.job, d.result)), ToModel(a.stream, d.worker, d.result);
    SentOfOne([op], o, [ToolOutcome(d.worker.job, d.result)]);
    assert [op] + [o] + [ToolOutcome(d.worker.job, d.result)] == Delivering(h, a).1;
  }

  /** The loop after it has taken a call from the staged ones. */
  function Taken(a: Agent, cid: Id): Agent {
    a.(staged := a.staged - {cid})
  }

  lemma AnsweringMoves(a: Agent, app: set<Id>, cid: Id, s: A.PlannerState, j: A.Job, result: A.ToolResult,
                       before: seq<Output>, after: seq<Output>)
    requires cid in a.staged && j.id == a.staged[cid].operation && NoneSent(before) && NoneSent(after)
    ensures var a1 := Taken(a, cid).(planner := s);
            Moves(WorkOf(a, app), Answer(cid, j), WorkOf(a1, app),
                  SentOf(before + Answering(a1, a.staged[cid], j, result) + after))
  {
    var a1, call := Taken(a, cid).(planner := s), a.staged[cid];
    var o := ToModel(a.stream, Worker(j, Some(call.asked)), result);
    var rest := [ToolOutcome(j, result)] + Asking(s, call.turn) + after;
    SentOfOne(before, o, rest);
    assert before + [o] + rest == before + Answering(a1, call, j, result) + after;
  }

  lemma FollowingMoves(a: Agent, app: set<Id>, cid: Id, s: A.PlannerState, op: P.Op, j: A.Job,
                       immediate: Option<A.ToolResult>, after: seq<Output>)
    returns (c: Change)
    requires cid in a.staged && j.id == a.staged[cid].operation && a.staged[cid].operation !in a.pool.active
    requires NoneSent(after)
    ensures c == Answer(cid, j) || c == Launch(cid, j)
    ensures var r := Following(Taken(a, cid).(planner := s), a.staged[cid], op, j, immediate);
            Moves(WorkOf(a, app), c, WorkOf(r.0, app), SentOf(r.1 + after))
  {
    var call := a.staged[cid];
    var begun := [Planned(op)] + CallStarted(call);
    if immediate.Some? {
      AnsweringMoves(a, app, cid, s, j, immediate.value, begun, after);
      c := Answer(cid, j);
    } else if |a.pool.active| >= MAX_ACTIVE {
      AnsweringMoves(a, app, cid, s, j, A.Failure("tool_busy"), begun, after);
      c := Answer(cid, j);
    } else {
      SentOfNone(begun + [Begin(Worker(j, Some(call.asked)))] + after);
      c := Launch(cid, j);
    }
  }

  lemma PlannedJob(h: A.Host, s: A.PlannerState, now: int, id: Id, name: string, turn: Id, args: string)
    ensures A.Planning(h, s, now, id, name, turn, args).1.0.id == id
  {
  }

  lemma CancelledMoves(a: Agent, app: set<Id>, cid: Id, after: seq<Output>) returns (c: Change)
    requires cid in a.staged && NoneSent(after)
    ensures c.Answer?
    ensures var r := TurnCancelled(Taken(a, cid), a.staged[cid]);
            Moves(WorkOf(a, app), c, WorkOf(r.0, app), SentOf(r.1 + after))
  {
    var call := a.staged[cid];
    var j := A.Job(call.operation, call.name, None, call.turn, "", false);
    AnsweringMoves(a, app, cid, a.planner, j, A.Failure("turn_cancelled"), CallStarted(call), after);
    c := Answer(cid, j);
  }

  lemma RunningMoves(h: A.Host, a: Agent, app: set<Id>, now: int, cid: Id, after: seq<Output>) returns (c: Change)
    requires cid in a.staged && a.staged[cid].operation !in a.pool.active && NoneSent(after)
    ensures c.Answer? || c.Launch?
    ensures var r := Running(h, Taken(a, cid), now, a.staged[cid]);
            Moves(WorkOf(a, app), c, WorkOf(r.0, app), SentOf(r.1 + after))
  {
    var call := a.staged[cid];
    if call.cancelled || call.turn != a.mapper.turn {
      c := CancelledMoves(a, app, cid, after);
    } else {
      PlannedJob(h, a.planner, now, call.operation, call.name, call.turn, call.arguments);
      var planned := A.Planning(h, a.planner, now, call.operation, call.name, call.turn, call.arguments);
      c := FollowingMoves(a, app, cid, planned.0, P.PlanOp(now, call.operation, call.name, call.turn, call.arguments),
                          planned.1.0, planned.1.1, after);
    }
  }

  predicate OfTools(c: Change) {
    c.Nothing? || c.Forget? || c.Stage? || c.Answer? || c.Launch?
  }

  lemma StagingMoves(h: A.Host, a: Agent, app: set<Id>, now: int, e: R.ProviderEvent, events: seq<R.ServerEvent>)
    returns (c: Change)
    requires e.ToolUse?
    ensures OfTools(c)
    ensures Moves(WorkOf(a, app), c, WorkOf(Tools(h, a, now, e, events).0, app), SentOf(Tools(h, a, now, e, events).1))
  {
    var call := Staging(e, events, a.mapper.turn, a.stream);
    SentOfNone(Tools(h, a, now, e, events).1);
    c := if |a.staged| >= MAX_STAGED || (call.cancelled && e.cid in a.staged) then Nothing else Stage(e.cid, call);
  }

  lemma ToolsMoves(h: A.Host, a: Agent, app: set<Id>, now: int, e: R.ProviderEvent, events: seq<R.ServerEvent>)
    returns (c: Change)
    ensures OfTools(c)
    ensures Moves(WorkOf(a, app), c, WorkOf(Tools(h, a, now, e, events).0, app), SentOf(Tools(h, a, now, e, events).1))
  {
    if e.ToolUse? {
      c := StagingMoves(h, a, app, now, e, events);
    } else if e.ContentEnd? && e.cid in a.staged {
      if a.staged[e.cid].operation in a.pool.active {
        SentOfNone([]);
        c := Forget(e.cid);
      } else {
        c := RunningMoves(h, a, app, now, e.cid, Voices(events));
      }
    } else {
      NothingMoves(WorkOf(a, app), Voices(events));
      c := Nothing;
    }
  }

  lemma ReactingMoves(h: A.Host, a: Agent, now: int, e: R.ProviderEvent, outcome: R.Outcome) returns (c: Change)
    ensures OfTools(c)
    ensures Moves(WorkOf(a, {}), c, WorkOf(Reacting(h, a, now, e, outcome).0, {}),
                  SentOf(Reacting(h, a, now, e, outcome).1))
  {
    if outcome.Failed? || !Collecting(a.speech, e, outcome.events).1 {
      NothingMoves(WorkOf(a, {}), Reacting(h, a, now, e, outcome).1);
      c := Nothing;
    } else {
      var a0 := a.(speech := Collecting(a.speech, e, outcome.events).0);
      var (a1, observed) := Observing(h, a0, now, e);
      c := ToolsMoves(h, a1, {}, now, e, outcome.events);
      SentOfNone(observed);
      SentOfParts(observed, Tools(h, a1, now, e, outcome.events).1);
    }
  }

  ghost predicate StepMovesBy(h: A.Host, a: Agent, step: Step, c: Change)
    requires R.Bounded(a.mapper) && Enabled(a, step)
  {
    Moves(WorkOf(a, {}), c, WorkOf(Next(h, a, step).0, {}), SentOf(Next(h, a, step).1))
  }

  lemma StepMoves(h: A.Host, a: Agent, step: Step) returns (c: Change)
    requires R.Bounded(a.mapper) && Enabled(a, step)
    ensures ByModel(c) && StepMovesBy(h, a, step, c)
  {
    match step
    case TakeStep(now, e) => c := TakingMoves(h, a, {}, now, e);
    case RenewStep(late) => c := RenewingMoves(a, {}, late);
    case TimeOutStep =>
      NothingMoves(WorkOf(a, {}), TimingOut(a).1);
      c := Nothing;
    case FinishStep(k, result) =>
      SentOfNone([]);
      c := Finish(k, result);
    case DeliverStep =>
      DeliveringMoves(h, a, {});
      c := Send;
    case MapStep(now, e, random) =>
      var mapped := R.Mapping(a.mapper, e, random);
      c := ReactingMoves(h, a.(mapper := mapped.0), now, e, mapped.1);
  }

  // ----- runs -----

  lemma {:induction false} RunOrderly(h: A.Host, steps: seq<Step>)
    ensures Orderly(WorkOf(Run(h, steps).0, {})) && AllReach(Run(h, steps).1)
  {
    if steps != [] {
      var before, step := steps[..|steps| - 1], steps[|steps| - 1];
      RunOrderly(h, before);
      var (a, outputs) := Run(h, before);
      if Enabled(a, step) {
        var c := StepMoves(h, a, step);
        MovingKeepsOrderly(WorkOf(a, {}), c);
        AnsweredIffReach(Next(h, a, step).1);
      }
    }
  }

  /**
   At every point of every run at most four jobs are active, each one worker that runs or has one result in the
   channel; so, in whatever order workers finish, none has to wait for room in the channel.
   */
  lemma WorkersNeverBlock(h: A.Host, steps: seq<Step>)
    ensures var p := Run(h, steps).0.pool;
            Tidy(p) && |p.active| == |p.running| + |p.channel| <= MAX_ACTIVE && !MayBlock(p)
  {
    RunOrderly(h, steps);
    TidyCount(Run(h, steps).0.pool);
    MayBlockIff(Run(h, steps).0.pool);
  }

  /** Over every run, each result is sent to the stream whose model asked for it. */
  lemma ResultsReachTheirStream(h: A.Host, steps: seq<Step>)
    ensures AllReach(Run(h, steps).1)
  {
    RunOrderly(h, steps);
  }
}
