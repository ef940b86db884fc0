/** When the greeting of the account agent ends (apps/account-agent/internal/account/runtime.go). */
module AccountGreeting {
  import opened Basics
  import R = RealtimeMapper
  import A = ActionRuntime
  import P = Approval
  import M = MapperRuns
  import opened AgentParts
  import opened WorkerPool
  import opened AgentLoop
  import opened AgentRuns
  import opened AgentVoice
  import opened AccountLoop
  import opened AccountRuns
  import opened AccountVoice
  import opened VoiceSessions

  predicate Ends(e: R.ServerEvent, turn: Id) {
    e == R.TurnCompleted(turn) || e == R.TurnInterrupted(turn)
  }

  predicate SomeEnds(said: seq<R.ServerEvent>, turn: Id) {
    exists i :: 0 <= i < |said| && Ends(said[i], turn)
  }

  lemma SomeEndsParts(x: seq<R.ServerEvent>, y: seq<R.ServerEvent>, turn: Id)
    ensures SomeEnds(x + y, turn) <==> SomeEnds(x, turn) || SomeEnds(y, turn)
  {
    if SomeEnds(x, turn) {
      var i :| 0 <= i < |x| && Ends(x[i], turn);
      assert (x + y)[i] == x[i];
    }
    if SomeEnds(y, turn) {
      var i :| 0 <= i < |y| && Ends(y[i], turn);
      assert (x + y)[|x| + i] == y[i];
    }
  }

  lemma {:induction false} EndsAsTold(outputs: seq<Output>, turn: Id)
    ensures SomeEndsGreeting(outputs, turn) <==> SomeEnds(Told(outputs), turn)
  {
    if outputs != [] {
      var n := |outputs| - 1;
      var front, last := outputs[..n], outputs[n];
      EndsAsTold(front, turn);
      assert outputs == front + [last] && outputs[..n + 1] == outputs;
      OneMoreOutput(outputs, n, turn);
      ToldParts(front, [last]);
      SomeEndsParts(Told(front), Told([last]), turn);
      assert [last][1..] == [];
      assert Told([last]) == if last.Voice? then [last.e] else [];
      assert last.Voice? ==> (Ends([last.e][0], turn) <==> EndsGreeting(last, turn));
    }
  }

  /** The greeting lasts until the end of the opening turn is put out. */
  predicate GreetingFollows(c: Account, r: Response) {
    && r.0.authenticated == c.authenticated
    && (r.0.greeting <==> c.greeting && !SomeEnds(Told(r.1), OpeningTurn(c.authenticated)))
  }

  lemma EmittingFollows(c: Account, a: Agent, outputs: seq<Output>)
    ensures GreetingFollows(c, Emitting(c, a, outputs))
  {
    EndsAsTold(outputs, OpeningTurn(c.authenticated));
  }

  lemma WordlessFollows(c: Account, r: Response)
    requires r.0.authenticated == c.authenticated && r.0.greeting == c.greeting && Wordless(r.1)
    ensures GreetingFollows(c, r)
  {
    ToldNothing(r.1);
  }

  lemma BeginningFollows(h: A.Host, c: Account, now: int, turn: Id)
    ensures GreetingFollows(c, BeginningLogin(h, c, now, turn))
    ensures BeginningLogin(h, c, now, turn).0.greeting == c.greeting
  {
    BeginningIsWordless(h, c, now, turn);
    var planned := A.Planning(h, c.agent.planner, now, WELCOME, LOGIN_MODEL_NAME, turn, "{}");
    var r := LoginPlanned(c.(waiting := false), P.PlanOp(now, WELCOME, LOGIN_MODEL_NAME, turn, "{}"), planned.0,
                          planned.1.0, planned.1.1);
    WordlessFollows(c, r);
  }

  lemma PressedFollows(c: Account, begun: seq<Output>, s: A.PlannerState, j: A.Job, immediate: Option<A.ToolResult>)
    requires Wordless(begun)
    ensures GreetingFollows(c, Pressed(c, begun, s, j, immediate))
  {
    var r := Pressed(c, begun, s, j, immediate);
    if immediate.Some? {
      WordlessFollows(c, r);
    } else {
      var e := R.ToolStarted(j.turn, j.id, j.name, "");
      ToldOne(begun, e, [Begin(Worker(j, None))]);
      assert begun + [Voice(e)] + [Begin(Worker(j, None))] == r.1;
    }
  }

  lemma ApprovingFollows(h: A.Host, c: Account, begun: seq<Output>, now: int, s: A.PlannerState, p: A.Pending)
    requires Wordless(begun)
    ensures GreetingFollows(c, Approving(h, c, begun, now, s, p))
  {
    var name := P.DotsToUnderscores(p.name);
    var planned := A.Planning(h, s, now, p.operationId, name, p.turn, p.args);
    PressedFollows(c, begun + [Planned(P.PlanOp(now, p.operationId, name, p.turn, p.args))], planned.0, planned.1.0,
                   planned.1.1);
  }

  lemma PressingFollows(h: A.Host, c: Account, now: int, operation: Id, approved: bool)
    ensures GreetingFollows(c, Pressing(h, c, now, operation, approved))
  {
    if c.agent.planner.pending.Some? && A.Confirming(h, c.agent.planner, now, operation, approved).1 && approved {
      ApprovingFollows(h, c, [Planned(P.ConfirmOp(now, operation, approved))], now,
                       A.Confirming(h, c.agent.planner, now, operation, approved).0, c.agent.planner.pending.value);
    } else {
      WordlessFollows(c, Pressing(h, c, now, operation, approved));
    }
  }

  lemma TakingFollows(h: A.Host, c: Account, now: int, e: Input)
    ensures GreetingFollows(c, TakingAccount(h, c, now, e))
  {
    match e
    case AudioAppend(turn, sequence) => HearingFollows(c, turn, sequence);
    case ToolConfirm(operation, approved) =>
      if operation == WELCOME && c.waiting {
        BeginningFollows(h, c, now, WELCOME);
        if !approved {
          WordlessFollows(c, TakingAccount(h, c, now, e));
        }
      } else {
        PressingFollows(h, c, now, operation, approved);
      }
    case _ => EmittingFollows(c, Taking(h, c.agent, now, e).0, Taking(h, c.agent, now, e).1);
  }

  lemma HearingFollows(c: Account, turn: Id, sequence: nat)
    ensures GreetingFollows(c, HearingAccount(c, turn, sequence))
  {
    if c.greeting && Hearing(c.agent.inputs, turn, sequence).1 == Opened {
      WordlessFollows(c, HearingAccount(c, turn, sequence));
    } else {
      EmittingFollows(c, HearingAudio(c.agent, turn, sequence).0, HearingAudio(c.agent, turn, sequence).1);
    }
  }

  lemma DeliveringFollows(h: A.Host, c: Account, r: Response)
    requires c.agent.pool.channel != [] && r == DeliveringAccount(h, c)
    ensures GreetingFollows(c, r)
  {
    if c.agent.pool.channel[0].worker.job.id in c.uiJobs {
      var d := c.agent.pool.channel[0];
      var before := [Planned(P.CompleteOp(d.worker.job, d.result)), ToolOutcome(d.worker.job, d.result),
                     Planned(P.InterruptOp)];
      ToldOne(before, R.SessionRenewed, []);
      assert before + [Voice(R.SessionRenewed)] + [] == r.1;
    } else {
      EmittingFollows(c, Delivering(h, c.agent).0, Delivering(h, c.agent).1);
    }
  }

  lemma ObservingFollows(h: A.Host, l: Letters, c: Account, now: int, e: R.ProviderEvent)
    ensures var r := ObservingAccount(h, l, c, now, e);
            Told(r.1) == [] && r.0.authenticated == c.authenticated && r.0.greeting == c.greeting
  {
    ObservingIsWordless(h, l, c, now, e);
    ToldNothing(ObservingAccount(h, l, c, now, e).1);
    if AtBoundary(c.agent.speech, e) {
      BeginningFollows(h, c.(agent := Observing(h, c.agent, now, e).0), now, c.agent.speech.turn);
    }
  }

  lemma ReactingToFollows(h: A.Host, l: Letters, c: Account, now: int, e: R.ProviderEvent, events: seq<R.ServerEvent>)
    ensures GreetingFollows(c, ReactingTo(h, l, c, now, e, events))
  {
    var (c1, observed) := ObservingAccount(h, l, c, now, e);
    ObservingFollows(h, l, c, now, e);
    if !c1.agent.over {
      var (a, outputs) := ToolsAccount(h, c1.agent, now, e, events);
      EmittingFollows(c1, a, outputs);
      ToldParts(observed, outputs);
      assert [] + Told(outputs) == Told(outputs);
    }
  }

  lemma ReactingFollows(h: A.Host, l: Letters, c: Account, now: int, e: R.ProviderEvent, outcome: R.Outcome,
                        r: Response)
    requires r == ReactingAccount(h, l, c, now, e, outcome)
    ensures GreetingFollows(c, r)
  {
    if outcome.Failed? || !Collecting(c.agent.speech, e, outcome.events).1 {
      WordlessFollows(c, r);
    } else {
      ReactingToFollows(h, l, c.(agent := c.agent.(speech := Collecting(c.agent.speech, e, outcome.events).0)), now, e,
                        outcome.events);
    }
  }

  lemma MappingFollows(h: A.Host, l: Letters, c: Account, now: int, e: R.ProviderEvent, random: Id, r: Response)
    requires R.Bounded(c.agent.mapper) && r == MappingAccount(h, l, c, now, e, random)
    ensures GreetingFollows(c, r)
  {
    var (c1, ignored) := Filtering(c, e);
    if ignored {
      WordlessFollows(c, r);
    } else {
      var (m, outcome) := R.Mapping(c1.agent.mapper, e, random);
      ReactingFollows(h, l, c1.(agent := c1.agent.(mapper := m)), now, e, outcome, r);
    }
  }

  lemma StepFollows(h: A.Host, l: Letters, c: Account, step: Step, r: Response)
    requires R.Bounded(c.agent.mapper) && Enabled(c.agent, step) && r == NextAccount(h, l, c, step)
    ensures GreetingFollows(c, r)
  {
    match step
    case TakeStep(now, e) => TakingFollows(h, c, now, e);
    case RenewStep(late) => EmittingFollows(c, Renewing(c.agent, late).0, Renewing(c.agent, late).1);
    case TimeOutStep => EmittingFollows(c, TimingOut(c.agent).0, TimingOut(c.agent).1);
    case FinishStep(_, _) => WordlessFollows(c, r);
    case DeliverStep => DeliveringFollows(h, c, r);
    case MapStep(now, e, random) => MappingFollows(h, l, c, now, e, random, r);
  }

  lemma {:induction false} RunFollows(h: A.Host, l: Letters, authenticated: bool, steps: seq<Step>)
    ensures var c := RunAccount(h, l, authenticated, steps).0;
            && c.authenticated == authenticated
            && (c.greeting <==> !SomeEnds(ToldIn(h, l, authenticated, steps), OpeningTurn(authenticated)))
  {
    if steps == [] {
      assert Greeting(authenticated) + Told([]) == Greeting(authenticated);
    } else {
      var before, step := steps[..|steps| - 1], steps[|steps| - 1];
      RunFollows(h, l, authenticated, before);
      var (c, outputs) := RunAccount(h, l, authenticated, before);
      if Enabled(c.agent, step) {
        var r := NextAccount(h, l, c, step);
        StepFollows(h, l, c, step, r);
        ToldParts(outputs, r.1);
        Associate(Greeting(authenticated), Told(outputs), Told(r.1));
        SomeEndsParts(Greeting(authenticated) + Told(outputs), Told(r.1), OpeningTurn(authenticated));
      }
    }
  }

  // ----- the greeting and the first renewal -----

  predicate NoRenewalBefore(said: seq<R.ServerEvent>, i: nat)
    requires i <= |said|
  {
    forall k | 0 <= k < i :: said[k] != R.SessionRenewed
  }

  /** The stream is renewed and then the turn started again. */
  predicate RestartedBefore(said: seq<R.ServerEvent>, i: nat, turn: Id)
    requires i <= |said|
  {
    exists k, m :: 0 <= k < m < i && said[k] == R.SessionRenewed && said[m] == R.TurnStarted(turn)
  }

  /** The turn ends before the first renewal. */
  predicate EndsInTime(said: seq<R.ServerEvent>, turn: Id) {
    exists i :: 0 <= i < |said| && Ends(said[i], turn) && NoRenewalBefore(said, i)
  }

  /** The turn is started again after a renewal, and then ends. */
  predicate EndsRestarted(said: seq<R.ServerEvent>, turn: Id) {
    exists i :: 0 <= i < |said| && Ends(said[i], turn) && RestartedBefore(said, i, turn)
  }

  lemma OpeningTurnIsNamed(authenticated: bool)
    ensures OpeningTurn(authenticated) != ""
  {
    assert |WELCOME| == 21 && |CONNECTED| == 17;
  }

  /** After a renewal a turn ends only when it has been started again. */
  lemma EndsLate(actions: seq<Action>, said: seq<R.ServerEvent>, i: nat, turn: Id)
    requires said == Written(R.Fresh([]), actions) && i < |said| && Ends(said[i], turn) && !NoRenewalBefore(said, i)
    requires turn != ""
    ensures RestartedBefore(said, i, turn)
  {
    SessionIsChained(R.Fresh([]), actions, turn);
    var k :| 0 <= k < i && said[k] == R.SessionRenewed;
    var m := StartedAfterRenewal(Moments(R.Fresh([]), actions), turn, k, i);
  }

  /**
   Over every run, the greeting has ended exactly when the opening turn's completion or interruption was put out before
   the first renewal of the stream, or after the turn was started again on another stream.
   */
  lemma GreetingEndsIff(h: A.Host, l: Letters, authenticated: bool, steps: seq<Step>)
    ensures var said, turn := ToldIn(h, l, authenticated, steps), OpeningTurn(authenticated);
            !RunAccount(h, l, authenticated, steps).0.greeting <==> EndsInTime(said, turn) || EndsRestarted(said, turn)
  {
    var said, turn := ToldIn(h, l, authenticated, steps), OpeningTurn(authenticated);
    RunFollows(h, l, authenticated, steps);
    AccountRunConveys(h, l, authenticated, steps);
    OpeningTurnIsNamed(authenticated);
    if SomeEnds(said, turn) {
      var i :| 0 <= i < |said| && Ends(said[i], turn);
      if !NoRenewalBefore(said, i) {
        EndsLate(AccountActionsIn(h, l, authenticated, steps), said, i, turn);
      }
    }
  }

  /** Neither the app nor the server names the opening turn again. */
  ghost predicate OpeningIsOwn(h: A.Host, l: Letters, authenticated: bool, steps: seq<Step>) {
    var calls := CallsIn(AccountActionsIn(h, l, authenticated, steps));
    calls != [] && Unsupplied(calls[1..], OpeningTurn(authenticated))
  }

  lemma OpeningStartsOnce(h: A.Host, l: Letters, authenticated: bool, steps: seq<Step>)
    requires OpeningIsOwn(h, l, authenticated, steps)
    ensures M.Starts(ToldIn(h, l, authenticated, steps), OpeningTurn(authenticated)) == 1
  {
    var turn, first := OpeningTurn(authenticated), Act(M.AssistantCall(OpeningTurn(authenticated)));
    var more := AccountActionsGrow(h, l, authenticated, steps, 0);
    assert steps[..0] == [];
    AccountRunConveys(h, l, authenticated, steps);
    OneAction(R.Fresh([]), first);
    SessionParts(R.Fresh([]), [first], more);
    CallsParts([first], more);
    CallsOne(first);
    assert (CallsIn([first]) + CallsIn(more))[1..] == CallsIn(more);
    OpeningTurnIsNamed(authenticated);
    var s := Reached(R.Fresh([]), [first]).value;
    UnsuppliedNeverStarts(s, more, turn);
    M.StartsConcat(Greeting(authenticated), Written(s, more), turn);
    GreetingStarts(authenticated);
  }

  lemma GreetingStarts(authenticated: bool)
    ensures |Greeting(authenticated)| == 2 && Greeting(authenticated)[0] == R.TurnStarted(OpeningTurn(authenticated))
    ensures M.Starts(Greeting(authenticated), OpeningTurn(authenticated)) == 1
  {
    M.OneStart([], OpeningTurn(authenticated), Greeting(authenticated)[1..], OpeningTurn(authenticated));
    assert [] + [Greeting(authenticated)[0]] + Greeting(authenticated)[1..] == Greeting(authenticated);
  }

  /**
   When nothing else is named as the opening turn is, the greeting has ended exactly when that turn's completion or
   interruption was put out before the first renewal: what renews the stream earlier keeps the greeting open for good.
   */
  lemma GreetingEndsInTimeIff(h: A.Host, l: Letters, authenticated: bool, steps: seq<Step>)
    requires OpeningIsOwn(h, l, authenticated, steps)
    ensures !RunAccount(h, l, authenticated, steps).0.greeting <==>
            EndsInTime(ToldIn(h, l, authenticated, steps), OpeningTurn(authenticated))
  {
    var said, turn := ToldIn(h, l, authenticated, steps), OpeningTurn(authenticated);
    GreetingEndsIff(h, l, authenticated, steps);
    if EndsRestarted(said, turn) {
      var i :| 0 <= i < |said| && Ends(said[i], turn) && RestartedBefore(said, i, turn);
      var k, m :| 0 <= k < m < i && said[k] == R.SessionRenewed && said[m] == R.TurnStarted(turn);
      OpeningStartsOnce(h, l, authenticated, steps);
      GreetingStarts(authenticated);
      CountsStarts(said, 0, m, turn);
      assert false;
    }
  }

  lemma {:induction false} ToldGrows(h: A.Host, l: Letters, authenticated: bool, steps: seq<Step>, n: nat)
    returns (more: seq<R.ServerEvent>)
    requires n <= |steps|
    ensures ToldIn(h, l, authenticated, steps) == ToldIn(h, l, authenticated, steps[..n]) + more
    decreases |steps|
  {
    if n == |steps| {
      more := [];
      assert steps[..n] == steps;
    } else {
      var before, step := steps[..|steps| - 1], steps[|steps| - 1];
      more := ToldGrows(h, l, authenticated, before, n);
      assert before[..n] == steps[..n];
      var (c, outputs) := RunAccount(h, l, authenticated, before);
      if Enabled(c.agent, step) {
        var r := NextAccount(h, l, c, step);
        ToldParts(outputs, r.1);
        Associate(Greeting(authenticated), Told(outputs), Told(r.1));
        Associate(ToldIn(h, l, authenticated, steps[..n]), more, Told(r.1));
        more := more + Told(r.1);
      }
    }
  }

  /** A new input is only remembered, and says nothing. */
  ghost predicate OnlyQueues(c: Account) {
    forall turn, sequence | Hearing(c.agent.inputs, turn, sequence).1 == Opened ::
      var r := HearingAccount(c, turn, sequence);
      r.0.agent.mapper == c.agent.mapper.(nextInput := turn) && r.1 == [ToEar(c.agent.stream, turn, sequence)]
  }

  lemma EndedEarly(early: seq<R.ServerEvent>, more: seq<R.ServerEvent>, turn: Id)
    requires EndsInTime(early + more, turn) && R.SessionRenewed in early
    ensures SomeEnds(early, turn)
  {
    var said := early + more;
    var i :| 0 <= i < |said| && Ends(said[i], turn) && NoRenewalBefore(said, i);
    var k :| 0 <= k < |early| && early[k] == R.SessionRenewed;
    assert said[k] == early[k];
    assert early[i] == said[i];
  }

  /** A greeting that a renewal finds unfinished lasts for the rest of the run, and every new input is only queued. */
  lemma GreetingOutlastsRenewal(h: A.Host, l: Letters, authenticated: bool, steps: seq<Step>, n: nat)
    requires n <= |steps| && OpeningIsOwn(h, l, authenticated, steps)
    requires RunAccount(h, l, authenticated, steps[..n]).0.greeting
    requires R.SessionRenewed in ToldIn(h, l, authenticated, steps[..n])
    ensures RunAccount(h, l, authenticated, steps).0.greeting && OnlyQueues(RunAccount(h, l, authenticated, steps).0)
  {
    var said, turn := ToldIn(h, l, authenticated, steps), OpeningTurn(authenticated);
    var early := ToldIn(h, l, authenticated, steps[..n]);
    var more := ToldGrows(h, l, authenticated, steps, n);
    GreetingEndsInTimeIff(h, l, authenticated, steps);
    RunFollows(h, l, authenticated, steps[..n]);
    if EndsInTime(said, turn) {
      EndedEarly(early, more, turn);
      assert false;
    }
  }
}
