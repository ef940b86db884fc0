/** The jobs and streams of the account agent's loop, over all its runs. */
module AccountWork {
  import opened Basics
  import R = RealtimeMapper
  import A = ActionRuntime
  import P = Approval
  import opened AgentParts
  import opened WorkerPool
  import opened LoopWork
  import opened AgentLoop
  import opened AgentRuns
  import opened AgentWork
  import opened AccountLoop
  import opened AccountRuns

  function WorkIn(c: Account): Work {
    WorkOf(c.agent, c.uiJobs)
  }

  // ----- each step is one change of the work -----

  lemma LoginMoves(c: Account, op: P.Op, s: A.PlannerState, j: A.Job, immediate: Option<A.ToolResult>)
    returns (ch: Change)
    ensures ch == Nothing || ch == LaunchApp(j)
    ensures ch == LaunchApp(j) ==> Begin(Worker(j, None)) in LoginPlanned(c, op, s, j, immediate).1
    ensures NoneSent(LoginPlanned(c, op, s, j, immediate).1)
    ensures Moves(WorkIn(c), ch, WorkIn(LoginPlanned(c, op, s, j, immediate).0), [])
  {
    ch := if immediate.Some? then Nothing else LaunchApp(j);
  }

  lemma BeginningMoves(h: A.Host, c: Account, now: int, turn: Id) returns (ch: Change)
    ensures ch.Nothing? || (ch.LaunchApp? && Begin(Worker(ch.job, None)) in BeginningLogin(h, c, now, turn).1)
    ensures NoneSent(BeginningLogin(h, c, now, turn).1)
    ensures Moves(WorkIn(c), ch, WorkIn(BeginningLogin(h, c, now, turn).0), [])
  {
    var planned := A.Planning(h, c.agent.planner, now, WELCOME, LOGIN_MODEL_NAME, turn, "{}");
    ch := LoginMoves(c.(waiting := false), P.PlanOp(now, WELCOME, LOGIN_MODEL_NAME, turn, "{}"), planned.0, planned.1.0,
                     planned.1.1);
  }

  lemma PressedMoves(c: Account, begun: seq<Output>, s: A.PlannerState, j: A.Job, immediate: Option<A.ToolResult>)
    returns (ch: Change)
    requires NoneSent(begun)
    ensures ch.Nothing? || (ch.LaunchApp? && Begin(Worker(ch.job, None)) in Pressed(c, begun, s, j, immediate).1)
    ensures Moves(WorkIn(c), ch, WorkIn(Pressed(c, begun, s, j, immediate).0),
                  SentOf(Pressed(c, begun, s, j, immediate).1))
  {
    SentOfNone(Pressed(c, begun, s, j, immediate).1);
    ch := if immediate.Some? then Nothing else LaunchApp(j);
  }

  lemma ApprovingMoves(h: A.Host, c: Account, begun: seq<Output>, now: int, s: A.PlannerState, p: A.Pending)
    returns (ch: Change)
    requires NoneSent(begun)
    ensures ch.Nothing? || (ch.LaunchApp? && Begin(Worker(ch.job, None)) in Approving(h, c, begun, now, s, p).1)
    ensures Moves(WorkIn(c), ch, WorkIn(Approving(h, c, begun, now, s, p).0),
                  SentOf(Approving(h, c, begun, now, s, p).1))
  {
    var name := P.DotsToUnderscores(p.name);
    var planned := A.Planning(h, s, now, p.operationId, name, p.turn, p.args);
    ch := PressedMoves(c, begun + [Planned(P.PlanOp(now, p.operationId, name, p.turn, p.args))], planned.0, planned.1.0,
                       planned.1.1);
  }

  lemma PressingMoves(h: A.Host, c: Account, now: int, operation: Id, approved: bool) returns (ch: Change)
    ensures ch.Nothing? || (ch.LaunchApp? && Begin(Worker(ch.job, None)) in Pressing(h, c, now, operation, approved).1)
    ensures Moves(WorkIn(c), ch, WorkIn(Pressing(h, c, now, operation, approved).0),
                  SentOf(Pressing(h, c, now, operation, approved).1))
  {
    if c.agent.planner.pending.Some? && approved && A.Confirming(h, c.agent.planner, now, operation, approved).1 {
      ch := ApprovingMoves(h, c, [Planned(P.ConfirmOp(now, operation, approved))], now,
                           A.Confirming(h, c.agent.planner, now, operation, approved).0, c.agent.planner.pending.value);
    } else {
      SentOfNone(Pressing(h, c, now, operation, approved).1);
      ch := Nothing;
    }
  }

  lemma ConfirmMoves(h: A.Host, c: Account, now: int, operation: Id, approved: bool) returns (ch: Change)
    ensures var r := TakingAccount(h, c, now, ToolConfirm(operation, approved));
            (ch.Nothing? || (ch.LaunchApp? && Begin(Worker(ch.job, None)) in r.1))
            && Moves(WorkIn(c), ch, WorkIn(r.0), SentOf(r.1))
  {
    if operation != WELCOME || !c.waiting {
      ch := PressingMoves(h, c, now, operation, approved);
    } else if approved {
      ch := BeginningMoves(h, c, now, WELCOME);
      SentOfNone(BeginningLogin(h, c, now, WELCOME).1);
    } else {
      SentOfNone([Stopped]);
      ch := Nothing;
    }
  }

  lemma HearingMoves(c: Account, turn: Id, sequence: nat)
    ensures Moves(WorkIn(c), Nothing, WorkIn(HearingAccount(c, turn, sequence).0),
                  SentOf(HearingAccount(c, turn, sequence).1))
  {
    SentOfNone(HearingAccount(c, turn, sequence).1);
  }

  lemma TakingAccountMoves(h: A.Host, c: Account, now: int, e: Input) returns (ch: Change)
    ensures ch.Nothing? || ch.Rotate? || (ch.LaunchApp? && Begin(Worker(ch.job, None)) in TakingAccount(h, c, now, e).1)
    ensures Moves(WorkIn(c), ch, WorkIn(TakingAccount(h, c, now, e).0), SentOf(TakingAccount(h, c, now, e).1))
  {
    match e
    case AudioAppend(turn, sequence) =>
      HearingMoves(c, turn, sequence);
      ch := Nothing;
    case ToolConfirm(operation, approved) => ch := ConfirmMoves(h, c, now, operation, approved);
    case _ => ch := TakingMoves(h, c.agent, c.uiJobs, now, e);
  }

  lemma KeepingMoves(h: A.Host, c: Account)
    requires c.agent.pool.channel != [] && c.agent.pool.channel[0].worker.job.id in c.uiJobs
    ensures Moves(WorkIn(c), Keep, WorkIn(DeliveringUi(h, c).0), SentOf(DeliveringUi(h, c).1))
  {
    SentOfNone(DeliveringUi(h, c).1);
  }

  lemma RunningAccountMoves(h: A.Host, a: Agent, app: set<Id>, now: int, cid: Id, after: seq<Output>)
    returns (c: Change)
    requires cid in a.staged && a.staged[cid].operation !in a.pool.active && NoneSent(after)
    ensures c.Answer? || c.Launch?
    ensures var r := RunningAccount(h, Taken(a, cid), now, a.staged[cid]);
            Moves(WorkOf(a, app), c, WorkOf(r.0, app), SentOf(r.1 + after))
  {
    var call := a.staged[cid];
    if call.cancelled || call.turn != a.mapper.turn {
      c := CancelledMoves(a, app, cid, after);
    } else if AsksLogin(call) {
      var j := A.Job(call.operation, LOGIN, None, call.turn, "", false);
      AnsweringMoves(a, app, cid, a.planner, j, A.Failure("use_pending_login_invitation"), CallStarted(call), after);
      c := Answer(cid, j);
    } else {
      c := RunningMoves(h, a, app, now, cid, after);
    }
  }

  lemma ToolsAccountMoves(h: A.Host, a: Agent, app: set<Id>, now: int, e: R.ProviderEvent, events: seq<R.ServerEvent>)
    returns (c: Change)
    ensures OfTools(c)
    ensures Moves(WorkOf(a, app), c, WorkOf(ToolsAccount(h, a, now, e, events).0, app),
                  SentOf(ToolsAccount(h, a, now, e, events).1))
  {
    if e.ContentEnd? && e.cid in a.staged {
      if a.staged[e.cid].operation in a.pool.active {
        SentOfNone([]);
        c := Forget(e.cid);
      } else {
        c := RunningAccountMoves(h, a, app, now, e.cid, Voices(events));
      }
    } else {
      c := ToolsMoves(h, a, app, now, e, events);
    }
  }

  lemma ObservingMoves(h: A.Host, l: Letters, c: Account, now: int, e: R.ProviderEvent) returns (ch: Change)
    ensures ch.Nothing? || (ch.LaunchApp? && Begin(Worker(ch.job, None)) in ObservingAccount(h, l, c, now, e).1)
    ensures !AtBoundary(c.agent.speech, e) ==> ch.Nothing? && ObservingAccount(h, l, c, now, e) == (c, [])
    ensures NoneSent(ObservingAccount(h, l, c, now, e).1)
    ensures Moves(WorkIn(c), ch, WorkIn(ObservingAccount(h, l, c, now, e).0), [])
  {
    ch := ObservedMoves(h, l, c, now, e, ObservingAccount(h, l, c, now, e));
  }

  lemma ObservedMoves(h: A.Host, l: Letters, c: Account, now: int, e: R.ProviderEvent, r: Response) returns (ch: Change)
    requires r == ObservingAccount(h, l, c, now, e)
    ensures ch.Nothing? || (ch.LaunchApp? && Begin(Worker(ch.job, None)) in r.1)
    ensures !AtBoundary(c.agent.speech, e) ==> ch.Nothing? && r == (c, [])
    ensures NoneSent(r.1) && Moves(WorkIn(c), ch, WorkIn(r.0), [])
  {
    ch := Nothing;
    if AtBoundary(c.agent.speech, e) && c.waiting && WelcomeAnswer(l, c.agent.speech.text) == Yes {
      var a := Observing(h, c.agent, now, e).0;
      ch := BeginningMoves(h, c.(agent := a), now, a.speech.turn);
    }
  }

  lemma ReactingToMoves(h: A.Host, l: Letters, c: Account, now: int, e: R.ProviderEvent, events: seq<R.ServerEvent>)
    returns (ch: Change)
    ensures OfTools(ch) || (ch.LaunchApp? && Begin(Worker(ch.job, None)) in ReactingTo(h, l, c, now, e, events).1)
    ensures Moves(WorkIn(c), ch, WorkIn(ReactingTo(h, l, c, now, e, events).0),
                  SentOf(ReactingTo(h, l, c, now, e, events).1))
  {
    ch := ObservingMoves(h, l, c, now, e);
    var (c1, observed) := ObservingAccount(h, l, c, now, e);
    SentOfNone(observed);
    if !c1.agent.over {
      var used := ToolsAccountMoves(h, c1.agent, c1.uiJobs, now, e, events);
      var outputs := ToolsAccount(h, c1.agent, now, e, events).1;
      SentOfParts(observed, outputs);
      if AtBoundary(c.agent.speech, e) {
        SentOfNone(outputs);
      } else {
        assert [] + outputs == outputs;
        ch := used;
      }
    }
  }

  lemma ReactingAccountMoves(h: A.Host, l: Letters, c: Account, now: int, e: R.ProviderEvent, outcome: R.Outcome)
    returns (ch: Change)
    ensures OfTools(ch) || (ch.LaunchApp? && Begin(Worker(ch.job, None)) in ReactingAccount(h, l, c, now, e, outcome).1)
    ensures Moves(WorkIn(c), ch, WorkIn(ReactingAccount(h, l, c, now, e, outcome).0),
                  SentOf(ReactingAccount(h, l, c, now, e, outcome).1))
  {
    if outcome.Failed? || !Collecting(c.agent.speech, e, outcome.events).1 {
      SentOfNone([Error("provider_failed")]);
      ch := Nothing;
    } else {
      ch := ReactingToMoves(h, l, c.(agent := c.agent.(speech := Collecting(c.agent.speech, e, outcome.events).0)), now,
                            e, outcome.events);
    }
  }

  lemma MappingAccountMoves(h: A.Host, l: Letters, c: Account, now: int, e: R.ProviderEvent, random: Id)
    returns (ch: Change)
    requires R.Bounded(c.agent.mapper)
    ensures var r := MappingAccount(h, l, c, now, e, random);
            (OfTools(ch) || (ch.LaunchApp? && Begin(Worker(ch.job, None)) in r.1))
            && Moves(WorkIn(c), ch, WorkIn(r.0), SentOf(r.1))
  {
    var (c1, ignored) := Filtering(c, e);
    if ignored {
      SentOfNone([]);
      ch := Nothing;
    } else {
      var mapped := R.Mapping(c1.agent.mapper, e, random);
      ch := ReactingAccountMoves(h, l, c1.(agent := c1.agent.(mapper := mapped.0)), now, e, mapped.1);
    }
  }

  predicate HeadIsUi(c: Account)
    requires c.agent.pool.channel != []
  {
    c.agent.pool.channel[0].worker.job.id in c.uiJobs
  }

  /** A result is kept, or sent, exactly when it is delivered; what the app starts is put out as a beginning. */
  ghost predicate AccountMovesBy(h: A.Host, l: Letters, c: Account, step: Step, ch: Change)
    requires R.Bounded(c.agent.mapper) && Enabled(c.agent, step)
  {
    && Moves(WorkIn(c), ch, WorkIn(NextAccount(h, l, c, step).0), SentOf(NextAccount(h, l, c, step).1))
    && (ch.Keep? <==> step.DeliverStep? && HeadIsUi(c))
    && (ch.Send? <==> step.DeliverStep? && !HeadIsUi(c))
    && (ch.LaunchApp? ==> Begin(Worker(ch.job, None)) in NextAccount(h, l, c, step).1)
  }

  lemma AccountMoves(h: A.Host, l: Letters, c: Account, step: Step) returns (ch: Change)
    requires R.Bounded(c.agent.mapper) && Enabled(c.agent, step)
    ensures AccountMovesBy(h, l, c, step, ch)
  {
    match step
    case TakeStep(now, e) => ch := TakingAccountMoves(h, c, now, e);
    case RenewStep(late) => ch := RenewingMoves(c.agent, c.uiJobs, late);
    case TimeOutStep =>
      SentOfNone(TimingOut(c.agent).1);
      ch := Nothing;
    case FinishStep(k, result) =>
      SentOfNone([]);
      ch := Finish(k, result);
    case DeliverStep =>
      if HeadIsUi(c) {
        KeepingMoves(h, c);
        ch := Keep;
      } else {
        DeliveringMoves(h, c.agent, c.uiJobs);
        ch := Send;
      }
    case MapStep(now, e, random) => ch := MappingAccountMoves(h, l, c, now, e, random);
  }
}
