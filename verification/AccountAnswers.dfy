/**
 The invitation and its answers over whole runs of the account agent's loop
 (apps/account-agent/internal/account: runtime.go, welcome.go).
 */
module AccountAnswers {
  import opened Basics
  import R = RealtimeMapper
  import A = ActionRuntime
  import P = Approval
  import opened AgentParts
  import opened AgentLoop
  import opened AgentRuns
  import opened AccountLoop
  import opened AccountRuns
  import opened AccountResults
  import opened AccountRules
  import opened WelcomeWords

  /** An utterance whose words are one of the refusals is put out. */
  ghost predicate Declined(l: Letters, now: int, outputs: seq<Output>) {
    exists turn, text :: Planned(P.ObserveOp(now, turn, text)) in outputs && Refuses(l, text)
  }

  /** The login of the invitation is planned. */
  predicate PlansLogin(now: int, outputs: seq<Output>) {
    exists i :: 0 <= i < |outputs| && outputs[i].Planned? && outputs[i].op.PlanOp? &&
      outputs[i].op.id == WELCOME && outputs[i].op.name == LOGIN_MODEL_NAME && outputs[i].op.now == now
  }

  /** Neither an utterance nor the end of the session. */
  predicate Other(o: Output) {
    o != Stopped && !(o.Planned? && o.op.ObserveOp?)
  }

  predicate Others(outputs: seq<Output>) {
    forall i | 0 <= i < |outputs| :: Other(outputs[i])
  }

  /** What an event does to the invitation: it is declined, accepted or left standing. */
  ghost predicate Answers(l: Letters, waiting: bool, now: int, r: Response) {
    && (Stopped in r.1 <==> waiting && Declined(l, now, r.1))
    && (r.0.waiting <==> waiting && !Accepted(l, now, r.1))
    && (waiting && Accepted(l, now, r.1) ==> PlansLogin(now, r.1))
  }

  lemma OthersAnswerNothing(l: Letters, now: int, r: Response)
    requires Others(r.1)
    ensures Answers(l, r.0.waiting, now, r)
  {
    assert Stopped !in r.1;
    assert !Accepted(l, now, r.1) && !Declined(l, now, r.1);
  }

  /** The outputs hold one utterance. */
  lemma OneUtterance(l: Letters, now: int, turn: Id, text: string, rest: seq<Output>)
    requires forall i | 0 <= i < |rest| :: rest[i] == Stopped || Other(rest[i])
    ensures Accepted(l, now, [Planned(P.ObserveOp(now, turn, text))] + rest) <==> Affirms(l, text)
    ensures Declined(l, now, [Planned(P.ObserveOp(now, turn, text))] + rest) <==> Refuses(l, text)
  {
    var outputs := [Planned(P.ObserveOp(now, turn, text))] + rest;
    assert outputs[0] == Planned(P.ObserveOp(now, turn, text));
    forall i | 0 <= i < |outputs|
      ensures outputs[i] == Planned(P.ObserveOp(now, turn, text)) || outputs[i] == Stopped || Other(outputs[i])
    {
      assert i > 0 ==> outputs[i] == rest[i - 1];
    }
  }

  lemma BeginningPlans(h: A.Host, c: Account, now: int, turn: Id)
    ensures var r := BeginningLogin(h, c, now, turn);
            Others(r.1) && !r.0.waiting && PlansLogin(now, r.1)
  {
    var r := BeginningLogin(h, c, now, turn);
    assert r.1[0] == Planned(P.PlanOp(now, WELCOME, LOGIN_MODEL_NAME, turn, "{}"));
  }

  lemma PlansLoginWithin(now: int, x: seq<Output>, y: seq<Output>, z: seq<Output>)
    requires PlansLogin(now, y)
    ensures PlansLogin(now, x + y + z)
  {
    var i :| 0 <= i < |y| && y[i].Planned? && y[i].op.PlanOp? && y[i].op.id == WELCOME &&
      y[i].op.name == LOGIN_MODEL_NAME && y[i].op.now == now;
    assert (x + y + z)[|x| + i] == y[i];
  }

  lemma ObservedYes(h: A.Host, l: Letters, c: Account, now: int, e: R.ProviderEvent, r: Response)
    requires AtBoundary(c.agent.speech, e) && c.waiting && WelcomeAnswer(l, c.agent.speech.text) == Yes
    requires r == ObservingAccount(h, l, c, now, e)
    ensures Answers(l, c.waiting, now, r) && Stopped !in r.1
  {
    var text, turn := c.agent.speech.text, c.agent.speech.turn;
    var a := Observing(h, c.agent, now, e).0;
    var (c2, begun) := BeginningLogin(h, c.(agent := a), now, turn);
    BeginningPlans(h, c.(agent := a), now, turn);
    AnswersIff(l, text);
    AcceptedAnswers(l, now, turn, text, begun, Dropped(c.agent.planner, c2.agent.planner), r);
  }

  lemma AcceptedAnswers(l: Letters, now: int, turn: Id, text: string, begun: seq<Output>, dropped: seq<Output>,
                        r: Response)
    requires Affirms(l, text) && !Refuses(l, text) && PlansLogin(now, begun) && Others(begun) && Others(dropped)
    requires r.1 == [Planned(P.ObserveOp(now, turn, text))] + begun + dropped && !r.0.waiting
    ensures Answers(l, true, now, r) && Stopped !in r.1
  {
    PlansLoginWithin(now, [Planned(P.ObserveOp(now, turn, text))], begun, dropped);
    OneUtterance(l, now, turn, text, begun + dropped);
    Associate([Planned(P.ObserveOp(now, turn, text))], begun, dropped);
  }

  lemma ObservedOther(h: A.Host, l: Letters, c: Account, now: int, e: R.ProviderEvent, r: Response)
    requires AtBoundary(c.agent.speech, e) && !(c.waiting && WelcomeAnswer(l, c.agent.speech.text) == Yes)
    requires r == ObservingAccount(h, l, c, now, e)
    ensures Answers(l, c.waiting, now, r)
  {
    var text, turn := c.agent.speech.text, c.agent.speech.turn;
    AnswersIff(l, text);
    OneUtterance(l, now, turn, text, r.1[1..]);
    assert r.1 == [Planned(P.ObserveOp(now, turn, text))] + r.1[1..];
    if c.waiting && WelcomeAnswer(l, text) == No {
      assert r.1[1] == Stopped;
    } else {
      assert Stopped !in r.1;
    }
  }

  lemma StoppedIsOver(h: A.Host, l: Letters, c: Account, now: int, e: R.ProviderEvent, r: Response)
    requires r == ObservingAccount(h, l, c, now, e)
    ensures Stopped in r.1 ==> r.0.agent.over
  {
  }

  lemma ObservedAnswers(h: A.Host, l: Letters, c: Account, now: int, e: R.ProviderEvent, r: Response)
    requires r == ObservingAccount(h, l, c, now, e)
    ensures Answers(l, c.waiting, now, r) && (Stopped in r.1 ==> r.0.agent.over)
  {
    StoppedIsOver(h, l, c, now, e, r);
    if !AtBoundary(c.agent.speech, e) {
      OthersAnswerNothing(l, now, r);
    } else if c.waiting && WelcomeAnswer(l, c.agent.speech.text) == Yes {
      ObservedYes(h, l, c, now, e, r);
    } else {
      ObservedOther(h, l, c, now, e, r);
    }
  }

  lemma OthersAppend(l: Letters, waiting: bool, now: int, r: Response, c': Account, more: seq<Output>)
    requires Answers(l, waiting, now, r) && Others(more) && c'.waiting == r.0.waiting
    ensures Answers(l, waiting, now, (c', r.1 + more)) && (Stopped in r.1 + more <==> Stopped in r.1)
  {
    forall o | o in r.1 + more && !Other(o)
      ensures o in r.1
    {
    }
    forall o | o in r.1
      ensures o in r.1 + more
    {
    }
    assert Accepted(l, now, r.1 + more) <==> Accepted(l, now, r.1);
    assert Declined(l, now, r.1 + more) <==> Declined(l, now, r.1);
    if PlansLogin(now, r.1) {
      PlansLoginWithin(now, [], r.1, more);
      assert [] + r.1 + more == r.1 + more;
    }
  }

  lemma RunningOthers(h: A.Host, a: Agent, now: int, call: StagedCall)
    ensures Others(RunningAccount(h, a, now, call).1)
  {
  }

  lemma ToolsOthers(h: A.Host, a: Agent, now: int, e: R.ProviderEvent, events: seq<R.ServerEvent>)
    ensures Others(ToolsAccount(h, a, now, e, events).1)
  {
    if e.ContentEnd? && e.cid in a.staged {
      RunningOthers(h, a.(staged := a.staged - {e.cid}), now, a.staged[e.cid]);
    }
  }

  lemma ReactedAnswers(h: A.Host, l: Letters, c: Account, now: int, e: R.ProviderEvent, events: seq<R.ServerEvent>)
    ensures Answers(l, c.waiting, now, ReactingTo(h, l, c, now, e, events))
    ensures var r := ReactingTo(h, l, c, now, e, events); Stopped in r.1 ==> r.0.agent.over
  {
    var observed := ObservingAccount(h, l, c, now, e);
    ObservedAnswers(h, l, c, now, e, observed);
    if !observed.0.agent.over {
      ToolsOthers(h, observed.0.agent, now, e, events);
      OthersAppend(l, c.waiting, now, observed, ReactingTo(h, l, c, now, e, events).0,
                   ToolsAccount(h, observed.0.agent, now, e, events).1);
    }
  }

  lemma MappedAnswers(h: A.Host, l: Letters, c: Account, now: int, e: R.ProviderEvent, outcome: R.Outcome)
    ensures Answers(l, c.waiting, now, ReactingAccount(h, l, c, now, e, outcome))
    ensures var r := ReactingAccount(h, l, c, now, e, outcome); Stopped in r.1 ==> r.0.agent.over
  {
    if outcome.Events? && Collecting(c.agent.speech, e, outcome.events).1 {
      var speech := Collecting(c.agent.speech, e, outcome.events).0;
      ReactedAnswers(h, l, c.(agent := c.agent.(speech := speech)), now, e, outcome.events);
    } else {
      OthersAnswerNothing(l, now, ReactingAccount(h, l, c, now, e, outcome));
    }
  }

  lemma MapAnswers(h: A.Host, l: Letters, c: Account, now: int, e: R.ProviderEvent, random: Id)
    requires R.Bounded(c.agent.mapper)
    ensures Answers(l, c.waiting, now, MappingAccount(h, l, c, now, e, random))
    ensures var r := MappingAccount(h, l, c, now, e, random); Stopped in r.1 ==> r.0.agent.over
  {
    var (c1, ignored) := Filtering(c, e);
    if ignored {
      OthersAnswerNothing(l, now, (c1, []));
    } else {
      var (m, outcome) := R.Mapping(c1.agent.mapper, e, random);
      MappedAnswers(h, l, c1.(agent := c1.agent.(mapper := m)), now, e, outcome);
    }
  }

  // ----- every step -----

  /** The app answers the invitation. */
  predicate Confirms(step: Step, approved: bool) {
    step.TakeStep? && step.input == ToolConfirm(WELCOME, approved)
  }

  /** The step accepts the invitation, if it stands. */
  ghost predicate Accepts(l: Letters, step: Step, outputs: seq<Output>) {
    Confirms(step, true) || (step.MapStep? && Accepted(l, step.now, outputs))
  }

  /** The step declines the invitation, if it stands. */
  ghost predicate Declines(l: Letters, step: Step, outputs: seq<Output>) {
    Confirms(step, false) || (step.MapStep? && Declined(l, step.now, outputs))
  }

  /** What a step does to the invitation, and when it ends the session. */
  ghost predicate Turns(l: Letters, waiting: bool, step: Step, r: Response) {
    && (Stopped in r.1 <==>
          (step.TakeStep? && step.input == SessionStop) || (waiting && Declines(l, step, r.1)))
    && (Stopped in r.1 ==> r.0.agent.over)
    && (r.0.waiting <==> waiting && !Accepts(l, step, r.1))
    && (waiting && Accepts(l, step, r.1) ==> PlansLogin(step.now, r.1))
  }

  lemma PressedOthers(h: A.Host, c: Account, now: int, operation: Id, approved: bool)
    ensures Others(Pressing(h, c, now, operation, approved).1)
  {
  }

  lemma ConfirmTurns(h: A.Host, l: Letters, c: Account, now: int, operation: Id, approved: bool)
    ensures Turns(l, c.waiting, TakeStep(now, ToolConfirm(operation, approved)),
                  TakingAccount(h, c, now, ToolConfirm(operation, approved)))
  {
    var r := TakingAccount(h, c, now, ToolConfirm(operation, approved));
    if operation == WELCOME && c.waiting {
      if approved {
        BeginningPlans(h, c, now, WELCOME);
        assert Stopped !in r.1;
      } else {
        assert r.1[0] == Stopped;
      }
    } else {
      PressedOthers(h, c, now, operation, approved);
      PressingKeeps(h, c, now, operation, approved);
      assert Stopped !in r.1;
    }
  }

  lemma TakeTurns(h: A.Host, l: Letters, c: Account, now: int, e: Input)
    ensures Turns(l, c.waiting, TakeStep(now, e), TakingAccount(h, c, now, e))
  {
    var r := TakingAccount(h, c, now, e);
    match e
    case ToolConfirm(operation, approved) => ConfirmTurns(h, l, c, now, operation, approved);
    case SessionStop => assert r.1[0] == Stopped;
    case AudioAppend(turn, sequence) => HeardOthers(c, turn, sequence);
    case _ => TakenOthers(h, c.agent, now, e);
  }

  lemma HeardOthers(c: Account, turn: Id, sequence: nat)
    ensures Stopped !in HearingAccount(c, turn, sequence).1
    ensures HearingAccount(c, turn, sequence).0.waiting == c.waiting
  {
  }

  lemma TakenOthers(h: A.Host, a: Agent, now: int, e: Input)
    requires !e.SessionStop? && !e.ToolConfirm? && !e.AudioAppend?
    ensures Stopped !in Taking(h, a, now, e).1
  {
  }

  lemma DeliveredOthers(h: A.Host, c: Account)
    requires c.agent.pool.channel != []
    ensures Stopped !in DeliveringAccount(h, c).1 && DeliveringAccount(h, c).0.waiting == c.waiting
  {
  }

  lemma TimedOthers(c: Account, late: bool)
    ensures Stopped !in RenewingAccount(c, late).1 && RenewingAccount(c, late).0.waiting == c.waiting
    ensures Stopped !in TimingOutAccount(c).1 && TimingOutAccount(c).0.waiting == c.waiting
  {
  }

  lemma StepTurns(h: A.Host, l: Letters, c: Account, step: Step, r: Response)
    requires R.Bounded(c.agent.mapper) && Enabled(c.agent, step) && r == NextAccount(h, l, c, step)
    ensures Turns(l, c.waiting, step, r)
  {
    match step
    case TakeStep(now, e) => TakeTurns(h, l, c, now, e);
    case RenewStep(late) => TimedOthers(c, late);
    case TimeOutStep => TimedOthers(c, true);
    case FinishStep(_, _) =>
    case DeliverStep => DeliveredOthers(h, c);
    case MapStep(now, e, random) => MapAnswers(h, l, c, now, e, random);
  }

  // ----- runs -----

  /** Step k accepts the invitation, if it stands. */
  ghost predicate AcceptsAt(r: Recording, k: nat) {
    Happens(r, k) && Accepts(r.letters, r.steps[k], OutputsAt(r, k))
  }

  /** The invitation was made, and none of the first k steps has accepted it. */
  ghost predicate Stands(r: Recording, k: nat) {
    !r.authenticated && forall j: nat | j < k :: !AcceptsAt(r, j)
  }

  lemma OpeningWaits(r: Recording)
    ensures At(r, 0).waiting == !r.authenticated
  {
    assert r.steps[..0] == [];
  }

  lemma WaitsOn(r: Recording, k: nat)
    requires k < |r.steps|
    ensures At(r, k + 1).waiting <==> At(r, k).waiting && !AcceptsAt(r, k)
  {
    OneStep(r, k);
    if Happens(r, k) {
      StepTurns(r.host, r.letters, At(r, k), r.steps[k], NextAccount(r.host, r.letters, At(r, k), r.steps[k]));
    }
  }

  lemma StandsOn(r: Recording, k: nat)
    ensures Stands(r, k + 1) <==> Stands(r, k) && !AcceptsAt(r, k)
  {
  }

  lemma {:induction false} StandsIffWaiting(r: Recording, k: nat)
    requires k <= |r.steps|
    ensures At(r, k).waiting <==> Stands(r, k)
  {
    if k == 0 {
      OpeningWaits(r);
    } else {
      StandsIffWaiting(r, k - 1);
      WaitsOn(r, k - 1);
      StandsOn(r, k - 1);
    }
  }

  /**
   Over every run, whatever the step: the session is stopped if and only if the app asks for it, or the invitation
   stands and the app declines it or the words of an utterance are one of the refusals; then the loop is over. The
   invitation is withdrawn, and its login planned, if and only if it stands and the app accepts it or the words of an
   utterance are one of the affirmative answers. Any other utterance leaves it standing.
   */
  lemma InvitationIsAnswered(r: Recording, k: nat)
    requires Happens(r, k)
    ensures Stopped in OutputsAt(r, k) <==>
            (r.steps[k].TakeStep? && r.steps[k].input == SessionStop) ||
            (Stands(r, k) && Declines(r.letters, r.steps[k], OutputsAt(r, k)))
    ensures Stopped in OutputsAt(r, k) ==> At(r, k + 1).agent.over
    ensures Stands(r, k) ==> (Stands(r, k + 1) <==> !Accepts(r.letters, r.steps[k], OutputsAt(r, k)))
    ensures Stands(r, k) && !Stands(r, k + 1) ==> PlansLogin(r.steps[k].now, OutputsAt(r, k))
    ensures At(r, k).waiting <==> Stands(r, k)
  {
    StandsIffWaiting(r, k);
    StandsIffWaiting(r, k + 1);
    OneStep(r, k);
    StepTurns(r.host, r.letters, At(r, k), r.steps[k], NextAccount(r.host, r.letters, At(r, k), r.steps[k]));
  }
}
