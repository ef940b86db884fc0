/**
 Tool calls of interrupted turns in both agent loops (apps/personal-assistant-agent/internal/agent/runtime.go,
 apps/account-agent/internal/account/runtime.go): an interruption leaves the current turn and the staged calls as they
 are, and the end of a call's content only compares the call's turn with the current one.
 */
module InterruptedCalls {
  import opened Basics
  import R = RealtimeMapper
  import A = ActionRuntime
  import P = Approval
  import M = MapperRuns
  import opened AgentParts
  import opened AgentLoop
  import opened AgentRuns
  import opened BusyWork
  import opened AgentVoice
  import opened AccountLoop
  import opened AccountRuns
  import opened AccountVoice
  import opened VoiceSessions

  // ----- turns that are interrupted when an event has been mapped -----

  /** The end of live content with the reason INTERRUPTED interrupts the current turn, if it is active. */
  predicate Interrupts(m: R.MapperState, e: R.ProviderEvent) {
    e.ContentEnd? && e.stop == R.InterruptedTurn && !R.Stale(m, e.cid) && m.turn != "" && m.activity != R.Idle
  }

  /** Whether a turn was interrupted, or is by this event. */
  predicate Dead(m: R.MapperState, e: R.ProviderEvent, turn: Id) {
    turn in m.cancelled || (turn == m.turn && Interrupts(m, e))
  }

  lemma DeadIff(m: R.MapperState, cid: Id, stop: R.StopReason, random: Id, turn: Id)
    requires R.Bounded(m)
    ensures var e := R.ContentEnd(cid, stop);
            && R.Mapping(m, e, random).0.turn == m.turn
            && (turn in R.Mapping(m, e, random).0.cancelled <==> Dead(m, e, turn))
  {
  }

  predicate Speechless(events: seq<R.ServerEvent>) {
    forall i | 0 <= i < |events| :: !events[i].Transcript? && !events[i].ToolStarted?
  }

  lemma EndIsSpeechless(m: R.MapperState, cid: Id, stop: R.StopReason)
    requires R.Bounded(m) && cid in m.contents && R.MappingEnd(m, cid, stop).1.Events?
    ensures Speechless(R.MappingEnd(m, cid, stop).1.events)
  {
  }

  /** The end of a content of an interrupted turn is accepted. */
  lemma DeadIsAccepted(a: Agent, e: R.ProviderEvent, random: Id)
    requires R.Bounded(a.mapper) && e.ContentEnd? && Dead(a.mapper, e, a.mapper.turn)
    ensures Accepts(a, e, random)
  {
    DeadIsMapped(a.mapper, e.cid, e.stop, random);
    var events := R.Mapping(a.mapper, e, random).1.events;
    SilentFragments(a.speech, ContentOf(e), events);
  }

  lemma DeadIsMapped(m: R.MapperState, cid: Id, stop: R.StopReason, random: Id)
    requires R.Bounded(m) && Dead(m, R.ContentEnd(cid, stop), m.turn)
    ensures var outcome := R.Mapping(m, R.ContentEnd(cid, stop), random).1;
            outcome.Events? && Silent(outcome.events)
  {
  }

  // ----- plans -----

  /** A call of one of these turns is planned. */
  predicate PlansFor(outputs: seq<Output>, turns: set<Id>) {
    exists i :: 0 <= i < |outputs| && IsPlan(outputs[i]) && outputs[i].op.turn in turns
  }

  lemma NoPlanFor(outputs: seq<Output>, turns: set<Id>)
    requires NoPlan(outputs)
    ensures !PlansFor(outputs, turns)
  {
    assert forall i | 0 <= i < |outputs| :: !IsPlan(outputs[i]);
  }

  lemma FollowingPlansFor(a: Agent, call: StagedCall, op: P.Op, j: A.Job, immediate: Option<A.ToolResult>,
                          more: seq<Output>, turns: set<Id>)
    requires NoPlan(more) && op.PlanOp?
    ensures PlansFor(Following(a, call, op, j, immediate).1 + more, turns) <==> op.turn in turns
  {
    OnlyPlan(a, call, op, j, immediate, more);
    var all := Following(a, call, op, j, immediate).1 + more;
    assert IsPlan(all[0]);
  }

  lemma RunningPlansFor(h: A.Host, a: Agent, now: int, call: StagedCall, more: seq<Output>, turns: set<Id>)
    requires NoPlan(more)
    ensures PlansFor(Running(h, a, now, call).1 + more, turns) <==>
            !call.cancelled && call.turn == a.mapper.turn && call.turn in turns
  {
    if call.cancelled || call.turn != a.mapper.turn {
      NoPlanFor(TurnCancelled(a, call).1 + more, turns);
    } else {
      var planned := A.Planning(h, a.planner, now, call.operation, call.name, call.turn, call.arguments);
      var op := P.PlanOp(now, call.operation, call.name, call.turn, call.arguments);
      FollowingPlansFor(a.(planner := planned.0), call, op, planned.1.0, planned.1.1, more, turns);
    }
  }

  /** The event closes an announced call of the current turn, which is not active. */
  predicate ClosesCurrent(a: Agent, e: R.ProviderEvent) {
    && e.ContentEnd? && e.cid in a.staged
    && !a.staged[e.cid].cancelled && a.staged[e.cid].turn == a.mapper.turn
       && a.staged[e.cid].operation !in a.pool.active
  }

  lemma ToolsPlanFor(h: A.Host, a: Agent, now: int, e: R.ProviderEvent, events: seq<R.ServerEvent>, turns: set<Id>)
    ensures PlansFor(Tools(h, a, now, e, events).1, turns) <==> ClosesCurrent(a, e) && a.mapper.turn in turns
  {
    if e.ContentEnd? && e.cid in a.staged && a.staged[e.cid].operation !in a.pool.active {
      RunningPlansFor(h, a.(staged := a.staged - {e.cid}), now, a.staged[e.cid], Voices(events), turns);
    } else {
      NoPlanFor(Tools(h, a, now, e, events).1, turns);
    }
  }

  lemma ReactingPlansFor(h: A.Host, a: Agent, now: int, e: R.ProviderEvent, outcome: R.Outcome, turns: set<Id>)
    ensures PlansFor(Reacting(h, a, now, e, outcome).1, turns) <==>
            outcome.Events? && Collecting(a.speech, e, outcome.events).1 && ClosesCurrent(a, e)
            && a.mapper.turn in turns
  {
    if outcome.Failed? || !Collecting(a.speech, e, outcome.events).1 {
      NoPlanFor(Reacting(h, a, now, e, outcome).1, turns);
    } else {
      var (a1, observed) := Observing(h, a.(speech := Collecting(a.speech, e, outcome.events).0), now, e);
      ToolsPlanFor(h, a1, now, e, outcome.events, turns);
      PlansForParts(observed, Tools(h, a1, now, e, outcome.events).1, turns);
    }
  }

  lemma PlansForParts(x: seq<Output>, y: seq<Output>, turns: set<Id>)
    requires NoPlan(x)
    ensures PlansFor(x + y, turns) <==> PlansFor(y, turns)
  {
    if PlansFor(y, turns) {
      var i :| 0 <= i < |y| && IsPlan(y[i]) && y[i].op.turn in turns;
      assert (x + y)[|x| + i] == y[i];
    }
    if PlansFor(x + y, turns) {
      var i :| 0 <= i < |x + y| && IsPlan((x + y)[i]) && (x + y)[i].op.turn in turns;
      assert i >= |x| && y[i - |x|] == (x + y)[i];
    }
  }

  /** The interrupted turns of the open stream, once a step's event has been mapped. */
  function InterruptedBy(a: Agent, step: Step): set<Id>
    requires R.Bounded(a.mapper)
  {
    if step.MapStep? then R.Mapping(a.mapper, step.event, step.random).0.cancelled else a.mapper.cancelled
  }

  /** Checked before the step: the end of its content finds an announced call whose turn is current and interrupted. */
  predicate ClosesInterrupted(a: Agent, e: R.ProviderEvent) {
    ClosesCurrent(a, e) && Dead(a.mapper, e, a.mapper.turn)
  }

  lemma MappingPlansFor(h: A.Host, a: Agent, now: int, e: R.ProviderEvent, random: Id)
    requires R.Bounded(a.mapper)
    ensures PlansFor(Mapping(h, a, now, e, random).1, R.Mapping(a.mapper, e, random).0.cancelled) <==>
            ClosesInterrupted(a, e)
  {
    var (m, outcome) := R.Mapping(a.mapper, e, random);
    ReactingPlansFor(h, a.(mapper := m), now, e, outcome, m.cancelled);
    if e.ContentEnd? {
      DeadIff(a.mapper, e.cid, e.stop, random, a.mapper.turn);
      if Dead(a.mapper, e, a.mapper.turn) {
        DeadIsAccepted(a, e, random);
      }
    }
  }

  /**
   In every state of the personal assistant's loop, a step plans a call of an interrupted turn exactly when it ends the
   content of an announced call that is not active, and the call's turn is still the current one and interrupted.
   */
  lemma InterruptedCallIsPlannedIff(h: A.Host, a: Agent, step: Step)
    requires R.Bounded(a.mapper) && Enabled(a, step)
    ensures PlansFor(Next(h, a, step).1, InterruptedBy(a, step)) <==> step.MapStep? && ClosesInterrupted(a, step.event)
  {
    if step.MapStep? {
      MappingPlansFor(h, a, step.now, step.event, step.random);
    } else {
      OtherStepsPlanNothing(h, a, step);
      NoPlanFor(Next(h, a, step).1, InterruptedBy(a, step));
    }
  }

  lemma OtherStepsPlanNothing(h: A.Host, a: Agent, step: Step)
    requires R.Bounded(a.mapper) && Enabled(a, step) && !step.MapStep?
    ensures NoPlan(Next(h, a, step).1)
  {
  }

  // ----- the account agent's loop -----

  lemma RunningAccountPlansFor(h: A.Host, a: Agent, now: int, call: StagedCall, more: seq<Output>, turns: set<Id>)
    requires NoPlan(more)
    ensures PlansFor(RunningAccount(h, a, now, call).1 + more, turns) <==>
            !call.cancelled && call.turn == a.mapper.turn && !AsksLogin(call) && call.turn in turns
  {
    if !(call.cancelled || call.turn != a.mapper.turn) && AsksLogin(call) {
      NoPlanFor(RunningAccount(h, a, now, call).1 + more, turns);
    } else {
      RunningPlansFor(h, a, now, call, more, turns);
    }
  }

  lemma ToolsAccountPlanFor(h: A.Host, a: Agent, now: int, e: R.ProviderEvent, events: seq<R.ServerEvent>,
                            turns: set<Id>)
    ensures PlansFor(ToolsAccount(h, a, now, e, events).1, turns) <==>
            ClosesCurrent(a, e) && !AsksLogin(a.staged[e.cid]) && a.mapper.turn in turns
  {
    if e.ContentEnd? && e.cid in a.staged && a.staged[e.cid].operation !in a.pool.active {
      RunningAccountPlansFor(h, a.(staged := a.staged - {e.cid}), now, a.staged[e.cid], Voices(events), turns);
    } else {
      NoPlanFor(ToolsAccount(h, a, now, e, events).1, turns);
    }
  }

  /** The end of a content is no utterance boundary, so only the tools react to it. */
  lemma ClosingPlansFor(h: A.Host, l: Letters, c: Account, now: int, e: R.ProviderEvent, outcome: R.Outcome,
                        turns: set<Id>)
    requires e.ContentEnd? && !c.agent.over
    ensures PlansFor(ReactingAccount(h, l, c, now, e, outcome).1, turns) <==>
            && outcome.Events? && Collecting(c.agent.speech, e, outcome.events).1
            && ClosesCurrent(c.agent, e) && !AsksLogin(c.agent.staged[e.cid]) && c.agent.mapper.turn in turns
  {
    if outcome.Failed? || !Collecting(c.agent.speech, e, outcome.events).1 {
      NoPlanFor(ReactingAccount(h, l, c, now, e, outcome).1, turns);
    } else {
      var a := c.agent.(speech := Collecting(c.agent.speech, e, outcome.events).0);
      var outputs := ToolsAccount(h, a, now, e, outcome.events).1;
      ToolsAccountPlanFor(h, a, now, e, outcome.events, turns);
      assert ReactingAccount(h, l, c, now, e, outcome).1 == [] + outputs;
      assert [] + outputs == outputs;
    }
  }

  /** The event closes an announced call of the current turn that asks for no login, and the filter lets it pass. */
  predicate AccountClosesInterrupted(c: Account, e: R.ProviderEvent) {
    ClosesInterrupted(c.agent, e) && !AsksLogin(c.agent.staged[e.cid]) && !Filtering(c, e).1
  }

  /**
   In every state of the account loop, the end of a content plans a call of an interrupted turn exactly when the same
   holds, the call asks for no login and the filter before the opening response lets the event pass.
   */
  lemma AccountInterruptedCallIsPlannedIff(h: A.Host, l: Letters, c: Account, now: int, cid: Id, stop: R.StopReason,
                                           random: Id)
    requires var e := R.ContentEnd(cid, stop);
             R.Bounded(c.agent.mapper) && Enabled(c.agent, MapStep(now, e, random))
    ensures var e := R.ContentEnd(cid, stop);
            PlansFor(NextAccount(h, l, c, MapStep(now, e, random)).1,
                     InterruptedBy(c.agent, MapStep(now, e, random))) <==>
            AccountClosesInterrupted(c, e)
  {
    var e := R.ContentEnd(cid, stop);
    var (m, outcome) := R.Mapping(c.agent.mapper, e, random);
    var (c1, ignored) := Filtering(c, e);
    if ignored {
      NoPlanFor([], m.cancelled);
    } else {
      ClosingPlansFor(h, l, c1.(agent := c1.agent.(mapper := m)), now, e, outcome, m.cancelled);
      DeadIff(c.agent.mapper, cid, stop, random, c.agent.mapper.turn);
      if Dead(c.agent.mapper, e, c.agent.mapper.turn) {
        DeadIsAccepted(c.agent, e, random);
      }
    }
  }

  /** The loop plans on its own account only the login that the invitation offers. */
  predicate PlansOnlyLogin(outputs: seq<Output>) {
    forall i | 0 <= i < |outputs| && IsPlan(outputs[i]) :: outputs[i].op.id == WELCOME
  }

  lemma BeginningPlansLogin(h: A.Host, c: Account, now: int, turn: Id)
    ensures PlansOnlyLogin(BeginningLogin(h, c, now, turn).1)
  {
  }

  lemma ObservingPlansLogin(h: A.Host, l: Letters, c: Account, now: int, e: R.ProviderEvent)
    ensures PlansOnlyLogin(ObservingAccount(h, l, c, now, e).1)
  {
    if AtBoundary(c.agent.speech, e) {
      BeginningPlansLogin(h, c.(agent := Observing(h, c.agent, now, e).0), now, c.agent.speech.turn);
    }
  }

  lemma ReactingPlansLogin(h: A.Host, l: Letters, c: Account, now: int, e: R.ProviderEvent, outcome: R.Outcome)
    requires !e.ContentEnd?
    ensures PlansOnlyLogin(ReactingAccount(h, l, c, now, e, outcome).1)
  {
    if outcome.Events? && Collecting(c.agent.speech, e, outcome.events).1 {
      var heard := c.(agent := c.agent.(speech := Collecting(c.agent.speech, e, outcome.events).0));
      ObservingPlansLogin(h, l, heard, now, e);
    }
  }

  lemma MappingPlansLogin(h: A.Host, l: Letters, c: Account, now: int, e: R.ProviderEvent, random: Id)
    requires R.Bounded(c.agent.mapper) && !e.ContentEnd?
    ensures PlansOnlyLogin(MappingAccount(h, l, c, now, e, random).1)
  {
    var (c1, ignored) := Filtering(c, e);
    if !ignored {
      var (m, outcome) := R.Mapping(c1.agent.mapper, e, random);
      ReactingPlansLogin(h, l, c1.(agent := c1.agent.(mapper := m)), now, e, outcome);
    }
  }

  lemma OtherAccountStepsPlanNothing(h: A.Host, l: Letters, c: Account, step: Step, r: Response)
    requires R.Bounded(c.agent.mapper) && Enabled(c.agent, step) && r == NextAccount(h, l, c, step)
    requires !step.MapStep? && !(step.TakeStep? && step.input.ToolConfirm?)
    ensures PlansOnlyLogin(r.1)
  {
    if step.TakeStep? {
      TakingPlansNothing(h, c, step.now, step.input, r);
    }
  }

  lemma TakingPlansNothing(h: A.Host, c: Account, now: int, e: Input, r: Response)
    requires r == TakingAccount(h, c, now, e) && !e.ToolConfirm?
    ensures PlansOnlyLogin(r.1)
  {
  }

  /** Calls of the model are planned only when their content ends; the app's confirmations are its own. */
  lemma OtherPlansAreLogins(h: A.Host, l: Letters, c: Account, step: Step)
    requires R.Bounded(c.agent.mapper) && Enabled(c.agent, step)
    requires !(step.MapStep? && step.event.ContentEnd?) && !(step.TakeStep? && step.input.ToolConfirm?)
    ensures PlansOnlyLogin(NextAccount(h, l, c, step).1)
  {
    if step.MapStep? {
      MappingPlansLogin(h, l, c, step.now, step.event, step.random);
    } else {
      OtherAccountStepsPlanNothing(h, l, c, step, NextAccount(h, l, c, step));
    }
  }

  // ----- announcements -----

  /** The app is told that a call of this turn starts. */
  predicate Announces(said: seq<R.ServerEvent>, turn: Id) {
    exists i :: 0 <= i < |said| && said[i].ToolStarted? && said[i].turn == turn
  }

  predicate NoToolStarts(events: seq<R.ServerEvent>) {
    forall i | 0 <= i < |events| :: !events[i].ToolStarted?
  }

  lemma UserStartAnnouncesNothing(m: R.MapperState, e: R.ProviderEvent, random: Id, events: seq<R.ServerEvent>)
    requires e.ContentStart? && R.MappingUserStart(m, e, random).1 == R.Events(events)
    ensures NoToolStarts(events)
  {
  }

  lemma MappedAnnouncesNothing(m: R.MapperState, e: R.ProviderEvent, random: Id, events: seq<R.ServerEvent>)
    requires R.Bounded(m) && R.Mapping(m, e, random).1 == R.Events(events)
    requires !e.ToolUse? && !(e.ContentEnd? && !R.Stale(m, e.cid)) && !(e.ContentStart? && e.role == R.User)
    ensures NoToolStarts(events)
  {
  }

  lemma OwnerAnnouncesNothing(m: R.MapperState, call: M.Call, events: seq<R.ServerEvent>)
    requires R.Bounded(m) && !call.MapCall? && M.Step(m, call).1 == R.Events(events)
    ensures NoToolStarts(events)
  {
  }

  lemma PassedAnnouncesNothing(m: R.MapperState, call: M.Call, events: seq<R.ServerEvent>)
    requires R.Bounded(m) && M.Step(m, call).1 == R.Events(events) && !(call.MapCall? && call.event.ToolUse?)
    ensures NoToolStarts(events)
  {
    if !call.MapCall? {
      OwnerAnnouncesNothing(m, call, events);
    } else if call.event.ContentEnd? && !R.Stale(m, call.event.cid) {
      EndIsSpeechless(m, call.event.cid, call.event.stop);
    } else if call.event.ContentStart? && call.event.role == R.User {
      UserStartAnnouncesNothing(m, call.event, call.random, events);
    } else {
      MappedAnnouncesNothing(m, call.event, call.random, events);
    }
  }

  lemma AnnouncesParts(x: seq<R.ServerEvent>, y: seq<R.ServerEvent>, turn: Id)
    ensures Announces(x + y, turn) <==> Announces(x, turn) || Announces(y, turn)
  {
    if Announces(x, turn) {
      var i :| 0 <= i < |x| && x[i].ToolStarted? && x[i].turn == turn;
      assert (x + y)[i] == x[i];
    }
    if Announces(y, turn) {
      var i :| 0 <= i < |y| && y[i].ToolStarted? && y[i].turn == turn;
      assert (x + y)[|x| + i] == y[i];
    }
  }

  /** An action announces a call only by itself. */
  lemma ActionAnnounces(m: R.MapperState, action: Action, turn: Id)
    requires R.Bounded(m) && Server(m, action).1.Events?
    requires !(action.Act? && action.call.MapCall? && action.call.event.ToolUse?)
    ensures Announces(Server(m, action).1.events, turn) <==> action.Announce? && action.turn == turn
  {
    if action.Act? {
      PassedAnnouncesNothing(m, action.call, Server(m, action).1.events);
    } else if action.Announce? {
      assert Server(m, action).1.events[0].ToolStarted?;
    }
  }

  lemma OneAnnounces(m: R.MapperState, action: Action, turn: Id)
    requires R.Bounded(m) && Server(m, action).1.Events?
    requires !(action.Act? && action.call.MapCall? && action.call.event.ToolUse?)
    ensures Announces(Written(m, [action]), turn) <==> action.Announce? && action.turn == turn
  {
    OneAction(m, action);
    ActionAnnounces(m, action, turn);
  }

  lemma RenewalAnnounces(m: R.MapperState, turn: Id)
    requires R.Bounded(m)
    ensures !Announces(Written(m, [Act(M.InterruptCall), Renew(m.history)]), turn)
  {
    var s := R.Interrupting(m).0;
    M.StepKeepsBounded(m, M.InterruptCall);
    TwoActions(m, Act(M.InterruptCall), Renew(m.history));
    ActionAnnounces(m, Act(M.InterruptCall), turn);
    ActionAnnounces(s, Renew(m.history), turn);
    AnnouncesParts(R.Interrupting(m).1, [R.SessionRenewed], turn);
  }

  /** The end of a content finds its call staged and not active. */
  predicate ClosesCall(a: Agent, e: R.ProviderEvent) {
    e.ContentEnd? && e.cid in a.staged && a.staged[e.cid].operation !in a.pool.active
  }

  lemma PassingAnnounces(a: Agent, e: R.ProviderEvent, random: Id, turn: Id)
    requires R.Bounded(a.mapper) && R.Mapping(a.mapper, e, random).1.Events?
    ensures Announces(Written(a.mapper, Passing(a, e, random)), turn) <==>
            ClosesCall(a, e) && a.staged[e.cid].turn == turn
  {
    if e.ToolUse? || (e.ContentEnd? && e.cid in a.staged && a.staged[e.cid].operation in a.pool.active) {
      OneAnnounces(a.mapper, Withhold(e, random), turn);
    } else if e.ContentEnd? && e.cid in a.staged {
      var first, second := Announcement(a.staged[e.cid]), Act(M.MapCall(e, random));
      TwoActions(a.mapper, first, second);
      ActionAnnounces(a.mapper, first, turn);
      ActionAnnounces(a.mapper, second, turn);
      AnnouncesParts(Server(a.mapper, first).1.events, Server(a.mapper, second).1.events, turn);
    } else {
      OneAnnounces(a.mapper, Act(M.MapCall(e, random)), turn);
    }
  }

  lemma ActionsAnnounce(a: Agent, step: Step, turn: Id)
    requires R.Bounded(a.mapper) && !step.MapStep?
    ensures !Announces(Written(a.mapper, ActionsOf(a, step)), turn)
  {
    RenewalAnnounces(a.mapper, turn);
    OneAnnounces(a.mapper, Act(M.InterruptCall), turn);
    if step.TakeStep? && step.input.AudioAppend? {
      OneAnnounces(a.mapper, Act(M.InputCall(step.input.turn)), turn);
    }
  }

  /**
   In every state of the personal assistant's loop, the app is told that a call of a turn starts exactly when the
   content of a staged call of that turn ends and the call is not active, whether or not the turn was interrupted.
   */
  lemma CallIsAnnouncedIff(h: A.Host, a: Agent, step: Step, turn: Id)
    requires R.Bounded(a.mapper) && Enabled(a, step)
    ensures Announces(Told(Next(h, a, step).1), turn) <==>
            step.MapStep? && ClosesCall(a, step.event) && a.staged[step.event.cid].turn == turn
            && Accepts(a, step.event, step.random)
  {
    StepConveys(h, a, step);
    if !step.MapStep? {
      ActionsAnnounce(a, step, turn);
    } else if Accepts(a, step.event, step.random) {
      PassingAnnounces(a, step.event, step.random, turn);
    }
  }

  /** The same in the account loop for a provider event that passes the filter. */
  lemma AccountCallIsAnnouncedIff(h: A.Host, l: Letters, c: Account, now: int, e: R.ProviderEvent, random: Id, turn: Id)
    requires R.Bounded(c.agent.mapper) && Enabled(c.agent, MapStep(now, e, random))
    ensures Announces(Told(NextAccount(h, l, c, MapStep(now, e, random)).1), turn) <==>
            ClosesCall(c.agent, e) && c.agent.staged[e.cid].turn == turn && Accepts(c.agent, e, random)
            && !Filtering(c, e).1
  {
    var step := MapStep(now, e, random);
    AccountStepConveys(h, l, c, step, NextAccount(h, l, c, step));
    if Accepts(c.agent, e, random) {
      PassingAnnounces(c.agent, e, random, turn);
    }
  }

  // ----- interruptions that are not told -----

  /** The event ends the content of a call that is active: the loop drops what the mapper makes of it. */
  predicate EndsActive(a: Agent, e: R.ProviderEvent) {
    e.ContentEnd? && e.cid in a.staged && a.staged[e.cid].operation in a.pool.active
  }

  lemma CancellingSays(m: R.MapperState, e: R.ProviderEvent, random: Id, m': R.MapperState, events: seq<R.ServerEvent>)
    requires R.Bounded(m) && R.Mapping(m, e, random) == (m', R.Events(events)) && m'.cancelled != m.cancelled
    requires !(e.ContentEnd? && !R.Stale(m, e.cid)) && !(e.ContentStart? && e.role == R.User)
    ensures R.TurnInterrupted(m.turn) in events && !e.ToolUse?
  {
    assert e.Interruption?;
    assert events[0] == R.TurnInterrupted(m.turn);
  }

  lemma EndCancellingSays(m: R.MapperState, cid: Id, stop: R.StopReason, m': R.MapperState, events: seq<R.ServerEvent>)
    requires R.Bounded(m) && cid in m.contents && R.MappingEnd(m, cid, stop) == (m', R.Events(events))
    requires m'.cancelled != m.cancelled
    ensures R.TurnInterrupted(m.turn) in events
  {
    assert events[0] == R.TurnInterrupted(m.turn);
  }

  lemma UserCancellingSays(m: R.MapperState, e: R.ProviderEvent, random: Id, m': R.MapperState,
                           events: seq<R.ServerEvent>)
    requires e.ContentStart? && R.MappingUserStart(m, e, random) == (m', R.Events(events))
    requires m'.cancelled != m.cancelled
    ensures R.TurnInterrupted(m.turn) in events
  {
    assert events[0] == R.TurnInterrupted(m.turn);
  }

  lemma MappedCancellingSays(m: R.MapperState, e: R.ProviderEvent, random: Id, m': R.MapperState,
                             events: seq<R.ServerEvent>)
    requires R.Bounded(m) && R.Mapping(m, e, random) == (m', R.Events(events)) && m'.cancelled != m.cancelled
    ensures R.TurnInterrupted(m.turn) in events && !e.ToolUse?
  {
    if e.ContentEnd? && !R.Stale(m, e.cid) {
      EndCancellingSays(m, e.cid, e.stop, m', events);
    } else if e.ContentStart? && e.role == R.User {
      UserCancellingSays(m, e, random, m', events);
    } else {
      CancellingSays(m, e, random, m', events);
    }
  }

  lemma PassingTells(a: Agent, e: R.ProviderEvent, random: Id, m': R.MapperState, events: seq<R.ServerEvent>)
    requires R.Bounded(a.mapper) && R.Mapping(a.mapper, e, random) == (m', R.Events(events))
    requires m'.cancelled != a.mapper.cancelled
    ensures R.TurnInterrupted(a.mapper.turn) !in Written(a.mapper, Passing(a, e, random)) <==> EndsActive(a, e)
  {
    MappedCancellingSays(a.mapper, e, random, m', events);
    if EndsActive(a, e) {
      OneAction(a.mapper, Withhold(e, random));
    } else if e.ContentEnd? && e.cid in a.staged {
      TwoActions(a.mapper, Announcement(a.staged[e.cid]), Act(M.MapCall(e, random)));
    } else {
      OneAction(a.mapper, Act(M.MapCall(e, random)));
    }
  }

  /**
   When the mapper interrupts a turn on an event of the provider that the loop accepts, the app is not told exactly when
   the event ends the content of a call that is active.
   */
  lemma InterruptionIsWithheldIff(h: A.Host, a: Agent, now: int, e: R.ProviderEvent, random: Id)
    requires R.Bounded(a.mapper) && Enabled(a, MapStep(now, e, random)) && Accepts(a, e, random)
    requires R.Mapping(a.mapper, e, random).0.cancelled != a.mapper.cancelled
    ensures R.TurnInterrupted(a.mapper.turn) !in Told(Next(h, a, MapStep(now, e, random)).1) <==> EndsActive(a, e)
  {
    StepConveys(h, a, MapStep(now, e, random));
    PassingTells(a, e, random, R.Mapping(a.mapper, e, random).0, R.Mapping(a.mapper, e, random).1.events);
  }

  lemma BoundaryCancelsNothing(m: R.MapperState, e: R.ProviderEvent, random: Id)
    requires R.Bounded(m) && e.ContentStart? && e.role != R.User
    ensures R.Mapping(m, e, random).0.cancelled == m.cancelled
  {
  }

  /** The same in the account loop for an event that passes the filter. */
  lemma AccountInterruptionIsWithheldIff(h: A.Host, l: Letters, c: Account, now: int, e: R.ProviderEvent, random: Id)
    requires R.Bounded(c.agent.mapper) && Enabled(c.agent, MapStep(now, e, random)) && Accepts(c.agent, e, random)
    requires R.Mapping(c.agent.mapper, e, random).0.cancelled != c.agent.mapper.cancelled && !Filtering(c, e).1
    ensures R.TurnInterrupted(c.agent.mapper.turn) !in Told(NextAccount(h, l, c, MapStep(now, e, random)).1) <==>
            EndsActive(c.agent, e)
  {
    var step, m := MapStep(now, e, random), c.agent.mapper;
    AccountStepConveys(h, l, c, step, NextAccount(h, l, c, step));
    PassingTells(c.agent, e, random, R.Mapping(m, e, random).0, R.Mapping(m, e, random).1.events);
    if e.ContentStart? && e.role != R.User {
      BoundaryCancelsNothing(m, e, random);
      assert false;
    }
  }
}
