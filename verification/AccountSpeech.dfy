/**
 What the user says and what is made of it, over all runs of the account agent's loop
 (apps/account-agent/internal/account/runtime.go).
 */
module AccountSpeech {
  import opened Basics
  import R = RealtimeMapper
  import A = ActionRuntime
  import P = Approval
  import opened AgentParts
  import opened AgentLoop
  import opened AgentRuns
  import opened AgentSpeech
  import opened AccountLoop
  import opened AccountRuns
  import opened AccountResults
  import opened AccountRules
  import opened AccountAnswers
  import opened Utterances
  import opened WelcomeWords

  /** What a step lets the loop hear: events that the filter ignores tell nothing. */
  function StepHeard(c: Account, step: Step): seq<Note>
    requires R.Bounded(c.agent.mapper)
  {
    match step
    case MapStep(_, e, random) => if Filtering(c, e).1 then [] else NotesBy(c.agent.mapper, e, random)
    case _ => []
  }

  /** All that the first k steps of a run let the loop hear. */
  ghost function HeardBefore(r: Recording, k: nat): seq<Note>
    requires k <= |r.steps|
  {
    if k == 0 then []
    else HeardBefore(r, k - 1) + if Happens(r, k - 1) then StepHeard(At(r, k - 1), r.steps[k - 1]) else []
  }

  /** An utterance is due in a step. */
  ghost predicate DueHere(ns: seq<Note>, c: Account, step: Step)
    requires R.Bounded(c.agent.mapper)
  {
    && step.MapStep? && !Filtering(c, step.event).1
    && R.Mapping(c.agent.mapper, step.event, step.random).1.Events? && IsDue(ns, step.event)
  }

  ghost predicate Hears(ns: seq<Note>, due: bool, now: int, r: Response) {
    (r.0.agent.over || Represents(ns, r.0.agent.speech)) && SaysWhole(ns, due, now, r.1)
  }

  lemma SaysMore(ns: seq<Note>, due: bool, now: int, outputs: seq<Output>, more: seq<Output>)
    requires SaysWhole(ns, due, now, outputs) && NoUtterance(more)
    ensures SaysWhole(ns, due, now, outputs + more)
  {
    if due {
      var turn, text, rest :| IsUtterance(ns, turn, text) &&
        outputs == [Planned(P.ObserveOp(now, turn, text))] + rest && NoUtterance(rest);
      Associate([Planned(P.ObserveOp(now, turn, text))], rest, more);
      assert NoUtterance(rest + more);
    }
  }

  lemma OthersSayNothing(outputs: seq<Output>)
    requires Others(outputs)
    ensures NoUtterance(outputs)
  {
  }

  lemma ObservedShape(h: A.Host, l: Letters, c: Account, now: int, e: R.ProviderEvent)
    ensures var r := ObservingAccount(h, l, c, now, e);
            if AtBoundary(c.agent.speech, e) then
              && r.1 != [] && r.1[0] == Planned(P.ObserveOp(now, c.agent.speech.turn, c.agent.speech.text))
              && NoUtterance(r.1[1..])
            else r.1 == []
  {
  }

  lemma ObservedHears(h: A.Host, l: Letters, ns: seq<Note>, c: Account, now: int, e: R.ProviderEvent)
    requires Represents(ns, c.agent.speech)
    ensures Hears(ns, IsDue(ns, e), now, ObservingAccount(h, l, c, now, e))
  {
    var r := ObservingAccount(h, l, c, now, e);
    BoundaryIff(ns, c.agent.speech, e);
    ObservingKeeps(h, l, c, now, e);
    ObservedShape(h, l, c, now, e);
    if AtBoundary(c.agent.speech, e) {
      assert r.1 == [r.1[0]] + r.1[1..];
    }
  }

  lemma ReactedHears(h: A.Host, l: Letters, ns: seq<Note>, c: Account, now: int, e: R.ProviderEvent,
                     events: seq<R.ServerEvent>)
    requires Represents(ns, c.agent.speech)
    ensures Hears(ns, IsDue(ns, e), now, ReactingTo(h, l, c, now, e, events))
  {
    var observed := ObservingAccount(h, l, c, now, e);
    ObservedHears(h, l, ns, c, now, e);
    if !observed.0.agent.over {
      var tools := ToolsAccount(h, observed.0.agent, now, e, events);
      ToolsOthers(h, observed.0.agent, now, e, events);
      OthersSayNothing(tools.1);
      AccountRuns.ToolsKeep(h, observed.0.agent, now, e, events);
      SaysMore(ns, IsDue(ns, e), now, observed.1, tools.1);
    }
  }

  lemma CollectedHears(h: A.Host, l: Letters, ns: seq<Note>, c: Account, now: int, e: R.ProviderEvent,
                       events: seq<R.ServerEvent>)
    requires Represents(ns, c.agent.speech) && (e.TextOutput? || Silent(events))
    ensures var more := ns + NotesOf(e, events);
            Hears(more, IsDue(more, e), now, ReactingAccount(h, l, c, now, e, R.Events(events)))
  {
    var (speech, ok) := Collecting(c.agent.speech, e, events);
    if !e.TextOutput? {
      SilentFragments(c.agent.speech, ContentOf(e), events);
    }
    if ok {
      CollectedRepresents(ns, c.agent.speech, e, events);
      ReactedHears(h, l, ns + NotesOf(e, events), c.(agent := c.agent.(speech := speech)), now, e, events);
    }
  }

  function NotesAfter(ns: seq<Note>, e: R.ProviderEvent, outcome: R.Outcome): seq<Note> {
    match outcome
    case Failed => ns
    case Events(events) => ns + NotesOf(e, events)
  }

  lemma OutcomeHears(h: A.Host, l: Letters, ns: seq<Note>, c: Account, now: int, e: R.ProviderEvent,
                     outcome: R.Outcome)
    requires Represents(ns, c.agent.speech) && (outcome.Events? ==> e.TextOutput? || Silent(outcome.events))
    ensures var more := NotesAfter(ns, e, outcome);
            Hears(more, outcome.Events? && IsDue(more, e), now, ReactingAccount(h, l, c, now, e, outcome))
  {
    if outcome.Events? {
      CollectedHears(h, l, ns, c, now, e, outcome.events);
    }
  }

  lemma HeardAfter(ns: seq<Note>, c: Account, now: int, e: R.ProviderEvent, random: Id)
    requires R.Bounded(c.agent.mapper)
    ensures ns + StepHeard(c, MapStep(now, e, random)) ==
            if Filtering(c, e).1 then ns else NotesAfter(ns, e, R.Mapping(c.agent.mapper, e, random).1)
  {
    assert ns + [] == ns;
  }

  lemma MappedHears(h: A.Host, l: Letters, ns: seq<Note>, c: Account, now: int, e: R.ProviderEvent, random: Id)
    requires R.Bounded(c.agent.mapper) && Represents(ns, c.agent.speech)
    ensures var step := MapStep(now, e, random);
            var more := ns + StepHeard(c, step);
            Hears(more, DueHere(more, c, step), now, MappingAccount(h, l, c, now, e, random))
  {
    var (c1, ignored) := Filtering(c, e);
    HeardAfter(ns, c, now, e, random);
    if !ignored {
      var (m, outcome) := R.Mapping(c1.agent.mapper, e, random);
      if outcome.Events? && !e.TextOutput? {
        OnlyTextSpeaks(c.agent.mapper, e, random, outcome);
      }
      OutcomeHears(h, l, ns, c1.(agent := c1.agent.(mapper := m)), now, e, outcome);
    }
  }

  lemma TakenHears(h: A.Host, c: Account, now: int, e: Input)
    ensures NoUtterance(TakingAccount(h, c, now, e).1) && TakingAccount(h, c, now, e).0.agent.speech == c.agent.speech
  {
    match e
    case ToolConfirm(operation, approved) =>
      ConfirmKeeps(h, c, now, operation, approved);
      PressedOthers(h, c, now, operation, approved);
      BeginningPlans(h, c, now, WELCOME);
    case AudioAppend(turn, sequence) => HeardNothing(c, turn, sequence);
    case _ => TakingSaysNothing(h, c.agent, now, e);
  }

  lemma HeardNothing(c: Account, turn: Id, sequence: nat)
    ensures NoUtterance(HearingAccount(c, turn, sequence).1)
    ensures HearingAccount(c, turn, sequence).0.agent.speech == c.agent.speech
  {
  }

  lemma DeliveredNothing(h: A.Host, c: Account)
    requires c.agent.pool.channel != []
    ensures NoUtterance(DeliveringAccount(h, c).1) && DeliveringAccount(h, c).0.agent.speech == c.agent.speech
  {
  }

  lemma TimedNothing(c: Account, late: bool)
    ensures NoUtterance(RenewingAccount(c, late).1) && RenewingAccount(c, late).0.agent.speech == c.agent.speech
    ensures NoUtterance(TimingOutAccount(c).1) && TimingOutAccount(c).0.agent.speech == c.agent.speech
  {
    TimersSayNothing(c.agent, late);
  }

  lemma StepHears(h: A.Host, l: Letters, ns: seq<Note>, c: Account, step: Step, r: Response)
    requires R.Bounded(c.agent.mapper) && Enabled(c.agent, step) && Represents(ns, c.agent.speech)
    requires r == NextAccount(h, l, c, step)
    ensures Hears(ns + StepHeard(c, step), DueHere(ns + StepHeard(c, step), c, step), Clock(step), r)
  {
    assert ns + [] == ns;
    match step
    case TakeStep(now, e) => TakenHears(h, c, now, e);
    case RenewStep(late) => TimedNothing(c, late);
    case TimeOutStep => TimedNothing(c, true);
    case FinishStep(_, _) =>
    case DeliverStep => DeliveredNothing(h, c);
    case MapStep(now, e, random) => MappedHears(h, l, ns, c, now, e, random);
  }

  lemma OpeningHears(r: Recording)
    ensures At(r, 0).agent.speech == Speech(map[], map[], "", "")
  {
    assert r.steps[..0] == [];
  }

  lemma {:induction false} RunHears(r: Recording, k: nat)
    requires k <= |r.steps|
    ensures At(r, k).agent.over || Represents(HeardBefore(r, k), At(r, k).agent.speech)
  {
    if k == 0 {
      OpeningHears(r);
      NothingSaid();
    } else {
      RunHears(r, k - 1);
      OneStep(r, k - 1);
      if Happens(r, k - 1) {
        var c, step := At(r, k - 1), r.steps[k - 1];
        StepHears(r.host, r.letters, HeardBefore(r, k - 1), c, step, NextAccount(r.host, r.letters, c, step));
      } else {
        assert HeardBefore(r, k - 1) + [] == HeardBefore(r, k - 1);
      }
    }
  }

  /**
   Over every run and in every step of it, as in the personal assistant: the planner is told one utterance exactly when
   one is due, and it is the whole of what the turn's contents have said since the turn took over, among the events
   that pass the filter.
   */
  lemma AccountUtterancesAreWhole(r: Recording, k: nat)
    requires Happens(r, k)
    ensures SaysWhole(HeardBefore(r, k + 1), DueHere(HeardBefore(r, k + 1), At(r, k), r.steps[k]), Clock(r.steps[k]),
                      OutputsAt(r, k))
  {
    RunHears(r, k);
    StepHears(r.host, r.letters, HeardBefore(r, k), At(r, k), r.steps[k],
              NextAccount(r.host, r.letters, At(r, k), r.steps[k]));
  }

  /**
   What accepts or declines the invitation by voice is a whole utterance of the user: its words are one of the listed
   answers, so no part of it was left out.
   */
  lemma AnswersAreWhole(r: Recording, k: nat)
    requires Happens(r, k) && r.steps[k].MapStep?
    ensures var heard := HeardBefore(r, k + 1);
            && (Accepts(r.letters, r.steps[k], OutputsAt(r, k)) <==>
                DueHere(heard, At(r, k), r.steps[k]) &&
                exists turn, text :: IsUtterance(heard, turn, text) && Affirms(r.letters, text))
            && (Declines(r.letters, r.steps[k], OutputsAt(r, k)) <==>
                DueHere(heard, At(r, k), r.steps[k]) &&
                exists turn, text :: IsUtterance(heard, turn, text) && Refuses(r.letters, text))
  {
    var heard, outputs, now := HeardBefore(r, k + 1), OutputsAt(r, k), r.steps[k].now;
    AccountUtterancesAreWhole(r, k);
    WholeAnswers(r.letters, heard, DueHere(heard, At(r, k), r.steps[k]), now, outputs);
  }

  lemma WholeAnswers(l: Letters, heard: seq<Note>, due: bool, now: int, outputs: seq<Output>)
    requires SaysWhole(heard, due, now, outputs)
    ensures Accepted(l, now, outputs) <==>
            due && exists turn, text :: IsUtterance(heard, turn, text) && Affirms(l, text)
    ensures Declined(l, now, outputs) <==>
            due && exists turn, text :: IsUtterance(heard, turn, text) && Refuses(l, text)
  {
    if due {
      var turn, text, rest :| IsUtterance(heard, turn, text) &&
        outputs == [Planned(P.ObserveOp(now, turn, text))] + rest && NoUtterance(rest);
      assert outputs[0] == Planned(P.ObserveOp(now, turn, text));
      forall t, said | Planned(P.ObserveOp(now, t, said)) in outputs
        ensures t == turn && said == text
      {
        assert Planned(P.ObserveOp(now, t, said)) !in rest;
      }
      forall t, said | IsUtterance(heard, t, said)
        ensures said == text
      {
        UtteranceIsUnique(heard, t, said, turn, text);
      }
    }
  }
}
