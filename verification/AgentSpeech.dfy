/**
 What the planner is told of the user's speech, over all runs of the personal assistant's loop
 (apps/personal-assistant-agent/internal/agent/runtime.go).
 */
module AgentSpeech {
  import R = RealtimeMapper
  import A = ActionRuntime
  import P = Approval
  import opened AgentParts
  import opened AgentLoop
  import opened AgentRuns
  import opened AgentPlans
  import opened Utterances

  /** What a mapped event tells, in any state of the mapper. */
  function NotesBy(m: R.MapperState, e: R.ProviderEvent, random: Id): seq<Note>
    requires R.Bounded(m)
  {
    match R.Mapping(m, e, random).1
    case Failed => []
    case Events(events) => NotesOf(e, events)
  }

  function StepNotes(a: Agent, step: Step): seq<Note>
    requires R.Bounded(a.mapper)
  {
    match step
    case MapStep(_, e, random) => NotesBy(a.mapper, e, random)
    case _ => []
  }

  /** All that the events mapped in a run have told. */
  ghost function NotesIn(h: A.Host, steps: seq<Step>): seq<Note> {
    if steps == [] then []
    else
      var before, step := steps[..|steps| - 1], steps[|steps| - 1];
      var a := Run(h, before).0;
      NotesIn(h, before) + if Enabled(a, step) then StepNotes(a, step) else []
  }

  predicate NoUtterance(outputs: seq<Output>) {
    forall i | 0 <= i < |outputs| && outputs[i].Planned? :: !outputs[i].op.ObserveOp?
  }

  /** The outputs hold one utterance, the user's whole one, exactly when one is due. */
  ghost predicate SaysWhole(ns: seq<Note>, due: bool, now: int, outputs: seq<Output>) {
    if due then
      exists turn, text, rest ::
        IsUtterance(ns, turn, text) && outputs == [Planned(P.ObserveOp(now, turn, text))] + rest && NoUtterance(rest)
    else NoUtterance(outputs)
  }

  lemma ToolsSayNothing(h: A.Host, a: Agent, now: int, e: R.ProviderEvent, events: seq<R.ServerEvent>)
    ensures NoUtterance(Tools(h, a, now, e, events).1) && Tools(h, a, now, e, events).0.speech == a.speech
  {
    if e.ContentEnd? && e.cid in a.staged {
      RunningSaysNothing(h, a.(staged := a.staged - {e.cid}), now, a.staged[e.cid]);
    }
  }

  lemma RunningSaysNothing(h: A.Host, a: Agent, now: int, call: StagedCall)
    ensures NoUtterance(Running(h, a, now, call).1) && Running(h, a, now, call).0.speech == a.speech
  {
  }

  /** An utterance is due: content begins that is not the user's, and the user has finished saying something. */
  ghost predicate IsDue(ns: seq<Note>, e: R.ProviderEvent) {
    e.ContentStart? && e.role != R.User && HasUtterance(ns)
  }

  lemma ObservedSays(h: A.Host, ns: seq<Note>, a: Agent, now: int, e: R.ProviderEvent, events: seq<R.ServerEvent>)
    requires Represents(ns, a.speech)
    ensures var observed := Observing(h, a, now, e);
            SaysWhole(ns, IsDue(ns, e), now, observed.1 + Tools(h, observed.0, now, e, events).1)
  {
    BoundaryIff(ns, a.speech, e);
    var observed := Observing(h, a, now, e);
    ToolsSayNothing(h, observed.0, now, e, events);
    if !AtBoundary(a.speech, e) {
      assert [] + Tools(h, observed.0, now, e, events).1 == Tools(h, observed.0, now, e, events).1;
    }
  }

  /** What a step does with the user's speech: it keeps it, and says it when it is due. */
  ghost predicate Listens(ns: seq<Note>, due: bool, now: int, r: Reaction) {
    (r.0.over || Represents(ns, r.0.speech)) && SaysWhole(ns, due, now, r.1)
  }

  lemma ReactedListens(h: A.Host, ns: seq<Note>, a: Agent, now: int, e: R.ProviderEvent, events: seq<R.ServerEvent>)
    requires Represents(ns, a.speech) && (e.TextOutput? || Silent(events))
    ensures var more := ns + NotesOf(e, events);
            Listens(more, IsDue(more, e), now, Reacting(h, a, now, e, R.Events(events)))
  {
    var (speech, ok) := Collecting(a.speech, e, events);
    if !e.TextOutput? {
      SilentFragments(a.speech, ContentOf(e), events);
    }
    if ok {
      var more := ns + NotesOf(e, events);
      CollectedRepresents(ns, a.speech, e, events);
      ObservedSays(h, more, a.(speech := speech), now, e, events);
      ToolsSayNothing(h, Observing(h, a.(speech := speech), now, e).0, now, e, events);
    }
  }

  lemma MappedListens(h: A.Host, ns: seq<Note>, a: Agent, now: int, e: R.ProviderEvent, random: Id)
    requires R.Bounded(a.mapper) && Represents(ns, a.speech)
    ensures var more := ns + NotesBy(a.mapper, e, random);
            Listens(more, R.Mapping(a.mapper, e, random).1.Events? && IsDue(more, e), now,
                    Mapping(h, a, now, e, random))
  {
    var (m, outcome) := R.Mapping(a.mapper, e, random);
    if outcome.Events? {
      if !e.TextOutput? {
        OnlyTextSpeaks(a.mapper, e, random, outcome);
      }
      ReactedListens(h, ns, a.(mapper := m), now, e, outcome.events);
    }
  }

  lemma TakingSaysNothing(h: A.Host, a: Agent, now: int, e: Input)
    ensures NoUtterance(Taking(h, a, now, e).1) && Taking(h, a, now, e).0.speech == a.speech
  {
  }

  lemma TimersSayNothing(a: Agent, late: bool)
    ensures NoUtterance(Renewing(a, late).1) && Renewing(a, late).0.speech == a.speech
    ensures NoUtterance(TimingOut(a).1) && TimingOut(a).0.speech == a.speech
  {
  }

  /** An utterance is due in a step. */
  ghost predicate DueIn(ns: seq<Note>, a: Agent, step: Step)
    requires R.Bounded(a.mapper)
  {
    step.MapStep? && R.Mapping(a.mapper, step.event, step.random).1.Events? && IsDue(ns, step.event)
  }

  function Clock(step: Step): int {
    if step.MapStep? then step.now else 0
  }

  lemma StepListens(h: A.Host, ns: seq<Note>, a: Agent, step: Step, r: Reaction)
    requires R.Bounded(a.mapper) && Enabled(a, step) && Represents(ns, a.speech) && r == Next(h, a, step)
    ensures Listens(ns + StepNotes(a, step), DueIn(ns + StepNotes(a, step), a, step), Clock(step), r)
  {
    assert ns + [] == ns;
    match step
    case TakeStep(now, e) => TakingSaysNothing(h, a, now, e);
    case RenewStep(late) => TimersSayNothing(a, late);
    case TimeOutStep => TimersSayNothing(a, true);
    case FinishStep(_, _) =>
    case DeliverStep =>
    case MapStep(now, e, random) => MappedListens(h, ns, a, now, e, random);
  }

  lemma {:induction false} RunRepresents(h: A.Host, steps: seq<Step>)
    ensures Run(h, steps).0.over || Represents(NotesIn(h, steps), Run(h, steps).0.speech)
  {
    if steps == [] {
      NothingSaid();
    } else {
      var before, step := steps[..|steps| - 1], steps[|steps| - 1];
      RunRepresents(h, before);
      var a := Run(h, before).0;
      if Enabled(a, step) {
        StepListens(h, NotesIn(h, before), a, step, Next(h, a, step));
      } else {
        assert NotesIn(h, before) + [] == NotesIn(h, before);
      }
    }
  }

  /**
   Over every run and in every step of it: the planner is told an utterance if and only if content that is not the
   user's begins, the user has finished saying something and no content is still speaking. It is told one, which names
   the turn that spoke last and is the whole of what its contents have said since the turn took over: the final user
   transcripts of the contents that have ended, in order.
   */
  lemma UtterancesAreWhole(h: A.Host, steps: seq<Step>)
    requires steps != [] && Enabled(Run(h, steps[..|steps| - 1]).0, steps[|steps| - 1])
    ensures var a, step := Run(h, steps[..|steps| - 1]).0, steps[|steps| - 1];
            SaysWhole(NotesIn(h, steps), DueIn(NotesIn(h, steps), a, step), Clock(step), Next(h, a, step).1)
  {
    var before, step := steps[..|steps| - 1], steps[|steps| - 1];
    var a := Run(h, before).0;
    RunRepresents(h, before);
    StepListens(h, NotesIn(h, before), a, step, Next(h, a, step));
  }

  // ----- the planner's calls -----

  /** When the planner was told it, the utterance was the user's whole one. */
  ghost predicate WasSaid(h: A.Host, steps: seq<Step>, op: P.Op) {
    op.ObserveOp? ==> exists n :: 0 <= n <= |steps| && SaidBy(h, steps[..n], op)
  }

  /** The last of the steps tells the planner what is the user's whole utterance at that point. */
  ghost predicate SaidBy(h: A.Host, steps: seq<Step>, op: P.Op)
    requires op.ObserveOp?
  {
    && steps != [] && Enabled(Run(h, steps[..|steps| - 1]).0, steps[|steps| - 1])
    && Planned(op) in Next(h, Run(h, steps[..|steps| - 1]).0, steps[|steps| - 1]).1
    && IsUtterance(NotesIn(h, steps), op.turn, op.text)
  }

  lemma OpIsPlanned(outputs: seq<Output>, k: nat)
    requires k < |OpsOf(outputs)|
    ensures Planned(OpsOf(outputs)[k]) in outputs
  {
    CallsAreCalls(outputs, k);
  }

  lemma {:induction false} CallsAreCalls(outputs: seq<Output>, k: nat)
    requires k < |Only(Calls, outputs)|
    ensures Only(Calls, outputs)[k].Planned? && Only(Calls, outputs)[k] in outputs
  {
    if k < |Only(Calls, outputs[..|outputs| - 1])| {
      CallsAreCalls(outputs[..|outputs| - 1], k);
    }
  }

  lemma StepSaid(h: A.Host, steps: seq<Step>, k: nat)
    requires steps != [] && Enabled(Run(h, steps[..|steps| - 1]).0, steps[|steps| - 1])
    requires k < |OpsOf(Next(h, Run(h, steps[..|steps| - 1]).0, steps[|steps| - 1]).1)|
    ensures WasSaid(h, steps, OpsOf(Next(h, Run(h, steps[..|steps| - 1]).0, steps[|steps| - 1]).1)[k])
  {
    var a, step := Run(h, steps[..|steps| - 1]).0, steps[|steps| - 1];
    UtterancesAreWhole(h, steps);
    var op := OpsOf(Next(h, a, step).1)[k];
    OpIsPlanned(Next(h, a, step).1, k);
    assert op.ObserveOp? ==> SaidBy(h, steps[..|steps|], op) by {
      assert steps[..|steps|] == steps;
    }
  }

  lemma SaidGrows(h: A.Host, steps: seq<Step>, op: P.Op)
    requires steps != [] && WasSaid(h, steps[..|steps| - 1], op)
    ensures WasSaid(h, steps, op)
  {
    if op.ObserveOp? {
      var n :| 0 <= n <= |steps| - 1 && SaidBy(h, steps[..|steps| - 1][..n], op);
      assert steps[..|steps| - 1][..n] == steps[..n];
    }
  }

  lemma OpsGrow(h: A.Host, steps: seq<Step>)
    requires steps != []
    ensures var (a, outputs) := Run(h, steps[..|steps| - 1]);
            OpsOf(Run(h, steps).1) ==
            OpsOf(outputs) +
            if Enabled(a, steps[|steps| - 1]) then OpsOf(Next(h, a, steps[|steps| - 1]).1) else []
  {
    var before, step := steps[..|steps| - 1], steps[|steps| - 1];
    var (a, outputs) := Run(h, before);
    if Enabled(a, step) {
      OpsOfParts(outputs, Next(h, a, step).1);
    }
  }

  /** Every utterance in the calls of a run was said. */
  lemma {:induction false} AllWereSaid(h: A.Host, steps: seq<Step>, k: nat)
    requires k < |OpsOf(Run(h, steps).1)|
    ensures WasSaid(h, steps, OpsOf(Run(h, steps).1)[k])
  {
    if steps != [] {
      var before := steps[..|steps| - 1];
      var earlier := OpsOf(Run(h, before).1);
      OpsGrow(h, steps);
      if k < |earlier| {
        AllWereSaid(h, before, k);
        SaidGrows(h, steps, earlier[k]);
      } else {
        StepSaid(h, steps, k - |earlier|);
      }
    }
  }

  /**
   Over every run of the loop, every confirmed job that begins goes back to a pending request of the model, approved
   in the app or by the user's whole utterance, in another turn and in the exact phrase, unreplaced and within
   60 seconds.
   */
  lemma ConfirmedWorkWasApproved(h: A.Host, steps: seq<Step>, i: nat)
    requires i < |Run(h, steps).1| && Run(h, steps).1[i].Begin? && Run(h, steps).1[i].worker.job.confirmed
    ensures var ops := OpsOf(Run(h, steps).1);
            exists from: nat, k: nat, n: nat ::
              P.Provenance(h, ops, from, k, n, Run(h, steps).1[i].worker.job) && WasSaid(h, steps, ops[k])
  {
    PlannerAccounted(h, steps);
    var outputs := Run(h, steps).1;
    var j, ops := outputs[i].worker.job, OpsOf(outputs);
    var last: nat :| P.Releases(h, ops, last, j);
    P.ConfirmedJobsWereApproved(h, ops, last, j);
    var from: nat, k: nat :| P.Provenance(h, ops, from, k, last, j);
    AllWereSaid(h, steps, k);
  }
}
