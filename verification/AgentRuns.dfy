/** Runs of the personal assistant's loop, with workers that finish at any time. */
module AgentRuns {
  import opened Basics
  import R = RealtimeMapper
  import A = ActionRuntime
  import M = MapperRuns
  import opened AgentParts
  import opened WorkerPool
  import opened AgentLoop

  datatype Step =
    | TakeStep(now: int, input: Input)
    | RenewStep(late: bool)
    | TimeOutStep
    | FinishStep(k: nat, result: A.ToolResult)
    | DeliverStep
    | MapStep(now: int, event: R.ProviderEvent, random: Id)

  /** Client events arrive checked: audio names its turn by a valid id. */
  predicate Enabled(a: Agent, step: Step) {
    && !a.over
    && (step.TakeStep? && step.input.AudioAppend? ==> ValidId(step.input.turn))
    && (step.FinishStep? ==> CanFinish(a.pool, step.k))
    && (step.DeliverStep? ==> a.pool.channel != [])
  }

  /** A worker leaves its result in the channel. */
  function Ending(a: Agent, k: nat, result: A.ToolResult): Reaction
    requires CanFinish(a.pool, k)
  {
    (a.(pool := Finishing(a.pool, k, result)), [])
  }

  ghost function Next(h: A.Host, a: Agent, step: Step): Reaction
    requires R.Bounded(a.mapper) && Enabled(a, step)
  {
    match step
    case TakeStep(now, e) => Taking(h, a, now, e)
    case RenewStep(late) => Renewing(a, late)
    case TimeOutStep => TimingOut(a)
    case FinishStep(k, result) => Ending(a, k, result)
    case DeliverStep => Delivering(h, a)
    case MapStep(now, e, random) => Mapping(h, a, now, e, random)
  }

  // ----- the mapper stays within its limits -----

  lemma CancellingBounded(a: Agent, turn: Id)
    requires R.Bounded(a.mapper)
    ensures R.Bounded(Cancelling(a, turn).0.mapper)
  {
    M.OwnerKeepsContents(a.mapper, "");
  }

  lemma HearingBounded(a: Agent, turn: Id, sequence: nat)
    requires R.Bounded(a.mapper)
    ensures R.Bounded(HearingAudio(a, turn, sequence).0.mapper)
  {
    M.OwnerKeepsContents(a.mapper, turn);
  }

  lemma TakingBounded(h: A.Host, a: Agent, now: int, e: Input)
    requires R.Bounded(a.mapper)
    ensures R.Bounded(Taking(h, a, now, e).0.mapper)
  {
    match e
    case AudioAppend(turn, sequence) => HearingBounded(a, turn, sequence);
    case TurnCancel(turn) => CancellingBounded(a, turn);
    case _ =>
  }

  lemma TimersBounded(a: Agent, late: bool)
    requires R.Bounded(a.mapper)
    ensures R.Bounded(Renewing(a, late).0.mapper) && R.Bounded(TimingOut(a).0.mapper)
  {
    M.OwnerKeepsContents(a.mapper, "");
  }

  lemma ToolsKeep(h: A.Host, a: Agent, now: int, e: R.ProviderEvent, events: seq<R.ServerEvent>)
    ensures Tools(h, a, now, e, events).0.mapper == a.mapper && Tools(h, a, now, e, events).0.speech == a.speech
    ensures Tools(h, a, now, e, events).0.stream == a.stream && Tools(h, a, now, e, events).0.inputs == a.inputs
  {
  }

  lemma ReactingKeeps(h: A.Host, a: Agent, now: int, e: R.ProviderEvent, outcome: R.Outcome)
    ensures Reacting(h, a, now, e, outcome).0.mapper == a.mapper && Reacting(h, a, now, e, outcome).0.stream == a.stream
    ensures Reacting(h, a, now, e, outcome).0.inputs == a.inputs
  {
    if outcome.Events? && Collecting(a.speech, e, outcome.events).1 {
      var a0 := a.(speech := Collecting(a.speech, e, outcome.events).0);
      ToolsKeep(h, Observing(h, a0, now, e).0, now, e, outcome.events);
    }
  }

  lemma MappingBounded(h: A.Host, a: Agent, now: int, e: R.ProviderEvent, random: Id)
    requires R.Bounded(a.mapper)
    ensures R.Bounded(Mapping(h, a, now, e, random).0.mapper)
  {
    var mapped := R.Mapping(a.mapper, e, random);
    M.MappingKeepsBounded(a.mapper, e, random);
    ReactingKeeps(h, a.(mapper := mapped.0), now, e, mapped.1);
  }

  lemma StepBounded(h: A.Host, a: Agent, step: Step)
    requires R.Bounded(a.mapper) && Enabled(a, step)
    ensures R.Bounded(Next(h, a, step).0.mapper)
  {
    match step
    case TakeStep(now, e) => TakingBounded(h, a, now, e);
    case RenewStep(late) => TimersBounded(a, late);
    case TimeOutStep => TimersBounded(a, true);
    case MapStep(now, e, random) => MappingBounded(h, a, now, e, random);
    case _ =>
  }

  // ----- runs -----

  /** The loop after these steps, and all it has put out; steps that cannot happen are skipped. */
  ghost function Run(h: A.Host, steps: seq<Step>): (r: Reaction)
    ensures R.Bounded(r.0.mapper)
  {
    if steps == [] then (Opening(), [])
    else
      var (a, outputs) := Run(h, steps[..|steps| - 1]);
      var step := steps[|steps| - 1];
      if !Enabled(a, step) then (a, outputs)
      else
        StepBounded(h, a, step);
        (Next(h, a, step).0, outputs + Next(h, a, step).1)
  }

  // ----- outputs of one kind -----

  datatype OutputKind = Ears | Calls | Beginnings

  predicate Is(kind: OutputKind, o: Output) {
    match kind
    case Ears => o.ToEar?
    case Calls => o.Planned?
    case Beginnings => o.Begin?
  }

  function Only(kind: OutputKind, outputs: seq<Output>): seq<Output> {
    if outputs == [] then []
    else
      var last := outputs[|outputs| - 1];
      Only(kind, outputs[..|outputs| - 1]) + if Is(kind, last) then [last] else []
  }

  lemma {:induction false} OnlyParts(kind: OutputKind, x: seq<Output>, y: seq<Output>)
    ensures Only(kind, x + y) == Only(kind, x) + Only(kind, y)
  {
    if y == [] {
      assert x + y == x;
    } else {
      var front := y[..|y| - 1];
      OnlyParts(kind, x, front);
      assert (x + y)[..|x + y| - 1] == x + front;
      Associate(Only(kind, x), Only(kind, front), if Is(kind, y[|y| - 1]) then [y[|y| - 1]] else []);
    }
  }

  predicate Free(kind: OutputKind, outputs: seq<Output>) {
    forall i | 0 <= i < |outputs| :: !Is(kind, outputs[i])
  }

  lemma {:induction false} OnlyFree(kind: OutputKind, outputs: seq<Output>)
    requires Free(kind, outputs)
    ensures Only(kind, outputs) == []
  {
    if outputs != [] {
      OnlyFree(kind, outputs[..|outputs| - 1]);
    }
  }

  lemma OnlyOne(kind: OutputKind, before: seq<Output>, o: Output, after: seq<Output>)
    requires Free(kind, before) && Is(kind, o) && Free(kind, after)
    ensures Only(kind, before + [o] + after) == [o]
  {
    OnlyParts(kind, before + [o], after);
    OnlyParts(kind, before, [o]);
    OnlyFree(kind, before);
    OnlyFree(kind, after);
    assert [o][..0] == [];
  }
}
