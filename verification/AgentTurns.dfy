/** What the personal assistant's loop asks of its mappers, and how the audio of its turns is numbered. */
module AgentTurns {
  import opened Basics
  import R = RealtimeMapper
  import A = ActionRuntime
  import M = MapperRuns
  import opened AgentParts
  import opened WorkerPool
  import opened AgentLoop
  import opened AgentRuns
  import opened MapperLife

  /** The calls of one mapper, made with a history. */
  datatype Life = Life(history: seq<R.Message>, calls: seq<M.Call>)

  function Born(history: seq<R.Message>): Life {
    Life(history, [])
  }

  function Aged(l: Life, calls: seq<M.Call>): Life {
    l.(calls := l.calls + calls)
  }

  /** The calls that a step makes on the mapper it finds. */
  function CallsOf(a: Agent, step: Step): seq<M.Call> {
    match step
    case TakeStep(_, AudioAppend(turn, sequence)) =>
      if Hearing(a.inputs, turn, sequence).1 == Opened then [M.InputCall(turn)] else []
    case TakeStep(_, TurnCancel(turn)) =>
      if turn != a.mapper.turn || a.mapper.activity == R.Idle then [] else [M.InterruptCall]
    case RenewStep(late) =>
      if a.pool.active != {} || (a.mapper.activity != R.Idle && !late) then [] else [M.InterruptCall]
    case TimeOutStep => [M.InterruptCall]
    case MapStep(_, e, random) => [M.MapCall(e, random)]
    case _ => []
  }

  /** Another stream has another mapper. */
  function Lives(l: Life, a: Agent, step: Step, a': Agent): Life {
    if a'.stream != a.stream then Born(a'.mapper.history) else Aged(l, CallsOf(a, step))
  }

  /** The life of the mapper that the loop has after these steps. */
  ghost function LifeOf(h: A.Host, steps: seq<Step>): Life {
    if steps == [] then Born([])
    else
      var before, step := steps[..|steps| - 1], steps[|steps| - 1];
      var a := Run(h, before).0;
      if !Enabled(a, step) then LifeOf(h, before) else Lives(LifeOf(h, before), a, step, Next(h, a, step).0)
  }

  predicate Lived(l: Life, m: R.MapperState) {
    After(R.Fresh(l.history), l.calls) == m
  }

  lemma LivesOn(l: Life, m: R.MapperState, calls: seq<M.Call>)
    requires Lived(l, m)
    ensures R.Bounded(m) && Lived(Aged(l, calls), After(m, calls))
  {
    AfterParts(R.Fresh(l.history), l.calls, calls);
  }

  // ----- each step makes its calls -----

  lemma InterruptedCalls(a: Agent)
    requires R.Bounded(a.mapper)
    ensures After(a.mapper, [M.InterruptCall]) == Interrupted(a).0.mapper
  {
    AfterOne(a.mapper, M.InterruptCall);
  }

  lemma HearingCalls(a: Agent, turn: Id, sequence: nat)
    requires R.Bounded(a.mapper)
    ensures var a' := HearingAudio(a, turn, sequence).0;
            a'.stream == a.stream && a'.mapper ==
              After(a.mapper, if Hearing(a.inputs, turn, sequence).1 == Opened then [M.InputCall(turn)] else [])
  {
    AfterOne(a.mapper, M.InputCall(turn));
  }

  lemma CancellingCalls(a: Agent, turn: Id)
    requires R.Bounded(a.mapper)
    ensures var a' := Cancelling(a, turn).0;
            if a'.stream != a.stream then a'.mapper == R.Fresh(a'.mapper.history)
            else a'.mapper == After(a.mapper, if turn != a.mapper.turn || a.mapper.activity == R.Idle then []
                                    else [M.InterruptCall])
  {
    InterruptedCalls(a);
  }

  lemma RenewingCalls(a: Agent, late: bool)
    requires R.Bounded(a.mapper)
    ensures var a' := Renewing(a, late).0;
            if a'.stream != a.stream then a'.mapper == R.Fresh(a'.mapper.history) else a'.mapper == a.mapper
    ensures Renewing(a, late).0.stream == a.stream <==> (a.pool.active != {} || (a.mapper.activity != R.Idle && !late))
  {
  }

  lemma MappingCalls(h: A.Host, a: Agent, now: int, e: R.ProviderEvent, random: Id)
    requires R.Bounded(a.mapper)
    ensures Mapping(h, a, now, e, random).0.mapper == After(a.mapper, [M.MapCall(e, random)])
    ensures Mapping(h, a, now, e, random).0.stream == a.stream
  {
    AfterOne(a.mapper, M.MapCall(e, random));
    var mapped := R.Mapping(a.mapper, e, random);
    ReactingKeeps(h, a.(mapper := mapped.0), now, e, mapped.1);
  }

  lemma TakingCalls(h: A.Host, a: Agent, now: int, e: Input)
    requires R.Bounded(a.mapper)
    ensures var a' := Taking(h, a, now, e).0;
            if a'.stream != a.stream then a'.mapper == R.Fresh(a'.mapper.history)
            else a'.mapper == After(a.mapper, CallsOf(a, TakeStep(now, e)))
  {
    match e
    case AudioAppend(turn, sequence) => HearingCalls(a, turn, sequence);
    case TurnCancel(turn) => CancellingCalls(a, turn);
    case _ =>
  }

  lemma StepCalls(h: A.Host, a: Agent, step: Step)
    requires R.Bounded(a.mapper) && Enabled(a, step)
    ensures var a' := Next(h, a, step).0;
            if a'.stream != a.stream then a'.mapper == R.Fresh(a'.mapper.history)
            else a'.mapper == After(a.mapper, CallsOf(a, step))
  {
    match step
    case TakeStep(now, e) => TakingCalls(h, a, now, e);
    case RenewStep(late) => RenewingCalls(a, late);
    case TimeOutStep => InterruptedCalls(a);
    case MapStep(now, e, random) => MappingCalls(h, a, now, e, random);
    case _ =>
  }

  lemma StepLives(l: Life, a: Agent, step: Step, a': Agent)
    requires Lived(l, a.mapper) && R.Bounded(a.mapper)
    requires if a'.stream != a.stream then a'.mapper == R.Fresh(a'.mapper.history)
             else a'.mapper == After(a.mapper, CallsOf(a, step))
    ensures Lived(Lives(l, a, step, a'), a'.mapper)
  {
    LivesOn(l, a.mapper, CallsOf(a, step));
  }

  /** The loop's mapper is where the calls of its life have taken it. */
  lemma {:induction false} MapperLived(h: A.Host, steps: seq<Step>)
    ensures Lived(LifeOf(h, steps), Run(h, steps).0.mapper)
  {
    if steps != [] {
      var before, step := steps[..|steps| - 1], steps[|steps| - 1];
      MapperLived(h, before);
      var a := Run(h, before).0;
      if Enabled(a, step) {
        StepCalls(h, a, step);
        StepLives(LifeOf(h, before), a, step, Next(h, a, step).0);
      }
    }
  }

  // ----- inputs are named once -----

  ghost predicate OwnLife(l: Life, used: set<Id>) {
    OwnInputs(l.calls) && NamesOnce(l.calls, used)
  }

  lemma AgedOwn(l: Life, used: set<Id>, calls: seq<M.Call>, used': set<Id>)
    requires OwnLife(l, used) && used <= used' && |calls| <= 1
    requires calls != [] && Named(calls[0]) ==> calls[0].id != "" && calls[0].id !in used && calls[0].id in used'
    requires calls != [] ==> !calls[0].AssistantCall?
    ensures OwnLife(Aged(l, calls), used')
  {
    if calls == [] {
      assert l.calls + calls == l.calls;
    } else {
      OwnInputsGrow(l.calls, used, calls[0]);
      assert l.calls + calls == l.calls + [calls[0]];
    }
  }

  lemma StepUses(h: A.Host, a: Agent, step: Step)
    requires R.Bounded(a.mapper) && Enabled(a, step)
    ensures a.inputs.used <= Next(h, a, step).0.inputs.used
    ensures CallsOf(a, step) != [] && Named(CallsOf(a, step)[0]) ==>
              var id := CallsOf(a, step)[0].id; id != "" && id !in a.inputs.used && id in Next(h, a, step).0.inputs.used
  {
    if step.MapStep? {
      var mapped := R.Mapping(a.mapper, step.event, step.random);
      ReactingKeeps(h, a.(mapper := mapped.0), step.now, step.event, mapped.1);
    }
  }

  lemma {:induction false} LifeOwn(h: A.Host, steps: seq<Step>)
    ensures OwnLife(LifeOf(h, steps), Run(h, steps).0.inputs.used)
  {
    if steps != [] {
      var before, step := steps[..|steps| - 1], steps[|steps| - 1];
      LifeOwn(h, before);
      var a := Run(h, before).0;
      if Enabled(a, step) {
        StepUses(h, a, step);
        AgedOwn(LifeOf(h, before), a.inputs.used, CallsOf(a, step), Next(h, a, step).0.inputs.used);
      }
    }
  }

  /** What a mapper has emitted in its life. */
  function EmittedIn(l: Life): seq<R.ServerEvent> {
    M.Emitted(R.Fresh(l.history), l.calls)
  }

  /**
   Over every run, the calls of the current mapper use fresh ids exactly when the ids that the server draws are not
   empty, not drawn again, and not named by the client; and then each turn is started at most once and its audio is
   numbered from 1 without a gap.
   */
  lemma TurnsAreFreshIff(h: A.Host, steps: seq<Step>, turn: Id)
    ensures var l := LifeOf(h, steps);
            && Lived(l, Run(h, steps).0.mapper)
            && (M.FreshRun(l.calls, {}) <==> DrawsFresh(l.calls))
            && (DrawsFresh(l.calls) && turn != "" ==>
                  M.Starts(EmittedIn(l), turn) <= 1
                  && M.NumbersOf(EmittedIn(l), turn) == M.From(1, |M.NumbersOf(EmittedIn(l), turn)|))
  {
    var l := LifeOf(h, steps);
    MapperLived(h, steps);
    LifeOwn(h, steps);
    FreshIffDrawsFresh(l.calls);
    if DrawsFresh(l.calls) && turn != "" {
      M.FreshIdsNumberEveryTurn(l.history, l.calls, turn);
    }
  }
}
