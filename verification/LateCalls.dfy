/** Runs of the personal assistant's loop in which a tool call begins after its turn was interrupted. */
module LateCalls {
  import opened Basics
  import R = RealtimeMapper
  import A = ActionRuntime
  import P = Approval
  import opened AgentParts
  import opened WorkerPool
  import opened AgentLoop
  import opened AgentRuns

  /** The ids of such a run: the user's turn, the user's content and the tool's, and the call. */
  datatype Late = Late(turn: Id, user: Id, tool: Id, operation: Id, name: string, arguments: string)

  /** The user speaks, the model asks for a tool, the provider interrupts the turn, and then the call's content ends. */
  function LateSteps(l: Late): seq<Step> {
    [TakeStep(0, AudioAppend(l.turn, 1)),
     MapStep(0, R.ContentStart(l.user, R.User, R.OtherKind, R.OtherStage, 0), ""),
     MapStep(0, R.ContentStart(l.tool, R.OtherRole, R.OtherKind, R.OtherStage, 0), ""),
     MapStep(0, R.ToolUse(l.tool, l.operation, l.name, l.arguments), ""),
     MapStep(0, R.Interruption, ""),
     MapStep(0, R.ContentEnd(l.tool, R.OtherStop), "")]
  }

  /** The planner of a new session releases the call. */
  predicate ReleasesFirst(h: A.Host, l: Late) {
    A.Planning(h, A.NewSession(), 0, l.operation, l.name, l.turn, l.arguments).1.1.None?
  }

  function FirstJob(h: A.Host, l: Late): A.Job {
    A.Planning(h, A.NewSession(), 0, l.operation, l.name, l.turn, l.arguments).1.0
  }

  const NO_SPEECH: Speech := Speech(map[], map[], "", "")
  const NO_WORK: Pool := Pool({}, [], [])

  function Spoken(l: Late): R.Content {
    R.Content(l.turn, R.OtherKind, R.User, R.OtherStage, 0, "")
  }

  function Asked(l: Late): R.Content {
    R.Content(l.turn, R.OtherKind, R.OtherRole, R.OtherStage, 0, "")
  }

  function Call(l: Late): StagedCall {
    StagedCall(l.turn, l.operation, l.name, l.arguments, false, 0)
  }

  /** The mapper once the turn has contents, and then once it has been interrupted. */
  function Heard(l: Late, contents: map<Id, R.Content>): R.MapperState {
    R.MapperState(l.turn, R.Listening, [], l.turn, {}, {}, contents, map[], 0, false)
  }

  function Cut(l: Late, contents: map<Id, R.Content>): R.MapperState {
    Heard(l, contents).(activity := R.Idle, cancelled := {l.turn})
  }

  function With(l: Late, m: R.MapperState, staged: map<Id, StagedCall>): Agent {
    Agent(false, A.NewSession(), m, 0, staged, NO_WORK, Inputs(l.turn, 1, {l.turn}), NO_SPEECH)
  }

  // ----- step by step -----

  lemma Speaks(h: A.Host, l: Late)
    requires l.turn != ""
    ensures HearingAudio(Opening(), l.turn, 1) ==
            (With(l, Heard(l, map[]).(waitingUser := true), map[]),
             [Voice(R.TurnStarted(l.turn)), Voice(R.SessionState(l.turn, R.Listening)), ToEar(0, l.turn, 1)])
  {
    assert {} + {l.turn} == {l.turn};
    assert Hearing(Opening().inputs, l.turn, 1) == (Inputs(l.turn, 1, {l.turn}), Opened);
    var events := [R.TurnStarted(l.turn), R.SessionState(l.turn, R.Listening)];
    InputIsMapped(l, Opening().mapper);
    assert Voices(events) == [Voice(R.TurnStarted(l.turn)), Voice(R.SessionState(l.turn, R.Listening))];
    assert Voices(events) + [ToEar(0, l.turn, 1)] ==
           [Voice(R.TurnStarted(l.turn)), Voice(R.SessionState(l.turn, R.Listening)), ToEar(0, l.turn, 1)];
  }

  lemma InputIsMapped(l: Late, m: R.MapperState)
    requires m == R.Fresh([])
    ensures R.StartingInput(m, l.turn) ==
            (Heard(l, map[]).(waitingUser := true), [R.TurnStarted(l.turn), R.SessionState(l.turn, R.Listening)])
  {
    var events := [R.TurnStarted(l.turn), R.SessionState(l.turn, R.Listening)];
    assert R.InterruptingResponse(m) == (m, []);
    assert [] + events == events;
  }

  /** Events that bring no speech, while none has been heard, go straight to the tools. */
  lemma GoesToTools(h: A.Host, a: Agent, e: R.ProviderEvent, events: seq<R.ServerEvent>)
    requires a.speech == NO_SPEECH && Silent(events)
    ensures Reacting(h, a, 0, e, R.Events(events)) == Tools(h, a, 0, e, events)
  {
    SilentFragments(a.speech, ContentOf(e), events);
    assert Collecting(a.speech, e, events) == (a.speech, true);
    assert a.(speech := a.speech) == a;
    var r := Tools(h, a, 0, e, events);
    assert [] + r.1 == r.1;
  }

  lemma UserStarts(h: A.Host, l: Late, a: Agent)
    requires l.turn != "" && a == With(l, Heard(l, map[]).(waitingUser := true), map[])
    ensures Mapping(h, a, 0, R.ContentStart(l.user, R.User, R.OtherKind, R.OtherStage, 0), "") ==
            (With(l, Heard(l, map[l.user := Spoken(l)]), map[]), [Voice(R.SessionState(l.turn, R.Listening))])
  {
    var e := R.ContentStart(l.user, R.User, R.OtherKind, R.OtherStage, 0);
    var m, events := Heard(l, map[l.user := Spoken(l)]), [R.SessionState(l.turn, R.Listening)];
    UserIsMapped(l, e, a.mapper);
    GoesToTools(h, a.(mapper := m), e, events);
    assert Voices(events) == [Voice(R.SessionState(l.turn, R.Listening))];
  }

  lemma UserIsMapped(l: Late, e: R.ProviderEvent, m: R.MapperState)
    requires l.turn != "" && m == Heard(l, map[]).(waitingUser := true)
    requires e == R.ContentStart(l.user, R.User, R.OtherKind, R.OtherStage, 0)
    ensures R.Mapping(m, e, "") == (Heard(l, map[l.user := Spoken(l)]), R.Events([R.SessionState(l.turn, R.Listening)]))
  {
    var s0 := m.(waitingUser := false);
    assert R.InterruptingResponse(s0) == (s0, []);
    assert R.OpeningUserTurn(s0, "") == (s0, []);
    assert s0.contents[l.user := Spoken(l)] == map[l.user := Spoken(l)];
    assert [] + [] + [R.SessionState(l.turn, R.Listening)] == [R.SessionState(l.turn, R.Listening)];
  }

  lemma ToolStarts(h: A.Host, l: Late, a: Agent, contents: map<Id, R.Content>)
    requires |contents| < R.MAX_CONTENTS && R.Bounded(a.mapper) && a == With(l, Heard(l, contents), map[])
    ensures Mapping(h, a, 0, R.ContentStart(l.tool, R.OtherRole, R.OtherKind, R.OtherStage, 0), "") ==
            (With(l, Heard(l, contents[l.tool := Asked(l)]), map[]), [])
  {
    var e := R.ContentStart(l.tool, R.OtherRole, R.OtherKind, R.OtherStage, 0);
    var m := Heard(l, contents[l.tool := Asked(l)]);
    assert R.Mapping(a.mapper, e, "") == (m, R.Events([]));
    GoesToTools(h, a.(mapper := m), e, []);
    assert Voices([]) == [];
  }

  lemma Stages(h: A.Host, l: Late, a: Agent, contents: map<Id, R.Content>)
    requires l.tool in contents && contents[l.tool] == Asked(l) && R.Bounded(a.mapper)
    requires a == With(l, Heard(l, contents), map[])
    ensures Mapping(h, a, 0, R.ToolUse(l.tool, l.operation, l.name, l.arguments), "") ==
            (With(l, Heard(l, contents), map[l.tool := Call(l)]), [])
  {
    var e := R.ToolUse(l.tool, l.operation, l.name, l.arguments);
    var events := [R.ToolStarted(l.turn, l.operation, l.name, l.arguments)];
    assert R.Mapping(a.mapper, e, "") == (a.mapper, R.Events(events));
    assert a.(mapper := a.mapper) == a;
    GoesToTools(h, a, e, events);
  }

  lemma IsCut(h: A.Host, l: Late, a: Agent, contents: map<Id, R.Content>, staged: map<Id, StagedCall>)
    requires l.turn != "" && R.Bounded(a.mapper) && a == With(l, Heard(l, contents), staged)
    ensures Mapping(h, a, 0, R.Interruption, "") ==
            (With(l, Cut(l, contents), staged),
             [Voice(R.TurnInterrupted(l.turn)), Voice(R.SessionState(l.turn, R.Idle))])
  {
    var events := [R.TurnInterrupted(l.turn), R.SessionState(l.turn, R.Idle)];
    assert {} + {l.turn} == {l.turn};
    assert R.Mapping(a.mapper, R.Interruption, "") == (Cut(l, contents), R.Events(events));
    GoesToTools(h, a.(mapper := Cut(l, contents)), R.Interruption, events);
    assert Voices(events) == [Voice(R.TurnInterrupted(l.turn)), Voice(R.SessionState(l.turn, R.Idle))];
  }

  /** What the end of the call's content puts out. */
  function Begun(h: A.Host, l: Late): seq<Output> {
    [Planned(P.PlanOp(0, l.operation, l.name, l.turn, l.arguments)),
     Voice(R.ToolStarted(l.turn, l.operation, l.name, l.arguments)),
     Begin(Worker(FirstJob(h, l), Some(0)))]
  }

  lemma Begins(h: A.Host, l: Late, a: Agent, contents: map<Id, R.Content>)
    requires ReleasesFirst(h, l) && l.tool in contents && contents[l.tool] == Asked(l)
    requires R.Bounded(a.mapper) && a == With(l, Cut(l, contents), map[l.tool := Call(l)])
    ensures Mapping(h, a, 0, R.ContentEnd(l.tool, R.OtherStop), "").1 == Begun(h, l)
  {
    var e := R.ContentEnd(l.tool, R.OtherStop);
    assert R.Mapping(a.mapper, e, "") == (a.mapper, R.Events([]));
    assert a.(mapper := a.mapper) == a;
    GoesToTools(h, a, e, []);
    var r := Running(h, a.(staged := map[l.tool := Call(l)] - {l.tool}), 0, Call(l));
    assert r.1 == Begun(h, l);
    assert r.1 + Voices([]) == r.1;
  }

  // ----- the run -----

  /** Where a run stands after some of its steps. */
  ghost predicate Stands(h: A.Host, steps: seq<Step>, k: nat, r: Reaction) {
    k <= |steps| && Run(h, steps[..k]) == r
  }

  lemma OneMore(h: A.Host, steps: seq<Step>, k: nat, r: Reaction, next: Reaction)
    requires k < |steps| && Stands(h, steps, k, r) && Enabled(r.0, steps[k]) && R.Bounded(r.0.mapper)
    requires next == Next(h, r.0, steps[k])
    ensures Stands(h, steps, k + 1, (next.0, r.1 + next.1)) && R.Bounded(next.0.mapper)
  {
    assert steps[..k + 1][..k] == steps[..k];
    StepBounded(h, r.0, steps[k]);
  }

  lemma MapsOneMore(h: A.Host, steps: seq<Step>, k: nat, r: Reaction, e: R.ProviderEvent, next: Reaction)
    requires k < |steps| && Stands(h, steps, k, r) && steps[k] == MapStep(0, e, "") && !r.0.over
    requires R.Bounded(r.0.mapper)
    requires next == Mapping(h, r.0, 0, e, "")
    ensures Stands(h, steps, k + 1, (next.0, r.1 + next.1)) && R.Bounded(next.0.mapper)
  {
    OneMore(h, steps, k, r, next);
  }

  lemma MapsInSilence(h: A.Host, steps: seq<Step>, k: nat, a: Agent, outputs: seq<Output>, e: R.ProviderEvent,
                      a': Agent)
    requires k < |steps| && Stands(h, steps, k, (a, outputs)) && steps[k] == MapStep(0, e, "") && !a.over
    requires R.Bounded(a.mapper)
    requires Mapping(h, a, 0, e, "") == (a', [])
    ensures Stands(h, steps, k + 1, (a', outputs)) && R.Bounded(a'.mapper)
  {
    MapsOneMore(h, steps, k, (a, outputs), e, (a', []));
    assert outputs + [] == outputs;
  }

  lemma ToolStartsAt(h: A.Host, l: Late, steps: seq<Step>, k: nat, a: Agent, outputs: seq<Output>,
                     contents: map<Id, R.Content>)
    requires k < |steps|
    requires steps[k] == MapStep(0, R.ContentStart(l.tool, R.OtherRole, R.OtherKind, R.OtherStage, 0), "")
    requires Stands(h, steps, k, (a, outputs)) && R.Bounded(a.mapper)
    requires |contents| < R.MAX_CONTENTS && a == With(l, Heard(l, contents), map[])
    ensures var a' := With(l, Heard(l, contents[l.tool := Asked(l)]), map[]);
            Stands(h, steps, k + 1, (a', outputs)) && R.Bounded(a'.mapper)
  {
    ToolStarts(h, l, a, contents);
    MapsInSilence(h, steps, k, a, outputs, steps[k].event, With(l, Heard(l, contents[l.tool := Asked(l)]), map[]));
  }

  lemma StagesAt(h: A.Host, l: Late, steps: seq<Step>, k: nat, a: Agent, outputs: seq<Output>,
                 contents: map<Id, R.Content>)
    requires k < |steps| && steps[k] == MapStep(0, R.ToolUse(l.tool, l.operation, l.name, l.arguments), "")
    requires Stands(h, steps, k, (a, outputs)) && R.Bounded(a.mapper)
    requires l.tool in contents && contents[l.tool] == Asked(l) && a == With(l, Heard(l, contents), map[])
    ensures var a' := With(l, Heard(l, contents), map[l.tool := Call(l)]);
            Stands(h, steps, k + 1, (a', outputs)) && R.Bounded(a'.mapper)
  {
    Stages(h, l, a, contents);
    MapsInSilence(h, steps, k, a, outputs, steps[k].event, With(l, Heard(l, contents), map[l.tool := Call(l)]));
  }

  ghost predicate IsLate(l: Late, steps: seq<Step>) {
    && |steps| == 6
    && steps[0] == TakeStep(0, AudioAppend(l.turn, 1))
    && steps[1] == MapStep(0, R.ContentStart(l.user, R.User, R.OtherKind, R.OtherStage, 0), "")
    && steps[2] == MapStep(0, R.ContentStart(l.tool, R.OtherRole, R.OtherKind, R.OtherStage, 0), "")
    && steps[3] == MapStep(0, R.ToolUse(l.tool, l.operation, l.name, l.arguments), "")
    && steps[4] == MapStep(0, R.Interruption, "")
    && steps[5] == MapStep(0, R.ContentEnd(l.tool, R.OtherStop), "")
  }

  function UserContents(l: Late): map<Id, R.Content> {
    map[l.user := Spoken(l)]
  }

  function BothContents(l: Late): map<Id, R.Content> {
    UserContents(l)[l.tool := Asked(l)]
  }

  /** What has been put out before the interruption. */
  function Before(l: Late): seq<Output> {
    [Voice(R.TurnStarted(l.turn)), Voice(R.SessionState(l.turn, R.Listening)), ToEar(0, l.turn, 1),
     Voice(R.SessionState(l.turn, R.Listening))]
  }

  lemma HasSpoken(h: A.Host, l: Late, steps: seq<Step>) returns (a: Agent, outputs: seq<Output>)
    requires ValidId(l.turn) && IsLate(l, steps)
    ensures a == With(l, Heard(l, map[]).(waitingUser := true), map[]) && outputs == Before(l)[..3]
    ensures Stands(h, steps, 1, (a, outputs))
  {
    assert steps[..0] == [];
    Speaks(h, l);
    a := With(l, Heard(l, map[]).(waitingUser := true), map[]);
    outputs := Before(l)[..3];
    assert outputs == [Voice(R.TurnStarted(l.turn)), Voice(R.SessionState(l.turn, R.Listening)), ToEar(0, l.turn, 1)];
    OneMore(h, steps, 0, (Opening(), []), (a, outputs));
    assert [] + outputs == outputs;
  }

  lemma HasUser(h: A.Host, l: Late, steps: seq<Step>) returns (a: Agent)
    requires ValidId(l.turn) && IsLate(l, steps)
    ensures a == With(l, Heard(l, UserContents(l)), map[]) && Stands(h, steps, 2, (a, Before(l))) && R.Bounded(a.mapper)
  {
    var b, outputs := HasSpoken(h, l, steps);
    UserStarts(h, l, b);
    a := With(l, Heard(l, UserContents(l)), map[]);
    MapsOneMore(h, steps, 1, (b, outputs), steps[1].event, (a, [Before(l)[3]]));
    assert outputs + [Before(l)[3]] == Before(l);
  }

  lemma HasTool(h: A.Host, l: Late, steps: seq<Step>) returns (a: Agent)
    requires ValidId(l.turn) && IsLate(l, steps)
    ensures a == With(l, Heard(l, BothContents(l)), map[]) && Stands(h, steps, 3, (a, Before(l))) && R.Bounded(a.mapper)
  {
    var b := HasUser(h, l, steps);
    ToolStartsAt(h, l, steps, 2, b, Before(l), UserContents(l));
    a := With(l, Heard(l, BothContents(l)), map[]);
  }

  lemma HasStaged(h: A.Host, l: Late, steps: seq<Step>) returns (a: Agent)
    requires ValidId(l.turn) && IsLate(l, steps)
    ensures a == With(l, Heard(l, BothContents(l)), map[l.tool := Call(l)]) && Stands(h, steps, 4, (a, Before(l)))
    ensures R.Bounded(a.mapper)
  {
    var b := HasTool(h, l, steps);
    StagesAt(h, l, steps, 3, b, Before(l), BothContents(l));
    a := With(l, Heard(l, BothContents(l)), map[l.tool := Call(l)]);
  }

  /** How the app is told of the interruption. */
  function Interruption(l: Late): seq<Output> {
    [Voice(R.TurnInterrupted(l.turn)), Voice(R.SessionState(l.turn, R.Idle))]
  }

  lemma HasCut(h: A.Host, l: Late, steps: seq<Step>) returns (a: Agent)
    requires ValidId(l.turn) && IsLate(l, steps)
    ensures a == With(l, Cut(l, BothContents(l)), map[l.tool := Call(l)]) && R.Bounded(a.mapper)
    ensures Stands(h, steps, 5, (a, Before(l) + Interruption(l)))
  {
    var b := HasStaged(h, l, steps);
    IsCut(h, l, b, BothContents(l), map[l.tool := Call(l)]);
    a := With(l, Cut(l, BothContents(l)), map[l.tool := Call(l)]);
    MapsOneMore(h, steps, 4, (b, Before(l)), R.Interruption, (a, Interruption(l)));
  }

  lemma HasBegun(h: A.Host, l: Late, steps: seq<Step>) returns (a: Agent)
    requires ValidId(l.turn) && IsLate(l, steps) && ReleasesFirst(h, l)
    ensures Stands(h, steps, 6, (a, Before(l) + Interruption(l) + Begun(h, l)))
  {
    var b := HasCut(h, l, steps);
    Begins(h, l, b, BothContents(l));
    var next := Mapping(h, b, 0, R.ContentEnd(l.tool, R.OtherStop), "");
    a := next.0;
    MapsOneMore(h, steps, 5, (b, Before(l) + Interruption(l)), steps[5].event, next);
  }

  /**
   From the opening of the loop, for any ids and any tool whose call a new planner releases: the turn is interrupted
   and the app is told so, and then the call is planned, announced under that turn, and begun.
   */
  lemma InterruptedCallBegins(h: A.Host, l: Late)
    requires ValidId(l.turn) && ReleasesFirst(h, l)
    ensures Run(h, LateSteps(l)).1 == Before(l) + Interruption(l) + Begun(h, l)
  {
    var a := HasBegun(h, l, LateSteps(l));
    assert LateSteps(l)[..6] == LateSteps(l);
  }

  /** A host with one tool that changes data. */
  function OneTool(): A.Host {
    var create := A.Binding("notes.create", A.ExplicitIntent, _ => true, _ => true, true, _ => true, "", true);
    A.Host("assistant", map["notes_create" := create], args => args, text => text)
  }

  /** For instance, a mutation of that host begins after its turn was interrupted. */
  lemma LateMutationBegins(l: Late)
    requires ValidId(l.turn) && ValidId(l.operation) && l.name == "notes_create"
    ensures ReleasesFirst(OneTool(), l)
    ensures var outputs := Run(OneTool(), LateSteps(l)).1;
            |outputs| == 9 && outputs[4] == Voice(R.TurnInterrupted(l.turn)) && outputs[8].Begin? &&
            outputs[8].worker.job.name == "notes.create" && outputs[8].worker.job.turn == l.turn
  {
    InterruptedCallBegins(OneTool(), l);
  }
}
