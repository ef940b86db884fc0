/** A run of the account agent's loop in which a result goes to a stream that did not ask for it. */
module CrossedResults {
  import opened Basics
  import R = RealtimeMapper
  import A = ActionRuntime
  import opened AgentParts
  import opened WorkerPool
  import opened AgentLoop
  import opened AgentRuns
  import opened AgentWork
  import opened AccountLoop
  import opened AccountRuns
  import opened AccountWork
  import opened AccountResults

  const READ_MODEL_NAME: string := "profile_get_me"

  function Fixed(name: string, policy: A.Policy): A.Binding {
    A.Binding(name, policy, _ => true, _ => true, true, _ => true, "", true)
  }

  /** A host with the login and one tool that only reads. */
  function TwoTools(): A.Host {
    A.Host("account", map[LOGIN_MODEL_NAME := Fixed(LOGIN, A.ExplicitIntent),
                          READ_MODEL_NAME := Fixed("profile.get_me", A.ReadOnly)],
           args => args, text => text)
  }

  /** The model asks for the reading tool, the user accepts the invitation, and both jobs finish, the login first. */
  function CrossingSteps(): seq<Step> {
    [MapStep(0, R.ContentStart("t", R.OtherRole, R.OtherKind, R.OtherStage, 0), ""),
     MapStep(0, R.ToolUse("t", "op", READ_MODEL_NAME, "{}"), ""),
     MapStep(0, R.ContentEnd("t", R.OtherStop), ""),
     TakeStep(0, ToolConfirm(WELCOME, true)),
     FinishStep(1, A.Reply("")),
     FinishStep(0, A.Reply("")),
     DeliverStep,
     DeliverStep]
  }

  function Crossing(l: Letters): Recording {
    Recording(TwoTools(), l, false, CrossingSteps())
  }

  function ReadJob(): A.Job {
    A.Job("op", "profile.get_me", Some(A.KeyOf(TwoTools(), "profile.get_me", "{}")), WELCOME, "{}", false)
  }

  function LoginJob(): A.Job {
    A.Job(WELCOME, LOGIN, Some(A.KeyOf(TwoTools(), LOGIN, "{}")), WELCOME, "{}", false)
  }

  function ReadCall(): StagedCall {
    StagedCall(WELCOME, "op", READ_MODEL_NAME, "{}", false, 0)
  }

  lemma ReadName()
    ensures A.ModelName("profile.get_me") == READ_MODEL_NAME && A.ModelToolName(READ_MODEL_NAME)
  {
  }

  lemma LoginName()
    ensures A.ModelName(LOGIN) == LOGIN_MODEL_NAME && A.ModelToolName(LOGIN_MODEL_NAME)
  {
  }

  lemma TwoToolsAreHosted()
    ensures AccountHost(TwoTools())
  {
    ReadName();
    LoginName();
    var tools := TwoTools().tools;
    forall n | n in tools
      ensures n == A.ModelName(tools[n].toolName) && A.ModelToolName(n)
      ensures (tools[n].toolName == LOGIN ==> tools[n].policy == A.ExplicitIntent)
    {
      assert n == LOGIN_MODEL_NAME || n == READ_MODEL_NAME;
    }
  }

  /** The planner once it has counted the reading call. */
  predicate ReadPlanned(s: A.PlannerState) {
    s.cache == map[] && s.attempted == {} && s.calls == 1 && s.seen.Keys == {"op"}
  }

  lemma PlanningRead()
    ensures var planned := A.Planning(TwoTools(), A.NewSession(), 0, "op", READ_MODEL_NAME, WELCOME, "{}");
            planned.1 == (ReadJob(), None) && ReadPlanned(planned.0)
  {
  }

  lemma PlanningLogin(s: A.PlannerState)
    requires ReadPlanned(s)
    ensures A.Planning(TwoTools(), s, 0, WELCOME, LOGIN_MODEL_NAME, WELCOME, "{}").1 == (LoginJob(), None)
  {
    assert ValidId(WELCOME);
    assert WELCOME != "op" by { assert |WELCOME| == 21; }
  }

  // ----- the model asks for the reading tool -----

  /** What the loop looks like while the model asks. */
  ghost predicate Asked(c: Account, staged: map<Id, StagedCall>) {
    && c.agent.planner == A.NewSession() && c.agent.stream == 0 && c.agent.staged == staged
       && c.agent.pool == Pool({}, [], [])
    && !c.agent.over && c.agent.speech == Speech(map[], map[], "", "") && c.waiting && !c.authenticated
       && c.uiJobs == {}
    && c.bootstrapContents == {} && c.greeting && c.agent.mapper.turn == WELCOME && c.agent.mapper.cancelled == {}
  }

  ghost predicate Listening(m: R.MapperState) {
    "t" in m.contents && m.contents["t"] == R.Content(WELCOME, R.OtherKind, R.OtherRole, R.OtherStage, 0, "")
  }

  predicate StartsNoAppJob(outputs: seq<Output>) {
    forall i | 0 <= i < |outputs| && outputs[i].Begin? :: outputs[i].worker.asked.Some?
  }

  lemma OpensContent(l: Letters, c: Account)
    requires c == OpeningAccount(false)
    ensures var (c', outputs) := MappingAccount(TwoTools(), l, c, 0,
                                                R.ContentStart("t", R.OtherRole, R.OtherKind, R.OtherStage, 0), "");
            Asked(c', map[]) && Listening(c'.agent.mapper) && StartsNoAppJob(outputs)
  {
  }

  lemma AnnouncesCall(m: R.MapperState)
    requires R.Bounded(m) && m.turn == WELCOME && m.cancelled == {} && Listening(m)
    ensures R.Mapping(m, R.ToolUse("t", "op", READ_MODEL_NAME, "{}"), "") ==
            (m, R.Events([R.ToolStarted(WELCOME, "op", READ_MODEL_NAME, "{}")]))
  {
  }

  /** Events that bring no speech, and no new content, go straight to the tools. */
  lemma ReactsWithTools(l: Letters, c: Account, e: R.ProviderEvent, events: seq<R.ServerEvent>)
    requires !e.ContentStart? && !c.agent.over && c.agent.speech == Speech(map[], map[], "", "") && Silent(events)
    ensures ReactingAccount(TwoTools(), l, c, 0, e, R.Events(events)) ==
            Emitting(c, ToolsAccount(TwoTools(), c.agent, 0, e, events).0,
                     ToolsAccount(TwoTools(), c.agent, 0, e, events).1)
  {
    SilentFragments(c.agent.speech, ContentOf(e), events);
    assert Collecting(c.agent.speech, e, events) == (c.agent.speech, true);
    var r := Emitting(c, ToolsAccount(TwoTools(), c.agent, 0, e, events).0,
                      ToolsAccount(TwoTools(), c.agent, 0, e, events).1);
    assert c.(agent := c.agent.(speech := c.agent.speech)) == c;
    assert [] + r.1 == r.1;
  }

  lemma StagesCall(l: Letters, c: Account)
    requires Asked(c, map[]) && Listening(c.agent.mapper) && R.Bounded(c.agent.mapper)
    ensures var (c', outputs) := MappingAccount(TwoTools(), l, c, 0, R.ToolUse("t", "op", READ_MODEL_NAME, "{}"), "");
            Asked(c', map["t" := ReadCall()]) && Listening(c'.agent.mapper) && StartsNoAppJob(outputs)
  {
    AnnouncesCall(c.agent.mapper);
    var e := R.ToolUse("t", "op", READ_MODEL_NAME, "{}");
    var events := [R.ToolStarted(WELCOME, "op", READ_MODEL_NAME, "{}")];
    assert Filtering(c, e) == (c, false);
    assert c.(agent := c.agent.(mapper := c.agent.mapper)) == c;
    ReactsWithTools(l, c, e, events);
    assert Staging(e, events, WELCOME, 0) == ReadCall();
  }

  lemma EndsContent(m: R.MapperState)
    requires R.Bounded(m) && m.turn == WELCOME && m.cancelled == {} && Listening(m)
    ensures R.Mapping(m, R.ContentEnd("t", R.OtherStop), "") == (m.(contents := m.contents - {"t"}), R.Events([]))
  {
  }

  function ReadWorker(): Worker {
    Worker(ReadJob(), Some(0))
  }

  function LoginWorker(): Worker {
    Worker(LoginJob(), None)
  }

  /** What the loop looks like once jobs are at work. */
  ghost predicate AtWorkOn(c: Account, p: Pool, stream: nat, ui: set<Id>) {
    c.agent.pool == p && c.agent.stream == stream && c.uiJobs == ui && !c.agent.over && c.greeting
  }

  function ReadOnlyPool(): Pool {
    Pool({"op"}, [ReadWorker()], [])
  }

  /** Words about tools only, which end no greeting. */
  predicate OnlyAnnounces(outputs: seq<Output>) {
    forall i | 0 <= i < |outputs| && outputs[i].Voice? :: outputs[i].e.ToolStarted?
  }

  lemma EmitsAnnouncement(c: Account, a: Agent, outputs: seq<Output>)
    requires OnlyAnnounces(outputs)
    ensures Emitting(c, a, outputs) == (c.(agent := a), outputs)
  {
    assert !SomeEndsGreeting(outputs, OpeningTurn(c.authenticated));
  }

  lemma RunsRead(a: Agent)
    requires a.planner == A.NewSession() && a.pool == Pool({}, [], []) && a.mapper.turn == WELCOME
    ensures var (a', outputs) := RunningAccount(TwoTools(), a, 0, ReadCall());
            a' == a.(planner := a'.planner, pool := ReadOnlyPool()) && ReadPlanned(a'.planner)
            && StartsNoAppJob(outputs) &&
            OnlyAnnounces(outputs)
  {
    PlanningRead();
  }

  lemma StartsRead(l: Letters, c: Account)
    requires Asked(c, map["t" := ReadCall()]) && Listening(c.agent.mapper) && R.Bounded(c.agent.mapper)
    ensures var (c', outputs) := MappingAccount(TwoTools(), l, c, 0, R.ContentEnd("t", R.OtherStop), "");
            AtWorkOn(c', ReadOnlyPool(), 0, {}) && c'.waiting && ReadPlanned(c'.agent.planner)
            && StartsNoAppJob(outputs)
  {
    var e := R.ContentEnd("t", R.OtherStop);
    EndsContent(c.agent.mapper);
    assert Filtering(c, e) == (c, false);
    var c1 := c.(agent := c.agent.(mapper := R.Mapping(c.agent.mapper, e, "").0));
    ReactsWithTools(l, c1, e, []);
    var a := c1.agent.(staged := c1.agent.staged - {"t"});
    RunsRead(a);
    var r := RunningAccount(TwoTools(), a, 0, ReadCall());
    assert r.1 + Voices([]) == r.1;
    EmitsAnnouncement(c1, r.0, r.1);
  }

  // ----- the user accepts the invitation -----

  function BothPool(): Pool {
    Pool({"op", WELCOME}, [ReadWorker(), LoginWorker()], [])
  }

  lemma StartsLogin(c: Account)
    requires AtWorkOn(c, ReadOnlyPool(), 0, {}) && c.waiting && ReadPlanned(c.agent.planner)
    ensures var (c', outputs) := TakingAccount(TwoTools(), c, 0, ToolConfirm(WELCOME, true));
            && AtWorkOn(c', BothPool(), 0, {WELCOME})
            && forall w | Begin(w) in outputs && w.asked.None? :: w.job.id == WELCOME
  {
    PlanningLogin(c.agent.planner);
    assert {"op"} + {WELCOME} == {"op", WELCOME};
  }

  // ----- both jobs finish, and the results are delivered -----

  function Answered(w: Worker): Delivery {
    Delivery(w, A.Reply(""))
  }

  function DonePool(): Pool {
    Pool({"op", WELCOME}, [], [Answered(LoginWorker()), Answered(ReadWorker())])
  }

  lemma Finishes()
    ensures CanFinish(BothPool(), 1) && CanFinish(Finishing(BothPool(), 1, A.Reply("")), 0)
    ensures Finishing(Finishing(BothPool(), 1, A.Reply("")), 0, A.Reply("")) == DonePool()
  {
  }

  lemma DeliversLogin(c: Account)
    requires AtWorkOn(c, DonePool(), 0, {WELCOME})
    ensures HeadIsUi(c) && DeliveringAccount(TwoTools(), c) == DeliveringUi(TwoTools(), c)
    ensures AtWorkOn(DeliveringUi(TwoTools(), c).0, Pool({"op"}, [], [Answered(ReadWorker())]), 1, {})
    ensures StartsNoAppJob(DeliveringUi(TwoTools(), c).1)
  {
    assert WELCOME != "op" by { assert |WELCOME| == 21; }
    assert {"op", WELCOME} - {WELCOME} == {"op"};
  }

  lemma LeavesRead(c: Account)
    requires AtWorkOn(c, DonePool(), 0, {WELCOME})
    ensures ReadWorker() in Outstanding(c.agent.pool)
    ensures !(c.agent.pool.active - {c.agent.pool.channel[0].worker.job.id} <= c.uiJobs)
  {
    assert Outstanding(c.agent.pool)[1] == ReadWorker();
    assert "op" in c.agent.pool.active - {WELCOME} by { assert |WELCOME| == 21; }
  }

  lemma DeliversRead(c: Account)
    requires AtWorkOn(c, Pool({"op"}, [], [Answered(ReadWorker())]), 1, {})
    ensures !HeadIsUi(c) && StartsNoAppJob(DeliveringAccount(TwoTools(), c).1)
    ensures ToModel(1, ReadWorker(), A.Reply("")) in DeliveringAccount(TwoTools(), c).1
  {
    assert DeliveringAccount(TwoTools(), c).1[1] == ToModel(1, ReadWorker(), A.Reply(""));
  }

  // ----- the run -----

  lemma Happening(r: Recording, k: nat, c: Account, step: Step)
    requires k < |r.steps| && c == At(r, k) && step == r.steps[k] && Enabled(c.agent, step)
    ensures Happens(r, k)
    ensures At(r, k + 1) == NextAccount(r.host, r.letters, c, step).0
    ensures OutputsAt(r, k) == NextAccount(r.host, r.letters, c, step).1
  {
    OneStep(r, k);
  }

  lemma Maps(r: Recording, k: nat, e: R.ProviderEvent, next: Response)
    requires k < |r.steps| && r.steps[k] == MapStep(0, e, "") && !At(r, k).agent.over
    requires next == MappingAccount(r.host, r.letters, At(r, k), 0, e, "")
    ensures Happens(r, k) && At(r, k + 1) == next.0 && OutputsAt(r, k) == next.1
  {
    Happening(r, k, At(r, k), r.steps[k]);
  }

  lemma StagesAt(r: Recording, k: nat)
    requires k < |r.steps| && r.host == TwoTools()
    requires r.steps[k] == MapStep(0, R.ToolUse("t", "op", READ_MODEL_NAME, "{}"), "")
    requires Asked(At(r, k), map[]) && Listening(At(r, k).agent.mapper)
    ensures Happens(r, k) && StartsNoAppJob(OutputsAt(r, k))
    ensures Asked(At(r, k + 1), map["t" := ReadCall()]) && Listening(At(r, k + 1).agent.mapper)
  {
    var c, e := At(r, k), R.ToolUse("t", "op", READ_MODEL_NAME, "{}");
    StagesCall(r.letters, c);
    Maps(r, k, e, MappingAccount(r.host, r.letters, c, 0, e, ""));
  }

  lemma StartsAt(r: Recording, k: nat)
    requires k < |r.steps| && r.host == TwoTools() && r.steps[k] == MapStep(0, R.ContentEnd("t", R.OtherStop), "")
    requires Asked(At(r, k), map["t" := ReadCall()]) && Listening(At(r, k).agent.mapper)
    ensures Happens(r, k) && StartsNoAppJob(OutputsAt(r, k)) && AtWorkOn(At(r, k + 1), ReadOnlyPool(), 0, {})
    ensures At(r, k + 1).waiting && ReadPlanned(At(r, k + 1).agent.planner)
  {
    var c, e := At(r, k), R.ContentEnd("t", R.OtherStop);
    StartsRead(r.letters, c);
    Maps(r, k, e, MappingAccount(r.host, r.letters, c, 0, e, ""));
  }

  ghost predicate IsCrossing(r: Recording) {
    && r.host == TwoTools() && !r.authenticated && |r.steps| == 8
    && r.steps[0] == MapStep(0, R.ContentStart("t", R.OtherRole, R.OtherKind, R.OtherStage, 0), "")
    && r.steps[1] == MapStep(0, R.ToolUse("t", "op", READ_MODEL_NAME, "{}"), "")
    && r.steps[2] == MapStep(0, R.ContentEnd("t", R.OtherStop), "")
    && r.steps[3] == TakeStep(0, ToolConfirm(WELCOME, true))
    && r.steps[4] == FinishStep(1, A.Reply(""))
    && r.steps[5] == FinishStep(0, A.Reply(""))
    && r.steps[6] == DeliverStep && r.steps[7] == DeliverStep
  }

  lemma Start(r: Recording)
    requires IsCrossing(r)
    ensures At(r, 0) == OpeningAccount(false)
  {
    assert r.steps[..0] == [];
  }

  lemma AsksFirst(r: Recording)
    requires IsCrossing(r)
    ensures Happens(r, 0) && Asked(At(r, 1), map[]) && Listening(At(r, 1).agent.mapper)
    ensures StartsNoAppJob(OutputsAt(r, 0))
  {
    Start(r);
    OpensContent(r.letters, OpeningAccount(false));
    Happening(r, 0, OpeningAccount(false), r.steps[0]);
  }

  lemma AsksNext(r: Recording)
    requires IsCrossing(r)
    ensures Happens(r, 1) && Asked(At(r, 2), map["t" := ReadCall()]) && Listening(At(r, 2).agent.mapper)
    ensures StartsNoAppJob(OutputsAt(r, 1))
  {
    AsksFirst(r);
    StagesAt(r, 1);
  }

  lemma Asks(r: Recording)
    requires IsCrossing(r)
    ensures Happens(r, 2) && AtWorkOn(At(r, 3), ReadOnlyPool(), 0, {}) && At(r, 3).waiting
    ensures ReadPlanned(At(r, 3).agent.planner) && StartsNoAppJob(OutputsAt(r, 2))
  {
    AsksNext(r);
    StartsAt(r, 2);
  }

  lemma Accepts(r: Recording)
    requires IsCrossing(r)
    ensures Happens(r, 3) && AtWorkOn(At(r, 4), BothPool(), 0, {WELCOME}) && StartsFreshAt(r, 3)
  {
    Asks(r);
    var c := At(r, 3);
    StartsLogin(c);
    Happening(r, 3, c, r.steps[3]);
    assert WELCOME != "op" by { assert |WELCOME| == 21; }
  }

  lemma FinishesAt(r: Recording, k: nat, n: nat, p: Pool, stream: nat, ui: set<Id>)
    requires k < |r.steps| && r.steps[k] == FinishStep(n, A.Reply("")) && AtWorkOn(At(r, k), p, stream, ui)
    requires CanFinish(p, n)
    ensures Happens(r, k) && OutputsAt(r, k) == [] && AtWorkOn(At(r, k + 1), Finishing(p, n, A.Reply("")), stream, ui)
  {
    Happening(r, k, At(r, k), r.steps[k]);
  }

  lemma Finish(r: Recording)
    requires IsCrossing(r)
    ensures Happens(r, 4) && Happens(r, 5) && OutputsAt(r, 4) == OutputsAt(r, 5) == []
    ensures AtWorkOn(At(r, 6), DonePool(), 0, {WELCOME})
  {
    Accepts(r);
    Finishes();
    FinishesAt(r, 4, 1, BothPool(), 0, {WELCOME});
    FinishesAt(r, 5, 0, Finishing(BothPool(), 1, A.Reply("")), 0, {WELCOME});
  }

  lemma DeliversAt(r: Recording, k: nat, next: Response)
    requires k < |r.steps| && r.steps[k] == DeliverStep && !At(r, k).agent.over && At(r, k).agent.pool.channel != []
    requires next == DeliveringAccount(r.host, At(r, k))
    ensures Happens(r, k) && At(r, k + 1) == next.0 && OutputsAt(r, k) == next.1
  {
    Happening(r, k, At(r, k), DeliverStep);
  }

  lemma DeliversUiAt(r: Recording, k: nat)
    requires k < |r.steps| && r.host == TwoTools() && r.steps[k] == DeliverStep
    requires AtWorkOn(At(r, k), DonePool(), 0, {WELCOME})
    ensures Happens(r, k) && StartsNoAppJob(OutputsAt(r, k))
    ensures AtWorkOn(At(r, k + 1), Pool({"op"}, [], [Answered(ReadWorker())]), 1, {})
  {
    var c := At(r, k);
    DeliversLogin(c);
    DeliversAt(r, k, DeliveringUi(TwoTools(), c));
  }

  lemma DeliversFirst(r: Recording)
    requires IsCrossing(r)
    ensures Happens(r, 6) && StartsNoAppJob(OutputsAt(r, 6))
    ensures AtWorkOn(At(r, 7), Pool({"op"}, [], [Answered(ReadWorker())]), 1, {})
  {
    Finish(r);
    DeliversUiAt(r, 6);
  }

  lemma DeliversOver(r: Recording)
    requires IsCrossing(r)
    ensures OverOthers(r, 6) && AtWork(r, 6, ReadWorker())
  {
    Finish(r);
    DeliversFirst(r);
    DeliversLogin(At(r, 6));
    LeavesRead(At(r, 6));
  }

  lemma Delivers(r: Recording)
    requires IsCrossing(r)
    ensures DeliversToModel(r, 7) && Delivered(r, 7) == ReadWorker() && StartsNoAppJob(OutputsAt(r, 7))
    ensures ToModel(1, ReadWorker(), A.Reply("")) in OutputsAt(r, 7)
  {
    DeliversFirst(r);
    var c := At(r, 7);
    DeliversRead(c);
    DeliversAt(r, 7, DeliveringAccount(TwoTools(), c));
  }

  lemma StartsNoneFresh(r: Recording, k: nat)
    requires Happens(r, k) && StartsNoAppJob(OutputsAt(r, k))
    ensures StartsFreshAt(r, k)
  {
  }

  lemma AppStartsFresh(r: Recording)
    requires IsCrossing(r)
    ensures StartsFresh(r)
  {
    forall k | 0 <= k < |r.steps|
      ensures StartsFreshAt(r, k)
    {
      match k
      case 0 => AsksFirst(r); StartsNoneFresh(r, 0);
      case 1 => AsksNext(r); StartsNoneFresh(r, 1);
      case 2 => Asks(r); StartsNoneFresh(r, 2);
      case 3 => Accepts(r);
      case 4 => Finish(r); StartsNoneFresh(r, 4);
      case 5 => Finish(r); StartsNoneFresh(r, 5);
      case 6 => DeliversFirst(r); StartsNoneFresh(r, 6);
      case 7 => Delivers(r); StartsNoneFresh(r, 7);
      case _ =>
    }
  }

  lemma LastOutputs(r: Recording)
    requires IsCrossing(r)
    ensures ToModel(1, ReadWorker(), A.Reply("")) in AllOutputs(r)
  {
    Delivers(r);
    OneOutput(r, 7);
    assert r.steps[..8] == r.steps;
  }

  /**
   A run from the opening of the loop in which a result crosses: the login's result renews the stream over the reading
   job, whose result then goes to stream 1 although stream 0 asked for it.
   */
  lemma ResultsCross(l: Letters)
    ensures var r := Crossing(l);
            && AccountHost(r.host) && StartsFresh(r) && OverOthers(r, 6) && DeliversToModel(r, 7)
               && AtWork(r, 6, Delivered(r, 7))
            && ToModel(1, ReadWorker(), A.Reply("")) in AllOutputs(r) && !AllReach(AllOutputs(r))
  {
    TwoToolsAreHosted();
    AppStartsFresh(Crossing(l));
    DeliversOver(Crossing(l));
    Delivers(Crossing(l));
    LastOutputs(Crossing(l));
    assert !ReachesWhoAsked(ToModel(1, ReadWorker(), A.Reply("")));
  }

  /**
   In the same run the login's result renews the stream before the opening turn has ended: the greeting is left open.
   */
  lemma GreetingIsLeftOpen(l: Letters)
    ensures var c := At(Crossing(l), 7);
            c.greeting && c.agent.stream == 1 && !c.agent.over
  {
    DeliversFirst(Crossing(l));
  }
}
