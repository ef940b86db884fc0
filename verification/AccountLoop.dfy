/**
 The event loop of the account agent (apps/account-agent/internal/account/runtime.go, tools.go, welcome.go).
 It is the loop of the personal assistant with a login invitation, a filter on what the provider says before
 its opening response, and jobs that the app starts by confirming.
 */
module AccountLoop {
  import opened Basics
  import R = RealtimeMapper
  import A = ActionRuntime
  import P = Approval
  import opened AgentParts
  import opened WorkerPool
  import opened AgentLoop

  const WELCOME: Id := "account-login-consent"
  const CONNECTED: Id := "account-connected"
  const LOGIN: string := "identity.begin_login"
  const LOGIN_MODEL_NAME: string := "identity_begin_login"

  /** uiJobs are the jobs that the app started; their results are not sent to the model. */
  datatype Account = Account(
    agent: Agent,
    authenticated: bool,
    waiting: bool,
    greeting: bool,
    bootstrap: bool,
    bootstrapContents: set<Id>,
    uiJobs: set<Id>)

  type Response = (Account, seq<Output>)

  // ----- the answer to the invitation -----

  /** Letter case and punctuation are what the Unicode tables say. */
  datatype Letters = Letters(lower: char -> char, punctuation: char -> bool)

  function Cleaned(l: Letters, text: string): string {
    seq(|text|, i requires 0 <= i < |text| => if l.punctuation(l.lower(text[i])) then ' ' else l.lower(text[i]))
  }

  function FirstWord(text: string): (r: string)
    ensures |r| <= |text|
  {
    if text == "" || IsSpace(text[0]) then "" else [text[0]] + FirstWord(text[1..])
  }

  /** The words of a text, one space between them. */
  function Fields(text: string): string
    decreases |text|
  {
    var t := TrimLeft(text);
    if t == "" then ""
    else
      var word := FirstWord(t);
      if word == "" then ""
      else
        var rest := Fields(t[|word|..]);
        if rest == "" then word else word + " " + rest
  }

  const YES: set<string> := {
    "sim", "sim quero", "sim pode", "sim pode continuar", "sim desejo continuar", "sim quero continuar",
      "pode continuar",
    "quero continuar", "continuar", "vamos", "claro"}

  const NO: set<string> := {
    "n\U{E3}o", "nao", "n\U{E3}o quero", "nao quero", "n\U{E3}o quero continuar", "nao quero continuar",
    "n\U{E3}o desejo continuar", "nao desejo continuar", "agora n\U{E3}o", "agora nao", "cancelar", "encerre",
      "encerrar"}

  datatype Answer = Yes | No | Unclear

  function WelcomeAnswer(l: Letters, text: string): Answer {
    var said := Fields(Cleaned(l, Trim(text)));
    if said in YES then Yes else if said in NO then No else Unclear
  }

  // ----- steps of the loop -----

  function OpeningTurn(authenticated: bool): Id {
    if authenticated then CONNECTED else WELCOME
  }

  function OpeningAccount(authenticated: bool): Account {
    var (m, _) := R.StartingAssistant(R.Fresh([]), OpeningTurn(authenticated));
    Account(Opening().(mapper := m), authenticated, !authenticated, true, true, {}, {})
  }

  predicate EndsGreeting(o: Output, turn: Id) {
    o == Voice(R.TurnCompleted(turn)) || o == Voice(R.TurnInterrupted(turn))
  }

  predicate SomeEndsGreeting(outputs: seq<Output>, turn: Id) {
    exists i :: 0 <= i < |outputs| && EndsGreeting(outputs[i], turn)
  }

  lemma OneMoreOutput(outputs: seq<Output>, i: nat, turn: Id)
    requires i < |outputs|
    ensures SomeEndsGreeting(outputs[..i + 1], turn) <==>
            SomeEndsGreeting(outputs[..i], turn) || EndsGreeting(outputs[i], turn)
  {
    var before, after := outputs[..i], outputs[..i + 1];
    assert forall k | 0 <= k < i :: after[k] == before[k];
    assert after[i] == outputs[i];
  }

  /** Emitting the end of the opening turn ends the greeting. */
  function Emitting(c: Account, agent: Agent, outputs: seq<Output>): Response {
    (c.(agent := agent, greeting := c.greeting && !SomeEndsGreeting(outputs, OpeningTurn(c.authenticated))), outputs)
  }

  function Launch(c: Account, a: Agent, j: A.Job): Account {
    c.(uiJobs := c.uiJobs + {j.id}, agent := a.(pool := Launching(a.pool, Worker(j, None))))
  }

  /** Plans the login that the invitation offers; it is offered once. */
  function BeginningLogin(h: A.Host, c: Account, now: int, turn: Id): Response {
    var planned := A.Planning(h, c.agent.planner, now, WELCOME, LOGIN_MODEL_NAME, turn, "{}");
    LoginPlanned(c.(waiting := false), P.PlanOp(now, WELCOME, LOGIN_MODEL_NAME, turn, "{}"), planned.0, planned.1.0,
                 planned.1.1)
  }

  function LoginPlanned(c: Account, op: P.Op, s: A.PlannerState, j: A.Job, immediate: Option<A.ToolResult>): Response {
    var a := c.agent.(planner := s);
    if immediate.Some? then (c.(agent := a), [Planned(op), ToolOutcome(j, immediate.value)])
    else (Launch(c, a, j), [Planned(op), Begin(Worker(j, None))])
  }

  function PendingJob(p: A.Pending): A.Job {
    A.Job(p.operationId, p.name, None, p.turn, p.args, false)
  }

  const CANCELLED: A.ToolResult := A.Reply("{\"status\":\"cancelled\"}")

  function Refusing(c: Account): Response {
    (c, [Error("invalid_confirmation")])
  }

  /** The app confirms or refuses the pending operation; approval starts its job at once. */
  function Pressing(h: A.Host, c: Account, now: int, operation: Id, approved: bool): Response {
    if c.agent.planner.pending.None? then Refusing(c)
    else
      var p := c.agent.planner.pending.value;
      match A.Confirming(h, c.agent.planner, now, operation, approved)
      case (s, false) => Refusing(c)
      case (s, true) =>
        var op := P.ConfirmOp(now, operation, approved);
        if !approved then (c.(agent := c.agent.(planner := s)), [Planned(op), ToolOutcome(PendingJob(p), CANCELLED)])
        else Approving(h, c, [Planned(op)], now, s, p)
  }

  /** An approved operation is planned again under its own id. */
  function Approving(h: A.Host, c: Account, begun: seq<Output>, now: int, s: A.PlannerState, p: A.Pending): Response {
    var name := P.DotsToUnderscores(p.name);
    var planned := A.Planning(h, s, now, p.operationId, name, p.turn, p.args);
    Pressed(c, begun + [Planned(P.PlanOp(now, p.operationId, name, p.turn, p.args))], planned.0, planned.1.0,
            planned.1.1)
  }

  function Pressed(c: Account, begun: seq<Output>, s: A.PlannerState, j: A.Job,
                   immediate: Option<A.ToolResult>): Response {
    var a := c.agent.(planner := s);
    if immediate.Some? then (c.(agent := a), begun + [ToolOutcome(j, immediate.value)])
    else (Launch(c, a, j), begun + [Voice(R.ToolStarted(j.turn, j.id, j.name, "")), Begin(Worker(j, None))])
  }

  /** While the greeting lasts, a new input waits instead of interrupting it. */
  function HearingAccount(c: Account, turn: Id, sequence: nat): Response {
    if c.greeting && Hearing(c.agent.inputs, turn, sequence).1 == Opened then
      var a := c.agent;
      (c.(agent := a.(inputs := Hearing(a.inputs, turn, sequence).0, mapper := a.mapper.(nextInput := turn))),
       [ToEar(a.stream, turn, sequence)])
    else
      var (a, outputs) := HearingAudio(c.agent, turn, sequence);
      Emitting(c, a, outputs)
  }

  function TakingAccount(h: A.Host, c: Account, now: int, e: Input): Response {
    match e
    case AudioAppend(turn, sequence) => HearingAccount(c, turn, sequence)
    case ToolConfirm(operation, approved) =>
      if operation == WELCOME && c.waiting then
        if approved then BeginningLogin(h, c, now, WELCOME)
        else
          var (a, outputs) := Ended(c.agent, [Stopped]);
          (c.(agent := a), outputs)
      else Pressing(h, c, now, operation, approved)
    case _ =>
      var (a, outputs) := Taking(h, c.agent, now, e);
      Emitting(c, a, outputs)
  }

  /** What the history is told of a job the app started. */
  function Summary(r: A.ToolResult): string {
    match r
    case Reply(text) => "Resultado da opera\U{E7}\U{E3}o confirmada no app: " + text
    case Failure(code) => "Resultado da opera\U{E7}\U{E3}o confirmada no app: " + code
    case _ => "Resultado da opera\U{E7}\U{E3}o confirmada no app: "
  }

  /** The result of a job the app started goes into the history and renews the stream. */
  function DeliveringUi(h: A.Host, c: Account): Response
    requires c.agent.pool.channel != []
  {
    var a, d := c.agent, c.agent.pool.channel[0];
    var told := a.(pool := Receiving(a.pool), planner := A.Completing(h, a.planner, d.worker.job, d.result),
                   mapper := a.mapper.(history := a.mapper.history + [R.AssistantMessage(Summary(d.result))]));
    var (renewed, outputs) := Rotating(told);
    (c.(uiJobs := c.uiJobs - {d.worker.job.id}, agent := renewed),
     [Planned(P.CompleteOp(d.worker.job, d.result)), ToolOutcome(d.worker.job, d.result)] + outputs)
  }

  /** Other results go to the open stream. */
  function DeliveringAccount(h: A.Host, c: Account): Response
    requires c.agent.pool.channel != []
  {
    if c.agent.pool.channel[0].worker.job.id in c.uiJobs then DeliveringUi(h, c)
    else
      var (a, outputs) := Delivering(h, c.agent);
      Emitting(c, a, outputs)
  }

  /** What the provider says before its opening response that the loop ignores, and the filter after it. */
  function Filtering(c: Account, e: R.ProviderEvent): (Account, bool) {
    if c.bootstrap && e.Interruption? then (c, true)
    else
      var marked := if c.bootstrap && e.ContentStart? && e.role == R.User then c.bootstrapContents + {e.cid}
      else c.bootstrapContents;
      if ContentOf(e) in marked then
        (c.(bootstrapContents := if e.ContentEnd? then marked - {e.cid} else marked), true)
      else
        (c.(bootstrapContents := marked, bootstrap := c.bootstrap && !(e.ContentStart? && e.role == R.Assistant)),
         false)
  }

  /** A request that the utterance cancelled is reported so. */
  function Dropped(before: A.PlannerState, after: A.PlannerState): seq<Output> {
    if before.pending.Some? && after.pending.None? then [ToolOutcome(PendingJob(before.pending.value), CANCELLED)]
    else []
  }

  /** An utterance is observed by the planner and, while the invitation stands, read as its answer. */
  ghost function ObservingAccount(h: A.Host, l: Letters, c: Account, now: int, e: R.ProviderEvent): Response {
    if !AtBoundary(c.agent.speech, e) then (c, [])
    else
      var before := c.agent.planner;
      var (a, observed) := Observing(h, c.agent, now, e);
      var c1 := c.(agent := a);
      match if c.waiting then WelcomeAnswer(l, a.speech.text) else Unclear
      case No => (c1.(agent := a.(over := true)), observed + [Stopped])
      case Yes =>
        var (c2, begun) := BeginningLogin(h, c1, now, a.speech.turn);
        (c2, observed + begun + Dropped(before, c2.agent.planner))
      case Unclear => (c1, observed + Dropped(before, a.planner))
  }

  predicate AsksLogin(call: StagedCall) {
    call.name == LOGIN_MODEL_NAME || call.name == LOGIN
  }

  /** The model cannot start a login; the invitation does. */
  function RunningAccount(h: A.Host, a: Agent, now: int, call: StagedCall): Reaction {
    if call.cancelled || call.turn != a.mapper.turn then TurnCancelled(a, call)
    else if AsksLogin(call) then
      (a, CallStarted(call) + Answering(a, call, A.Job(call.operation, LOGIN, None, call.turn, "", false),
                                        A.Failure("use_pending_login_invitation")))
    else Running(h, a, now, call)
  }

  function ToolsAccount(h: A.Host, a: Agent, now: int, e: R.ProviderEvent, events: seq<R.ServerEvent>): Reaction {
    if e.ContentEnd? && e.cid in a.staged then
      var call := a.staged[e.cid];
      var a1 := a.(staged := a.staged - {e.cid});
      if call.operation in a1.pool.active then (a1, [])
      else
        var (a2, outputs) := RunningAccount(h, a1, now, call);
        (a2, outputs + Voices(events))
    else Tools(h, a, now, e, events)
  }

  ghost function ReactingAccount(h: A.Host, l: Letters, c: Account, now: int, e: R.ProviderEvent,
                                 outcome: R.Outcome): Response {
    match outcome
    case Failed => (c.(agent := c.agent.(over := true)), [Error("provider_failed")])
    case Events(events) =>
      var (speech, ok) := Collecting(c.agent.speech, e, events);
      if !ok then (c.(agent := c.agent.(speech := speech, over := true)), [Error("provider_failed")])
      else ReactingTo(h, l, c.(agent := c.agent.(speech := speech)), now, e, events)
  }

  ghost function ReactingTo(h: A.Host, l: Letters, c: Account, now: int, e: R.ProviderEvent,
                            events: seq<R.ServerEvent>): Response {
    var (c1, observed) := ObservingAccount(h, l, c, now, e);
    if c1.agent.over then (c1, observed)
    else
      var (a, outputs) := ToolsAccount(h, c1.agent, now, e, events);
      var (c2, emitted) := Emitting(c1, a, outputs);
      (c2, observed + emitted)
  }

  ghost function MappingAccount(h: A.Host, l: Letters, c: Account, now: int, e: R.ProviderEvent, random: Id): Response
    requires R.Bounded(c.agent.mapper)
  {
    match Filtering(c, e)
    case (c1, true) => (c1, [])
    case (c1, false) =>
      var (m, outcome) := R.Mapping(c1.agent.mapper, e, random);
      ReactingAccount(h, l, c1.(agent := c1.agent.(mapper := m)), now, e, outcome)
  }

  function RenewingAccount(c: Account, late: bool): Response {
    var (a, outputs) := Renewing(c.agent, late);
    Emitting(c, a, outputs)
  }

  function TimingOutAccount(c: Account): Response {
    var (a, outputs) := TimingOut(c.agent);
    Emitting(c, a, outputs)
  }

  // ----- the runtime object -----

  class AccountRuntime {
    const letters: Letters
    const authenticated: bool
    const core: Runtime
    var waitingWelcome: bool
    var greetingPending: bool
    var openingBootstrap: bool
    var bootstrapContents: set<Id>
    var uiJobs: set<Id>

    ghost function Value(): Account
      reads this, core, core.session, core.mapper
    {
      Account(core.Value(), authenticated, waitingWelcome, greetingPending, openingBootstrap, bootstrapContents, uiJobs)
    }

    ghost predicate Valid()
      reads this, core, core.session, core.mapper
    {
      core.Valid()
    }

    constructor (host: A.Host, letters: Letters, authenticated: bool)
      requires A.DistinctTools(host.tools)
      ensures Valid() && core.host == host && this.letters == letters && Value() == OpeningAccount(authenticated)
      ensures fresh(core) && fresh(core.session) && fresh(core.mapper)
    {
      this.letters := letters;
      this.authenticated := authenticated;
      core := new Runtime(host);
      waitingWelcome := !authenticated;
      greetingPending, openingBootstrap := true, true;
      bootstrapContents, uiJobs := {}, {};
      new;
      var _ := core.mapper.StartAssistant(OpeningTurn(authenticated));
    }

    /** Passes events on; the end of the opening turn ends the greeting. */
    method Emit(outputs: seq<Output>)
      modifies this`greetingPending
      ensures greetingPending == (old(greetingPending) && !SomeEndsGreeting(outputs, OpeningTurn(authenticated)))
    {
      for i := 0 to |outputs|
        invariant greetingPending == (old(greetingPending)
                                      && !SomeEndsGreeting(outputs[..i], OpeningTurn(authenticated)))
      {
        OneMoreOutput(outputs, i, OpeningTurn(authenticated));
        if EndsGreeting(outputs[i], OpeningTurn(authenticated)) {
          greetingPending := false;
        }
      }
      assert outputs[..|outputs|] == outputs;
    }

    method Start(job: A.Job)
      requires Valid()
      modifies this`uiJobs, core`active, core`running
      ensures Valid() && Value() == Launch(old(Value()), old(Value()).agent, job)
    {
      uiJobs := uiJobs + {job.id};
      core.active := core.active + {job.id};
      core.running := core.running + [Worker(job, None)];
    }

    method BeginWelcomeLogin(now: int, turn: Id) returns (out: seq<Output>)
      requires Valid()
      modifies this`waitingWelcome, this`uiJobs, core`active, core`running, core.session
      ensures Valid() && (Value(), out) == BeginningLogin(core.host, old(Value()), now, turn)
    {
      waitingWelcome := false;
      var job, immediate := core.session.Plan(now, WELCOME, LOGIN_MODEL_NAME, turn, "{}");
      var op := P.PlanOp(now, WELCOME, LOGIN_MODEL_NAME, turn, "{}");
      if immediate.Some? {
        return [Planned(op), ToolOutcome(job, immediate.value)];
      }
      Start(job);
      out := [Planned(op), Begin(Worker(job, None))];
    }

    method Confirm(now: int, operation: Id, approved: bool) returns (out: seq<Output>)
      requires Valid()
      modifies this`uiJobs, core`active, core`running, core.session
      ensures Valid() && (Value(), out) == Pressing(core.host, old(Value()), now, operation, approved)
    {
      if core.session.pending.None? {
        return [Error("invalid_confirmation")];
      }
      var p := core.session.pending.value;
      var accepted := core.session.Confirm(now, operation, approved);
      if !accepted {
        return [Error("invalid_confirmation")];
      }
      if !approved {
        return [Planned(P.ConfirmOp(now, operation, approved)), ToolOutcome(PendingJob(p), CANCELLED)];
      }
      out := Approve(now, p, [Planned(P.ConfirmOp(now, operation, approved))]);
    }

    method Approve(now: int, p: A.Pending, begun: seq<Output>) returns (out: seq<Output>)
      requires Valid()
      modifies this`uiJobs, core`active, core`running, core.session
      ensures Valid() && (Value(), out) == Approving(core.host, old(Value()), begun, now, old(core.session.Value()), p)
    {
      out := PlanPressed(now, p, begun + [Planned(P.PlanOp(now, p.operationId, P.DotsToUnderscores(p.name), p.turn,
                                                           p.args))]);
    }

    method PlanPressed(now: int, p: A.Pending, begun: seq<Output>) returns (out: seq<Output>)
      requires Valid()
      modifies this`uiJobs, core`active, core`running, core.session
      ensures Valid()
      ensures var planned := A.Planning(core.host, old(core.session.Value()), now, p.operationId,
                                        P.DotsToUnderscores(p.name), p.turn, p.args);
              (Value(), out) == Pressed(old(Value()), begun, planned.0, planned.1.0, planned.1.1)
    {
      var job, result := core.session.Plan(now, p.operationId, P.DotsToUnderscores(p.name), p.turn, p.args);
      if result.Some? {
        return begun + [ToolOutcome(job, result.value)];
      }
      Start(job);
      out := begun + [Voice(R.ToolStarted(job.turn, job.id, job.name, "")), Begin(Worker(job, None))];
    }

    method QueueAudio(turn: Id) returns (out: seq<Output>)
      requires Valid() && Hearing(core.Value().inputs, turn, 1).1 == Opened
      modifies core`inputId, core`inputSequence, core`usedInputs, core.mapper
      ensures Valid() && out == [ToEar(core.stream, turn, 1)]
      ensures core.Value() == old(core.Value()).(inputs := Hearing(old(core.Value()).inputs, turn, 1).0,
                                                 mapper := old(core.Value()).mapper.(nextInput := turn))
    {
      core.inputId := turn;
      core.inputSequence := 1;
      core.usedInputs := core.usedInputs + {turn};
      core.mapper.QueueInput(turn);
      out := [ToEar(core.stream, turn, 1)];
    }

    method HearAudio(turn: Id, sequence: nat) returns (out: seq<Output>)
      requires Valid()
      modifies this`greetingPending, core, core.mapper
      ensures Valid() && core.mapper == old(core.mapper)
      ensures (Value(), out) == HearingAccount(old(Value()), turn, sequence)
    {
      if greetingPending && turn != core.inputId && sequence == 1 && turn !in core.usedInputs
         && |core.usedInputs| < MAX_INPUTS {
        out := QueueAudio(turn);
        return;
      }
      out := core.HearAudio(turn, sequence);
      Emit(out);
    }

    method Take(now: int, e: Input) returns (out: seq<Output>)
      requires Valid()
      modifies this, core, core.session, core.mapper
      ensures Valid() && (core.mapper == old(core.mapper) || fresh(core.mapper))
      ensures (Value(), out) == TakingAccount(core.host, old(Value()), now, e)
    {
      if e.AudioAppend? {
        out := HearAudio(e.turn, e.sequence);
      } else if e.ToolConfirm? {
        if e.operation == WELCOME && waitingWelcome {
          if !e.approved {
            core.over := true;
            return [Stopped];
          }
          out := BeginWelcomeLogin(now, WELCOME);
          return;
        }
        out := Confirm(now, e.operation, e.approved);
      } else {
        out := core.Take(now, e);
        Emit(out);
      }
    }

    method Deliver() returns (out: seq<Output>)
      requires Valid() && core.done != []
      modifies this, core, core.session, core.mapper
      ensures Valid() && (core.mapper == old(core.mapper) || fresh(core.mapper))
      ensures (Value(), out) == DeliveringAccount(core.host, old(Value()))
    {
      if core.done[0].worker.job.id in uiJobs {
        out := DeliverUi();
      } else {
        out := core.Deliver();
        Emit(out);
      }
    }

    method DeliverUi() returns (out: seq<Output>)
      requires Valid() && core.done != []
      modifies this, core, core.session, core.mapper
      ensures Valid() && fresh(core.mapper)
      ensures (Value(), out) == DeliveringUi(core.host, old(Value()))
    {
      var finished := core.done[0];
      var job := finished.worker.job;
      core.done := core.done[1..];
      core.active := core.active - {job.id};
      core.session.Complete(job, finished.result);
      uiJobs := uiJobs - {job.id};
      core.mapper.History := core.mapper.History + [R.AssistantMessage(Summary(finished.result))];
      var renewed := core.Rotate();
      out := [Planned(P.CompleteOp(job, finished.result)), ToolOutcome(job, finished.result)] + renewed;
    }

    method Filter(e: R.ProviderEvent) returns (ignored: bool)
      requires Valid()
      modifies this`openingBootstrap, this`bootstrapContents
      ensures Valid() && (Value(), ignored) == Filtering(old(Value()), e)
    {
      if openingBootstrap && e.Interruption? {
        return true;
      }
      if openingBootstrap && e.ContentStart? && e.role == R.User {
        bootstrapContents := bootstrapContents + {e.cid};
      }
      if ContentOf(e) in bootstrapContents {
        if e.ContentEnd? {
          bootstrapContents := bootstrapContents - {e.cid};
        }
        return true;
      }
      if e.ContentStart? && e.role == R.Assistant {
        openingBootstrap := false;
      }
      ignored := false;
    }

    method Observe(now: int, e: R.ProviderEvent) returns (out: seq<Output>)
      requires Valid()
      modifies this`waitingWelcome, this`uiJobs, core`over, core`active, core`running, core.session
      ensures Valid() && (Value(), out) == ObservingAccount(core.host, letters, old(Value()), now, e)
    {
      if !(e.ContentStart? && e.role != R.User && core.completedUserTurn != "" && core.userTexts == map[]) {
        return [];
      }
      var pending := core.session.pending;
      out := core.Observe(now, e);
      if waitingWelcome {
        var answer := WelcomeAnswer(letters, core.completedUser);
        if answer == No {
          core.over := true;
          return out + [Stopped];
        }
        if answer == Yes {
          var begun := BeginWelcomeLogin(now, core.completedUserTurn);
          out := out + begun;
        }
      }
      var dropped: seq<Output> := [];
      if pending.Some? && core.session.pending.None? {
        dropped := [ToolOutcome(PendingJob(pending.value), CANCELLED)];
      }
      out := out + dropped;
    }

    method RunCall(now: int, call: StagedCall) returns (out: seq<Output>)
      requires Valid()
      modifies core`active, core`running, core.session
      ensures Valid() && (core.Value(), out) == RunningAccount(core.host, old(core.Value()), now, call)
    {
      if !(call.cancelled || call.turn != core.mapper.TurnId) && AsksLogin(call) {
        var job := A.Job(call.operation, LOGIN, None, call.turn, "", false);
        var answered := core.Answer(call, job, A.Failure("use_pending_login_invitation"));
        return CallStarted(call) + answered;
      }
      out := core.RunCall(now, call);
    }

    method UseTools(now: int, e: R.ProviderEvent, events: seq<R.ServerEvent>) returns (out: seq<Output>)
      requires Valid()
      modifies core`over, core`staged, core`active, core`running, core.session
      ensures Valid() && (core.Value(), out) == ToolsAccount(core.host, old(core.Value()), now, e, events)
    {
      if e.ContentEnd? && e.cid in core.staged {
        var call := core.staged[e.cid];
        core.staged := core.staged - {e.cid};
        if call.operation in core.active {
          return [];
        }
        out := RunCall(now, call);
        return out + Voices(events);
      }
      out := core.UseTools(now, e, events);
    }

    method React(now: int, e: R.ProviderEvent, outcome: R.Outcome) returns (out: seq<Output>)
      requires Valid()
      modifies this, core, core.session
      ensures Valid() && core.mapper == old(core.mapper)
      ensures (Value(), out) == ReactingAccount(core.host, letters, old(Value()), now, e, outcome)
    {
      if outcome.Failed? {
        core.over := true;
        return [Error("provider_failed")];
      }
      out := ReactToEvents(now, e, outcome.events);
    }

    method ReactToEvents(now: int, e: R.ProviderEvent, events: seq<R.ServerEvent>) returns (out: seq<Output>)
      requires Valid()
      modifies this, core, core.session
      ensures Valid() && core.mapper == old(core.mapper)
      ensures (Value(), out) == ReactingAccount(core.host, letters, old(Value()), now, e, R.Events(events))
    {
      var collected := core.Gather(e, events);
      if !collected {
        core.over := true;
        return [Error("provider_failed")];
      }
      out := ReactTo(now, e, events);
    }

    method ReactTo(now: int, e: R.ProviderEvent, events: seq<R.ServerEvent>) returns (out: seq<Output>)
      requires Valid()
      modifies this, core, core.session
      ensures Valid() && core.mapper == old(core.mapper)
      ensures (Value(), out) == ReactingTo(core.host, letters, old(Value()), now, e, events)
    {
      out := Observe(now, e);
      if core.over {
        return;
      }
      var outputs := UseTools(now, e, events);
      Emit(outputs);
      out := out + outputs;
    }

    method Map(now: int, e: R.ProviderEvent, random: Id) returns (out: seq<Output>)
      requires Valid()
      modifies this, core, core.session, core.mapper
      ensures Valid() && core.mapper == old(core.mapper)
      ensures (Value(), out) == MappingAccount(core.host, letters, old(Value()), now, e, random)
    {
      var ignored := Filter(e);
      if ignored {
        return [];
      }
      var outcome := core.MapEvent(e, random);
      out := React(now, e, outcome);
    }

    method Renew(late: bool) returns (out: seq<Output>)
      requires Valid()
      modifies this`greetingPending, core, core.session, core.mapper
      ensures Valid() && (core.mapper == old(core.mapper) || fresh(core.mapper))
      ensures (Value(), out) == RenewingAccount(old(Value()), late)
    {
      out := core.Renew(late);
      Emit(out);
    }

    method TimeOut() returns (out: seq<Output>)
      requires Valid()
      modifies this`greetingPending, core`over, core.mapper
      ensures Valid() && (Value(), out) == TimingOutAccount(old(Value()))
    {
      out := core.TimeOut();
      Emit(out);
    }
  }
}
