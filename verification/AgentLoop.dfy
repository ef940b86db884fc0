/**
 The event loop of the personal assistant (apps/personal-assistant-agent/internal/agent/runtime.go, tools.go).

 Agent is what the loop holds between two events, and each function says what one case of its select does
 to it, with the outputs in order. A stream is the number of provider connections opened before it. The loop
 may also end at any point because a write fails; that ends the run and is not modelled.
 */
module AgentLoop {
  import opened Basics
  import R = RealtimeMapper
  import A = ActionRuntime
  import P = Approval
  import M = MapperRuns
  import opened AgentParts
  import opened WorkerPool

  datatype Agent = Agent(
    over: bool,
    planner: A.PlannerState,
    mapper: R.MapperState,
    stream: nat,
    staged: map<Id, StagedCall>,
    pool: Pool,
    inputs: Inputs,
    speech: Speech)

  datatype Output =
    | Voice(e: R.ServerEvent)
    | Error(code: string)
    | Stopped
    | ToEar(stream: nat, turn: Id, sequence: nat)
    | ToModel(stream: nat, worker: Worker, result: A.ToolResult)
    | ToolOutcome(job: A.Job, result: A.ToolResult)
    | AskConfirmation(turn: Id, pending: A.Pending)
    | Planned(op: P.Op)
    | Begin(worker: Worker)

  datatype Input =
    | AudioAppend(turn: Id, sequence: nat)
    | TurnCommit(turn: Id)
    | TurnCancel(turn: Id)
    | SessionStop
    | ToolConfirm(operation: Id, approved: bool)
    | OtherInput

  type Reaction = (Agent, seq<Output>)

  function Opening(): Agent {
    Agent(false, A.NewSession(), R.Fresh([]), 0, map[], Pool({}, [], []), Inputs("", 0, {}),
          Speech(map[], map[], "", ""))
  }

  function Voices(events: seq<R.ServerEvent>): seq<Output> {
    seq(|events|, i requires 0 <= i < |events| => Voice(events[i]))
  }

  function Ended(a: Agent, outputs: seq<Output>): Reaction {
    (a.(over := true), outputs)
  }

  function Interrupted(a: Agent): Reaction {
    var (m, events) := R.Interrupting(a.mapper);
    (a.(mapper := m), Voices(events))
  }

  /** A new provider stream with the history so far; what was staged or pending is dropped. */
  function Rotating(a: Agent): Reaction {
    (a.(planner := A.Interrupting(a.planner), mapper := R.Fresh(a.mapper.history), stream := a.stream + 1,
        staged := map[]),
     [Planned(P.InterruptOp), Voice(R.SessionRenewed)])
  }

  /** The renewal timer; late is the hard limit on the age of a stream. */
  function Renewing(a: Agent, late: bool): Reaction {
    if a.pool.active != {} then
      if late then Ended(a, [Error("mcp_in_progress")]) else (a, [])
    else if a.mapper.activity != R.Idle && !late then (a, [])
    else
      var (a1, interrupted) := Interrupted(a);
      var (a2, renewed) := Rotating(a1);
      (a2, interrupted + renewed)
  }

  function TimingOut(a: Agent): Reaction {
    var (a1, interrupted) := Interrupted(a);
    Ended(a1, interrupted + [Error("provider_timeout")])
  }

  function HearingAudio(a: Agent, turn: Id, sequence: nat): Reaction {
    match Hearing(a.inputs, turn, sequence)
    case (_, Refused) => (a, [Error("invalid_audio")])
    case (i, Opened) =>
      var (m, events) := R.StartingInput(a.mapper, turn);
      (a.(inputs := i, mapper := m), Voices(events) + [ToEar(a.stream, turn, sequence)])
    case (i, Continued) => (a.(inputs := i), [ToEar(a.stream, turn, sequence)])
  }

  function Cancelling(a: Agent, turn: Id): Reaction {
    if turn != a.mapper.turn || a.mapper.activity == R.Idle then (a, [Error("invalid_turn")])
    else
      var (a1, interrupted) := Interrupted(a);
      if a1.pool.active != {} then Ended(a1, interrupted + [Error("mcp_in_progress")])
      else
        var (a2, renewed) := Rotating(a1.(inputs := a1.inputs.(id := "", sequence := 0)));
        (a2, interrupted + renewed)
  }

  function Confirming(h: A.Host, a: Agent, now: int, operation: Id, approved: bool): Reaction {
    var (s, accepted) := A.Confirming(h, a.planner, now, operation, approved);
    (a.(planner := s), [Planned(P.ConfirmOp(now, operation, approved))] + if accepted then []
     else [Error("invalid_confirmation")])
  }

  function Taking(h: A.Host, a: Agent, now: int, e: Input): Reaction {
    match e
    case AudioAppend(turn, sequence) => HearingAudio(a, turn, sequence)
    case TurnCommit(turn) =>
      if turn != a.inputs.id || a.inputs.sequence == 0 then (a, [Error("invalid_turn")]) else (a, [])
    case TurnCancel(turn) => Cancelling(a, turn)
    case SessionStop => Ended(a, [Stopped])
    case ToolConfirm(operation, approved) => Confirming(h, a, now, operation, approved)
    case OtherInput => (a, [Error("invalid_transition")])
  }

  /** The oldest result in the channel goes to the open stream. */
  function Delivering(h: A.Host, a: Agent): Reaction
    requires a.pool.channel != []
  {
    var d := a.pool.channel[0];
    var j := d.worker.job;
    (a.(pool := Receiving(a.pool), planner := A.Completing(h, a.planner, j, d.result)),
     [Planned(P.CompleteOp(j, d.result)), ToModel(a.stream, d.worker, d.result), ToolOutcome(j, d.result)])
  }

  function Asking(s: A.PlannerState, turn: Id): seq<Output> {
    if s.pending.None? then [] else [AskConfirmation(turn, s.pending.value)]
  }

  /** A result that no worker has to produce. */
  function Answering(a: Agent, call: StagedCall, j: A.Job, result: A.ToolResult): seq<Output> {
    [ToModel(a.stream, Worker(j, Some(call.asked)), result), ToolOutcome(j, result)] + Asking(a.planner, call.turn)
  }

  function CallStarted(call: StagedCall): seq<Output> {
    [Voice(R.ToolStarted(call.turn, call.operation, call.name, call.arguments))]
  }

  /** What follows a plan: an immediate answer, a refusal when four jobs are active, or a worker. */
  function Following(a: Agent, call: StagedCall, op: P.Op, j: A.Job, immediate: Option<A.ToolResult>): Reaction {
    var begun := [Planned(op)] + CallStarted(call);
    if immediate.Some? then (a, begun + Answering(a, call, j, immediate.value))
    else if |a.pool.active| >= MAX_ACTIVE then (a, begun + Answering(a, call, j, A.Failure("tool_busy")))
    else
      var w := Worker(j, Some(call.asked));
      (a.(pool := Launching(a.pool, w)), begun + [Begin(w)])
  }

  function TurnCancelled(a: Agent, call: StagedCall): Reaction {
    (a, CallStarted(call) + Answering(a, call, A.Job(call.operation, call.name, None, call.turn, "", false),
                                      A.Failure("turn_cancelled")))
  }

  /** A staged call whose content has closed. */
  function Running(h: A.Host, a: Agent, now: int, call: StagedCall): Reaction {
    if call.cancelled || call.turn != a.mapper.turn then TurnCancelled(a, call)
    else
      var planned := A.Planning(h, a.planner, now, call.operation, call.name, call.turn, call.arguments);
      Following(a.(planner := planned.0), call, P.PlanOp(now, call.operation, call.name, call.turn, call.arguments),
                planned.1.0, planned.1.1)
  }

  /** The user's utterance is observed when other content begins. */
  ghost function Observing(h: A.Host, a: Agent, now: int, e: R.ProviderEvent): Reaction {
    if AtBoundary(a.speech, e) then
      (a.(planner := A.Observing(h, a.planner, now, a.speech.turn, a.speech.text).0),
       [Planned(P.ObserveOp(now, a.speech.turn, a.speech.text))])
    else (a, [])
  }

  /** Tool calls wait until their content closes. */
  function Tools(h: A.Host, a: Agent, now: int, e: R.ProviderEvent, events: seq<R.ServerEvent>): Reaction {
    if e.ToolUse? then
      if |a.staged| >= MAX_STAGED then Ended(a, [Error("provider_failed")])
      else
        var call := Staging(e, events, a.mapper.turn, a.stream);
        (a.(staged := if call.cancelled && e.cid in a.staged then a.staged else a.staged[e.cid := call]), [])
    else if e.ContentEnd? && e.cid in a.staged then
      var call := a.staged[e.cid];
      var a1 := a.(staged := a.staged - {e.cid});
      if call.operation in a1.pool.active then (a1, [])
      else
        var (a2, outputs) := Running(h, a1, now, call);
        (a2, outputs + Voices(events))
    else (a, Voices(events))
  }

  /** The loop's reaction to what the mapper made of a provider event. */
  ghost function Reacting(h: A.Host, a: Agent, now: int, e: R.ProviderEvent, outcome: R.Outcome): Reaction {
    match outcome
    case Failed => Ended(a, [Error("provider_failed")])
    case Events(events) =>
      match Collecting(a.speech, e, events)
      case (speech, false) => Ended(a.(speech := speech), [Error("provider_failed")])
      case (speech, true) =>
        var (a1, observed) := Observing(h, a.(speech := speech), now, e);
        var (a2, outputs) := Tools(h, a1, now, e, events);
        (a2, observed + outputs)
  }

  ghost function Mapping(h: A.Host, a: Agent, now: int, e: R.ProviderEvent, random: Id): Reaction
    requires R.Bounded(a.mapper)
  {
    var (m, outcome) := R.Mapping(a.mapper, e, random);
    Reacting(h, a.(mapper := m), now, e, outcome)
  }

  // ----- the runtime object -----

  class Runtime {
    const host: A.Host
    const session: A.Session
    var over: bool
    var mapper: R.Mapper
    var stream: nat
    var staged: map<Id, StagedCall>
    var active: set<Id>
    var running: seq<Worker>
    var done: seq<Delivery>
    var inputId: Id
    var inputSequence: nat
    var usedInputs: set<Id>
    var userTexts: map<Id, string>
    var userTurns: map<Id, Id>
    var completedUser: string
    var completedUserTurn: Id

    ghost function Value(): Agent
      reads this, session, mapper
    {
      Agent(over, session.Value(), mapper.Value(), stream, staged, Pool(active, running, done),
            Inputs(inputId, inputSequence, usedInputs),
            Speech(userTexts, userTurns, completedUser, completedUserTurn))
    }

    ghost predicate Valid()
      reads this, session, mapper
    {
      session.host == host && A.DistinctTools(host.tools) && R.Bounded(mapper.Value())
    }

    constructor (host: A.Host)
      requires A.DistinctTools(host.tools)
      ensures Valid() && this.host == host && Value() == Opening() && fresh(mapper) && fresh(session)
    {
      this.host := host;
      session := new A.Session(host);
      over, stream, staged, active, running, done := false, 0, map[], {}, [], [];
      inputId, inputSequence, usedInputs := "", 0, {};
      userTexts, userTurns, completedUser, completedUserTurn := map[], map[], "", "";
      mapper := new R.Mapper([]);
    }

    method Rotate() returns (out: seq<Output>)
      requires Valid()
      modifies this`mapper, this`stream, this`staged, session
      ensures Valid() && fresh(mapper)
      ensures (Value(), out) == Rotating(old(Value()))
    {
      session.Interrupt();
      staged := map[];
      mapper := new R.Mapper(mapper.History);
      stream := stream + 1;
      out := [Planned(P.InterruptOp), Voice(R.SessionRenewed)];
    }

    method Interrupt() returns (out: seq<Output>)
      requires Valid()
      modifies mapper
      ensures Valid() && (Value(), out) == Interrupted(old(Value()))
    {
      var events := mapper.Interrupt();
      out := Voices(events);
    }

    method Renew(late: bool) returns (out: seq<Output>)
      requires Valid()
      modifies this`over, this`mapper, this`stream, this`staged, session, mapper
      ensures Valid() && (mapper == old(mapper) || fresh(mapper))
      ensures (Value(), out) == Renewing(old(Value()), late)
    {
      if active != {} {
        if late {
          over := true;
          return [Error("mcp_in_progress")];
        }
        return [];
      }
      if mapper.State != R.Idle && !late {
        return [];
      }
      var interrupted := Interrupt();
      var renewed := Rotate();
      out := interrupted + renewed;
    }

    method TimeOut() returns (out: seq<Output>)
      requires Valid()
      modifies this`over, mapper
      ensures Valid() && (Value(), out) == TimingOut(old(Value()))
    {
      var interrupted := Interrupt();
      over := true;
      out := interrupted + [Error("provider_timeout")];
    }

    method OpenInput(turn: Id) returns (events: seq<R.ServerEvent>)
      requires Valid()
      modifies this`inputId, this`inputSequence, this`usedInputs, mapper
      ensures Valid()
      ensures Value() == old(Value()).(inputs := Inputs(turn, 0, old(usedInputs) + {turn}),
                                       mapper := R.StartingInput(old(mapper.Value()), turn).0)
      ensures events == R.StartingInput(old(mapper.Value()), turn).1
    {
      inputId := turn;
      inputSequence := 0;
      usedInputs := usedInputs + {turn};
      events := mapper.StartInput(turn);
    }

    method HearAudio(turn: Id, sequence: nat) returns (out: seq<Output>)
      requires Valid()
      modifies this`inputId, this`inputSequence, this`usedInputs, mapper
      ensures Valid() && (Value(), out) == HearingAudio(old(Value()), turn, sequence)
    {
      out := [];
      if turn != inputId {
        if sequence != 1 || turn in usedInputs || |usedInputs| >= MAX_INPUTS {
          return [Error("invalid_audio")];
        }
        var events := OpenInput(turn);
        out := Voices(events);
      }
      if sequence != inputSequence + 1 {
        return [Error("invalid_audio")];
      }
      inputSequence := sequence;
      assert [] + [ToEar(stream, turn, sequence)] == [ToEar(stream, turn, sequence)];
      out := out + [ToEar(stream, turn, sequence)];
    }

    method CancelTurn(turn: Id) returns (out: seq<Output>)
      requires Valid()
      modifies this, session, mapper
      ensures Valid() && (mapper == old(mapper) || fresh(mapper))
      ensures (Value(), out) == Cancelling(old(Value()), turn)
    {
      if turn != mapper.TurnId || mapper.State == R.Idle {
        return [Error("invalid_turn")];
      }
      var interrupted := Interrupt();
      if active != {} {
        over := true;
        return interrupted + [Error("mcp_in_progress")];
      }
      inputId := "";
      inputSequence := 0;
      var renewed := Rotate();
      out := interrupted + renewed;
    }

    method Take(now: int, e: Input) returns (out: seq<Output>)
      requires Valid()
      modifies this, session, mapper
      ensures Valid() && (mapper == old(mapper) || fresh(mapper))
      ensures (Value(), out) == Taking(host, old(Value()), now, e)
    {
      match e {
        case AudioAppend(turn, sequence) => out := HearAudio(turn, sequence);
        case TurnCommit(turn) =>
          if turn != inputId || inputSequence == 0 {
            return [Error("invalid_turn")];
          }
          out := [];
        case TurnCancel(turn) => out := CancelTurn(turn);
        case SessionStop =>
          over := true;
          out := [Stopped];
        case ToolConfirm(operation, approved) =>
          var accepted := session.Confirm(now, operation, approved);
          out := [Planned(P.ConfirmOp(now, operation, approved))] + if accepted then []
          else [Error("invalid_confirmation")];
        case OtherInput => out := [Error("invalid_transition")];
      }
    }

    /** A worker ends and leaves its result in the channel, which must have room. */
    method Finish(k: nat, result: A.ToolResult)
      requires Valid() && k < |running| && |done| < CHANNEL
      modifies this`running, this`done
      ensures Valid() && Value() == old(Value()).(pool := Finishing(old(Value()).pool, k, result))
    {
      done := done + [Delivery(running[k], result)];
      running := running[..k] + running[k + 1..];
    }

    method Deliver() returns (out: seq<Output>)
      requires Valid() && done != []
      modifies this`active, this`done, session
      ensures Valid() && (Value(), out) == Delivering(host, old(Value()))
    {
      var finished := done[0];
      done := done[1..];
      var job := finished.worker.job;
      active := active - {job.id};
      session.Complete(job, finished.result);
      out := [Planned(P.CompleteOp(job, finished.result)), ToModel(stream, finished.worker, finished.result),
              ToolOutcome(job, finished.result)];
    }

    /** Adds the finalized user transcripts to the speech; false when an utterance is too long. */
    method Collect(cid: Id, events: seq<R.ServerEvent>) returns (ok: bool)
      modifies this`userTexts, this`userTurns
      ensures (Speech(userTexts, userTurns, completedUser, completedUserTurn), ok) ==
              Fragments(old(Speech(userTexts, userTurns, completedUser, completedUserTurn)), cid, events)
    {
      ghost var all := Fragments(Speech(userTexts, userTurns, completedUser, completedUserTurn), cid, events);
      for i := 0 to |events|
        invariant all == Fragments(Speech(userTexts, userTurns, completedUser, completedUserTurn), cid, events[i..])
      {
        var e := events[i];
        assert events[i..][1..] == events[i + 1..];
        if FinalUserText(e) {
          var before := if cid in userTexts then userTexts[cid] else "";
          if |before| + |e.text| > MAX_UTTERANCE {
            return false;
          }
          userTexts := userTexts[cid := before + e.text];
          userTurns := userTurns[cid := e.turn];
        }
      }
      ok := true;
    }

    method EndSpeech(cid: Id)
      modifies this`userTexts, this`userTurns, this`completedUser, this`completedUserTurn
      ensures Speech(userTexts, userTurns, completedUser, completedUserTurn) ==
              Ending(old(Speech(userTexts, userTurns, completedUser, completedUserTurn)), cid)
    {
      if cid in userTexts && cid in userTurns {
        var turn := userTurns[cid];
        if completedUserTurn != turn {
          completedUser := "";
          completedUserTurn := turn;
        }
        completedUser := Trim(completedUser + " " + userTexts[cid]);
        userTexts := userTexts - {cid};
        userTurns := userTurns - {cid};
      }
    }

    method Answer(call: StagedCall, job: A.Job, result: A.ToolResult) returns (out: seq<Output>)
      ensures out == Answering(Value(), call, job, result)
    {
      out := [ToModel(stream, Worker(job, Some(call.asked)), result), ToolOutcome(job, result)];
      if session.pending.Some? {
        out := out + [AskConfirmation(call.turn, session.pending.value)];
      }
    }

    method RunCall(now: int, call: StagedCall) returns (out: seq<Output>)
      requires Valid()
      modifies this`active, this`running, session
      ensures Valid() && (Value(), out) == Running(host, old(Value()), now, call)
    {
      if call.cancelled || call.turn != mapper.TurnId {
        var answered := Answer(call, A.Job(call.operation, call.name, None, call.turn, "", false),
                               A.Failure("turn_cancelled"));
        return CallStarted(call) + answered;
      }
      var job, immediate := session.Plan(now, call.operation, call.name, call.turn, call.arguments);
      out := [Planned(P.PlanOp(now, call.operation, call.name, call.turn, call.arguments))] + CallStarted(call);
      if immediate.None? && |active| >= MAX_ACTIVE {
        immediate := Some(A.Failure("tool_busy"));
      }
      if immediate.Some? {
        var answered := Answer(call, job, immediate.value);
        return out + answered;
      }
      active := active + {job.id};
      running := running + [Worker(job, Some(call.asked))];
      out := out + [Begin(Worker(job, Some(call.asked)))];
    }

    method UseTools(now: int, e: R.ProviderEvent, events: seq<R.ServerEvent>) returns (out: seq<Output>)
      requires Valid()
      modifies this`over, this`staged, this`active, this`running, session
      ensures Valid() && (Value(), out) == Tools(host, old(Value()), now, e, events)
    {
      if e.ToolUse? {
        if |staged| >= MAX_STAGED {
          over := true;
          return [Error("provider_failed")];
        }
        var call := Staging(e, events, mapper.TurnId, stream);
        if !call.cancelled || e.cid !in staged {
          staged := staged[e.cid := call];
        }
        return [];
      }
      if e.ContentEnd? && e.cid in staged {
        var call := staged[e.cid];
        staged := staged - {e.cid};
        if call.operation in active {
          return [];
        }
        out := RunCall(now, call);
        return out + Voices(events);
      }
      out := Voices(events);
    }

    /** What an event adds to the user's speech. */
    method Gather(e: R.ProviderEvent, events: seq<R.ServerEvent>) returns (ok: bool)
      requires Valid()
      modifies this`userTexts, this`userTurns, this`completedUser, this`completedUserTurn
      ensures Valid() && Value() == old(Value()).(speech := Collecting(old(Value()).speech, e, events).0)
      ensures ok == Collecting(old(Value()).speech, e, events).1
    {
      ok := Collect(ContentOf(e), events);
      if ok && e.ContentEnd? {
        EndSpeech(e.cid);
      }
    }

    method Observe(now: int, e: R.ProviderEvent) returns (out: seq<Output>)
      requires Valid()
      modifies session
      ensures Valid() && (Value(), out) == Observing(host, old(Value()), now, e)
    {
      if e.ContentStart? && e.role != R.User && completedUserTurn != "" && userTexts == map[] {
        var _ := session.ObserveUser(now, completedUserTurn, completedUser);
        return [Planned(P.ObserveOp(now, completedUserTurn, completedUser))];
      }
      out := [];
    }

    method React(now: int, e: R.ProviderEvent, outcome: R.Outcome) returns (out: seq<Output>)
      requires Valid()
      modifies this, session
      ensures Valid() && mapper == old(mapper)
      ensures (Value(), out) == Reacting(host, old(Value()), now, e, outcome)
    {
      if outcome.Failed? {
        over := true;
        return [Error("provider_failed")];
      }
      var collected := Gather(e, outcome.events);
      if !collected {
        over := true;
        return [Error("provider_failed")];
      }
      var observed := Observe(now, e);
      var outputs := UseTools(now, e, outcome.events);
      out := observed + outputs;
    }

    method Map(now: int, e: R.ProviderEvent, random: Id) returns (out: seq<Output>)
      requires Valid()
      modifies this, session, mapper
      ensures Valid() && mapper == old(mapper)
      ensures (Value(), out) == Mapping(host, old(Value()), now, e, random)
    {
      var outcome := MapEvent(e, random);
      out := React(now, e, outcome);
    }

    method MapEvent(e: R.ProviderEvent, random: Id) returns (outcome: R.Outcome)
      requires Valid()
      modifies mapper
      ensures Valid()
      ensures Value() == old(Value()).(mapper := R.Mapping(old(Value()).mapper, e, random).0)
      ensures outcome == R.Mapping(old(Value()).mapper, e, random).1
    {
      ghost var before := mapper.Value();
      M.MappingKeepsBounded(before, e, random);
      outcome := mapper.Map(e, random);
    }
  }
}
