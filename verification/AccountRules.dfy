/** Whole runs of the account agent's loop: when a login may begin. */
module AccountRules {
  import opened Basics
  import R = RealtimeMapper
  import A = ActionRuntime
  import P = Approval
  import opened AgentParts
  import opened WorkerPool
  import opened AgentLoop
  import opened AgentRuns
  import opened AccountLoop
  import opened AccountRuns
  import Utterances
  import opened WelcomeWords

  // ----- nothing counts before the opening response -----

  predicate NoUser(m: R.MapperState) {
    forall cid | cid in m.contents :: m.contents[cid].role != R.User
  }

  predicate Unheard(c: Account) {
    c.bootstrap ==> NoUser(c.agent.mapper) && c.agent.speech == Speech(map[], map[], "", "")
  }

  /** Without user content the mapper reports no user speech, and only user content adds some. */
  lemma NoUserSilent(m: R.MapperState, e: R.ProviderEvent, random: Id)
    requires R.Bounded(m) && NoUser(m) && !(e.ContentStart? && e.role == R.User)
    ensures NoUser(R.Mapping(m, e, random).0)
    ensures R.Mapping(m, e, random).1.Events? ==> Silent(R.Mapping(m, e, random).1.events)
  {
    if e.ContentEnd? && !R.Stale(m, e.cid) {
      EndSilent(m, e.cid, e.stop);
    }
  }

  lemma EndSilent(m: R.MapperState, cid: Id, stop: R.StopReason)
    requires R.Bounded(m) && cid in m.contents
    ensures R.MappingEnd(m, cid, stop).0.contents == m.contents - {cid}
    ensures R.MappingEnd(m, cid, stop).1.Events? ==> Silent(R.MappingEnd(m, cid, stop).1.events)
  {
  }

  lemma MapKeepsUnheard(h: A.Host, l: Letters, c: Account, now: int, e: R.ProviderEvent, random: Id)
    requires R.Bounded(c.agent.mapper) && Unheard(c)
    ensures Unheard(MappingAccount(h, l, c, now, e, random).0)
  {
    var (c1, ignored) := Filtering(c, e);
    if !ignored {
      MappedKeepsUnheard(h, l, c, c1, now, e, random, R.Mapping(c1.agent.mapper, e, random));
    }
  }

  lemma MappedKeepsUnheard(h: A.Host, l: Letters, c: Account, c1: Account, now: int, e: R.ProviderEvent, random: Id,
                           mapped: (R.MapperState, R.Outcome))
    requires R.Bounded(c.agent.mapper) && Unheard(c) && Filtering(c, e) == (c1, false)
    requires mapped == R.Mapping(c.agent.mapper, e, random)
    ensures Unheard(ReactingAccount(h, l, c1.(agent := c1.agent.(mapper := mapped.0)), now, e, mapped.1).0)
  {
    ReactingMapper(h, l, c1.(agent := c1.agent.(mapper := mapped.0)), now, e, mapped.1);
    if c1.bootstrap {
      NoUserSilent(c.agent.mapper, e, random);
      if mapped.1.Events? {
        SilentFragments(c.agent.speech, ContentOf(e), mapped.1.events);
      }
    }
  }

  lemma TakingKeepsUnheard(h: A.Host, c: Account, now: int, e: Input)
    requires Unheard(c)
    ensures Unheard(TakingAccount(h, c, now, e).0)
  {
    match e
    case ToolConfirm(operation, approved) => ConfirmKeeps(h, c, now, operation, approved);
    case _ =>
  }

  lemma KeepsUnheard(h: A.Host, l: Letters, c: Account, step: Step)
    requires R.Bounded(c.agent.mapper) && Enabled(c.agent, step) && Unheard(c)
    ensures Unheard(NextAccount(h, l, c, step).0)
  {
    NextKeepsUnheard(h, l, c, step, NextAccount(h, l, c, step));
  }

  lemma NextKeepsUnheard(h: A.Host, l: Letters, c: Account, step: Step, r: Response)
    requires R.Bounded(c.agent.mapper) && Enabled(c.agent, step) && Unheard(c) && r == NextAccount(h, l, c, step)
    ensures Unheard(r.0)
  {
    match step
    case TakeStep(now, e) => TakingKeepsUnheard(h, c, now, e);
    case MapStep(now, e, random) => MapKeepsUnheard(h, l, c, now, e, random);
    case _ =>
  }

  // ----- pending requests are never logins -----

  /** A pending request names a tool that is confirmed later. */
  ghost predicate PendingLater(h: A.Host, s: A.PlannerState) {
    s.pending.Some? ==>
      exists n :: n in h.tools && h.tools[n].toolName == s.pending.value.name && h.tools[n].policy == A.ConfirmLater
  }

  lemma OpKeepsPendingLater(h: A.Host, s: A.PlannerState, op: P.Op)
    requires PendingLater(h, s)
    ensures PendingLater(h, P.Next(h, s, op))
  {
    P.PendingStep(h, s, op);
  }

  lemma LoginModelName()
    ensures A.ModelName(LOGIN) == LOGIN_MODEL_NAME && '-' !in LOGIN_MODEL_NAME
  {
  }

  /** What a call of another name releases is no login. */
  lemma OtherNameOtherJob(h: A.Host, s: A.PlannerState, now: int, id: Id, name: string, turn: Id, args: string)
    requires A.WellBound(h.tools) && name != LOGIN_MODEL_NAME
    ensures A.Planning(h, s, now, id, name, turn, args).1.1.None? ==>
              A.Planning(h, s, now, id, name, turn, args).1.0.name != LOGIN
  {
    LoginModelName();
  }

  lemma HyphensStay(name: string)
    ensures '-' in name ==> '-' in P.DotsToUnderscores(name)
  {
    if '-' in name {
      var i :| 0 <= i < |name| && name[i] == '-';
      assert P.DotsToUnderscores(name)[i] == '-';
    }
  }

  lemma PressedIsNoLogin(h: A.Host, s: A.PlannerState, name: string)
    requires AccountHost(h)
    requires exists n :: n in h.tools && h.tools[n].toolName == name && h.tools[n].policy == A.ConfirmLater
    requires P.DotsToUnderscores(name) == LOGIN_MODEL_NAME
    requires LOGIN_MODEL_NAME in h.tools
    ensures h.tools[LOGIN_MODEL_NAME].toolName != LOGIN
  {
    LoginModelName();
    var n :| n in h.tools && h.tools[n].toolName == name && h.tools[n].policy == A.ConfirmLater;
    HyphensStay(name);
    P.NamesAgree(name);
    assert n == LOGIN_MODEL_NAME;
  }

  // ----- logins -----

  predicate IsLogin(o: Output) {
    o.Begin? && o.worker.job.name == LOGIN
  }

  function Logins(outputs: seq<Output>): nat {
    if outputs == [] then 0
    else Logins(outputs[..|outputs| - 1]) + if IsLogin(outputs[|outputs| - 1]) then 1 else 0
  }

  lemma {:induction false} LoginsParts(x: seq<Output>, y: seq<Output>)
    ensures Logins(x + y) == Logins(x) + Logins(y)
  {
    if y == [] {
      assert x + y == x;
    } else {
      var front := y[..|y| - 1];
      LoginsParts(x, front);
      assert (x + y)[..|x + y| - 1] == x + front;
    }
  }

  predicate NoLogin(outputs: seq<Output>) {
    forall i | 0 <= i < |outputs| :: !IsLogin(outputs[i])
  }

  lemma {:induction false} NoLogins(outputs: seq<Output>)
    requires NoLogin(outputs)
    ensures Logins(outputs) == 0
  {
    if outputs != [] {
      NoLogins(outputs[..|outputs| - 1]);
    }
  }

  /** An utterance whose words are one of the affirmative answers is put out. */
  ghost predicate Accepted(l: Letters, now: int, outputs: seq<Output>) {
    exists turn, text :: Planned(P.ObserveOp(now, turn, text)) in outputs && Affirms(l, text)
  }

  /** The user asks for the login: approval of the invitation in the app, or an utterance that accepts it. */
  ghost predicate Consents(l: Letters, c: Account, step: Step, outputs: seq<Output>) {
    match step
    case TakeStep(_, e) => e == ToolConfirm(WELCOME, true)
    case MapStep(now, e, _) => !c.bootstrap && Accepted(l, now, outputs)
    case _ => false
  }

  /** What a step may do about logins. */
  ghost predicate LoginStep(h: A.Host, l: Letters, c: Account, step: Step, r: Response) {
    && PendingLater(h, r.0.agent.planner)
    && r.0.authenticated == c.authenticated
    && (r.0.waiting ==> c.waiting)
    && (NoLogin(r.1) || (c.waiting && !r.0.waiting && Logins(r.1) <= 1 && Consents(l, c, step, r.1)))
  }

  lemma PlanKeepsPendingLater(h: A.Host, s: A.PlannerState, now: int, id: Id, name: string, turn: Id, args: string)
    requires PendingLater(h, s)
    ensures PendingLater(h, A.Planning(h, s, now, id, name, turn, args).0)
  {
    OpKeepsPendingLater(h, s, P.PlanOp(now, id, name, turn, args));
  }

  lemma BeginningLogins(h: A.Host, c: Account, now: int, turn: Id)
    requires PendingLater(h, c.agent.planner)
    ensures var r := BeginningLogin(h, c, now, turn);
            PendingLater(h, r.0.agent.planner) && !r.0.waiting && Logins(r.1) <= 1
            && r.0.authenticated == c.authenticated
  {
    PlanKeepsPendingLater(h, c.agent.planner, now, WELCOME, LOGIN_MODEL_NAME, turn, "{}");
    var outputs := BeginningLogin(h, c, now, turn).1;
    assert |outputs| == 2 && !IsLogin(outputs[0]);
    NoLogins(outputs[..1]);
  }

  lemma ApprovingNoLogin(h: A.Host, c: Account, begun: seq<Output>, now: int, s: A.PlannerState, p: A.Pending)
    requires AccountHost(h) && PendingLater(h, s) && NoLogin(begun)
    requires exists n :: n in h.tools && h.tools[n].toolName == p.name && h.tools[n].policy == A.ConfirmLater
    ensures PendingLater(h, Approving(h, c, begun, now, s, p).0.agent.planner)
    ensures NoLogin(Approving(h, c, begun, now, s, p).1)
  {
    PressedNoLogin(h, s, now, p);
    var name := P.DotsToUnderscores(p.name);
    var planned := A.Planning(h, s, now, p.operationId, name, p.turn, p.args);
    PressedOutputs(c, begun + [Planned(P.PlanOp(now, p.operationId, name, p.turn, p.args))], planned.0, planned.1.0,
                   planned.1.1);
  }

  lemma PressingNoLogin(h: A.Host, c: Account, now: int, operation: Id, approved: bool)
    requires AccountHost(h) && PendingLater(h, c.agent.planner)
    ensures PendingLater(h, Pressing(h, c, now, operation, approved).0.agent.planner)
    ensures NoLogin(Pressing(h, c, now, operation, approved).1)
  {
    if c.agent.planner.pending.Some? && approved && A.Confirming(h, c.agent.planner, now, operation, approved).1 {
      OpKeepsPendingLater(h, c.agent.planner, P.ConfirmOp(now, operation, approved));
      ApprovedNoLogin(h, c, now, operation, A.Confirming(h, c.agent.planner, now, operation, approved).0);
    } else {
      UnapprovedNoLogin(h, c, now, operation, approved);
    }
  }

  lemma UnapprovedNoLogin(h: A.Host, c: Account, now: int, operation: Id, approved: bool)
    requires PendingLater(h, c.agent.planner)
    requires c.agent.planner.pending.None? || !approved || !A.Confirming(h, c.agent.planner, now, operation, approved).1
    ensures PendingLater(h, Pressing(h, c, now, operation, approved).0.agent.planner)
    ensures NoLogin(Pressing(h, c, now, operation, approved).1)
  {
  }

  lemma ApprovedNoLogin(h: A.Host, c: Account, now: int, operation: Id, s: A.PlannerState)
    requires AccountHost(h) && PendingLater(h, c.agent.planner) && c.agent.planner.pending.Some? && PendingLater(h, s)
    requires A.Confirming(h, c.agent.planner, now, operation, true) == (s, true)
    ensures PendingLater(h, Pressing(h, c, now, operation, true).0.agent.planner)
    ensures NoLogin(Pressing(h, c, now, operation, true).1)
  {
    var begun := [Planned(P.ConfirmOp(now, operation, true))];
    var p := c.agent.planner.pending.value;
    var r := Approving(h, c, begun, now, s, p);
    assert Pressing(h, c, now, operation, true) == r;
    ApprovingNoLogin(h, c, begun, now, s, p);
  }

  lemma PressedOutputs(c: Account, begun: seq<Output>, s: A.PlannerState, j: A.Job, immediate: Option<A.ToolResult>)
    requires NoLogin(begun) && (immediate.None? ==> j.name != LOGIN)
    ensures NoLogin(Pressed(c, begun, s, j, immediate).1) && Pressed(c, begun, s, j, immediate).0.agent.planner == s
  {
  }

  lemma PressedNoLogin(h: A.Host, s: A.PlannerState, now: int, p: A.Pending)
    requires AccountHost(h) && PendingLater(h, s)
    requires exists n :: n in h.tools && h.tools[n].toolName == p.name && h.tools[n].policy == A.ConfirmLater
    ensures var planned := A.Planning(h, s, now, p.operationId, P.DotsToUnderscores(p.name), p.turn, p.args);
            PendingLater(h, planned.0) && (planned.1.1.None? ==> planned.1.0.name != LOGIN)
  {
    var name := P.DotsToUnderscores(p.name);
    PlanKeepsPendingLater(h, s, now, p.operationId, name, p.turn, p.args);
    if name != LOGIN_MODEL_NAME {
      OtherNameOtherJob(h, s, now, p.operationId, name, p.turn, p.args);
    } else if name in h.tools {
      PressedIsNoLogin(h, s, p.name);
    }
  }

  lemma ConfirmLogins(h: A.Host, l: Letters, c: Account, now: int, operation: Id, approved: bool)
    requires AccountHost(h) && PendingLater(h, c.agent.planner)
    ensures LoginStep(h, l, c, TakeStep(now, ToolConfirm(operation, approved)),
                      TakingAccount(h, c, now, ToolConfirm(operation, approved)))
  {
    if operation == WELCOME && c.waiting {
      BeginningLogins(h, c, now, WELCOME);
    } else {
      PressingNoLogin(h, c, now, operation, approved);
      PressingKeeps(h, c, now, operation, approved);
    }
  }

  lemma TakingLogins(h: A.Host, l: Letters, c: Account, now: int, e: Input)
    requires AccountHost(h) && PendingLater(h, c.agent.planner)
    ensures LoginStep(h, l, c, TakeStep(now, e), TakingAccount(h, c, now, e))
  {
    match e
    case ToolConfirm(operation, approved) => ConfirmLogins(h, l, c, now, operation, approved);
    case AudioAppend(turn, sequence) => HearingLogins(h, c, turn, sequence);
    case _ => OtherTakingLogins(h, c, now, e);
  }

  lemma HearingLogins(h: A.Host, c: Account, turn: Id, sequence: nat)
    ensures var r := HearingAccount(c, turn, sequence);
            NoLogin(r.1) && r.0.agent.planner == c.agent.planner && r.0.waiting == c.waiting
            && r.0.authenticated == c.authenticated
  {
  }

  lemma OtherTakingLogins(h: A.Host, c: Account, now: int, e: Input)
    requires PendingLater(h, c.agent.planner) && !e.ToolConfirm? && !e.AudioAppend?
    ensures NoLogin(Taking(h, c.agent, now, e).1) && PendingLater(h, Taking(h, c.agent, now, e).0.planner)
  {
  }

  lemma RunningLogins(h: A.Host, a: Agent, now: int, call: StagedCall)
    requires AccountHost(h) && PendingLater(h, a.planner)
    ensures NoLogin(RunningAccount(h, a, now, call).1) && PendingLater(h, RunningAccount(h, a, now, call).0.planner)
  {
    if !call.cancelled && call.turn == a.mapper.turn && !AsksLogin(call) {
      var planned := A.Planning(h, a.planner, now, call.operation, call.name, call.turn, call.arguments);
      OtherNameOtherJob(h, a.planner, now, call.operation, call.name, call.turn, call.arguments);
      PlanKeepsPendingLater(h, a.planner, now, call.operation, call.name, call.turn, call.arguments);
      FollowingLogins(a.(planner := planned.0), call,
                      P.PlanOp(now, call.operation, call.name, call.turn, call.arguments),
                      planned.1.0, planned.1.1);
    }
  }

  lemma FollowingLogins(a: Agent, call: StagedCall, op: P.Op, j: A.Job, immediate: Option<A.ToolResult>)
    requires immediate.None? ==> j.name != LOGIN
    ensures NoLogin(Following(a, call, op, j, immediate).1)
    ensures Following(a, call, op, j, immediate).0.planner == a.planner
  {
  }

  lemma ToolsLogins(h: A.Host, a: Agent, now: int, e: R.ProviderEvent, events: seq<R.ServerEvent>)
    requires AccountHost(h) && PendingLater(h, a.planner)
    ensures NoLogin(ToolsAccount(h, a, now, e, events).1)
    ensures PendingLater(h, ToolsAccount(h, a, now, e, events).0.planner)
  {
    if e.ContentEnd? && e.cid in a.staged {
      RunningLogins(h, a.(staged := a.staged - {e.cid}), now, a.staged[e.cid]);
    }
  }

  lemma LoginsBetween(before: seq<Output>, outputs: seq<Output>, after: seq<Output>)
    requires NoLogin(before) && NoLogin(after)
    ensures Logins(before + outputs + after) == Logins(outputs)
  {
    NoLogins(before);
    NoLogins(after);
    LoginsParts(before, outputs);
    LoginsParts(before + outputs, after);
  }

  lemma YesIsAccepted(l: Letters, now: int, turn: Id, text: string, begun: seq<Output>, dropped: seq<Output>)
    requires WelcomeAnswer(l, text) == Yes
    ensures Accepted(l, now, [Planned(P.ObserveOp(now, turn, text))] + begun + dropped)
  {
    AnswersIff(l, text);
    assert ([Planned(P.ObserveOp(now, turn, text))] + begun + dropped)[0] == Planned(P.ObserveOp(now, turn, text));
  }

  /** Observing begins a login only for an utterance that accepts the invitation. */
  lemma ObservingLogins(h: A.Host, l: Letters, c: Account, now: int, e: R.ProviderEvent)
    requires PendingLater(h, c.agent.planner)
    ensures var r := ObservingAccount(h, l, c, now, e);
            && PendingLater(h, r.0.agent.planner) && r.0.authenticated == c.authenticated && (r.0.waiting ==> c.waiting)
            && (NoLogin(r.1) || (c.waiting && !r.0.waiting && Logins(r.1) <= 1 &&
                                 AtBoundary(c.agent.speech, e) && Accepted(l, now, r.1)))
  {
    if AtBoundary(c.agent.speech, e) {
      var (a, observed) := Observing(h, c.agent, now, e);
      OpKeepsPendingLater(h, c.agent.planner, P.ObserveOp(now, c.agent.speech.turn, c.agent.speech.text));
      if c.waiting && WelcomeAnswer(l, c.agent.speech.text) == Yes {
        var c1 := c.(agent := a);
        var (c2, begun) := BeginningLogin(h, c1, now, a.speech.turn);
        BeginningLogins(h, c1, now, a.speech.turn);
        var dropped := Dropped(c.agent.planner, c2.agent.planner);
        LoginsBetween(observed, begun, dropped);
        YesIsAccepted(l, now, c.agent.speech.turn, c.agent.speech.text, begun, dropped);
      }
    }
  }

  lemma ReactingToLogins(h: A.Host, l: Letters, c: Account, now: int, e: R.ProviderEvent, events: seq<R.ServerEvent>)
    requires AccountHost(h) && PendingLater(h, c.agent.planner)
    ensures var r := ReactingTo(h, l, c, now, e, events);
            && PendingLater(h, r.0.agent.planner) && r.0.authenticated == c.authenticated && (r.0.waiting ==> c.waiting)
            && (NoLogin(r.1) || (c.waiting && !r.0.waiting && Logins(r.1) <= 1 &&
                                 AtBoundary(c.agent.speech, e) && Accepted(l, now, r.1)))
  {
    ObservingLogins(h, l, c, now, e);
    var observed := ObservingAccount(h, l, c, now, e);
    if !observed.0.agent.over {
      ToolsLogins(h, observed.0.agent, now, e, events);
      ToolsAddNoLogin(observed.1, ToolsAccount(h, observed.0.agent, now, e, events).1);
      if Accepted(l, now, observed.1) {
        AcceptedStays(l, now, observed.1, ToolsAccount(h, observed.0.agent, now, e, events).1);
      }
    }
  }

  lemma AcceptedStays(l: Letters, now: int, observed: seq<Output>, more: seq<Output>)
    requires Accepted(l, now, observed)
    ensures Accepted(l, now, observed + more)
  {
    var turn, text :| Planned(P.ObserveOp(now, turn, text)) in observed && Affirms(l, text);
    assert Planned(P.ObserveOp(now, turn, text)) in observed + more;
  }

  lemma ToolsAddNoLogin(observed: seq<Output>, outputs: seq<Output>)
    requires NoLogin(outputs)
    ensures Logins(observed + outputs) == Logins(observed) && (NoLogin(observed) ==> NoLogin(observed + outputs))
  {
    NoLogins(outputs);
    LoginsParts(observed, outputs);
  }

  /** The start of a content brings no user transcript, so what is observed there was said before. */
  lemma StartIsSilent(m: R.MapperState, e: R.ProviderEvent, random: Id, s: Speech)
    requires R.Bounded(m) && e.ContentStart? && R.Mapping(m, e, random).1.Events?
    ensures Collecting(s, e, R.Mapping(m, e, random).1.events) == (s, true)
  {
    Utterances.OnlyTextSpeaks(m, e, random, R.Mapping(m, e, random).1);
    SilentFragments(s, ContentOf(e), R.Mapping(m, e, random).1.events);
  }

  lemma ReactingLogins(h: A.Host, l: Letters, c: Account, now: int, e: R.ProviderEvent, outcome: R.Outcome)
    requires AccountHost(h) && PendingLater(h, c.agent.planner)
    requires e.ContentStart? && outcome.Events? ==>
               Collecting(c.agent.speech, e, outcome.events) == (c.agent.speech, true)
    ensures var r := ReactingAccount(h, l, c, now, e, outcome);
            && PendingLater(h, r.0.agent.planner) && r.0.authenticated == c.authenticated && (r.0.waiting ==> c.waiting)
            && (NoLogin(r.1) || (c.waiting && !r.0.waiting && Logins(r.1) <= 1 &&
                                 AtBoundary(c.agent.speech, e) && Accepted(l, now, r.1)))
  {
    if outcome.Events? {
      ReactingToLogins(h, l, c.(agent := c.agent.(speech := Collecting(c.agent.speech, e, outcome.events).0)), now, e,
                       outcome.events);
    }
  }

  lemma MapLogins(h: A.Host, l: Letters, c: Account, now: int, e: R.ProviderEvent, random: Id)
    requires AccountHost(h) && PendingLater(h, c.agent.planner) && R.Bounded(c.agent.mapper) && Unheard(c)
    ensures LoginStep(h, l, c, MapStep(now, e, random), MappingAccount(h, l, c, now, e, random))
  {
    MappingLogins(h, l, c, now, e, random, MappingAccount(h, l, c, now, e, random));
  }

  lemma MappingLogins(h: A.Host, l: Letters, c: Account, now: int, e: R.ProviderEvent, random: Id, r: Response)
    requires AccountHost(h) && PendingLater(h, c.agent.planner) && R.Bounded(c.agent.mapper) && Unheard(c)
    requires r == MappingAccount(h, l, c, now, e, random)
    ensures LoginStep(h, l, c, MapStep(now, e, random), r)
  {
    var (c1, ignored) := Filtering(c, e);
    if !ignored {
      var mapped := R.Mapping(c1.agent.mapper, e, random);
      if e.ContentStart? && mapped.1.Events? {
        StartIsSilent(c.agent.mapper, e, random, c.agent.speech);
      }
      MappedLogins(h, l, c, c1.(agent := c1.agent.(mapper := mapped.0)), now, e, random, mapped.1);
    }
  }

  lemma MappedLogins(h: A.Host, l: Letters, c: Account, c1: Account, now: int, e: R.ProviderEvent, random: Id,
                     outcome: R.Outcome)
    requires AccountHost(h) && PendingLater(h, c.agent.planner) && Unheard(c)
    requires c1.agent.planner == c.agent.planner && c1.agent.speech == c.agent.speech
    requires c1.authenticated == c.authenticated && c1.waiting == c.waiting
    requires e.ContentStart? && outcome.Events? ==>
               Collecting(c.agent.speech, e, outcome.events) == (c.agent.speech, true)
    ensures LoginStep(h, l, c, MapStep(now, e, random), ReactingAccount(h, l, c1, now, e, outcome))
  {
    ReactingLogins(h, l, c1, now, e, outcome);
  }

  lemma DeliveringLogins(h: A.Host, c: Account)
    requires PendingLater(h, c.agent.planner) && c.agent.pool.channel != []
    ensures var r := DeliveringAccount(h, c);
            PendingLater(h, r.0.agent.planner) && NoLogin(r.1) && r.0.waiting == c.waiting
            && r.0.authenticated == c.authenticated
  {
    DeliveredLogins(h, c, DeliveringAccount(h, c));
  }

  lemma DeliveredLogins(h: A.Host, c: Account, r: Response)
    requires c.agent.pool.channel != [] && r == DeliveringAccount(h, c)
    ensures NoLogin(r.1) && r.0.waiting == c.waiting && r.0.authenticated == c.authenticated
    ensures r.0.agent.planner.pending == c.agent.planner.pending || r.0.agent.planner.pending.None?
  {
  }

  lemma TimersLogins(h: A.Host, c: Account, late: bool)
    requires PendingLater(h, c.agent.planner)
    ensures var r := RenewingAccount(c, late);
            PendingLater(h, r.0.agent.planner) && NoLogin(r.1) && r.0.waiting == c.waiting
            && r.0.authenticated == c.authenticated
    ensures var r := TimingOutAccount(c);
            PendingLater(h, r.0.agent.planner) && NoLogin(r.1) && r.0.waiting == c.waiting
            && r.0.authenticated == c.authenticated
  {
  }

  lemma StepLogins(h: A.Host, l: Letters, c: Account, step: Step)
    requires AccountHost(h) && PendingLater(h, c.agent.planner) && R.Bounded(c.agent.mapper) && Unheard(c)
    requires Enabled(c.agent, step)
    ensures LoginStep(h, l, c, step, NextAccount(h, l, c, step))
  {
    match step
    case TakeStep(now, e) => TakingLogins(h, l, c, now, e);
    case RenewStep(late) => TimersLogins(h, c, late);
    case TimeOutStep => TimersLogins(h, c, true);
    case FinishStep(_, _) =>
    case DeliverStep => DeliveringLogins(h, c);
    case MapStep(now, e, random) => MapLogins(h, l, c, now, e, random);
  }

  // ----- runs -----

  /** Some step of the run consented, while the invitation stood. */
  ghost predicate Consented(h: A.Host, l: Letters, authenticated: bool, steps: seq<Step>) {
    exists k :: 0 <= k < |steps| && ConsentAt(h, l, authenticated, steps, k)
  }

  ghost predicate ConsentAt(h: A.Host, l: Letters, authenticated: bool, steps: seq<Step>, k: nat)
    requires k < |steps|
  {
    var c := RunAccount(h, l, authenticated, steps[..k]).0;
    Enabled(c.agent, steps[k]) && c.waiting && Consents(l, c, steps[k], NextAccount(h, l, c, steps[k]).1)
  }

  ghost predicate Settled(h: A.Host, authenticated: bool, c: Account, logins: nat) {
    && PendingLater(h, c.agent.planner) && Unheard(c)
    && c.authenticated == authenticated && (authenticated ==> !c.waiting)
    && (if c.waiting || authenticated then logins == 0 else logins <= 1)
  }

  lemma {:induction false} RunSettled(h: A.Host, l: Letters, authenticated: bool, steps: seq<Step>)
    requires AccountHost(h)
    ensures var r := RunAccount(h, l, authenticated, steps);
            Settled(h, authenticated, r.0, Logins(r.1)) && (Logins(r.1) > 0 ==> Consented(h, l, authenticated, steps))
  {
    if steps != [] {
      var n := |steps| - 1;
      var before, step := steps[..n], steps[n];
      RunSettled(h, l, authenticated, before);
      var (c, outputs) := RunAccount(h, l, authenticated, before);
      if Logins(outputs) > 0 {
        ConsentedGrows(h, l, authenticated, steps, n);
      }
      if Enabled(c.agent, step) {
        StepSettled(h, l, authenticated, c, outputs, step);
        if Logins(outputs) == 0 && Logins(outputs + NextAccount(h, l, c, step).1) > 0 {
          assert ConsentAt(h, l, authenticated, steps, n);
        }
      }
    }
  }

  lemma ConsentedGrows(h: A.Host, l: Letters, authenticated: bool, steps: seq<Step>, n: nat)
    requires n < |steps| && Consented(h, l, authenticated, steps[..n])
    ensures Consented(h, l, authenticated, steps)
  {
    var k :| 0 <= k < n && ConsentAt(h, l, authenticated, steps[..n], k);
    assert steps[..n][..k] == steps[..k];
    assert ConsentAt(h, l, authenticated, steps, k);
  }

  lemma StepSettled(h: A.Host, l: Letters, authenticated: bool, c: Account, outputs: seq<Output>, step: Step)
    requires AccountHost(h) && R.Bounded(c.agent.mapper) && Enabled(c.agent, step)
    requires Settled(h, authenticated, c, Logins(outputs))
    ensures var r := NextAccount(h, l, c, step);
            && Settled(h, authenticated, r.0, Logins(outputs + r.1))
            && (Logins(outputs) == 0 && Logins(outputs + r.1) > 0 ==> c.waiting && Consents(l, c, step, r.1))
  {
    var r := NextAccount(h, l, c, step);
    StepLogins(h, l, c, step);
    KeepsUnheard(h, l, c, step);
    LoginsParts(outputs, r.1);
    if NoLogin(r.1) {
      NoLogins(r.1);
    }
  }

  /**
   Over every run of the loop, identity.begin_login is released at most once and never in an authenticated session.
   When it is, the invitation stood and the user accepted it: in the app, or by an utterance whose words are one of
   the affirmative answers, spoken after the provider's opening response began. The model cannot release it.
   */
  lemma LoginNeedsOneConsent(h: A.Host, l: Letters, authenticated: bool, steps: seq<Step>)
    requires AccountHost(h)
    ensures var outputs := RunAccount(h, l, authenticated, steps).1;
            && Logins(outputs) <= 1
            && (Logins(outputs) > 0 ==> !authenticated && Consented(h, l, authenticated, steps))
  {
    RunSettled(h, l, authenticated, steps);
  }
}
