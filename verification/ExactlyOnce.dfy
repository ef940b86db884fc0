/**
 Any number of planner sessions over one durable ledger, with requests that may be lost,
 delayed or delivered again, answers that may never arrive, and sessions that crash at any point.
 */
module ExactlyOnce {
  import opened Basics
  import opened ActionRuntime
  import opened Approval
  import opened Ledger

  datatype Config<!D> = Config(
    tools: map<string, Binding>,
    canon: Json -> string,
    normalize: string -> string,
    domain: Domain<D>,
    initial: D)

  ghost function HostFor<D>(cfg: Config<D>, namespace: string): Host {
    Host(namespace, cfg.tools, cfg.canon, cfg.normalize)
  }

  /** What a session did so far; its planner state is the result of these operations. */
  datatype Log = Log(namespace: string, ops: seq<Op>)

  /** A request sent for the job that operation n of session sid released. It stays deliverable for ever. */
  datatype Flight = Flight(sid: nat, n: nat, job: Job)

  datatype Reported = Reported(flight: Flight, answer: Answered)

  /** A committed effect: the request it came from, what the store drew, and the recorded result. */
  datatype Effect = Effect(flight: Flight, draw: Draw, result: string)

  datatype World<D> = World(
    db: Db<Digest, D>,
    logs: map<nat, Log>,
    alive: set<nat>,
    wire: set<Flight>,
    reports: set<Reported>,
    effects: seq<Effect>)

  datatype Event =
    | Connect(sid: nat, namespace: string)
    | Crash(sid: nat)
    | Operate(sid: nat, op: Op)
    | Execute(flight: Flight, draw: Draw)
    | Finish(report: Reported)
    | GiveUp(flight: Flight)

  ghost function Start<D>(cfg: Config<D>): World<D> {
    World(Db(cfg.initial, map[]), map[], {}, {}, {}, [])
  }

  ghost function Planner<D>(cfg: Config<D>, log: Log): PlannerState {
    StateAt(HostFor(cfg, log.namespace), log.ops, |log.ops|)
  }

  ghost predicate Enabled<D>(cfg: Config<D>, w: World<D>, e: Event) {
    match e
    case Connect(sid, namespace) => sid !in w.logs && NulFree(namespace)
    case Crash(sid) => sid in w.alive
    case Operate(sid, op) => sid in w.alive && sid in w.logs && !op.CompleteOp?
    case Execute(flight, _) => flight in w.wire && flight.job.key.Some?
    case Finish(report) => report in w.reports && report.flight.sid in w.alive && report.flight.sid in w.logs
    case GiveUp(flight) => flight in w.wire && flight.sid in w.alive && flight.sid in w.logs
  }

  ghost function Result(answer: Answered): ToolResult {
    match answer
    case Committed(text) => Reply(text)
    case Replayed(text) => Reply(text)
    case Conflict => Failure("idempotency_conflict")
    case Rejected(code) => Failure(code)
  }

  ghost function Recorded<D>(w: World<D>, sid: nat, op: Op): World<D>
    requires sid in w.logs
  {
    w.(logs := w.logs[sid := Log(w.logs[sid].namespace, w.logs[sid].ops + [op])])
  }

  /** The job that op releases in session sid, if it releases one. */
  ghost function Released<D>(cfg: Config<D>, w: World<D>, sid: nat, op: Op): set<Flight>
    requires sid in w.logs
  {
    if !op.PlanOp? then {}
    else
      var s := Planner(cfg, w.logs[sid]);
      var planned := Planning(HostFor(cfg, w.logs[sid].namespace), s, op.now, op.id, op.name, op.turn, op.args).1;
      if planned.1.None? then {Flight(sid, |w.logs[sid].ops|, planned.0)} else {}
  }

  ghost predicate IsMutation<D>(cfg: Config<D>, j: Job) {
    CachesResults(HostFor(cfg, ""), j.name)
  }

  /** The store serves a delivered mutation in one transaction. */
  ghost function Executed<D>(cfg: Config<D>, w: World<D>, f: Flight, draw: Draw): World<D>
    requires f.job.key.Some?
  {
    var j := f.job;
    var (db, answer) := Transact(cfg.domain, cfg.canon, w.db, j.key.value, j.name, j.args, j.confirmed, draw);
    w.(db := db,
       reports := w.reports + {Reported(f, answer)},
       effects := if answer.Committed? then w.effects + [Effect(f, draw, answer.text)] else w.effects)
  }

  ghost function Step<D>(cfg: Config<D>, w: World<D>, e: Event): World<D>
    requires Enabled(cfg, w, e)
  {
    match e
    case Connect(sid, namespace) => w.(logs := w.logs[sid := Log(namespace, [])], alive := w.alive + {sid})
    case Crash(sid) => w.(alive := w.alive - {sid})
    case Operate(sid, op) => Recorded(w, sid, op).(wire := w.wire + Released(cfg, w, sid, op))
    case Execute(flight, draw) => if IsMutation(cfg, flight.job) then Executed(cfg, w, flight, draw) else w
    case Finish(report) => Recorded(w, report.flight.sid, CompleteOp(report.flight.job, Result(report.answer)))
    case GiveUp(flight) => Recorded(w, flight.sid, CompleteOp(flight.job, Failure("mcp_unavailable_or_timeout")))
  }

  ghost predicate IsRun<D(!new)>(cfg: Config<D>, worlds: seq<World<D>>, events: seq<Event>) {
    && |worlds| == |events| + 1
    && worlds[0] == Start(cfg)
    && forall i | 0 <= i < |events| ::
       Enabled(cfg, worlds[i], events[i]) && worlds[i + 1] == Step(cfg, worlds[i], events[i])
  }

  // ----- what the worlds keep -----

  /** The request goes back to a release by a planner session. */
  ghost predicate Traced<D>(cfg: Config<D>, logs: map<nat, Log>, f: Flight) {
    && f.sid in logs && NulFree(logs[f.sid].namespace)
    && Releases(HostFor(cfg, logs[f.sid].namespace), logs[f.sid].ops, f.n, f.job)
  }

  type Origin = Flight -> bool

  ghost function Origins<D>(cfg: Config<D>, logs: map<nat, Log>): Origin {
    f => Traced(cfg, logs, f)
  }

  /** Business data is the initial data with every effect applied once, in commit order. */
  ghost function Folded<D>(cfg: Config<D>, effects: seq<Effect>): Option<D> {
    if effects == [] then Some(cfg.initial)
    else
      var e := effects[|effects| - 1];
      match Folded(cfg, effects[..|effects| - 1])
      case None => None
      case Some(data) =>
        match cfg.domain.apply(data, e.flight.job.name, e.flight.job.args, e.draw)
        case Err(_) => None
        case Ok((data', result)) => if result == e.result then Some(data') else None
  }

  ghost predicate KeysDistinct(effects: seq<Effect>) {
    forall i, k | 0 <= i < k < |effects| :: effects[i].flight.job.key != effects[k].flight.job.key
  }

  ghost predicate HasEffect(effects: seq<Effect>, key: Digest) {
    exists i :: 0 <= i < |effects| && effects[i].flight.job.key == Some(key)
  }

  ghost predicate EffectRecorded(origin: Origin, canon: Json -> string, ledger: map<Digest, Row>, e: Effect) {
    var j := e.flight.job;
    && origin(e.flight) && j.key.Some? && j.key.value in ledger
    && ledger[j.key.value] == Row(j.name, canon(j.args), e.result)
  }

  ghost predicate ReportHonest(origin: Origin, ledger: map<Digest, Row>, r: Reported) {
    var j := r.flight.job;
    && origin(r.flight) && j.key.Some?
    && !r.answer.Conflict?
    && (Succeeds(r.answer) ==> j.key.value in ledger && ledger[j.key.value].result == r.answer.text)
  }

  ghost predicate Durable<D>(cfg: Config<D>, origin: Origin, w: World<D>) {
    && (forall i | 0 <= i < |w.effects| :: EffectRecorded(origin, cfg.canon, w.db.ledger, w.effects[i]))
    && (forall key | key in w.db.ledger :: HasEffect(w.effects, key))
    && KeysDistinct(w.effects)
    && Folded(cfg, w.effects) == Some(w.db.data)
    && (forall f | f in w.wire :: origin(f))
    && (forall r | r in w.reports :: ReportHonest(origin, w.db.ledger, r))
  }

  ghost predicate Consistent<D>(cfg: Config<D>, w: World<D>) {
    && Durable(cfg, Origins(cfg, w.logs), w)
    && (forall sid | sid in w.logs :: NulFree(w.logs[sid].namespace))
  }

  lemma {:induction false} StateAtPrefix(h: Host, ops: seq<Op>, more: seq<Op>, n: nat)
    requires n <= |ops|
    ensures StateAt(h, ops + more, n) == StateAt(h, ops, n)
  {
    if n > 0 {
      StateAtPrefix(h, ops, more, n - 1);
    }
  }

  /** Recording more operations, or opening sessions, does not disturb where requests come from. */
  lemma TracedGrows<D>(cfg: Config<D>, logs: map<nat, Log>, logs': map<nat, Log>, f: Flight)
    requires Traced(cfg, logs, f) && LogsGrow(logs, logs')
    ensures Traced(cfg, logs', f)
  {
    var ops, ops' := logs[f.sid].ops, logs'[f.sid].ops;
    assert ops' == ops + ops'[|ops|..];
    StateAtPrefix(HostFor(cfg, logs[f.sid].namespace), ops, ops'[|ops|..], f.n);
  }

  ghost predicate LogsGrow(logs: map<nat, Log>, logs': map<nat, Log>) {
    forall sid | sid in logs ::
      sid in logs' && logs'[sid].namespace == logs[sid].namespace && logs[sid].ops <= logs'[sid].ops
  }

  lemma WiderOriginKeepsDurable<D>(cfg: Config<D>, origin: Origin, origin': Origin, w: World<D>, wire: set<Flight>)
    requires Durable(cfg, origin, w) && forall f | origin(f) :: origin'(f)
    requires forall f | f in wire :: f in w.wire || origin'(f)
    ensures Durable(cfg, origin', w.(wire := wire))
  {
    var w' := w.(wire := wire);
    forall r | r in w'.reports
      ensures ReportHonest(origin', w'.db.ledger, r)
    {
      assert ReportHonest(origin, w.db.ledger, r);
    }
    forall i | 0 <= i < |w'.effects|
      ensures EffectRecorded(origin', cfg.canon, w'.db.ledger, w'.effects[i])
    {
      assert EffectRecorded(origin, cfg.canon, w.db.ledger, w.effects[i]);
    }
  }

  lemma DurableIgnoresSessions<D>(cfg: Config<D>, origin: Origin, w: World<D>, logs: map<nat, Log>, alive: set<nat>)
    requires Durable(cfg, origin, w)
    ensures Durable(cfg, origin, w.(logs := logs, alive := alive))
  {
  }

  /** Steps that only add to the logs keep everything that was established. */
  lemma GrowthKeepsConsistent<D>(cfg: Config<D>, w: World<D>, logs: map<nat, Log>, alive: set<nat>, wire: set<Flight>)
    requires Consistent(cfg, w) && LogsGrow(w.logs, logs)
    requires forall f | f in wire :: f in w.wire || Traced(cfg, logs, f)
    requires forall sid | sid in logs :: NulFree(logs[sid].namespace)
    ensures Consistent(cfg, w.(logs := logs, alive := alive, wire := wire))
  {
    var origin, origin' := Origins(cfg, w.logs), Origins(cfg, logs);
    forall f | origin(f)
      ensures origin'(f)
    {
      TracedGrows(cfg, w.logs, logs, f);
    }
    WiderOriginKeepsDurable(cfg, origin, origin', w, wire);
    DurableIgnoresSessions(cfg, origin', w.(wire := wire), logs, alive);
  }

  lemma ReleasedJobs(h: Host, ops: seq<Op>, n: nat, j: Job)
    requires Releases(h, ops, n, j)
    ensures ops[n].name in h.tools && j.name == h.tools[ops[n].name].toolName && j.args == ops[n].args
    ensures j.key == Some(KeyOf(h, j.name, j.args))
    ensures j.confirmed <==> h.tools[ops[n].name].policy == ConfirmLater
  {
  }

  /** Two traced requests with one key ask for the same operation, whichever sessions sent them. */
  lemma SameKeySameOperation<D>(cfg: Config<D>, logs: map<nat, Log>, f: Flight, g: Flight)
    requires WellBound(cfg.tools) && Traced(cfg, logs, f) && Traced(cfg, logs, g) && f.job.key == g.job.key
    ensures f.job.name == g.job.name && cfg.canon(f.job.args) == cfg.canon(g.job.args)
    ensures logs[f.sid].namespace == logs[g.sid].namespace
  {
    var ns, ns' := logs[f.sid].namespace, logs[g.sid].namespace;
    ReleasedJobs(HostFor(cfg, ns), logs[f.sid].ops, f.n, f.job);
    ReleasedJobs(HostFor(cfg, ns'), logs[g.sid].ops, g.n, g.job);
    ToolNamesAreNulFree(cfg.tools, logs[f.sid].ops[f.n].name);
    ToolNamesAreNulFree(cfg.tools, logs[g.sid].ops[g.n].name);
    KeysIdentifyOperations(cfg.canon, ns, f.job.name, f.job.args, ns', g.job.name, g.job.args);
  }

  /** A recorded key belongs to the very operation the request asks for. */
  lemma KnownKeyMatches<D>(cfg: Config<D>, w: World<D>, f: Flight)
    requires WellBound(cfg.tools) && Consistent(cfg, w) && Traced(cfg, w.logs, f)
    requires f.job.key.Some? && f.job.key.value in w.db.ledger
    ensures var row := w.db.ledger[f.job.key.value];
            row.name == f.job.name && row.arguments == cfg.canon(f.job.args)
  {
    var i :| 0 <= i < |w.effects| && w.effects[i].flight.job.key == Some(f.job.key.value);
    assert EffectRecorded(Origins(cfg, w.logs), cfg.canon, w.db.ledger, w.effects[i]);
    SameKeySameOperation(cfg, w.logs, f, w.effects[i].flight);
  }

  /** An answer that changes no data is one more honest report. */
  lemma ReportKeepsDurable<D>(cfg: Config<D>, origin: Origin, w: World<D>, r: Reported)
    requires Durable(cfg, origin, w) && ReportHonest(origin, w.db.ledger, r)
    ensures Durable(cfg, origin, w.(reports := w.reports + {r}))
  {
  }

  /** A commit under a new key is one more effect, applied on top of the others. */
  lemma CommitKeepsDurable<D>(cfg: Config<D>, origin: Origin, w: World<D>, data: D, f: Flight, draw: Draw, text: string)
    requires Durable(cfg, origin, w) && origin(f) && f.job.key.Some? && f.job.key.value !in w.db.ledger
    requires cfg.domain.apply(w.db.data, f.job.name, f.job.args, draw) == Ok((data, text))
    ensures var ledger := w.db.ledger[f.job.key.value := Row(f.job.name, cfg.canon(f.job.args), text)];
            Durable(cfg, origin, w.(db := Db(data, ledger), effects := w.effects + [Effect(f, draw, text)]))
  {
    var e := Effect(f, draw, text);
    CommitKeepsEffects(cfg, origin, w, e);
    CommitFolds(cfg, w, data, e);
    forall r | r in w.reports
      ensures ReportHonest(origin, w.db.ledger[f.job.key.value := Row(f.job.name, cfg.canon(f.job.args), text)], r)
    {
      assert ReportHonest(origin, w.db.ledger, r);
    }
  }

  lemma CommitKeepsEffects<D>(cfg: Config<D>, origin: Origin, w: World<D>, e: Effect)
    requires Durable(cfg, origin, w) && origin(e.flight) && e.flight.job.key.Some?
    requires e.flight.job.key.value !in w.db.ledger
    ensures var j, effects := e.flight.job, w.effects + [e];
            var ledger := w.db.ledger[j.key.value := Row(j.name, cfg.canon(j.args), e.result)];
            && (forall i | 0 <= i < |effects| :: EffectRecorded(origin, cfg.canon, ledger, effects[i]))
            && (forall key | key in ledger :: HasEffect(effects, key)) && KeysDistinct(effects)
  {
    var j, effects := e.flight.job, w.effects + [e];
    var ledger := w.db.ledger[j.key.value := Row(j.name, cfg.canon(j.args), e.result)];
    forall i | 0 <= i < |effects|
      ensures EffectRecorded(origin, cfg.canon, ledger, effects[i])
      ensures i < |w.effects| ==> effects[i].flight.job.key != j.key
    {
      if i < |w.effects| {
        assert EffectRecorded(origin, cfg.canon, w.db.ledger, w.effects[i]);
      }
    }
    forall key | key in ledger
      ensures HasEffect(effects, key)
    {
      EffectsAppended(w.effects, e, key);
    }
  }

  lemma CommitFolds<D>(cfg: Config<D>, w: World<D>, data: D, e: Effect)
    requires Folded(cfg, w.effects) == Some(w.db.data)
    requires cfg.domain.apply(w.db.data, e.flight.job.name, e.flight.job.args, e.draw) == Ok((data, e.result))
    ensures Folded(cfg, w.effects + [e]) == Some(data)
  {
    assert (w.effects + [e])[..|w.effects|] == w.effects;
  }

  lemma EffectsAppended(effects: seq<Effect>, e: Effect, key: Digest)
    requires HasEffect(effects, key) || e.flight.job.key == Some(key)
    ensures HasEffect(effects + [e], key)
  {
    if HasEffect(effects, key) {
      var i :| 0 <= i < |effects| && effects[i].flight.job.key == Some(key);
      assert (effects + [e])[i].flight.job.key == Some(key);
    } else {
      assert (effects + [e])[|effects|].flight.job.key == Some(key);
    }
  }

  lemma ExecutedKeepsDurable<D>(cfg: Config<D>, origin: Origin, w: World<D>, f: Flight, draw: Draw)
    requires Durable(cfg, origin, w) && origin(f) && f.job.key.Some?
    requires f.job.key.value in w.db.ledger ==>
      var row := w.db.ledger[f.job.key.value]; row.name == f.job.name && row.arguments == cfg.canon(f.job.args)
    ensures Durable(cfg, origin, Executed(cfg, w, f, draw))
  {
    var j := f.job;
    var (db, answer) := Transact(cfg.domain, cfg.canon, w.db, j.key.value, j.name, j.args, j.confirmed, draw);
    if answer.Committed? {
      CommitKeepsDurable(cfg, origin, w, db.data, f, draw, answer.text);
      ReportKeepsDurable(cfg, origin, w.(db := db, effects := w.effects + [Effect(f, draw, answer.text)]),
                         Reported(f, answer));
    } else {
      ReportKeepsDurable(cfg, origin, w, Reported(f, answer));
    }
  }

  lemma ExecuteKeepsConsistent<D>(cfg: Config<D>, w: World<D>, f: Flight, draw: Draw)
    requires WellBound(cfg.tools) && Consistent(cfg, w) && f in w.wire && f.job.key.Some?
    ensures Consistent(cfg, Executed(cfg, w, f, draw))
  {
    var origin := Origins(cfg, w.logs);
    assert origin(f);
    if f.job.key.value in w.db.ledger {
      KnownKeyMatches(cfg, w, f);
    }
    ExecutedKeepsDurable(cfg, origin, w, f, draw);
  }

  lemma RecordedKeepsConsistent<D>(cfg: Config<D>, w: World<D>, sid: nat, op: Op)
    requires Consistent(cfg, w) && sid in w.logs
    ensures Consistent(cfg, Recorded(w, sid, op))
  {
    GrowthKeepsConsistent(cfg, w, Recorded(w, sid, op).logs, w.alive, w.wire);
  }

  lemma StepKeepsConsistent<D>(cfg: Config<D>, w: World<D>, e: Event)
    requires WellBound(cfg.tools) && Consistent(cfg, w) && Enabled(cfg, w, e)
    ensures Consistent(cfg, Step(cfg, w, e))
  {
    NextIsConsistent(cfg, w, e, Step(cfg, w, e));
  }

  lemma NextIsConsistent<D>(cfg: Config<D>, w: World<D>, e: Event, w': World<D>)
    requires WellBound(cfg.tools) && Consistent(cfg, w) && Enabled(cfg, w, e) && w' == Step(cfg, w, e)
    ensures Consistent(cfg, w')
  {
    match e
    case Operate(sid, op) => OperateKeepsConsistent(cfg, w, sid, op);
    case Execute(f, draw) => ExecuteStepKeeps(cfg, w, f, draw, w');
    case _ => OtherKeepsConsistent(cfg, w, e, w');
  }

  lemma ExecuteStepKeeps<D>(cfg: Config<D>, w: World<D>, f: Flight, draw: Draw, w': World<D>)
    requires WellBound(cfg.tools) && Consistent(cfg, w) && Enabled(cfg, w, Execute(f, draw))
    requires w' == Step(cfg, w, Execute(f, draw))
    ensures Consistent(cfg, w')
  {
    if IsMutation(cfg, f.job) {
      ExecuteKeepsConsistent(cfg, w, f, draw);
    }
  }

  lemma OtherKeepsConsistent<D>(cfg: Config<D>, w: World<D>, e: Event, w': World<D>)
    requires Consistent(cfg, w) && Enabled(cfg, w, e) && w' == Step(cfg, w, e) && !e.Operate? && !e.Execute?
    ensures Consistent(cfg, w')
  {
    match e
    case Connect(sid, namespace) =>
      GrowthKeepsConsistent(cfg, w, w.logs[sid := Log(namespace, [])], w.alive + {sid}, w.wire);
    case Crash(sid) => GrowthKeepsConsistent(cfg, w, w.logs, w.alive - {sid}, w.wire);
    case Finish(report) =>
      RecordedKeepsConsistent(cfg, w, report.flight.sid, CompleteOp(report.flight.job, Result(report.answer)));
    case GiveUp(f) =>
      RecordedKeepsConsistent(cfg, w, f.sid, CompleteOp(f.job, Failure("mcp_unavailable_or_timeout")));
  }

  lemma OperateKeepsConsistent<D>(cfg: Config<D>, w: World<D>, sid: nat, op: Op)
    requires Consistent(cfg, w) && Enabled(cfg, w, Operate(sid, op))
    ensures Consistent(cfg, Step(cfg, w, Operate(sid, op)))
  {
    var w' := Step(cfg, w, Operate(sid, op));
    forall f | f in Released(cfg, w, sid, op)
      ensures Traced(cfg, w'.logs, f)
    {
      ReleasedIsTraced(cfg, w, sid, op, f);
    }
    GrowthKeepsConsistent(cfg, w, w'.logs, w'.alive, w'.wire);
  }

  lemma ReleasedIsTraced<D>(cfg: Config<D>, w: World<D>, sid: nat, op: Op, f: Flight)
    requires sid in w.logs && NulFree(w.logs[sid].namespace) && f in Released(cfg, w, sid, op)
    ensures Traced(cfg, Recorded(w, sid, op).logs, f)
  {
    var ops := w.logs[sid].ops;
    StateAtPrefix(HostFor(cfg, w.logs[sid].namespace), ops, [op], |ops|);
  }

  lemma {:induction false} RunConsistent<D(!new)>(cfg: Config<D>, worlds: seq<World<D>>, events: seq<Event>, n: nat)
    requires WellBound(cfg.tools) && IsRun(cfg, worlds, events) && n < |worlds|
    ensures Consistent(cfg, worlds[n])
  {
    if n > 0 {
      RunConsistent(cfg, worlds, events, n - 1);
      StepKeepsConsistent(cfg, worlds[n - 1], events[n - 1]);
    }
  }

  /**
   In every run, whatever crashed and whatever was delivered twice: no two effects share a key, the
   business data is the initial data with the effects applied once each in commit order, and no request
   is answered with an idempotency conflict.
   */
  lemma EffectsHappenAtMostOnce<D(!new)>(cfg: Config<D>, worlds: seq<World<D>>, events: seq<Event>, n: nat)
    requires WellBound(cfg.tools) && IsRun(cfg, worlds, events) && n < |worlds|
    ensures KeysDistinct(worlds[n].effects)
    ensures Folded(cfg, worlds[n].effects) == Some(worlds[n].db.data)
    ensures forall r | r in worlds[n].reports :: !r.answer.Conflict?
  {
    RunConsistent(cfg, worlds, events, n);
    assert forall r | r in worlds[n].reports :: ReportHonest(Origins(cfg, worlds[n].logs), worlds[n].db.ledger, r);
  }

  /** A success was caused by exactly one effect, so all successes of one key tell the same result. */
  lemma SuccessesAgree<D(!new)>(cfg: Config<D>, worlds: seq<World<D>>, events: seq<Event>, n: nat, r: Reported)
    requires WellBound(cfg.tools) && IsRun(cfg, worlds, events) && n < |worlds|
    requires r in worlds[n].reports && Succeeds(r.answer)
    ensures exists i :: 0 <= i < |worlds[n].effects| && worlds[n].effects[i].flight.job.key == r.flight.job.key &&
                        worlds[n].effects[i].result == r.answer.text
    ensures forall r' | r' in worlds[n].reports && r'.flight.job.key == r.flight.job.key && Succeeds(r'.answer) ::
              r'.answer.text == r.answer.text
  {
    var w := worlds[n];
    RunConsistent(cfg, worlds, events, n);
    assert ReportHonest(Origins(cfg, w.logs), w.db.ledger, r);
    var i :| 0 <= i < |w.effects| && w.effects[i].flight.job.key == Some(r.flight.job.key.value);
    assert EffectRecorded(Origins(cfg, w.logs), cfg.canon, w.db.ledger, w.effects[i]);
    forall r' | r' in w.reports && r'.flight.job.key == r.flight.job.key && Succeeds(r'.answer)
      ensures r'.answer.text == r.answer.text
    {
      assert ReportHonest(Origins(cfg, w.logs), w.db.ledger, r');
    }
  }

  /** A request of a session that reconnected after a crash gets the recorded result and changes no data. */
  lemma RetriesReplay<D(!new)>(cfg: Config<D>, worlds: seq<World<D>>, events: seq<Event>, n: nat, f: Flight, draw: Draw)
    requires WellBound(cfg.tools) && IsRun(cfg, worlds, events) && n < |worlds|
    requires f in worlds[n].wire && f.job.key.Some? && f.job.key.value in worlds[n].db.ledger && IsMutation(cfg, f.job)
    requires cfg.domain.admit(f.job.name, f.job.args, f.job.confirmed).None?
    ensures var w, w' := worlds[n], Step(cfg, worlds[n], Execute(f, draw));
            w'.db == w.db && w'.effects == w.effects &&
            Reported(f, Replayed(w.db.ledger[f.job.key.value].result)) in w'.reports
  {
    RunConsistent(cfg, worlds, events, n);
    KnownKeyReplays(cfg, worlds[n], f, draw);
    MutationExecutes(cfg, worlds[n], f, draw);
  }

  lemma MutationExecutes<D>(cfg: Config<D>, w: World<D>, f: Flight, draw: Draw)
    requires Enabled(cfg, w, Execute(f, draw)) && f.job.key.Some? && IsMutation(cfg, f.job)
    ensures Step(cfg, w, Execute(f, draw)) == Executed(cfg, w, f, draw)
  {
  }

  lemma KnownKeyReplays<D>(cfg: Config<D>, w: World<D>, f: Flight, draw: Draw)
    requires WellBound(cfg.tools) && Consistent(cfg, w) && f in w.wire && f.job.key.Some?
    requires f.job.key.value in w.db.ledger
    requires cfg.domain.admit(f.job.name, f.job.args, f.job.confirmed).None?
    ensures Executed(cfg, w, f, draw) == w.(reports := w.reports
                                            + {Reported(f, Replayed(w.db.ledger[f.job.key.value].result))})
  {
    KnownKeyMatches(cfg, w, f);
  }

  /**
   From the durable effect back to the user: an effect of a tool that needs confirmation comes from a
   confirmed job whose exact request was approved, in time, in the session that sent it.
   */
  lemma ConfirmedEffectsWereApproved<D(!new)>(cfg: Config<D>, worlds: seq<World<D>>, events: seq<Event>, n: nat,
                                              e: Effect)
    requires WellBound(cfg.tools) && IsRun(cfg, worlds, events) && n < |worlds| && e in worlds[n].effects
    requires ModelName(e.flight.job.name) in cfg.tools && cfg.tools[ModelName(e.flight.job.name)].policy == ConfirmLater
    ensures var f, logs := e.flight, worlds[n].logs;
            f.job.confirmed && f.sid in logs &&
            exists i, k :: Provenance(HostFor(cfg, logs[f.sid].namespace), logs[f.sid].ops, i, k, f.n, f.job)
  {
    var w := worlds[n];
    RunConsistent(cfg, worlds, events, n);
    var i :| 0 <= i < |w.effects| && w.effects[i] == e;
    assert EffectRecorded(Origins(cfg, w.logs), cfg.canon, w.db.ledger, w.effects[i]);
    var h := HostFor(cfg, w.logs[e.flight.sid].namespace);
    ReleasedJobs(h, w.logs[e.flight.sid].ops, e.flight.n, e.flight.job);
    ConfirmedJobsWereApproved(h, w.logs[e.flight.sid].ops, e.flight.n, e.flight.job);
  }

  /** Each session sends a mutation key at most once. */
  lemma OneRequestPerSessionAndKey<D(!new)>(cfg: Config<D>, worlds: seq<World<D>>, events: seq<Event>, n: nat,
                                            f: Flight, g: Flight)
    requires WellBound(cfg.tools) && IsRun(cfg, worlds, events) && n < |worlds|
    requires f in worlds[n].wire && g in worlds[n].wire && f.sid == g.sid && f.n < g.n
    requires IsMutation(cfg, f.job) && IsMutation(cfg, g.job)
    ensures f.job.key != g.job.key
  {
    RunConsistent(cfg, worlds, events, n);
    var w := worlds[n];
    assert Traced(cfg, w.logs, f) && Traced(cfg, w.logs, g);
    var h, ops := HostFor(cfg, w.logs[f.sid].namespace), w.logs[f.sid].ops;
    ReleasedJobs(h, ops, f.n, f.job);
    ReleasedJobs(h, ops, g.n, g.job);
    OneJobPerMutationKey(h, ops, f.n, g.n, f.job, g.job);
  }
}
