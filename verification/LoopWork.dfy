/**
 What a step of an agent loop may do to its jobs: stage, answer, launch, deliver, or open another stream.
 Both loops take only such steps; what follows about jobs and streams is proved here once.
 */
module LoopWork {
  import opened Basics
  import A = ActionRuntime
  import opened AgentParts
  import opened WorkerPool

  /** app holds the ids of jobs that the app started; the assistant's loop has none. */
  datatype Work = Work(pool: Pool, stream: nat, staged: map<Id, StagedCall>, app: set<Id>)

  datatype Change =
    | Nothing
    | Forget(cid: Id)
    | Stage(cid: Id, call: StagedCall)
    | Answer(cid: Id, job: A.Job)
    | Launch(cid: Id, job: A.Job)
    | LaunchApp(job: A.Job)
    | Finish(k: nat, result: A.ToolResult)
    | Send
    | Keep
    | Rotate

  /** A result that goes to a stream's model. */
  datatype Sent = Sent(stream: nat, worker: Worker)

  predicate CanMove(w: Work, c: Change) {
    match c
    case Nothing => true
    case Forget(cid) => cid in w.staged
    case Stage(_, call) => call.asked == w.stream
    case Answer(cid, job) => cid in w.staged && job.id == w.staged[cid].operation
    case Launch(cid, job) =>
      cid in w.staged && job.id == w.staged[cid].operation && job.id !in w.pool.active && |w.pool.active| < MAX_ACTIVE
    case LaunchApp(_) => true
    case Finish(k, _) => CanFinish(w.pool, k)
    case Send => w.pool.channel != [] && Head(w).job.id !in w.app
    case Keep => w.pool.channel != [] && Head(w).job.id in w.app
    case Rotate => w.pool.active == {}
  }

  function Head(w: Work): Worker
    requires w.pool.channel != []
  {
    w.pool.channel[0].worker
  }

  function Rotated(w: Work): Work {
    w.(stream := w.stream + 1, staged := map[])
  }

  function Asked(w: Work, cid: Id, job: A.Job): Worker
    requires cid in w.staged
  {
    Worker(job, Some(w.staged[cid].asked))
  }

  function Moving(w: Work, c: Change): Work
    requires CanMove(w, c)
  {
    match c
    case Nothing => w
    case Forget(cid) => w.(staged := w.staged - {cid})
    case Stage(cid, call) => w.(staged := w.staged[cid := call])
    case Answer(cid, _) => w.(staged := w.staged - {cid})
    case Launch(cid, job) => w.(staged := w.staged - {cid}, pool := Launching(w.pool, Asked(w, cid, job)))
    case LaunchApp(job) => w.(pool := Launching(w.pool, Worker(job, None)), app := w.app + {job.id})
    case Finish(k, result) => w.(pool := Finishing(w.pool, k, result))
    case Send => w.(pool := Receiving(w.pool))
    case Keep => Rotated(w.(pool := Receiving(w.pool), app := w.app - {Head(w).job.id}))
    case Rotate => Rotated(w)
  }

  function SentBy(w: Work, c: Change): seq<Sent>
    requires CanMove(w, c)
  {
    match c
    case Answer(cid, job) => [Sent(w.stream, Asked(w, cid, job))]
    case Send => [Sent(w.stream, Head(w))]
    case _ => []
  }

  /** One step: these are the new work and what was sent. */
  predicate Moves(w: Work, c: Change, w': Work, sent: seq<Sent>) {
    CanMove(w, c) && w' == Moving(w, c) && sent == SentBy(w, c)
  }

  predicate Opens(c: Change) {
    c.Keep? || c.Rotate?
  }

  predicate ByModel(c: Change) {
    !c.LaunchApp? && !c.Keep?
  }

  /** A step keeps who is at work, but for one who arrives from the open stream or the app, and one who leaves. */
  lemma MovingOutstanding(w: Work, c: Change, worker: Worker)
    requires CanMove(w, c) && worker in Outstanding(Moving(w, c).pool)
    ensures worker in Outstanding(w.pool) || (c.Launch? && worker == Asked(w, c.cid, c.job))
            || (c.LaunchApp? && worker.asked.None?)
  {
    match c
    case Launch(cid, job) => assert Outstanding(Moving(w, c).pool) == Outstanding(w.pool) + [Asked(w, cid, job)];
    case LaunchApp(job) => assert Outstanding(Moving(w, c).pool) == Outstanding(w.pool) + [Worker(job, None)];
    case Finish(k, result) => FinishingOutstanding(w.pool, k, result);
    case Send => ReceivingOutstanding(w.pool);
    case Keep => ReceivingOutstanding(w.pool);
    case _ =>
  }

  // ----- staged calls belong to the open stream -----

  predicate StagedHere(w: Work) {
    forall cid | cid in w.staged :: w.staged[cid].asked == w.stream
  }

  lemma MovingKeepsStaged(w: Work, c: Change)
    requires StagedHere(w) && CanMove(w, c)
    ensures StagedHere(Moving(w, c))
  {
  }

  // ----- a loop without jobs of the app -----

  predicate AskedHere(ws: seq<Worker>, stream: nat) {
    forall i | 0 <= i < |ws| :: ws[i].asked == Some(stream)
  }

  /** At most four jobs, each one worker; all was asked for by the open stream. */
  predicate Orderly(w: Work) {
    Tidy(w.pool) && |w.pool.active| <= MAX_ACTIVE && StagedHere(w) && AskedHere(Outstanding(w.pool), w.stream)
    && w.app == {}
  }

  lemma LaunchKeepsOrderly(w: Work, cid: Id, job: A.Job)
    requires Orderly(w) && CanMove(w, Launch(cid, job))
    ensures Orderly(Moving(w, Launch(cid, job)))
  {
    var worker := Asked(w, cid, job);
    LaunchingKeepsTidy(w.pool, worker);
    assert Outstanding(Launching(w.pool, worker)) == Outstanding(w.pool) + [worker];
  }

  lemma FinishKeepsOrderly(w: Work, k: nat, result: A.ToolResult)
    requires Orderly(w) && CanMove(w, Finish(k, result))
    ensures Orderly(Moving(w, Finish(k, result)))
  {
    FinishingKeepsTidy(w.pool, k, result);
    var p' := Finishing(w.pool, k, result);
    TidyCount(w.pool);
    TidyCount(p');
    forall i | 0 <= i < |Outstanding(p')|
      ensures Outstanding(p')[i].asked == Some(w.stream)
    {
      MovingOutstanding(w, Finish(k, result), Outstanding(p')[i]);
    }
  }

  lemma SendKeepsOrderly(w: Work)
    requires Orderly(w) && CanMove(w, Send)
    ensures Orderly(Moving(w, Send)) && Head(w).asked == Some(w.stream)
  {
    ReceivingKeepsTidy(w.pool);
    ReceivingOutstanding(w.pool);
    TidyCount(w.pool);
    TidyCount(Receiving(w.pool));
    var all, rest := Outstanding(w.pool), Outstanding(Receiving(w.pool));
    assert all[0] == Head(w);
    assert forall i | 0 <= i < |rest| :: rest[i] == all[i + 1];
  }

  lemma RotateKeepsOrderly(w: Work)
    requires Orderly(w) && CanMove(w, Rotate)
    ensures Orderly(Moving(w, Rotate))
  {
    TidyCount(w.pool);
    assert Outstanding(w.pool) == [];
  }

  predicate Answered(sent: seq<Sent>) {
    forall i | 0 <= i < |sent| :: sent[i].worker.asked == Some(sent[i].stream)
  }

  /** Without the app, every step keeps the work orderly and answers who asked. */
  lemma MovingKeepsOrderly(w: Work, c: Change)
    requires Orderly(w) && CanMove(w, c) && ByModel(c)
    ensures Orderly(Moving(w, c)) && Answered(SentBy(w, c))
  {
    match c
    case Launch(cid, job) => LaunchKeepsOrderly(w, cid, job);
    case Finish(k, result) => FinishKeepsOrderly(w, k, result);
    case Send => SendKeepsOrderly(w);
    case Rotate => RotateKeepsOrderly(w);
    case _ =>
  }

  // ----- histories -----

  /** A history of work: the works before, between and after the changes. */
  predicate Follows(works: seq<Work>, changes: seq<Change>) {
    && |works| == |changes| + 1
    && forall i | 0 <= i < |changes| :: FollowsAt(works, changes, i)
  }

  predicate FollowsAt(works: seq<Work>, changes: seq<Change>, i: nat)
    requires |works| == |changes| + 1 && i < |changes|
  {
    CanMove(works[i], changes[i]) && works[i + 1] == Moving(works[i], changes[i])
  }

  function Beginning(): Work {
    Work(Pool({}, [], []), 0, map[], {})
  }

  /** At step m a result goes to a model that did not ask for it. */
  predicate Misses(works: seq<Work>, changes: seq<Change>, m: nat)
    requires Follows(works, changes) && m < |changes|
  {
    assert FollowsAt(works, changes, m);
    !Answered(SentBy(works[m], changes[m]))
  }

  /** Step k opens a stream although the worker whose result step m sends is still at work. */
  predicate LeavesBehind(works: seq<Work>, changes: seq<Change>, k: nat, m: nat)
    requires Follows(works, changes) && k < m < |changes|
  {
    assert FollowsAt(works, changes, m);
    Opens(changes[k]) && changes[m].Send? && Head(works[m]) in Outstanding(works[k].pool) && Head(works[m]).asked.Some?
  }

  /** Step m sends the model a result of a job that the app started. */
  predicate SendsAppResult(works: seq<Work>, changes: seq<Change>, m: nat)
    requires Follows(works, changes) && m < |changes|
  {
    assert FollowsAt(works, changes, m);
    changes[m].Send? && Head(works[m]).asked.None?
  }

  /** No worker is from a stream not yet opened. */
  predicate AskedBefore(w: Work) {
    forall i | 0 <= i < |Outstanding(w.pool)| && Outstanding(w.pool)[i].asked.Some? ::
      Outstanding(w.pool)[i].asked.value <= w.stream
  }

  lemma MovingKeepsAskedBefore(w: Work, c: Change)
    requires AskedBefore(w) && StagedHere(w) && CanMove(w, c)
    ensures AskedBefore(Moving(w, c)) && w.stream <= Moving(w, c).stream
  {
    var w' := Moving(w, c);
    var ws' := Outstanding(w'.pool);
    forall i | 0 <= i < |ws'| && ws'[i].asked.Some?
      ensures ws'[i].asked.value <= w'.stream
    {
      MovingOutstanding(w, c, ws'[i]);
    }
  }

  lemma {:induction false} HistoryAsked(works: seq<Work>, changes: seq<Change>, n: nat)
    requires Follows(works, changes) && works[0] == Beginning() && n < |works|
    ensures StagedHere(works[n]) && AskedBefore(works[n])
  {
    if n > 0 {
      HistoryAsked(works, changes, n - 1);
      assert FollowsAt(works, changes, n - 1);
      MovingKeepsStaged(works[n - 1], changes[n - 1]);
      MovingKeepsAskedBefore(works[n - 1], changes[n - 1]);
    }
  }

  /** The number of the open stream never falls, and each opening raises it. */
  lemma {:induction false} StreamsRise(works: seq<Work>, changes: seq<Change>, k: nat, m: nat)
    requires Follows(works, changes) && k <= m < |works|
    ensures works[k].stream <= works[m].stream
    ensures k < m && Opens(changes[k]) ==> works[k].stream < works[m].stream
    decreases m - k
  {
    if k < m {
      assert FollowsAt(works, changes, k);
      StreamsRise(works, changes, k + 1, m);
    }
  }

  /** A worker of stream s that is at work in step m was at work whenever a later stream had not yet replaced s. */
  lemma {:induction false} AtWorkSince(works: seq<Work>, changes: seq<Change>, k: nat, m: nat, worker: Worker)
    requires Follows(works, changes) && works[0] == Beginning() && k <= m < |works|
    requires worker in Outstanding(works[m].pool) && worker.asked == Some(works[k].stream)
    requires k < m ==> Opens(changes[k])
    ensures worker in Outstanding(works[k].pool)
    decreases m - k
  {
    if k < m {
      assert FollowsAt(works, changes, m - 1);
      MovingOutstanding(works[m - 1], changes[m - 1], worker);
      HistoryAsked(works, changes, m - 1);
      if k < m - 1 {
        StreamsRise(works, changes, k, m - 1);
        AtWorkSince(works, changes, k, m - 1, worker);
      }
    }
  }

  /** The step that closed an earlier stream. */
  lemma {:induction false} ClosingStep(works: seq<Work>, changes: seq<Change>, m: nat, s: nat) returns (k: nat)
    requires Follows(works, changes) && works[0] == Beginning() && m < |works| && s < works[m].stream
    ensures k < m && works[k].stream == s && Opens(changes[k])
  {
    assert FollowsAt(works, changes, m - 1);
    if works[m - 1].stream == s {
      k := m - 1;
    } else {
      k := ClosingStep(works, changes, m - 1, s);
    }
  }

  /** Step m sends no result of the app's, and nobody whom an earlier opening left behind. */
  predicate RightAt(works: seq<Work>, changes: seq<Change>, m: nat)
    requires Follows(works, changes) && m < |changes|
  {
    !SendsAppResult(works, changes, m) && forall k | 0 <= k < m :: !LeavesBehind(works, changes, k, m)
  }

  lemma MissesUnlessRight(works: seq<Work>, changes: seq<Change>, m: nat)
    requires Follows(works, changes) && works[0] == Beginning() && m < |changes| && RightAt(works, changes, m)
    ensures !Misses(works, changes, m)
  {
    assert FollowsAt(works, changes, m);
    HistoryAsked(works, changes, m);
    if changes[m].Send? {
      var worker := Head(works[m]);
      assert Outstanding(works[m].pool)[0] == worker;
      if worker.asked.value < works[m].stream {
        var k := ClosingStep(works, changes, m, worker.asked.value);
        AtWorkSince(works, changes, k, m, worker);
        assert LeavesBehind(works, changes, k, m);
      }
    }
  }

  lemma LeftBehindMisses(works: seq<Work>, changes: seq<Change>, k: nat, m: nat)
    requires Follows(works, changes) && works[0] == Beginning() && k < m < |changes|
    requires LeavesBehind(works, changes, k, m)
    ensures Misses(works, changes, m)
  {
    assert FollowsAt(works, changes, m);
    HistoryAsked(works, changes, k);
    StreamsRise(works, changes, k, m);
    var i :| 0 <= i < |Outstanding(works[k].pool)| && Outstanding(works[k].pool)[i] == Head(works[m]);
    assert SentBy(works[m], changes[m])[0].worker == Head(works[m]);
  }

  lemma MissesIff(works: seq<Work>, changes: seq<Change>, m: nat)
    requires Follows(works, changes) && works[0] == Beginning() && m < |changes|
    ensures Misses(works, changes, m) <==> !RightAt(works, changes, m)
  {
    if RightAt(works, changes, m) {
      MissesUnlessRight(works, changes, m);
    } else if SendsAppResult(works, changes, m) {
      assert FollowsAt(works, changes, m);
      assert SentBy(works[m], changes[m])[0].worker == Head(works[m]);
    } else {
      var k :| 0 <= k < m && LeavesBehind(works, changes, k, m);
      LeftBehindMisses(works, changes, k, m);
    }
  }

  /** Every result goes to the model that asked for it. */
  predicate AllAnswered(works: seq<Work>, changes: seq<Change>)
    requires Follows(works, changes)
  {
    forall m | 0 <= m < |changes| :: !Misses(works, changes, m)
  }

  /**
   Over every history, every result goes to the model that asked if and only if no stream is opened over a worker
   whose result is later sent to a model, and no result of the app's own jobs is sent to a model.
   */
  lemma AnsweredIff(works: seq<Work>, changes: seq<Change>)
    requires Follows(works, changes) && works[0] == Beginning()
    ensures AllAnswered(works, changes) <==> forall m | 0 <= m < |changes| :: RightAt(works, changes, m)
  {
    forall m | 0 <= m < |changes|
      ensures Misses(works, changes, m) <==> !RightAt(works, changes, m)
    {
      MissesIff(works, changes, m);
    }
  }

  // ----- jobs of the app -----

  /** Jobs that the model started are at most four, whatever the app starts besides. */
  predicate ModelBounded(w: Work) {
    |w.pool.active - w.app| <= MAX_ACTIVE
  }

  lemma MovingKeepsModelBounded(w: Work, c: Change)
    requires ModelBounded(w) && CanMove(w, c)
    ensures ModelBounded(Moving(w, c))
  {
    var w' := Moving(w, c);
    match c
    case Launch(_, job) =>
      SubsetSize(w.pool.active - w.app, w.pool.active);
      SubsetSize(w'.pool.active - w'.app, (w.pool.active - w.app) + {job.id});
    case _ => SubsetSize(w'.pool.active - w'.app, w.pool.active - w.app);
  }

  lemma {:induction false} HistoryBounded(works: seq<Work>, changes: seq<Change>, n: nat)
    requires Follows(works, changes) && works[0] == Beginning() && n < |works|
    ensures ModelBounded(works[n])
    ensures |works[n].pool.active| <= MAX_ACTIVE + |works[n].app|
  {
    if n > 0 {
      HistoryBounded(works, changes, n - 1);
      assert FollowsAt(works, changes, n - 1);
      MovingKeepsModelBounded(works[n - 1], changes[n - 1]);
    }
    var w := works[n];
    SubsetSize(w.pool.active, (w.pool.active - w.app) + w.app);
  }

  /** The app starts its jobs under ids that are not active. */
  predicate FreshApp(works: seq<Work>, changes: seq<Change>)
    requires Follows(works, changes)
  {
    forall i | 0 <= i < |changes| && changes[i].LaunchApp? :: changes[i].job.id !in works[i].pool.active
  }

  /** Each job is one worker, and exactly the app's jobs were asked for by no model. */
  predicate Sorted(w: Work) {
    && Tidy(w.pool) && w.app <= w.pool.active
    && forall i | 0 <= i < |Outstanding(w.pool)| :: FiledRight(Outstanding(w.pool)[i], w.app)
  }

  predicate FiledRight(worker: Worker, app: set<Id>) {
    worker.asked.None? <==> worker.job.id in app
  }

  lemma LaunchKeepsSorted(w: Work, worker: Worker, app: set<Id>)
    requires Sorted(w) && worker.job.id !in w.pool.active
    requires app == if worker.asked.None? then w.app + {worker.job.id} else w.app
    ensures Sorted(w.(pool := Launching(w.pool, worker), app := app))
  {
    LaunchingKeepsTidy(w.pool, worker);
    var ws := Outstanding(w.pool);
    assert Outstanding(Launching(w.pool, worker)) == ws + [worker];
    forall i | 0 <= i < |ws|
      ensures FiledRight(ws[i], app)
    {
      assert FiledRight(ws[i], w.app) && ws[i].job.id in JobIds(ws);
    }
  }

  lemma FinishKeepsSorted(w: Work, k: nat, result: A.ToolResult)
    requires Sorted(w) && CanFinish(w.pool, k)
    ensures Sorted(w.(pool := Finishing(w.pool, k, result)))
  {
    FinishingKeepsTidy(w.pool, k, result);
    var p' := Finishing(w.pool, k, result);
    forall i | 0 <= i < |Outstanding(p')|
      ensures FiledRight(Outstanding(p')[i], w.app)
    {
      MovingOutstanding(w, Finish(k, result), Outstanding(p')[i]);
    }
  }

  lemma ReceiveKeepsSorted(w: Work)
    requires Sorted(w) && w.pool.channel != []
    ensures Sorted(w.(pool := Receiving(w.pool), app := w.app - {Head(w).job.id}))
  {
    ReceivingKeepsTidy(w.pool);
    ReceivingOutstanding(w.pool);
    var all, rest := Outstanding(w.pool), Outstanding(Receiving(w.pool));
    assert all[0] == Head(w);
    forall i | 0 <= i < |rest|
      ensures FiledRight(rest[i], w.app - {Head(w).job.id})
    {
      assert all[i + 1] == rest[i] && FiledRight(all[i + 1], w.app);
    }
  }

  lemma MovingKeepsSorted(w: Work, c: Change)
    requires Sorted(w) && CanMove(w, c) && (c.LaunchApp? ==> c.job.id !in w.pool.active)
    ensures Sorted(Moving(w, c))
  {
    match c
    case Launch(cid, job) => LaunchKeepsSorted(w, Asked(w, cid, job), w.app);
    case LaunchApp(job) => LaunchKeepsSorted(w, Worker(job, None), w.app + {job.id});
    case Finish(k, result) => FinishKeepsSorted(w, k, result);
    case Send =>
      ReceiveKeepsSorted(w);
      assert w.app - {Head(w).job.id} == w.app;
    case Keep => ReceiveKeepsSorted(w);
    case _ =>
  }

  lemma {:induction false} HistorySorted(works: seq<Work>, changes: seq<Change>, n: nat)
    requires Follows(works, changes) && works[0] == Beginning() && n < |works| && FreshApp(works, changes)
    ensures Sorted(works[n])
  {
    if n > 0 {
      HistorySorted(works, changes, n - 1);
      assert FollowsAt(works, changes, n - 1);
      MovingKeepsSorted(works[n - 1], changes[n - 1]);
    }
  }

  /** At step k the loop keeps a result of the app while a job of the model is active. */
  predicate KeepsOver(works: seq<Work>, changes: seq<Change>, k: nat)
    requires Follows(works, changes) && k < |changes|
  {
    assert FollowsAt(works, changes, k);
    changes[k].Keep? && !(works[k].pool.active - {Head(works[k]).job.id} <= works[k].app)
  }

  /** A model's worker is left behind exactly at a kept result, and there a job outside the app's is active. */
  lemma LeftBehindAtKeep(works: seq<Work>, changes: seq<Change>, k: nat, m: nat)
    requires Follows(works, changes) && works[0] == Beginning() && FreshApp(works, changes) && k < m < |changes|
    requires LeavesBehind(works, changes, k, m)
    ensures KeepsOver(works, changes, k)
  {
    HistorySorted(works, changes, k);
    assert FollowsAt(works, changes, k) && FollowsAt(works, changes, m);
    var w, worker := works[k], Head(works[m]);
    var ws := Outstanding(w.pool);
    var i :| 0 <= i < |ws| && ws[i] == worker;
    assert worker.job.id in JobIds(ws) && FiledRight(ws[i], w.app);
  }

  /** Step k keeps a result of the app while a job of a model is active, and step m sends the result of that job. */
  predicate KeepsOverSent(works: seq<Work>, changes: seq<Change>, k: nat, m: nat)
    requires Follows(works, changes) && k < m < |changes|
  {
    KeepsOver(works, changes, k) && LeavesBehind(works, changes, k, m)
  }

  predicate KeptRightAt(works: seq<Work>, changes: seq<Change>, m: nat)
    requires Follows(works, changes) && m < |changes|
  {
    forall k | 0 <= k < m :: !KeepsOverSent(works, changes, k, m)
  }

  lemma RightIffKeptRight(works: seq<Work>, changes: seq<Change>, m: nat)
    requires Follows(works, changes) && works[0] == Beginning() && FreshApp(works, changes) && m < |changes|
    ensures RightAt(works, changes, m) <==> KeptRightAt(works, changes, m)
  {
    SendsNoAppResult(works, changes, m);
    forall k | 0 <= k < m
      ensures LeavesBehind(works, changes, k, m) <==> KeepsOverSent(works, changes, k, m)
    {
      if LeavesBehind(works, changes, k, m) {
        LeftBehindAtKeep(works, changes, k, m);
      }
    }
  }

  /**
   When the app uses ids that are not active: every result goes to the model that asked if and only if no result of
   the app is kept while a job of a model is active whose result is sent later. The guard, that all other active
   jobs are the app's, can be checked before the result is kept.
   */
  lemma AnsweredIffGuarded(works: seq<Work>, changes: seq<Change>)
    requires Follows(works, changes) && works[0] == Beginning() && FreshApp(works, changes)
    ensures AllAnswered(works, changes) <==> forall m | 0 <= m < |changes| :: KeptRightAt(works, changes, m)
    ensures (forall k | 0 <= k < |changes| :: !KeepsOver(works, changes, k)) ==> AllAnswered(works, changes)
  {
    forall m | 0 <= m < |changes|
      ensures RightAt(works, changes, m) <==> KeptRightAt(works, changes, m)
    {
      RightIffKeptRight(works, changes, m);
    }
    AnsweredIff(works, changes);
  }

  lemma SendsNoAppResult(works: seq<Work>, changes: seq<Change>, m: nat)
    requires Follows(works, changes) && works[0] == Beginning() && FreshApp(works, changes) && m < |changes|
    ensures !SendsAppResult(works, changes, m)
  {
    HistorySorted(works, changes, m);
    assert FollowsAt(works, changes, m);
    if changes[m].Send? {
      assert Outstanding(works[m].pool)[0] == Head(works[m]);
      assert FiledRight(Outstanding(works[m].pool)[0], works[m].app);
    }
  }

  /** A worker may have to wait for room exactly when more than four jobs are active. */
  lemma WaitsIff(works: seq<Work>, changes: seq<Change>, n: nat)
    requires Follows(works, changes) && works[0] == Beginning() && n < |works| && FreshApp(works, changes)
    ensures MayBlock(works[n].pool) <==> |works[n].pool.active| > MAX_ACTIVE
  {
    HistorySorted(works, changes, n);
    HistoryChannel(works, changes, n);
    MayBlockIff(works[n].pool);
  }

  lemma {:induction false} HistoryChannel(works: seq<Work>, changes: seq<Change>, n: nat)
    requires Follows(works, changes) && works[0] == Beginning() && n < |works|
    ensures |works[n].pool.channel| <= CHANNEL
  {
    if n > 0 {
      HistoryChannel(works, changes, n - 1);
      assert FollowsAt(works, changes, n - 1);
    }
  }
}
