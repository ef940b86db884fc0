/** Where the account agent's loop sends the results of tools, over all its runs. */
module AccountResults {
  import opened Basics
  import R = RealtimeMapper
  import A = ActionRuntime
  import opened WorkerPool
  import opened LoopWork
  import opened AgentLoop
  import opened AgentRuns
  import opened AgentWork
  import opened AccountLoop
  import opened AccountRuns
  import opened AccountWork

  /** What determines a run of the loop. */
  datatype Recording = Recording(host: A.Host, letters: Letters, authenticated: bool, steps: seq<Step>)

  /** The loop before step k. */
  ghost function At(r: Recording, k: nat): (c: Account)
    requires k <= |r.steps|
    ensures R.Bounded(c.agent.mapper)
  {
    RunAccount(r.host, r.letters, r.authenticated, r.steps[..k]).0
  }

  ghost predicate Happens(r: Recording, k: nat) {
    k < |r.steps| && Enabled(At(r, k).agent, r.steps[k])
  }

  ghost function OutputsAt(r: Recording, k: nat): seq<Output>
    requires Happens(r, k)
  {
    NextAccount(r.host, r.letters, At(r, k), r.steps[k]).1
  }

  ghost function AllOutputs(r: Recording): seq<Output> {
    RunAccount(r.host, r.letters, r.authenticated, r.steps).1
  }

  /** Step k delivers a result. */
  ghost predicate Delivers(r: Recording, k: nat) {
    Happens(r, k) && r.steps[k].DeliverStep?
  }

  ghost function Delivered(r: Recording, k: nat): Worker
    requires Delivers(r, k)
  {
    At(r, k).agent.pool.channel[0].worker
  }

  /** Step k delivers a result of a job that the app started. */
  ghost predicate DeliversToApp(r: Recording, k: nat) {
    Delivers(r, k) && HeadIsUi(At(r, k))
  }

  ghost predicate DeliversToModel(r: Recording, k: nat) {
    Delivers(r, k) && !HeadIsUi(At(r, k))
  }

  /** Step k opens another stream. */
  ghost predicate OpensAt(r: Recording, k: nat) {
    Happens(r, k) && At(r, k + 1).agent.stream != At(r, k).agent.stream
  }

  ghost predicate AtWork(r: Recording, k: nat, w: Worker)
    requires k <= |r.steps|
  {
    w in Outstanding(At(r, k).agent.pool)
  }

  // ----- a run as a history of work -----

  ghost predicate ChangesAt(r: Recording, k: nat, c: Change)
    requires k < |r.steps|
  {
    if Happens(r, k) then AccountMovesBy(r.host, r.letters, At(r, k), r.steps[k], c) else c.Nothing?
  }

  lemma SomeChange(r: Recording, k: nat)
    requires k < |r.steps|
    ensures exists c :: ChangesAt(r, k, c)
  {
    if Happens(r, k) {
      var c := AccountMoves(r.host, r.letters, At(r, k), r.steps[k]);
      assert ChangesAt(r, k, c);
    } else {
      assert ChangesAt(r, k, Nothing);
    }
  }

  ghost function ChangeAt(r: Recording, k: nat): (c: Change)
    requires k < |r.steps|
    ensures ChangesAt(r, k, c)
  {
    SomeChange(r, k);
    var c :| ChangesAt(r, k, c);
    c
  }

  ghost function WorkAt(r: Recording, k: nat): Work
    requires k <= |r.steps|
  {
    WorkIn(At(r, k))
  }

  ghost function Works(r: Recording): (ws: seq<Work>)
    ensures |ws| == |r.steps| + 1 && forall k | 0 <= k <= |r.steps| :: ws[k] == WorkAt(r, k)
  {
    seq(|r.steps| + 1, k requires 0 <= k <= |r.steps| => WorkAt(r, k))
  }

  ghost function Changes(r: Recording): (cs: seq<Change>)
    ensures |cs| == |r.steps| && forall k | 0 <= k < |r.steps| :: cs[k] == ChangeAt(r, k)
  {
    seq(|r.steps|, k requires 0 <= k < |r.steps| => ChangeAt(r, k))
  }

  /** One more step of the run. */
  lemma OneStep(r: Recording, k: nat)
    requires k < |r.steps|
    ensures Happens(r, k) ==> At(r, k + 1) == NextAccount(r.host, r.letters, At(r, k), r.steps[k]).0
    ensures !Happens(r, k) ==> At(r, k + 1) == At(r, k)
  {
    assert r.steps[..k + 1][..k] == r.steps[..k];
  }

  lemma StepFollows(r: Recording, k: nat)
    requires k < |r.steps|
    ensures FollowsAt(Works(r), Changes(r), k)
  {
    OneStep(r, k);
    assert ChangesAt(r, k, Changes(r)[k]);
  }

  lemma RunFollows(r: Recording)
    ensures Follows(Works(r), Changes(r)) && Works(r)[0] == Beginning()
  {
    forall k | 0 <= k < |r.steps|
      ensures FollowsAt(Works(r), Changes(r), k)
    {
      StepFollows(r, k);
    }
    assert r.steps[..0] == [];
  }

  ghost predicate MissesAt(r: Recording, k: nat) {
    Happens(r, k) && !AllReach(OutputsAt(r, k))
  }

  lemma MissesAsHistory(r: Recording, k: nat)
    requires Follows(Works(r), Changes(r)) && k < |r.steps|
    ensures Misses(Works(r), Changes(r), k) <==> MissesAt(r, k)
  {
    assert FollowsAt(Works(r), Changes(r), k);
    assert ChangesAt(r, k, Changes(r)[k]);
    if Happens(r, k) {
      AnsweredIffReach(OutputsAt(r, k));
    }
  }

  ghost function OutputsBefore(r: Recording, n: nat): seq<Output>
    requires n <= |r.steps|
  {
    RunAccount(r.host, r.letters, r.authenticated, r.steps[..n]).1
  }

  lemma OneOutput(r: Recording, n: nat)
    requires n < |r.steps|
    ensures OutputsBefore(r, n + 1) == OutputsBefore(r, n) + if Happens(r, n) then OutputsAt(r, n) else []
  {
    assert r.steps[..n + 1][..n] == r.steps[..n];
  }

  ghost predicate NoMissBefore(r: Recording, n: nat) {
    forall k | 0 <= k < n :: !MissesAt(r, k)
  }

  lemma NoMissGrows(r: Recording, n: nat)
    ensures NoMissBefore(r, n + 1) <==> NoMissBefore(r, n) && !MissesAt(r, n)
  {
  }

  lemma {:induction false} OutputsReach(r: Recording, n: nat)
    requires n <= |r.steps|
    ensures AllReach(OutputsBefore(r, n)) <==> NoMissBefore(r, n)
  {
    if n == 0 {
      assert r.steps[..0] == [];
    } else {
      OutputsReach(r, n - 1);
      OneOutput(r, n - 1);
      NoMissGrows(r, n - 1);
      ReachParts(OutputsBefore(r, n - 1), if Happens(r, n - 1) then OutputsAt(r, n - 1) else []);
    }
  }

  lemma ReachAsHistory(r: Recording)
    requires Follows(Works(r), Changes(r))
    ensures AllReach(AllOutputs(r)) <==> AllAnswered(Works(r), Changes(r))
  {
    OutputsReach(r, |r.steps|);
    assert r.steps[..|r.steps|] == r.steps;
    forall k | 0 <= k < |r.steps|
      ensures Misses(Works(r), Changes(r), k) <==> MissesAt(r, k)
    {
      MissesAsHistory(r, k);
    }
  }

  // ----- results and the streams that asked for them -----

  /** If step m sends a result, a model asked for it, and no stream was opened over its worker. */
  ghost predicate SendsRight(r: Recording, m: nat)
    requires m < |r.steps|
  {
    DeliversToModel(r, m) ==>
      Delivered(r, m).asked.Some? && forall k | 0 <= k < m :: !(OpensAt(r, k) && AtWork(r, k, Delivered(r, m)))
  }

  lemma OpensAsHistory(r: Recording, k: nat)
    requires k < |r.steps|
    ensures Opens(Changes(r)[k]) <==> OpensAt(r, k)
  {
    OneStep(r, k);
    assert ChangesAt(r, k, Changes(r)[k]);
  }

  lemma SendsRightAsHistory(r: Recording, m: nat)
    requires Follows(Works(r), Changes(r)) && m < |r.steps|
    ensures RightAt(Works(r), Changes(r), m) <==> SendsRight(r, m)
  {
    assert ChangesAt(r, m, Changes(r)[m]);
    assert Changes(r)[m].Send? <==> DeliversToModel(r, m);
    forall k | 0 <= k < m
      ensures Opens(Changes(r)[k]) <==> OpensAt(r, k)
    {
      OpensAsHistory(r, k);
    }
    if DeliversToModel(r, m) && Delivered(r, m).asked.Some? {
      assert Head(Works(r)[m]) == Delivered(r, m);
      assert forall k | 0 <= k < m :: LeavesBehind(Works(r), Changes(r), k, m) <==>
             OpensAt(r, k) && AtWork(r, k, Delivered(r, m));
    }
  }

  /**
   Over every run, every result goes to the stream that asked for it if and only if each result sent to a model was
   asked for by one, and no stream was opened while its worker was at work.
   */
  lemma ResultsReachIff(r: Recording)
    ensures AllReach(AllOutputs(r)) <==> forall m | 0 <= m < |r.steps| :: SendsRight(r, m)
  {
    RunFollows(r);
    ReachAsHistory(r);
    AnsweredIff(Works(r), Changes(r));
    forall m | 0 <= m < |r.steps|
      ensures RightAt(Works(r), Changes(r), m) <==> SendsRight(r, m)
    {
      SendsRightAsHistory(r, m);
    }
  }

  /** The app starts its jobs under ids that are not active. */
  ghost predicate StartsFresh(r: Recording) {
    forall k | 0 <= k < |r.steps| :: StartsFreshAt(r, k)
  }

  ghost predicate StartsFreshAt(r: Recording, k: nat) {
    Happens(r, k) ==>
      forall w | Begin(w) in OutputsAt(r, k) && w.asked.None? :: w.job.id !in At(r, k).agent.pool.active
  }

  lemma FreshAsHistory(r: Recording)
    requires Follows(Works(r), Changes(r)) && StartsFresh(r)
    ensures FreshApp(Works(r), Changes(r))
  {
    forall k | 0 <= k < |r.steps| && Changes(r)[k].LaunchApp?
      ensures Changes(r)[k].job.id !in Works(r)[k].pool.active
    {
      assert ChangesAt(r, k, Changes(r)[k]) && StartsFreshAt(r, k);
      assert Begin(Worker(Changes(r)[k].job, None)) in OutputsAt(r, k);
    }
  }

  /** Step k delivers a result of the app's while a job that the app did not start is active. */
  ghost predicate OverOthers(r: Recording, k: nat) {
    DeliversToApp(r, k) && !(At(r, k).agent.pool.active - {Delivered(r, k).job.id} <= At(r, k).uiJobs)
  }

  lemma OverOthersAsHistory(r: Recording, k: nat)
    requires Follows(Works(r), Changes(r)) && k < |r.steps|
    ensures KeepsOver(Works(r), Changes(r), k) <==> OverOthers(r, k)
  {
    assert FollowsAt(Works(r), Changes(r), k);
    assert ChangesAt(r, k, Changes(r)[k]);
  }

  /** No result sent at step m is of a job over which an earlier result of the app's was delivered. */
  ghost predicate NotOver(r: Recording, m: nat)
    requires m < |r.steps|
  {
    DeliversToModel(r, m) ==> forall k | 0 <= k < m :: !(OverOthers(r, k) && AtWork(r, k, Delivered(r, m)))
  }

  lemma NotOverAsHistory(r: Recording, m: nat)
    requires Follows(Works(r), Changes(r)) && Works(r)[0] == Beginning() && StartsFresh(r) && m < |r.steps|
    ensures KeptRightAt(Works(r), Changes(r), m) <==> NotOver(r, m)
  {
    FreshAsHistory(r);
    SendsNoAppResult(Works(r), Changes(r), m);
    assert ChangesAt(r, m, Changes(r)[m]);
    assert Changes(r)[m].Send? <==> DeliversToModel(r, m);
    forall k | 0 <= k < m
      ensures KeepsOver(Works(r), Changes(r), k) <==> OverOthers(r, k)
    {
      OverOthersAsHistory(r, k);
    }
    if DeliversToModel(r, m) {
      assert Head(Works(r)[m]) == Delivered(r, m);
      assert forall k | 0 <= k < m :: KeepsOverSent(Works(r), Changes(r), k, m) <==>
             OverOthers(r, k) && AtWork(r, k, Delivered(r, m));
    }
  }

  /**
   Over every run whose app starts jobs under ids that are not active, every result goes to the stream that asked for
   it if and only if no result of the app's is delivered over a job of a model whose result is sent later. The loop
   could check before each delivery that all other active jobs are the app's.
   */
  lemma ResultsReachIffNotOver(r: Recording)
    requires StartsFresh(r)
    ensures AllReach(AllOutputs(r)) <==> forall m | 0 <= m < |r.steps| :: NotOver(r, m)
    ensures (forall k | 0 <= k < |r.steps| :: !OverOthers(r, k)) ==> AllReach(AllOutputs(r))
  {
    RunFollows(r);
    FreshAsHistory(r);
    ReachAsHistory(r);
    AnsweredIffGuarded(Works(r), Changes(r));
    forall m | 0 <= m < |r.steps|
      ensures KeptRightAt(Works(r), Changes(r), m) <==> NotOver(r, m)
    {
      NotOverAsHistory(r, m);
    }
  }

  // ----- waiting for room -----

  /** Jobs that models started are at most four, but the app starts its own besides them. */
  lemma ActiveBounded(r: Recording)
    ensures var c := At(r, |r.steps|);
            |c.agent.pool.active - c.uiJobs| <= MAX_ACTIVE && |c.agent.pool.active| <= MAX_ACTIVE + |c.uiJobs|
  {
    RunFollows(r);
    HistoryBounded(Works(r), Changes(r), |r.steps|);
  }

  /** A worker may have to wait for room in the channel exactly when more than four jobs are active. */
  lemma WorkersWaitIff(r: Recording)
    requires StartsFresh(r)
    ensures var p := At(r, |r.steps|).agent.pool;
            |p.active| == |p.running| + |p.channel| && (MayBlock(p) <==> |p.active| > MAX_ACTIVE)
  {
    RunFollows(r);
    FreshAsHistory(r);
    WaitsIff(Works(r), Changes(r), |r.steps|);
    HistorySorted(Works(r), Changes(r), |r.steps|);
    TidyCount(At(r, |r.steps|).agent.pool);
  }
}
