/**
 The workers that run tools for an agent loop, and the channel that brings their results back
 (apps/personal-assistant-agent/internal/agent/tools.go, apps/account-agent/internal/account/tools.go).
 */
module WorkerPool {
  import opened Basics
  import A = ActionRuntime

  type Id = string

  /** asked is the stream whose model asked for the job; nobody's model asked for a job that the app started. */
  datatype Worker = Worker(job: A.Job, asked: Option<nat>)

  datatype Delivery = Delivery(worker: Worker, result: A.ToolResult)

  /** The ids of active jobs, the workers still running, and the results in the channel. */
  datatype Pool = Pool(active: set<Id>, running: seq<Worker>, channel: seq<Delivery>)

  const MAX_ACTIVE: nat := 4
  const CHANNEL: nat := 4

  function Launching(p: Pool, w: Worker): Pool {
    p.(active := p.active + {w.job.id}, running := p.running + [w])
  }

  /** A worker puts its result into the channel, which has room for four. */
  predicate CanFinish(p: Pool, k: nat) {
    k < |p.running| && |p.channel| < CHANNEL
  }

  function Finishing(p: Pool, k: nat, result: A.ToolResult): Pool
    requires CanFinish(p, k)
  {
    p.(running := p.running[..k] + p.running[k + 1..], channel := p.channel + [Delivery(p.running[k], result)])
  }

  function Receiving(p: Pool): Pool
    requires p.channel != []
  {
    p.(active := p.active - {p.channel[0].worker.job.id}, channel := p.channel[1..])
  }

  // ----- who has not been answered -----

  function Waiting(channel: seq<Delivery>): seq<Worker> {
    seq(|channel|, i requires 0 <= i < |channel| => channel[i].worker)
  }

  /** Results in the channel, oldest first, then workers that still run. */
  function Outstanding(p: Pool): seq<Worker> {
    Waiting(p.channel) + p.running
  }

  function JobIds(ws: seq<Worker>): set<Id> {
    set i | 0 <= i < |ws| :: ws[i].job.id
  }

  predicate DistinctJobs(ws: seq<Worker>) {
    forall i, j | 0 <= i < j < |ws| :: ws[i].job.id != ws[j].job.id
  }

  /** Every active job is exactly one worker, running or with its result in the channel. */
  predicate Tidy(p: Pool) {
    DistinctJobs(Outstanding(p)) && p.active == JobIds(Outstanding(p))
  }

  lemma {:induction false} JobCount(ws: seq<Worker>)
    ensures |JobIds(ws)| <= |ws|
    ensures DistinctJobs(ws) ==> |JobIds(ws)| == |ws|
  {
    if ws != [] {
      var n := |ws| - 1;
      var front := ws[..n];
      JobCount(front);
      JobIdsParts(front, [ws[n]]);
      assert ws == front + [ws[n]];
      OneJobId(ws[n]);
      if DistinctJobs(ws) {
        assert DistinctJobs(front) && ws[n].job.id !in JobIds(front);
      }
    }
  }

  lemma OneJobId(w: Worker)
    ensures JobIds([w]) == {w.job.id}
  {
    assert [w][0].job.id in JobIds([w]);
  }

  lemma JobIdsParts(xs: seq<Worker>, ys: seq<Worker>)
    ensures JobIds(xs + ys) == JobIds(xs) + JobIds(ys)
  {
    forall id | id in JobIds(xs) + JobIds(ys)
      ensures id in JobIds(xs + ys)
    {
      if id in JobIds(xs) {
        var i :| 0 <= i < |xs| && xs[i].job.id == id;
        assert (xs + ys)[i].job.id == id;
      } else {
        var i :| 0 <= i < |ys| && ys[i].job.id == id;
        assert (xs + ys)[|xs| + i].job.id == id;
      }
    }
  }

  /** Jobs stay distinct, and the same, when one of them moves. */
  lemma MovedJob(xs: seq<Worker>, w: Worker, ys: seq<Worker>, zs: seq<Worker>)
    requires DistinctJobs(xs + ys + [w] + zs)
    ensures DistinctJobs(xs + [w] + ys + zs)
    ensures JobIds(xs + [w] + ys + zs) == JobIds(xs + ys + [w] + zs)
  {
    var before, after := xs + ys + [w] + zs, xs + [w] + ys + zs;
    forall i, j | 0 <= i < j < |after|
      ensures after[i].job.id != after[j].job.id
    {
      MovedFrom(xs, w, ys, zs, i);
      MovedFrom(xs, w, ys, zs, j);
      assert Unmoved(|xs|, |ys|, i) != Unmoved(|xs|, |ys|, j);
    }
    MovedJobIds(xs, w, ys, zs);
  }

  lemma MovedFrom(xs: seq<Worker>, w: Worker, ys: seq<Worker>, zs: seq<Worker>, i: nat)
    requires i < |xs + [w] + ys + zs|
    ensures Unmoved(|xs|, |ys|, i) < |xs + ys + [w] + zs|
    ensures (xs + [w] + ys + zs)[i] == (xs + ys + [w] + zs)[Unmoved(|xs|, |ys|, i)]
  {
  }

  lemma MovedJobIds(xs: seq<Worker>, w: Worker, ys: seq<Worker>, zs: seq<Worker>)
    ensures JobIds(xs + [w] + ys + zs) == JobIds(xs + ys + [w] + zs)
  {
    JobIdsParts(xs, [w]);
    JobIdsParts(xs + [w], ys);
    JobIdsParts(xs + [w] + ys, zs);
    JobIdsParts(xs, ys);
    JobIdsParts(xs + ys, [w]);
    JobIdsParts(xs + ys + [w], zs);
  }

  /** Where element i of the moved sequence was. */
  function Unmoved(x: nat, y: nat, i: nat): nat {
    if i < x then i else if i == x then x + y else if i <= x + y then i - 1 else i
  }

  lemma TidyCount(p: Pool)
    requires Tidy(p)
    ensures |p.active| == |p.running| + |p.channel|
  {
    JobCount(Outstanding(p));
  }

  lemma LaunchingKeepsTidy(p: Pool, w: Worker)
    requires Tidy(p) && w.job.id !in p.active
    ensures Tidy(Launching(p, w)) && |Launching(p, w).active| == |p.active| + 1
  {
    var ws := Outstanding(p);
    assert Outstanding(Launching(p, w)) == ws + [w];
    assert forall i | 0 <= i < |ws| :: ws[i].job.id in JobIds(ws);
    JobIdsParts(ws, [w]);
    OneJobId(w);
  }

  lemma FinishingOutstanding(p: Pool, k: nat, result: A.ToolResult)
    requires CanFinish(p, k)
    ensures Outstanding(Finishing(p, k, result)) ==
            Waiting(p.channel) + [p.running[k]] + p.running[..k] + p.running[k + 1..]
    ensures Outstanding(p) == Waiting(p.channel) + p.running[..k] + [p.running[k]] + p.running[k + 1..]
  {
    assert Waiting(p.channel + [Delivery(p.running[k], result)]) == Waiting(p.channel) + [p.running[k]];
    assert p.running == p.running[..k] + [p.running[k]] + p.running[k + 1..];
  }

  lemma FinishingKeepsTidy(p: Pool, k: nat, result: A.ToolResult)
    requires Tidy(p) && CanFinish(p, k)
    ensures Tidy(Finishing(p, k, result))
  {
    FinishingOutstanding(p, k, result);
    MovedJob(Waiting(p.channel), p.running[k], p.running[..k], p.running[k + 1..]);
  }

  lemma ReceivingOutstanding(p: Pool)
    requires p.channel != []
    ensures Outstanding(p) == [p.channel[0].worker] + Outstanding(Receiving(p))
  {
    assert Waiting(p.channel) == [p.channel[0].worker] + Waiting(p.channel[1..]);
  }

  lemma ReceivingKeepsTidy(p: Pool)
    requires Tidy(p) && p.channel != []
    ensures Tidy(Receiving(p))
  {
    ReceivingOutstanding(p);
    var w, rest := p.channel[0].worker, Outstanding(Receiving(p));
    var all := Outstanding(p);
    assert all[0] == w;
    forall i | 0 <= i < |rest|
      ensures rest[i].job.id != w.job.id
    {
      assert all[i + 1] == rest[i];
    }
    forall i, j | 0 <= i < j < |rest|
      ensures rest[i].job.id != rest[j].job.id
    {
      assert all[i + 1] == rest[i] && all[j + 1] == rest[j];
    }
    JobIdsParts([w], rest);
    OneJobId(w);
  }

  // ----- waiting for room -----

  /** The pool after workers finish, each given by its place among those that run. */
  ghost predicate Finished(p: Pool, q: Pool, steps: nat)
    decreases steps
  {
    if steps == 0 then q == p
    else exists k, result :: CanFinish(p, k) && Finished(Finishing(p, k, result), q, steps - 1)
  }

  /** Some order of finishing leaves a worker with a result and no room for it. */
  ghost predicate MayBlock(p: Pool) {
    exists q, steps :: Finished(p, q, steps) && q.running != [] && |q.channel| >= CHANNEL
  }

  lemma {:induction false} FinishedCount(p: Pool, q: Pool, steps: nat)
    requires Finished(p, q, steps) && |p.channel| <= CHANNEL
    ensures |q.running| + |q.channel| == |p.running| + |p.channel| && |q.channel| <= CHANNEL
    decreases steps
  {
    if steps > 0 {
      var k, result :| CanFinish(p, k) && Finished(Finishing(p, k, result), q, steps - 1);
      FinishedCount(Finishing(p, k, result), q, steps - 1);
    }
  }

  lemma {:induction false} FillsChannel(p: Pool) returns (q: Pool, steps: nat)
    requires |p.channel| <= CHANNEL && |p.running| + |p.channel| > CHANNEL
    ensures Finished(p, q, steps) && q.running != [] && |q.channel| == CHANNEL
    decreases CHANNEL - |p.channel|
  {
    if |p.channel| == CHANNEL {
      q, steps := p, 0;
    } else {
      var next := Finishing(p, 0, A.DateTimeError);
      var n;
      q, n := FillsChannel(next);
      steps := n + 1;
      assert CanFinish(p, 0) && Finished(Finishing(p, 0, A.DateTimeError), q, steps - 1);
    }
  }

  /** A worker may have to wait for room exactly when more than four jobs are active. */
  lemma MayBlockIff(p: Pool)
    requires Tidy(p) && |p.channel| <= CHANNEL
    ensures MayBlock(p) <==> |p.active| > CHANNEL
  {
    TidyCount(p);
    if MayBlock(p) {
      var q, steps :| Finished(p, q, steps) && q.running != [] && |q.channel| >= CHANNEL;
      FinishedCount(p, q, steps);
    }
    if |p.active| > CHANNEL {
      var q, steps := FillsChannel(p);
    }
  }
}
