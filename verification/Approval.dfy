/** Whole runs of one planner session: where confirmed jobs come from, and single use. */
module Approval {
  import opened Basics
  import opened ActionRuntime

  datatype Op =
    | PlanOp(now: int, id: string, name: string, turn: string, args: Json)
    | CompleteOp(job: Job, outcome: ToolResult)
    | ObserveOp(now: int, turn: string, text: string)
    | ConfirmOp(now: int, operationId: string, approved: bool)
    | InterruptOp

  ghost function Next(h: Host, s: PlannerState, op: Op): PlannerState {
    match op
    case PlanOp(now, id, name, turn, args) => Planning(h, s, now, id, name, turn, args).0
    case CompleteOp(job, outcome) => Completing(h, s, job, outcome)
    case ObserveOp(now, turn, text) => Observing(h, s, now, turn, text).0
    case ConfirmOp(now, operationId, approved) => Confirming(h, s, now, operationId, approved).0
    case InterruptOp => Interrupting(s)
  }

  /** The session after the first n operations. */
  ghost function StateAt(h: Host, ops: seq<Op>, n: nat): PlannerState
    requires n <= |ops|
  {
    if n == 0 then NewSession() else Next(h, StateAt(h, ops, n - 1), ops[n - 1])
  }

  /** Operation n releases job j: the plan says nothing else, so the job runs. */
  ghost predicate Releases(h: Host, ops: seq<Op>, n: nat, j: Job) {
    n < |ops| && ops[n].PlanOp? &&
    Planning(h, StateAt(h, ops, n), ops[n].now, ops[n].id, ops[n].name, ops[n].turn, ops[n].args).1 == (j, None)
  }

  /** Operation i parks p: a call of a ConfirmLater tool that is new to the session. */
  ghost predicate Parks(h: Host, ops: seq<Op>, i: nat, p: Pending) {
    && i < |ops| && ops[i].PlanOp? && ops[i].name in h.tools
    && h.tools[ops[i].name].policy == ConfirmLater
    && p == Pending(ops[i].id, h.tools[ops[i].name].toolName, ops[i].args, ops[i].turn,
                    ops[i].now + CONFIRMATION_SECONDS, false)
    && StateAt(h, ops, i + 1).pending == Some(p)
  }

  /** Operation j approves p: the exact phrase in another turn, or an allowed confirmation in the app, in time. */
  ghost predicate Approves(h: Host, op: Op, p: Pending) {
    match op
    case ObserveOp(now, turn, text) => turn != p.turn && now <= p.expires && Affirms(h, p, text)
    case ConfirmOp(now, operationId, approved) =>
      approved && operationId == p.operationId && now <= p.expires && !ForbidsUI(h, p.name)
    case _ => false
  }

  /** From just after operation i up to state n, the pending request is p and nothing else. */
  ghost predicate Held(h: Host, ops: seq<Op>, i: nat, n: nat, p: Pending)
    requires n <= |ops|
  {
    forall m | i < m <= n ::
      StateAt(h, ops, m).pending.Some? && StateAt(h, ops, m).pending.value.(approved := false) == p
  }

  lemma PendingStep(h: Host, s: PlannerState, op: Op)
    ensures var s' := Next(h, s, op);
            s'.pending.Some? ==>
              var p := s'.pending.value;
              || s'.pending == s.pending
              || (s.pending.Some? && p == s.pending.value.(approved := true)
                  && Approves(h, op, s.pending.value.(approved := false)))
              || (op.PlanOp? && op.name in h.tools && h.tools[op.name].policy == ConfirmLater &&
                  p == Pending(op.id, h.tools[op.name].toolName, op.args, op.turn, op.now + CONFIRMATION_SECONDS,
                               false))
  {
  }

  /** A pending request goes back to the call that parked it, and an approved one to its approval. */
  lemma {:induction false} PendingOrigin(h: Host, ops: seq<Op>, n: nat, p: Pending) returns (i: nat, j: nat)
    requires n <= |ops| && StateAt(h, ops, n).pending == Some(p)
    ensures i < n && Parks(h, ops, i, p.(approved := false)) && Held(h, ops, i, n, p.(approved := false))
    ensures p.approved ==> i < j < n && Approves(h, ops[j], p.(approved := false))
  {
    var s := StateAt(h, ops, n - 1);
    PendingStep(h, s, ops[n - 1]);
    assert StateAt(h, ops, n) == Next(h, s, ops[n - 1]);
    j := 0;
    if s.pending == Some(p) {
      i, j := PendingOrigin(h, ops, n - 1, p);
    } else if s.pending.Some? && p == s.pending.value.(approved := true)
    && Approves(h, ops[n - 1], p.(approved := false)) {
      i, j := PendingOrigin(h, ops, n - 1, s.pending.value);
      j := n - 1;
    } else {
      i := n - 1;
    }
  }

  lemma ReleaseUsesApproval(h: Host, s: PlannerState, now: int, id: string, name: string, turn: string, args: Json)
    requires var (s', (j, r)) := Planning(h, s, now, id, name, turn, args); r.None? && j.confirmed
    ensures var (s', (j, r)) := Planning(h, s, now, id, name, turn, args);
            s.pending.Some? && s'.pending.None? && j.key.Some? && j.name == s.pending.value.name &&
            j.key.value == KeyOf(h, s.pending.value.name, s.pending.value.args) &&
            s.pending.value.approved && now < s.pending.value.expires
  {
  }

  /** What a confirmed job released at n owes: the parking call i and the approval k between them. */
  ghost predicate Provenance(h: Host, ops: seq<Op>, i: nat, k: nat, n: nat, j: Job) {
    && i < k < n < |ops|
    && ops[i].PlanOp? && ops[n].PlanOp? && ops[i].name in h.tools
    && var p := Pending(ops[i].id, h.tools[ops[i].name].toolName, ops[i].args, ops[i].turn,
                        ops[i].now + CONFIRMATION_SECONDS, false);
    && Parks(h, ops, i, p)
    && Approves(h, ops[k], p)
    && Held(h, ops, i, n, p)
    && j.name == p.name && j.key == Some(KeyOf(h, p.name, p.args))
    && ops[n].now < ops[i].now + CONFIRMATION_SECONDS
    && StateAt(h, ops, n + 1).pending.None?
  }

  /**
   Every confirmed job was asked for before with the same tool and canonical arguments, and that very
   request stayed pending, unreplaced, until it was approved and then released, within 60 seconds.
   */
  lemma ConfirmedJobsWereApproved(h: Host, ops: seq<Op>, n: nat, j: Job)
    requires Releases(h, ops, n, j) && j.confirmed
    ensures exists i, k :: Provenance(h, ops, i, k, n, j)
  {
    var s := StateAt(h, ops, n);
    ReleaseUsesApproval(h, s, ops[n].now, ops[n].id, ops[n].name, ops[n].turn, ops[n].args);
    var i, k := PendingOrigin(h, ops, n, s.pending.value);
    assert StateAt(h, ops, n + 1) == Next(h, s, ops[n]);
    assert Provenance(h, ops, i, k, n, j);
  }

  /** Between the request and the release there is no interruption, no refusal and no other confirmed job. */
  lemma NothingIntervenes(h: Host, ops: seq<Op>, i: nat, k: nat, n: nat, j: Job, m: nat)
    requires Provenance(h, ops, i, k, n, j) && i < m < n
    ensures !ops[m].InterruptOp?
    ensures ops[m].ConfirmOp? && ops[m].operationId == ops[i].id && !ops[m].approved ==>
              ops[m].now > ops[i].now + CONFIRMATION_SECONDS || ForbidsUI(h, j.name)
    ensures ops[m].ObserveOp? && ops[m].turn != ops[i].turn && Refusal(h.normalize(ops[m].text)) ==>
              Affirms(h, StateAt(h, ops, m).pending.value, ops[m].text)
    ensures ops[m].ObserveOp? && ops[m].turn != ops[i].turn ==> ops[m].now <= ops[i].now + CONFIRMATION_SECONDS
    ensures forall j' | Releases(h, ops, m, j') :: !j'.confirmed
  {
    assert StateAt(h, ops, m + 1) == Next(h, StateAt(h, ops, m), ops[m]);
    var p := StateAt(h, ops, m).pending.value;
    assert StateAt(h, ops, m + 1).pending.Some?;
    assert p.operationId == ops[i].id && p.turn == ops[i].turn && p.expires == ops[i].now + CONFIRMATION_SECONDS;
    PendingSurvives(h, StateAt(h, ops, m), ops[m], p);
  }

  /** What an operation was not, when the pending request is still there after it. */
  lemma PendingSurvives(h: Host, s: PlannerState, op: Op, p: Pending)
    requires s.pending == Some(p) && Next(h, s, op).pending.Some?
    ensures !op.InterruptOp?
    ensures op.ConfirmOp? && op.operationId == p.operationId && !op.approved ==>
              op.now > p.expires || ForbidsUI(h, p.name)
    ensures op.ObserveOp? && op.turn != p.turn && Refusal(h.normalize(op.text)) ==> Affirms(h, p, op.text)
    ensures op.ObserveOp? && op.turn != p.turn ==> op.now <= p.expires
    ensures op.PlanOp? ==> var planned := Planning(h, s, op.now, op.id, op.name, op.turn, op.args).1;
                           planned.1.None? ==> !planned.0.confirmed
  {
  }

  /** An approval releases one job: the next confirmed job has its own, later request and approval. */
  lemma ApprovalsAreSingleUse(h: Host, ops: seq<Op>, i: nat, k: nat, n: nat, j: Job, i': nat, k': nat, n': nat, j': Job)
    requires Provenance(h, ops, i, k, n, j) && Provenance(h, ops, i', k', n', j') && n < n'
    ensures n < i' < k'
  {
    var p' := Pending(ops[i'].id, h.tools[ops[i'].name].toolName, ops[i'].args, ops[i'].turn,
                      ops[i'].now + CONFIRMATION_SECONDS, false);
    ClearedBefore(h, ops, i', n', p', n + 1);
  }

  lemma ClearedBefore(h: Host, ops: seq<Op>, i: nat, n: nat, p: Pending, m: nat)
    requires m <= n <= |ops| && Held(h, ops, i, n, p) && StateAt(h, ops, m).pending.None?
    ensures m <= i
  {
  }

  // ----- one job per mutation key -----

  ghost predicate Mutates(h: Host, op: Op) {
    op.PlanOp? && op.name in h.tools && h.tools[op.name].policy != ReadOnly
  }

  lemma {:induction false} AttemptedGrows(h: Host, ops: seq<Op>, n: nat, n': nat)
    requires n <= n' <= |ops|
    ensures StateAt(h, ops, n).attempted <= StateAt(h, ops, n').attempted
    decreases n' - n
  {
    if n < n' {
      AttemptedGrows(h, ops, n, n' - 1);
      AttemptedStep(h, StateAt(h, ops, n' - 1), ops[n' - 1]);
    }
  }

  lemma AttemptedStep(h: Host, s: PlannerState, op: Op)
    ensures s.attempted <= Next(h, s, op).attempted
  {
  }

  /** A session never releases two jobs with the same mutation key, whatever the results were. */
  lemma OneJobPerMutationKey(h: Host, ops: seq<Op>, n: nat, n': nat, j: Job, j': Job)
    requires Releases(h, ops, n, j) && Releases(h, ops, n', j') && n < n'
    requires Mutates(h, ops[n]) && Mutates(h, ops[n'])
    ensures j.key.Some? && j'.key.Some? && j.key != j'.key
  {
    ReleaseAttempts(h, StateAt(h, ops, n), ops[n]);
    ReleaseAttempts(h, StateAt(h, ops, n'), ops[n']);
    assert StateAt(h, ops, n + 1) == Next(h, StateAt(h, ops, n), ops[n]);
    AttemptedGrows(h, ops, n + 1, n');
  }

  lemma ReleaseAttempts(h: Host, s: PlannerState, op: Op)
    requires Mutates(h, op)
    requires Planning(h, s, op.now, op.id, op.name, op.turn, op.args).1.1.None?
    ensures var j := Planning(h, s, op.now, op.id, op.name, op.turn, op.args).1.0;
            j.key == Some(KeyOf(h, h.tools[op.name].toolName, op.args)) &&
            j.key.value !in s.attempted && j.key.value in Next(h, s, op).attempted
  {
  }

  // ----- the confirmation button -----

  function DotsToUnderscores(name: string): string {
    seq(|name|, i requires 0 <= i < |name| => if name[i] == '.' then '_' else name[i])
  }

  /** Results are only recorded for jobs the session released. */
  ghost predicate CompletesReleased(h: Host, ops: seq<Op>) {
    forall n | 0 <= n < |ops| && ops[n].CompleteOp? && ops[n].job.key.Some? ::
      CachesResults(h, ops[n].job.name) ==> ops[n].job.key.value in StateAt(h, ops, n).attempted
  }

  /** A pending request names a ConfirmLater tool, passed its checks and has not been attempted. */
  ghost predicate PendingSound(h: Host, s: PlannerState) {
    && (forall k | k in s.cache :: k in s.attempted)
    && (s.pending.Some? ==>
          var p := s.pending.value;
          var n := ModelName(p.name);
          && n in h.tools && h.tools[n].toolName == p.name && h.tools[n].policy == ConfirmLater
          && h.tools[n].dateTimesOk(p.args) && h.tools[n].schemaOk(p.args)
          && ValidId(p.operationId)
          && p.operationId in s.seen && s.seen[p.operationId] == KeyOf(h, p.name, p.args)
          && KeyOf(h, p.name, p.args) !in s.attempted)
  }

  lemma PendingSoundStep(h: Host, s: PlannerState, op: Op)
    requires WellBound(h.tools) && NulFree(h.namespace) && PendingSound(h, s)
    requires op.CompleteOp? && op.job.key.Some? && CachesResults(h, op.job.name) ==> op.job.key.value in s.attempted
    ensures PendingSound(h, Next(h, s, op))
  {
    if op.PlanOp? {
      PlanKeepsPendingSound(h, s, op);
    }
  }

  lemma PlanKeepsPendingSound(h: Host, s: PlannerState, op: Op)
    requires WellBound(h.tools) && NulFree(h.namespace) && PendingSound(h, s) && op.PlanOp?
    ensures PendingSound(h, Next(h, s, op))
  {
    if Next(h, s, op) != s {
      PlanDecides(h, s, op, Next(h, s, op));
      var key := KeyOf(h, h.tools[op.name].toolName, op.args);
      DecidingKeepsPendingSound(h, s.(calls := s.calls + 1, seen := s.seen[op.id := key]), op, key);
    }
  }

  /** A plan that changes the planner has passed its checks. */
  lemma PlanDecides(h: Host, s: PlannerState, op: Op, s': PlannerState)
    requires op.PlanOp? && s' == Next(h, s, op) != s
    ensures op.name in h.tools && ValidId(op.id) && h.tools[op.name].dateTimesOk(op.args)
    ensures h.tools[op.name].schemaOk(op.args)
    ensures var key := KeyOf(h, h.tools[op.name].toolName, op.args);
            && (op.id in s.seen ==> s.seen[op.id] == key)
            && s' ==
               Deciding(h, s.(calls := s.calls + 1, seen := s.seen[op.id := key]), op.now, op.id, op.name, op.turn,
                        op.args, key).0
  {
  }

  lemma DecidingKeepsPendingSound(h: Host, s: PlannerState, op: Op, key: Digest)
    requires WellBound(h.tools) && NulFree(h.namespace) && PendingSound(h, s) && op.PlanOp? && op.name in h.tools
    requires key == KeyOf(h, h.tools[op.name].toolName, op.args)
    requires ValidId(op.id) && op.id in s.seen && s.seen[op.id] == key
    requires h.tools[op.name].dateTimesOk(op.args) && h.tools[op.name].schemaOk(op.args)
    ensures PendingSound(h, Deciding(h, s, op.now, op.id, op.name, op.turn, op.args, key).0)
  {
    if s.pending.Some? {
      PendingIsOther(h, s, op, key);
    }
    var s' := Deciding(h, s, op.now, op.id, op.name, op.turn, op.args, key).0;
    if h.tools[op.name].policy == ConfirmLater && key !in s.attempted {
      ParkedIsSound(h, s, op, key, Job(op.id, h.tools[op.name].toolName, Some(key), op.turn, op.args, false));
      LaterDecided(h, s, op, key, s');
    } else {
      OthersDecided(h, s, op, key, s');
    }
  }

  lemma ParkedIsSound(h: Host, s: PlannerState, op: Op, key: Digest, j: Job)
    requires WellBound(h.tools) && PendingSound(h, s) && op.PlanOp? && op.name in h.tools
    requires h.tools[op.name].policy == ConfirmLater
    requires key == KeyOf(h, h.tools[op.name].toolName, op.args) && key !in s.attempted
    requires ValidId(op.id) && op.id in s.seen && s.seen[op.id] == key
    requires h.tools[op.name].dateTimesOk(op.args) && h.tools[op.name].schemaOk(op.args)
    requires j == Job(op.id, h.tools[op.name].toolName, Some(key), op.turn, op.args, false)
    ensures PendingSound(h, s.(pending := Some(Parked(h, s, op.now, j, key))))
  {
  }

  lemma LaterDecided(h: Host, s: PlannerState, op: Op, key: Digest, s': PlannerState)
    requires op.PlanOp? && op.name in h.tools && h.tools[op.name].policy == ConfirmLater && key !in s.attempted
    requires PendingSound(h, s)
    requires s' == Deciding(h, s, op.now, op.id, op.name, op.turn, op.args, key).0
    requires var j := Job(op.id, h.tools[op.name].toolName, Some(key), op.turn, op.args, false);
             PendingSound(h, s.(pending := Some(Parked(h, s, op.now, j, key))))
    ensures PendingSound(h, s')
  {
  }

  lemma OthersDecided(h: Host, s: PlannerState, op: Op, key: Digest, s': PlannerState)
    requires op.PlanOp? && op.name in h.tools && (h.tools[op.name].policy != ConfirmLater || key in s.attempted)
    requires PendingSound(h, s)
    requires s.pending.Some? && key == KeyOf(h, s.pending.value.name, s.pending.value.args) ==>
               h.tools[op.name].policy == ConfirmLater
    requires s' == Deciding(h, s, op.now, op.id, op.name, op.turn, op.args, key).0
    ensures PendingSound(h, s')
  {
  }

  /** A call with the key of the pending request is a call of its tool. */
  lemma PendingIsOther(h: Host, s: PlannerState, op: Op, key: Digest)
    requires WellBound(h.tools) && NulFree(h.namespace) && PendingSound(h, s) && op.PlanOp? && op.name in h.tools
    requires s.pending.Some?
    requires key == KeyOf(h, h.tools[op.name].toolName, op.args)
    ensures key == KeyOf(h, s.pending.value.name, s.pending.value.args) ==>
              h.tools[op.name].toolName == s.pending.value.name && h.tools[op.name].policy == ConfirmLater
  {
    var p := s.pending.value;
    ToolNamesAreNulFree(h.tools, op.name);
    ToolNamesAreNulFree(h.tools, ModelName(p.name));
    KeysIdentifyOperations(h.canon, h.namespace, p.name, p.args, h.namespace, h.tools[op.name].toolName, op.args);
  }

  lemma {:induction false} PendingSoundAt(h: Host, ops: seq<Op>, n: nat)
    requires n <= |ops| && WellBound(h.tools) && NulFree(h.namespace) && CompletesReleased(h, ops)
    ensures PendingSound(h, StateAt(h, ops, n))
  {
    if n > 0 {
      PendingSoundAt(h, ops, n - 1);
      PendingSoundStep(h, StateAt(h, ops, n - 1), ops[n - 1]);
    }
  }

  /** What the app's confirmation does: approve, then plan the pending call again under its own id. */
  function Pressing(h: Host, s: PlannerState, now: int): Planned
    requires s.pending.Some?
  {
    var p := s.pending.value;
    Planning(h, Confirming(h, s, now, p.operationId, true).0, now, p.operationId, DotsToUnderscores(p.name), p.turn,
             p.args)
  }

  lemma NamesAgree(name: string)
    ensures DotsToUnderscores(name) == ModelName(name) <==> '-' !in name
  {
    if '-' in name {
      var i :| 0 <= i < |name| && name[i] == '-';
      assert DotsToUnderscores(name)[i] != ModelName(name)[i];
    }
  }

  /**
   An accepted confirmation in the app releases the pending job exactly when time and the call limit
   allow it and the tool name has no hyphen, which the lookup there leaves in place.
   */
  lemma AcceptedConfirmationReleases(h: Host, ops: seq<Op>, now: int)
    requires WellBound(h.tools) && NulFree(h.namespace) && CompletesReleased(h, ops)
    requires StateAt(h, ops, |ops|).pending.Some?
    requires Confirming(h, StateAt(h, ops, |ops|), now, StateAt(h, ops, |ops|).pending.value.operationId, true).1
    ensures var s := StateAt(h, ops, |ops|);
            var p := s.pending.value;
            var (s', (j, r)) := Pressing(h, s, now);
            (r.None? && j.confirmed && j.key == Some(KeyOf(h, p.name, p.args)) && j.name == p.name) <==>
            (now < p.expires && s.calls < MAX_CALLS && '-' !in p.name)
  {
    PendingSoundAt(h, ops, |ops|);
    var s := StateAt(h, ops, |ops|);
    var p := s.pending.value;
    NamesAgree(p.name);
  }
}
