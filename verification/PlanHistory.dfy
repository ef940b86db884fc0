/**
 What a planner session answers to a call, told from what happened in the session before it
 (packages/go/actionruntime/tools.go).
 */
module PlanHistory {
  import opened Basics
  import opened ActionRuntime
  import opened Approval

  // ----- the calls that count -----

  /** A call whose own form is in order: its id, its tool and its arguments. */
  ghost predicate Proper(h: Host, op: Op) {
    && op.PlanOp? && ValidId(op.id) && op.name in h.tools
    && h.tools[op.name].dateTimesOk(op.args) && h.tools[op.name].schemaOk(op.args)
  }

  /** The key of the operation that a call asks for. */
  ghost function Asked(h: Host, op: Op): Digest
    requires op.PlanOp? && op.name in h.tools
  {
    KeyOf(h, h.tools[op.name].toolName, op.args)
  }

  /** An earlier call that counted used the id for another operation. */
  ghost predicate Clashes(h: Host, ops: seq<Op>, n: nat)
    requires n < |ops| && Proper(h, ops[n])
    decreases n, 0
  {
    exists i: nat ::
      i < n && Counts(h, ops, i) && ops[i].id == ops[n].id && Asked(h, ops[i]) != Asked(h, ops[n])
  }

  /** A call counts when it is proper, does not clash, and fewer than 128 calls have counted before it. */
  ghost predicate Counts(h: Host, ops: seq<Op>, n: nat): (b: bool)
    requires n < |ops|
    ensures b ==> Proper(h, ops[n])
    decreases n, 1
  {
    Proper(h, ops[n]) && !Clashes(h, ops, n) && Counted(h, ops, n) < 128
  }

  /** How many of the first n operations are calls that count. */
  ghost function Counted(h: Host, ops: seq<Op>, n: nat): nat
    requires n <= |ops|
    decreases n, 0
  {
    if n == 0 then 0 else Counted(h, ops, n - 1) + if Counts(h, ops, n - 1) then 1 else 0
  }

  // ----- what is known of an operation -----

  /** Some tool of that name only reads. */
  ghost predicate OnlyReads(h: Host, toolName: string) {
    exists n :: n in h.tools && h.tools[n].toolName == toolName && h.tools[n].policy == ReadOnly
  }

  /** Operation i records a result under the key. */
  ghost predicate Records(h: Host, op: Op, key: Digest) {
    op.CompleteOp? && op.job.key == Some(key) && !OnlyReads(h, op.job.name)
  }

  /** The result that was recorded last under the key. */
  ghost predicate RecordedLast(h: Host, ops: seq<Op>, n: nat, key: Digest, result: ToolResult)
    requires n <= |ops|
  {
    exists i :: 0 <= i < n && Records(h, ops[i], key) && ops[i].outcome == result &&
      forall k | i < k < n :: !Records(h, ops[k], key)
  }

  ghost predicate NothingRecorded(h: Host, ops: seq<Op>, n: nat, key: Digest)
    requires n <= |ops|
  {
    forall i | 0 <= i < n :: !Records(h, ops[i], key)
  }

  /** What a call is answered. */
  ghost function AnswerAt(h: Host, ops: seq<Op>, n: nat): (Job, Option<ToolResult>)
    requires n < |ops| && ops[n].PlanOp?
  {
    Planning(h, StateAt(h, ops, n), ops[n].now, ops[n].id, ops[n].name, ops[n].turn, ops[n].args).1
  }

  /** Operation i was let go with the key, to change something. */
  ghost predicate Sends(h: Host, ops: seq<Op>, i: nat, key: Digest)
    requires i < |ops|
  {
    Mutates(h, ops[i]) && AnswerAt(h, ops, i).1.None? && Asked(h, ops[i]) == key
  }

  ghost predicate WasSent(h: Host, ops: seq<Op>, n: nat, key: Digest)
    requires n <= |ops|
  {
    exists i: nat :: i < n && Sends(h, ops, i, key)
  }

  // ----- what the user said last -----

  predicate Quotes(text: string) {
    exists i :: 0 <= i < |text| && text[i] in "\"'\U{201C}\U{201D}\U{2018}\U{2019}?"
  }

  /** The user's last utterance is operation k. */
  predicate SpokeLast(ops: seq<Op>, n: nat, k: nat)
    requires n <= |ops|
  {
    k < n && ops[k].ObserveOp? && forall i | k < i < n :: !ops[i].ObserveOp?
  }

  predicate Interrupted(ops: seq<Op>, from: nat, n: nat)
    requires n <= |ops|
  {
    exists i :: from <= i < n && ops[i].InterruptOp?
  }

  /** What the words of the last utterance count for: quotes, questions and interruptions void them. */
  ghost function Words(h: Host, ops: seq<Op>, n: nat, k: nat): string
    requires n <= |ops| && SpokeLast(ops, n, k)
  {
    if Quotes(ops[k].text) || Interrupted(ops, k, n) then "" else h.normalize(ops[k].text)
  }

  predicate NothingSaid(ops: seq<Op>, n: nat)
    requires n <= |ops|
  {
    forall i | 0 <= i < n :: !ops[i].ObserveOp?
  }

  /** The user asked for it in this very turn; before any utterance, the turn is the empty one and nothing was said. */
  ghost predicate Asks(h: Host, ops: seq<Op>, n: nat)
    requires n < |ops| && ops[n].PlanOp? && ops[n].name in h.tools
  {
    var matches := h.tools[ops[n].name].matchesIntent;
    || (NothingSaid(ops, n) && ops[n].turn == "" && matches(""))
    || exists k: nat :: SpokeLast(ops, n, k) && ops[k].turn == ops[n].turn && matches(Words(h, ops, n, k))
  }

  // ----- the session's state is what happened -----

  /** A call that counted had the id. */
  ghost predicate Named(h: Host, ops: seq<Op>, n: nat, id: string)
    requires n <= |ops|
  {
    exists i: nat :: i < n && Counts(h, ops, i) && ops[i].id == id
  }

  ghost predicate SeenAs(h: Host, ops: seq<Op>, n: nat, seen: map<string, Digest>)
    requires n <= |ops|
  {
    forall i: nat | i < n && Counts(h, ops, i) :: ops[i].id in seen && seen[ops[i].id] == Asked(h, ops[i])
  }

  ghost predicate KnowsIds(h: Host, ops: seq<Op>, n: nat, s: PlannerState)
    requires n <= |ops|
  {
    && s.calls == Counted(h, ops, n)
    && (forall id :: id in s.seen <==> Named(h, ops, n, id))
    && SeenAs(h, ops, n, s.seen)
  }

  ghost predicate KnowsResults(h: Host, ops: seq<Op>, n: nat, s: PlannerState)
    requires n <= |ops|
  {
    forall key ::
      if key in s.cache then RecordedLast(h, ops, n, key, s.cache[key]) else NothingRecorded(h, ops, n, key)
  }

  ghost predicate KnowsSent(h: Host, ops: seq<Op>, n: nat, s: PlannerState)
    requires n <= |ops|
  {
    forall key :: key in s.attempted <==> WasSent(h, ops, n, key)
  }

  ghost predicate KnowsWords(h: Host, ops: seq<Op>, n: nat, s: PlannerState)
    requires n <= |ops|
  {
    || (NothingSaid(ops, n) && s.intentTurn == "" && s.intentText == "")
    || exists k: nat :: SpokeLast(ops, n, k) && s.intentTurn == ops[k].turn && s.intentText == Words(h, ops, n, k)
  }

  // ----- ids -----

  /** A plan counts a call and remembers its id, or leaves both as they are. */
  lemma PlanningIds(h: Host, s: PlannerState, op: Op)
    requires op.PlanOp?
    ensures var s' := Next(h, s, op);
            if Proper(h, op) && !(op.id in s.seen && s.seen[op.id] != Asked(h, op)) && s.calls < MAX_CALLS then
              s'.calls == s.calls + 1 && s'.seen == s.seen[op.id := Asked(h, op)]
            else s' == s
  {
  }

  lemma OtherIds(h: Host, s: PlannerState, op: Op)
    requires !op.PlanOp?
    ensures Next(h, s, op).calls == s.calls && Next(h, s, op).seen == s.seen
  {
  }

  lemma CountsIff(h: Host, ops: seq<Op>, n: nat, s: PlannerState)
    requires n < |ops| && KnowsIds(h, ops, n, s)
    ensures Counts(h, ops, n) <==>
            Proper(h, ops[n]) && !(ops[n].id in s.seen && s.seen[ops[n].id] != Asked(h, ops[n])) && s.calls < MAX_CALLS
  {
    if Proper(h, ops[n]) && ops[n].id in s.seen {
      var i: nat :| i < n && Counts(h, ops, i) && ops[i].id == ops[n].id;
    }
  }

  lemma IdsOn(h: Host, ops: seq<Op>, n: nat, s: PlannerState)
    requires n < |ops| && KnowsIds(h, ops, n, s)
    ensures KnowsIds(h, ops, n + 1, Next(h, s, ops[n]))
  {
    CountsIff(h, ops, n, s);
    if ops[n].PlanOp? {
      PlanningIds(h, s, ops[n]);
    } else {
      OtherIds(h, s, ops[n]);
    }
    IdsFollow(h, ops, n, s, Next(h, s, ops[n]));
  }

  lemma IdsFollow(h: Host, ops: seq<Op>, n: nat, s: PlannerState, s': PlannerState)
    requires n < |ops| && KnowsIds(h, ops, n, s)
    requires if Counts(h, ops, n) then
               && s'.calls == s.calls + 1 && s'.seen == s.seen[ops[n].id := Asked(h, ops[n])]
               && (ops[n].id in s.seen ==> s.seen[ops[n].id] == Asked(h, ops[n]))
             else s'.calls == s.calls && s'.seen == s.seen
    ensures KnowsIds(h, ops, n + 1, s')
  {
    var m := n + 1;
    forall id
      ensures Named(h, ops, m, id) <==> id in s'.seen
    {
      NamedMore(h, ops, n, id);
    }
    SeenMore(h, ops, n, s.seen, s'.seen);
  }

  lemma SeenMore(h: Host, ops: seq<Op>, n: nat, seen: map<string, Digest>, seen': map<string, Digest>)
    requires n < |ops| && SeenAs(h, ops, n, seen)
    requires if Counts(h, ops, n) then
               && seen' == seen[ops[n].id := Asked(h, ops[n])]
               && (ops[n].id in seen ==> seen[ops[n].id] == Asked(h, ops[n]))
             else seen' == seen
    ensures SeenAs(h, ops, n + 1, seen')
  {
    var m := n + 1;
    forall i: nat | i < m && Counts(h, ops, i)
      ensures ops[i].id in seen' && seen'[ops[i].id] == Asked(h, ops[i])
    {
      if i < n {
        assert ops[i].id in seen && seen[ops[i].id] == Asked(h, ops[i]);
      }
    }
  }

  lemma NamedMore(h: Host, ops: seq<Op>, n: nat, id: string)
    requires n < |ops|
    ensures Named(h, ops, n + 1, id) <==> Named(h, ops, n, id) || (Counts(h, ops, n) && ops[n].id == id)
  {
    if Named(h, ops, n, id) {
      var i: nat :| i < n && Counts(h, ops, i) && ops[i].id == id;
      assert i < n + 1;
    }
  }

  // ----- results and keys -----

  lemma ResultsStep(h: Host, s: PlannerState, op: Op, key: Digest)
    ensures var cache := Next(h, s, op).cache;
            if Records(h, op, key) then key in cache && cache[key] == op.outcome
            else (key in cache <==> key in s.cache) && (key in s.cache ==> cache[key] == s.cache[key])
  {
  }

  lemma ResultsOn(h: Host, ops: seq<Op>, n: nat, s: PlannerState)
    requires n < |ops| && KnowsResults(h, ops, n, s)
    ensures KnowsResults(h, ops, n + 1, Next(h, s, ops[n]))
  {
    var cache := Next(h, s, ops[n]).cache;
    var m := n + 1;
    forall key
      ensures if key in cache then RecordedLast(h, ops, m, key, cache[key]) else NothingRecorded(h, ops, m, key)
    {
      ResultsStep(h, s, ops[n], key);
      RecordedOn(h, ops, n, key, if key in cache then cache[key] else DateTimeError);
      assert NothingRecorded(h, ops, m, key) <==> NothingRecorded(h, ops, n, key) && !Records(h, ops[n], key);
    }
  }

  lemma RecordedOn(h: Host, ops: seq<Op>, n: nat, key: Digest, result: ToolResult)
    requires n < |ops|
    ensures RecordedLast(h, ops, n + 1, key, result) <==>
            if Records(h, ops[n], key) then ops[n].outcome == result else RecordedLast(h, ops, n, key, result)
  {
  }

  lemma SentStep(h: Host, s: PlannerState, op: Op)
    ensures var sends := Mutates(h, op) && Planning(h, s, op.now, op.id, op.name, op.turn, op.args).1.1.None?;
            Next(h, s, op).attempted == if sends then s.attempted + {Asked(h, op)} else s.attempted
  {
  }

  lemma SentOn(h: Host, ops: seq<Op>, n: nat)
    requires n < |ops| && KnowsSent(h, ops, n, StateAt(h, ops, n))
    ensures KnowsSent(h, ops, n + 1, StateAt(h, ops, n + 1))
  {
    var s := StateAt(h, ops, n);
    assert StateAt(h, ops, n + 1) == Next(h, s, ops[n]);
    SentStep(h, s, ops[n]);
    var m := n + 1;
    forall key
      ensures key in Next(h, s, ops[n]).attempted <==> WasSent(h, ops, m, key)
    {
      SentMore(h, ops, n, key);
    }
  }

  lemma SentMore(h: Host, ops: seq<Op>, n: nat, key: Digest)
    requires n < |ops|
    ensures WasSent(h, ops, n + 1, key) <==> WasSent(h, ops, n, key) || Sends(h, ops, n, key)
  {
    if WasSent(h, ops, n, key) {
      var i: nat :| i < n && Sends(h, ops, i, key);
      assert i < n + 1;
    }
  }

  // ----- words -----

  lemma WordsStep(h: Host, s: PlannerState, op: Op)
    ensures var s' := Next(h, s, op);
            match op
            case ObserveOp(_, turn, text) =>
              s'.intentTurn == turn && s'.intentText == if Quotes(text) then "" else h.normalize(text)
            case InterruptOp => s'.intentTurn == s.intentTurn && s'.intentText == ""
            case _ => s'.intentTurn == s.intentTurn && s'.intentText == s.intentText
  {
    if op.ObserveOp? {
      QuotedIff(op.text);
    }
  }

  lemma QuotedIff(text: string)
    ensures Quoted(text) <==> Quotes(text)
  {
    assert forall c: char :: c in {'\"', '\'', '\U{201C}', '\U{201D}', '\U{2018}', '\U{2019}', '?'} <==>
                             c in "\"'\U{201C}\U{201D}\U{2018}\U{2019}?";
  }

  lemma WordsOn(h: Host, ops: seq<Op>, n: nat, s: PlannerState)
    requires n < |ops| && KnowsWords(h, ops, n, s)
    ensures KnowsWords(h, ops, n + 1, Next(h, s, ops[n]))
  {
    WordsStep(h, s, ops[n]);
    if ops[n].ObserveOp? {
      assert SpokeLast(ops, n + 1, n);
      assert !Interrupted(ops, n, n + 1);
    } else if NothingSaid(ops, n) && s.intentTurn == "" && s.intentText == "" {
      assert NothingSaid(ops, n + 1);
    } else {
      var k: nat :| SpokeLast(ops, n, k) && s.intentTurn == ops[k].turn && s.intentText == Words(h, ops, n, k);
      assert SpokeLast(ops, n + 1, k);
      InterruptedMore(ops, k, n);
    }
  }

  lemma InterruptedMore(ops: seq<Op>, from: nat, n: nat)
    requires from <= n < |ops|
    ensures Interrupted(ops, from, n + 1) <==> Interrupted(ops, from, n) || ops[n].InterruptOp?
  {
  }

  // ----- runs -----

  ghost predicate KnowsAll(h: Host, ops: seq<Op>, n: nat, s: PlannerState)
    requires n <= |ops|
  {
    KnowsIds(h, ops, n, s) && KnowsResults(h, ops, n, s) && KnowsSent(h, ops, n, s) && KnowsWords(h, ops, n, s)
  }

  lemma {:induction false} KnowsAt(h: Host, ops: seq<Op>, n: nat)
    requires n <= |ops|
    ensures KnowsAll(h, ops, n, StateAt(h, ops, n))
  {
    if n == 0 {
      assert NothingSaid(ops, 0);
    } else {
      KnowsAt(h, ops, n - 1);
      assert StateAt(h, ops, n) == Next(h, StateAt(h, ops, n - 1), ops[n - 1]);
      IdsOn(h, ops, n - 1, StateAt(h, ops, n - 1));
      ResultsOn(h, ops, n - 1, StateAt(h, ops, n - 1));
      SentOn(h, ops, n - 1);
      WordsOn(h, ops, n - 1, StateAt(h, ops, n - 1));
    }
  }

  // ----- the pending request -----

  /** A no, or a call-off. */
  predicate SaysNo(phrase: string) {
    phrase in {"nao", "cancela", "cancelar", "cancele"} || (|phrase| >= 4 && phrase[..4] == "nao ")
  }

  lemma RefusalIff(phrase: string)
    ensures Refusal(phrase) <==> SaysNo(phrase)
  {
  }

  /** Operation m ends the request p: it is withdrawn, refused, found expired, used up or replaced by another one. */
  ghost predicate EndsRequest(h: Host, ops: seq<Op>, m: nat, p: Pending)
    requires m < |ops|
  {
    match ops[m]
    case InterruptOp => true
    case CompleteOp(_, _) => false
    case ObserveOp(now, turn, text) =>
      turn != p.turn && (now > p.expires || (SaysNo(h.normalize(text)) && !Affirms(h, p, text)))
    case ConfirmOp(now, operationId, approved) =>
      !approved && operationId == p.operationId && now <= p.expires && !ForbidsUI(h, p.name)
    case PlanOp(now, _, name, _, _) =>
      && name in h.tools && h.tools[name].policy == ConfirmLater
      && (AnswerAt(h, ops, m).1.None? || (AsksAgain(h, ops, m) && !(SameRequest(h, ops[m], p) && now <= p.expires)))
  }

  /** The call is answered with a request for confirmation, and not with a recorded result. */
  ghost predicate AsksAgain(h: Host, ops: seq<Op>, m: nat)
    requires m < |ops| && ops[m].PlanOp? && ops[m].name in h.tools
  {
    var answer := AnswerAt(h, ops, m).1;
    answer.Some? && answer.value.ConfirmationRequired? && NothingRecorded(h, ops, m, Asked(h, ops[m]))
  }

  ghost predicate SameRequest(h: Host, op: Op, p: Pending)
    requires op.PlanOp? && op.name in h.tools
  {
    h.tools[op.name].toolName == p.name && Asked(h, op) == KeyOf(h, p.name, p.args)
  }

  ghost predicate Undisturbed(h: Host, ops: seq<Op>, i: nat, n: nat, p: Pending)
    requires n <= |ops|
  {
    forall m | i < m < n :: !EndsRequest(h, ops, m, p)
  }

  ghost predicate ApprovedBetween(h: Host, ops: seq<Op>, i: nat, n: nat, p: Pending)
    requires n <= |ops|
  {
    exists k :: i < k < n && Approves(h, ops[k], p)
  }

  lemma PlanStep(h: Host, ops: seq<Op>, m: nat, p: Pending, b: bool)
    requires m < |ops| && ops[m].PlanOp? && !p.approved && StateAt(h, ops, m).pending == Some(p.(approved := b))
    requires KnowsResults(h, ops, m, StateAt(h, ops, m))
    ensures var after := Next(h, StateAt(h, ops, m), ops[m]).pending;
            if EndsRequest(h, ops, m, p) then after != Some(p) && after != Some(p.(approved := true))
            else after == Some(p.(approved := b))
  {
    PlanMoves(h, StateAt(h, ops, m), ops[m], p, b);
    if ops[m].name in h.tools {
      var key := Asked(h, ops[m]);
      assert key in StateAt(h, ops, m).cache <==> !NothingRecorded(h, ops, m, key);
    }
  }

  lemma PlanMoves(h: Host, s: PlannerState, op: Op, p: Pending, b: bool)
    requires op.PlanOp? && !p.approved && s.pending == Some(p.(approved := b))
    ensures var after := Next(h, s, op).pending;
            var answer := Planning(h, s, op.now, op.id, op.name, op.turn, op.args).1.1;
            if op.name in h.tools && h.tools[op.name].policy == ConfirmLater &&
              (answer.None? || (answer.value.ConfirmationRequired? && Asked(h, op) !in s.cache &&
                                !(SameRequest(h, op, p) && op.now <= p.expires)))
            then after != Some(p) && after != Some(p.(approved := true))
            else after == Some(p.(approved := b))
  {
  }

  lemma RequestStep(h: Host, ops: seq<Op>, m: nat, p: Pending, b: bool)
    requires m < |ops| && !p.approved && StateAt(h, ops, m).pending == Some(p.(approved := b))
    ensures var after := StateAt(h, ops, m + 1).pending;
            if EndsRequest(h, ops, m, p) then after != Some(p) && after != Some(p.(approved := true))
            else after == Some(p.(approved := b || Approves(h, ops[m], p)))
  {
    assert StateAt(h, ops, m + 1) == Next(h, StateAt(h, ops, m), ops[m]);
    match ops[m]
    case PlanOp(_, _, _, _, _) =>
      KnowsAt(h, ops, m);
      PlanStep(h, ops, m, p, b);
    case ObserveOp(now, turn, text) => RefusalIff(h.normalize(text));
    case _ =>
  }

  lemma {:induction false} RequestStands(h: Host, ops: seq<Op>, i: nat, n: nat, p: Pending)
    requires i < n <= |ops| && Parks(h, ops, i, p) && Undisturbed(h, ops, i, n, p)
    ensures StateAt(h, ops, n).pending == Some(p.(approved := ApprovedBetween(h, ops, i, n, p)))
    decreases n
  {
    if n == i + 1 {
      assert !ApprovedBetween(h, ops, i, n, p) && p == p.(approved := false);
    } else {
      RequestStands(h, ops, i, n - 1, p);
      RequestStep(h, ops, n - 1, p, ApprovedBetween(h, ops, i, n - 1, p));
      assert ApprovedBetween(h, ops, i, n, p) <==>
             ApprovedBetween(h, ops, i, n - 1, p) || Approves(h, ops[n - 1], p);
    }
  }

  /**
   A request is pending if and only if some call parked it and nothing has ended it since; it is approved if and only
   if some operation since then approved it.
   */
  lemma PendingIff(h: Host, ops: seq<Op>, n: nat, p: Pending, b: bool)
    requires n <= |ops| && !p.approved
    ensures StateAt(h, ops, n).pending == Some(p.(approved := b)) <==>
            exists i: nat ::
              i < n && Parks(h, ops, i, p) && Undisturbed(h, ops, i, n, p) && (b <==> ApprovedBetween(h, ops, i, n, p))
  {
    if StateAt(h, ops, n).pending == Some(p.(approved := b)) {
      var i, _ := PendingOrigin(h, ops, n, p.(approved := b));
      assert p.(approved := b).(approved := false) == p;
      forall m | i < m < n
        ensures !EndsRequest(h, ops, m, p)
      {
        RequestStep(h, ops, m, p, StateAt(h, ops, m).pending.value.approved);
        assert StateAt(h, ops, m + 1).pending.Some?;
      }
      RequestStands(h, ops, i, n, p);
    }
    forall i: nat | i < n && Parks(h, ops, i, p) && Undisturbed(h, ops, i, n, p)
      ensures StateAt(h, ops, n).pending == Some(p.(approved := ApprovedBetween(h, ops, i, n, p)))
    {
      RequestStands(h, ops, i, n, p);
    }
  }

  // ----- what a call is answered -----

  /** A request for this operation is pending, approved and in time. */
  ghost predicate IsApproved(h: Host, ops: seq<Op>, n: nat)
    requires n < |ops| && ops[n].PlanOp? && ops[n].name in h.tools
  {
    exists p: Pending, i: nat ::
      && i < n && !p.approved && Parks(h, ops, i, p) && Undisturbed(h, ops, i, n, p) && ApprovedBetween(h, ops, i, n, p)
      && SameRequest(h, ops[n], p) && ops[n].now < p.expires
  }

  /** Whether a call that counts, and whose operation is neither recorded nor under way, may go. */
  ghost predicate MayGo(h: Host, ops: seq<Op>, n: nat)
    requires n < |ops| && ops[n].PlanOp? && ops[n].name in h.tools
  {
    match h.tools[ops[n].name].policy
    case ConfirmLater => IsApproved(h, ops, n)
    case ExplicitIntent => h.tools[ops[n].name].direct || Asks(h, ops, n)
    case _ => true
  }

  /** The call is let go as a job of its tool, under its key. */
  predicate GoesAs(h: Host, op: Op, answer: (Job, Option<ToolResult>))
    requires op.PlanOp? && op.name in h.tools
  {
    var b := h.tools[op.name];
    answer == (Job(op.id, b.toolName, Some(KeyOf(h, b.toolName, op.args)), op.turn, op.args, b.policy == ConfirmLater),
               None)
  }

  /** What is said to a call that may not go. */
  ghost predicate Withheld(h: Host, ops: seq<Op>, n: nat, answer: Option<ToolResult>)
    requires n < |ops| && ops[n].PlanOp? && ops[n].name in h.tools
  {
    if h.tools[ops[n].name].policy == ConfirmLater then answer.Some? && answer.value.ConfirmationRequired?
    else answer == Some(Failure("clarification_required"))
  }

  ghost predicate AnsweredAs(h: Host, ops: seq<Op>, n: nat, answer: (Job, Option<ToolResult>))
    requires n < |ops| && ops[n].PlanOp?
  {
    var op, r := ops[n], answer.1;
    if !ValidId(op.id) then r == Some(Failure("invalid_tool_id"))
    else if op.name !in h.tools then r == Some(Failure("tool_not_allowed"))
    else if !h.tools[op.name].dateTimesOk(op.args) then r == Some(DateTimeError)
    else if !h.tools[op.name].schemaOk(op.args) then r == Some(Failure("invalid_arguments"))
    else if Clashes(h, ops, n) then r == Some(Failure("tool_id_conflict"))
    else if Counted(h, ops, n) >= 128 then r == Some(Failure("tool_limit_reached"))
    else
      var key := Asked(h, op);
      if h.tools[op.name].policy == ReadOnly then GoesAs(h, op, answer)
      else if !NothingRecorded(h, ops, n, key) then r.Some? && RecordedLast(h, ops, n, key, r.value)
      else if WasSent(h, ops, n, key) then r == Some(Failure("mutation_outcome_pending_or_unknown"))
      else if MayGo(h, ops, n) then GoesAs(h, op, answer)
      else Withheld(h, ops, n, r)
  }

  lemma ClashesIff(h: Host, ops: seq<Op>, n: nat, s: PlannerState)
    requires n < |ops| && KnowsIds(h, ops, n, s) && Proper(h, ops[n])
    ensures Clashes(h, ops, n) <==> ops[n].id in s.seen && s.seen[ops[n].id] != Asked(h, ops[n])
  {
    if ops[n].id in s.seen {
      var i: nat :| i < n && Counts(h, ops, i) && ops[i].id == ops[n].id;
    }
  }

  lemma AsksIff(h: Host, ops: seq<Op>, n: nat, s: PlannerState)
    requires n < |ops| && ops[n].PlanOp? && ops[n].name in h.tools && KnowsWords(h, ops, n, s)
    ensures Asks(h, ops, n) <==> s.intentTurn == ops[n].turn && h.tools[ops[n].name].matchesIntent(s.intentText)
  {
  }

  lemma ApprovedIff(h: Host, ops: seq<Op>, n: nat)
    requires n < |ops| && ops[n].PlanOp? && ops[n].name in h.tools
    ensures IsApproved(h, ops, n) <==>
            Releasable(h, StateAt(h, ops, n), ops[n].now, h.tools[ops[n].name].toolName, Asked(h, ops[n]))
  {
    var s := StateAt(h, ops, n);
    if s.pending.Some? && s.pending.value.approved {
      PendingIff(h, ops, n, s.pending.value.(approved := false), true);
      assert s.pending.value.(approved := false).(approved := true) == s.pending.value;
    }
    if IsApproved(h, ops, n) {
      var p: Pending, i: nat :|
        && i < n && !p.approved && Parks(h, ops, i, p) && Undisturbed(h, ops, i, n, p)
        && ApprovedBetween(h, ops, i, n, p) && SameRequest(h, ops[n], p) && ops[n].now < p.expires;
      RequestStands(h, ops, i, n, p);
    }
  }

  /** The planner's answer in terms of its state, once the call counts. */
  lemma CountedAnswer(h: Host, s: PlannerState, op: Op)
    requires op.PlanOp? && Proper(h, op) && !(op.id in s.seen && s.seen[op.id] != Asked(h, op)) && s.calls < 128
    ensures var b, key := h.tools[op.name], Asked(h, op);
            var answer := Planning(h, s, op.now, op.id, op.name, op.turn, op.args).1;
            if b.policy != ReadOnly && key in s.cache then answer.1 == Some(s.cache[key])
            else if b.policy != ReadOnly && key in s.attempted then
              answer.1 == Some(Failure("mutation_outcome_pending_or_unknown"))
            else if b.policy == ConfirmLater && !Releasable(h, s, op.now, b.toolName, key) then
              answer.1.Some? && answer.1.value.ConfirmationRequired?
            else if b.policy == ExplicitIntent && !b.direct &&
                    !(s.intentTurn == op.turn && b.matchesIntent(s.intentText)) then
              answer.1 == Some(Failure("clarification_required"))
            else GoesAs(h, op, answer)
  {
  }

  lemma UncountedAnswer(h: Host, s: PlannerState, op: Op)
    requires op.PlanOp?
    requires !Proper(h, op) || (op.id in s.seen && s.seen[op.id] != Asked(h, op)) || s.calls >= 128
    ensures var r := Planning(h, s, op.now, op.id, op.name, op.turn, op.args).1.1;
            if !ValidId(op.id) then r == Some(Failure("invalid_tool_id"))
            else if op.name !in h.tools then r == Some(Failure("tool_not_allowed"))
            else if !h.tools[op.name].dateTimesOk(op.args) then r == Some(DateTimeError)
            else if !h.tools[op.name].schemaOk(op.args) then r == Some(Failure("invalid_arguments"))
            else if op.id in s.seen && s.seen[op.id] != Asked(h, op) then r == Some(Failure("tool_id_conflict"))
            else r == Some(Failure("tool_limit_reached"))
  {
  }

  /**
   Over every session, what each call is answered, told from what happened before it: a call whose form is in order
   counts unless its id was used for another operation or 128 calls have counted; a call that counts goes, gets the
   result that was recorded last, or waits for an outcome, for an approval or for the user's own words.
   */
  lemma CallsAreAnswered(h: Host, ops: seq<Op>, n: nat)
    requires n < |ops| && ops[n].PlanOp?
    ensures AnsweredAs(h, ops, n, AnswerAt(h, ops, n))
  {
    var s, op := StateAt(h, ops, n), ops[n];
    KnowsAt(h, ops, n);
    CountsIff(h, ops, n, s);
    if Counts(h, ops, n) {
      CountedAnswer(h, s, op);
      ApprovedIff(h, ops, n);
      AsksIff(h, ops, n, s);
      var key := Asked(h, op);
      assert key in s.cache <==> !NothingRecorded(h, ops, n, key);
      assert key in s.attempted <==> WasSent(h, ops, n, key);
    } else {
      UncountedAnswer(h, s, op);
      if Proper(h, op) {
        ClashesIff(h, ops, n, s);
      }
    }
  }
}
