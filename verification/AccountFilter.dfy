/**
 What the account agent's loop ignores before the provider's opening response, over all its runs
 (apps/account-agent/internal/account/runtime.go).
 */
module AccountFilter {
  import R = RealtimeMapper
  import A = ActionRuntime
  import opened AgentParts
  import opened AgentLoop
  import opened AgentRuns
  import opened AccountLoop
  import opened AccountRuns
  import opened AccountResults

  /** What reaches the filter in a step: an event of the provider, and whether it goes no further. */
  datatype Passage = Quiet | Passing(event: R.ProviderEvent, ignored: bool)

  ghost function PassageAt(r: Recording, k: nat): Passage {
    if Happens(r, k) && r.steps[k].MapStep? then
      Passing(r.steps[k].event, Filtering(At(r, k), r.steps[k].event).1)
    else Quiet
  }

  ghost function Passages(r: Recording): (ps: seq<Passage>)
    ensures |ps| == |r.steps| && forall k | 0 <= k < |ps| :: ps[k] == PassageAt(r, k)
  {
    seq(|r.steps|, k requires 0 <= k < |r.steps| => PassageAt(r, k))
  }

  predicate OpensResponse(p: Passage) {
    p.Passing? && !p.ignored && p.event.ContentStart? && p.event.role == R.Assistant
  }

  /** The opening response has not begun: no content of the assistant has been let through. */
  predicate BeforeOpening(ps: seq<Passage>, k: nat)
    requires k <= |ps|
  {
    forall j | 0 <= j < k :: !OpensResponse(ps[j])
  }

  predicate BeginsContent(p: Passage, cid: Id) {
    p.Passing? && p.event.ContentStart? && p.event.role == R.User && p.event.cid == cid
  }

  predicate EndsContent(p: Passage, cid: Id) {
    p.Passing? && p.event.ContentEnd? && p.event.cid == cid
  }

  /** A content of the user begins before the opening response. */
  predicate BeginsEarly(ps: seq<Passage>, k: nat, cid: Id)
    requires k < |ps|
  {
    BeginsContent(ps[k], cid) && BeforeOpening(ps, k)
  }

  /** The content began before the opening response and has not ended. */
  predicate IsEarly(ps: seq<Passage>, k: nat, cid: Id)
    requires k <= |ps|
  {
    exists j :: 0 <= j < k && BeginsEarly(ps, j, cid) && forall i | j < i < k :: !EndsContent(ps[i], cid)
  }

  // ----- one step -----

  predicate SameFilter(c: Account, c': Account) {
    c'.bootstrap == c.bootstrap && c'.bootstrapContents == c.bootstrapContents
  }

  lemma PressingKeepsFilter(h: A.Host, c: Account, now: int, e: Input)
    ensures SameFilter(c, TakingAccount(h, c, now, e).0)
  {
  }

  lemma ObservingKeepsFilter(h: A.Host, l: Letters, c: Account, now: int, e: R.ProviderEvent)
    ensures SameFilter(c, ObservingAccount(h, l, c, now, e).0)
  {
  }

  lemma ReactingKeepsFilter(h: A.Host, l: Letters, c: Account, now: int, e: R.ProviderEvent, outcome: R.Outcome)
    ensures SameFilter(c, ReactingAccount(h, l, c, now, e, outcome).0)
  {
    if outcome.Events? && Collecting(c.agent.speech, e, outcome.events).1 {
      var speech := Collecting(c.agent.speech, e, outcome.events).0;
      ObservingKeepsFilter(h, l, c.(agent := c.agent.(speech := speech)), now, e);
    }
  }

  lemma StepFilters(h: A.Host, l: Letters, c: Account, step: Step, r: Response)
    requires R.Bounded(c.agent.mapper) && Enabled(c.agent, step) && r == NextAccount(h, l, c, step)
    ensures SameFilter(if step.MapStep? then Filtering(c, step.event).0 else c, r.0)
  {
    match step
    case TakeStep(now, e) => PressingKeepsFilter(h, c, now, e);
    case MapStep(now, e, random) =>
      var (c1, ignored) := Filtering(c, e);
      if !ignored {
        var (m, outcome) := R.Mapping(c1.agent.mapper, e, random);
        ReactingKeepsFilter(h, l, c1.(agent := c1.agent.(mapper := m)), now, e, outcome);
      }
    case _ =>
  }

  // ----- runs -----

  ghost predicate Knows(c: Account, ps: seq<Passage>, k: nat)
    requires k <= |ps|
  {
    && (c.bootstrap <==> BeforeOpening(ps, k))
    && forall cid :: cid in c.bootstrapContents <==> IsEarly(ps, k, cid)
  }

  /** One more passage, in terms of the contents that began early. */
  lemma EarlyOn(ps: seq<Passage>, k: nat, cid: Id)
    requires k < |ps|
    ensures IsEarly(ps, k + 1, cid) <==> BeginsEarly(ps, k, cid) || (IsEarly(ps, k, cid) && !EndsContent(ps[k], cid))
  {
  }

  /** What the filter remembers after an event. */
  lemma FilteredKnows(c: Account, e: R.ProviderEvent, cid: Id)
    ensures var begins := c.bootstrap && e.ContentStart? && e.role == R.User && e.cid == cid;
            cid in Filtering(c, e).0.bootstrapContents <==>
            begins || (cid in c.bootstrapContents && !(e.ContentEnd? && e.cid == cid))
    ensures Filtering(c, e).0.bootstrap <==>
            c.bootstrap && !(!Filtering(c, e).1 && e.ContentStart? && e.role == R.Assistant)
  {
  }

  /** The loop's filter moves with what passes. */
  predicate Follows(c: Account, p: Passage, c': Account) {
    match p
    case Quiet => SameFilter(c, c')
    case Passing(e, ignored) => ignored == Filtering(c, e).1 && SameFilter(Filtering(c, e).0, c')
  }

  lemma KnowsOn(c: Account, c': Account, ps: seq<Passage>, k: nat)
    requires k < |ps| && Knows(c, ps, k) && Follows(c, ps[k], c')
    ensures Knows(c', ps, k + 1)
  {
    var n := k + 1;
    forall cid
      ensures cid in c'.bootstrapContents <==> IsEarly(ps, n, cid)
    {
      EarlyOn(ps, k, cid);
      if ps[k].Passing? {
        FilteredKnows(c, ps[k].event, cid);
      }
    }
    assert BeforeOpening(ps, n) <==> BeforeOpening(ps, k) && !OpensResponse(ps[k]);
    if ps[k].Passing? {
      FilteredKnows(c, ps[k].event, "");
    }
  }

  lemma FollowsAt(r: Recording, k: nat)
    requires k < |r.steps|
    ensures Follows(At(r, k), PassageAt(r, k), At(r, k + 1))
  {
    OneStep(r, k);
    if Happens(r, k) {
      StepFilters(r.host, r.letters, At(r, k), r.steps[k], NextAccount(r.host, r.letters, At(r, k), r.steps[k]));
    }
  }

  lemma OpeningKnows(r: Recording)
    ensures Knows(At(r, 0), Passages(r), 0)
  {
    assert r.steps[..0] == [];
  }

  lemma {:induction false} RunKnows(r: Recording, k: nat)
    requires k <= |r.steps|
    ensures Knows(At(r, k), Passages(r), k)
  {
    if k == 0 {
      OpeningKnows(r);
    } else {
      RunKnows(r, k - 1);
      FollowsAt(r, k - 1);
      KnowsOn(At(r, k - 1), At(r, k), Passages(r), k - 1);
    }
  }

  /**
   Over every run: an event of the provider is ignored if and only if it is an interruption before the opening response
   has begun, or it speaks of a content of the user that began before it, from its start to its end.
   */
  lemma IgnoredIff(r: Recording, k: nat)
    requires k < |r.steps| && Passages(r)[k].Passing?
    ensures var ps, e := Passages(r), Passages(r)[k].event;
            ps[k].ignored <==>
            (e.Interruption? && BeforeOpening(ps, k)) || BeginsEarly(ps, k, ContentOf(e))
            || IsEarly(ps, k, ContentOf(e))
    ensures Passages(r)[k].ignored ==> OutputsAt(r, k) == []
  {
    RunKnows(r, k);
  }
}
