/**
 What the identity service answers to openings, refreshes and claims, over its whole runs
 (apps/mcp-identity/src/main/java/local/sts/identity/IdentityService.java).
 */
module IdentityAnswers {
  import opened Basics
  import opened IdentityStore
  import opened IdentityRuns
  import opened IdentityTokens

  predicate IsLeast(x: int, bounds: set<int>) {
    x in bounds && forall b | b in bounds :: x <= b
  }

  /** No session uses a secret that has not been handed out. */
  lemma FreshNeverClashes(w: World, sid: Id, s: AccountSession, access: Secret, refresh: Secret)
    requires RefreshAccounted(w) && AccessAccounted(w) && access !in w.accessOf && refresh !in w.refreshOf
    requires s.accessHash == Hash(access) && s.refreshHash == Hash(refresh)
    ensures !Clashes(w.db, sid, s)
  {
    forall other | other in w.db.sessions
      ensures w.db.sessions[other].refreshHash != s.refreshHash && w.db.sessions[other].accessHash != s.accessHash
    {
      assert RefreshKnown(w, other) && AccessKnown(w, other);
    }
  }

  /** The end announced at an opening is the earlier of a quarter of an hour and the provider's end, and is to come. */
  lemma OpeningEnd(svc: Service, w: World, e: Event, w': World)
    requires e.OpenEvent? && NextOpen(svc, w, e, w') && e.opening.Granted?
    ensures IsLeast(e.opening.value.expires, {w.now + QUARTER_HOUR, e.p.expiresAt}) && w.now < e.opening.value.expires
  {
    var s := OpenedSession(svc, w, e, w');
    assert s.accessExpires > w.now by {
      var owner :| MayOpen(svc, w.db, owner, w.claims[e.login], e.p, e.sid, e.access, e.refresh, w.now);
    }
  }

  /** An enabled identity of this provider with the subject and the e-mail address that it answers. */
  ghost predicate Confirms(svc: Service, w: World, p: ProviderTokens, owner: Id) {
    && owner in w.db.identities && w.db.identities[owner].enabled && w.db.identities[owner].issuer == svc.issuer
    && w.db.identities[owner].subject == p.subject && svc.sameEmail(p.email, w.db.identities[owner].email)
  }

  /**
   A claimed login opens its session exactly when the provider confirms an enabled identity and its answer is not stale.
   */
  lemma OpensIff(svc: Service, worlds: seq<World>, events: seq<Event>, n: nat)
    requires IsRun(svc, worlds, events) && n < |events| && events[n].OpenEvent?
    requires events[n].sid !in worlds[n].db.sessions
    ensures events[n].opening.Granted? <==>
            events[n].p.expiresAt > worlds[n].now && exists owner :: Confirms(svc, worlds[n], events[n].p, owner)
  {
    RunInvariant(svc, worlds, events, n);
    OpenAnswers(svc, worlds[n], events[n], worlds[n + 1]);
  }

  lemma OpenAnswers(svc: Service, w: World, e: Event, w': World)
    requires Invariant(w) && Next(svc, w, e, w') && e.OpenEvent? && e.sid !in w.db.sessions
    ensures e.opening.Granted? <==> e.p.expiresAt > w.now && exists owner :: Confirms(svc, w, e.p, owner)
  {
    if e.opening.Granted? {
      var s := OpenedSession(svc, w, e, w');
      OpeningEnd(svc, w, e, w');
      assert Confirms(svc, w, e.p, s.identity);
    } else if exists owner :: Confirms(svc, w, e.p, owner) {
      var owner :| Confirms(svc, w, e.p, owner);
      var s := NewSession(owner, w.claims[e.login], e.p, e.access, e.refresh, w.now);
      FreshNeverClashes(w, e.sid, s, e.access, e.refresh);
      assert !MayOpen(svc, w.db, owner, w.claims[e.login], e.p, e.sid, e.access, e.refresh, w.now);
    }
  }

  // ----- refreshes -----

  /**
   The end announced with the tokens is the earliest of a quarter of an hour, the provider's end and the session's own.
   */
  ghost predicate EndsEarliest(w: World, token: Secret, provider: Option<ProviderTokens>, expires: int) {
    && token in w.refreshOf && w.refreshOf[token] in w.handed.openings && provider.Some?
    && IsLeast(expires, {w.now + QUARTER_HOUR, provider.value.expiresAt,
                         w.handed.openings[w.refreshOf[token]].at + THIRTY_DAYS})
  }

  /** The end announced at a refresh does not pass the session's own. */
  lemma RefreshEnd(svc: Service, worlds: seq<World>, events: seq<Event>, n: nat)
    requires IsRun(svc, worlds, events) && n < |events| && events[n].RefreshEvent?
    requires ExchangesAt(events[n], events[n].token)
    ensures EndsEarliest(worlds[n], events[n].token, events[n].provider, events[n].outcome.value.tokens.expires)
  {
    RunInvariant(svc, worlds, events, n);
    RunRecorded(svc, worlds, events, n);
    RotatedEnd(svc, worlds[n], events[n], worlds[n + 1]);
  }

  lemma RotatedEnd(svc: Service, w: World, e: Event, w': World)
    requires RefreshAccounted(w) && AllRecorded(svc, w) && e.RefreshEvent? && Next(svc, w, e, w')
    requires ExchangesAt(e, e.token)
    ensures EndsEarliest(w, e.token, e.provider, e.outcome.value.tokens.expires)
  {
    var sid := RotationOf(svc, w, e, w');
    RotatingEnd(w, sid, e.token, e.provider, e.access, e.refresh, e.outcome.value.tokens.expires);
  }

  lemma RotatingEnd(w: World, sid: Id, token: Secret, provider: Option<ProviderTokens>, access: Secret, refresh: Secret,
                    expires: int)
    requires sid in w.db.sessions && w.db.sessions[sid].refreshHash == Hash(token) && RefreshKnown(w, sid)
    requires Recorded(w, sid)
    requires provider.Some?
    requires expires == RotatedSession(w.db.sessions[sid], provider.value, access, refresh, w.now).accessExpires
    ensures EndsEarliest(w, token, provider, expires)
  {
  }

  /**
   A refresh token may be exchanged: it was not before, its session may go on, and the provider confirms the owner.
   */
  ghost predicate Exchangeable(svc: Service, worlds: seq<World>, events: seq<Event>, n: nat, e: Event)
    requires n <= |events| <= |worlds| && n < |worlds| && e.RefreshEvent?
  {
    var w := worlds[n];
    && e.token in w.refreshOf && !Exchanged(events, n, e.token)
    && var sid := w.refreshOf[e.token];
    && sid in w.handed.openings && w.handed.openings[sid].device == e.device && !RevokedBefore(worlds, events, n, sid)
    && w.now < w.handed.openings[sid].at + THIRTY_DAYS && e.provider.Some?
    && e.provider.value.subject == w.handed.openings[sid].subject
    && exists owner :: Confirms(svc, w, e.provider.value, owner)
  }

  /**
   Over every run, a refresh answers that the session is revoked exactly when the token was exchanged before, and
   exchanges the token exactly when it may be exchanged; otherwise it is denied.
   */
  lemma RefreshIff(svc: Service, worlds: seq<World>, events: seq<Event>, n: nat)
    requires IsRun(svc, worlds, events) && n < |events| && events[n].RefreshEvent?
    ensures events[n].outcome == Granted(SessionRevoked) <==> Exchanged(events, n, events[n].token)
    ensures ExchangesAt(events[n], events[n].token) <==> Exchangeable(svc, worlds, events, n, events[n])
  {
    RunInvariant(svc, worlds, events, n);
    ConsumedIffExchanged(svc, worlds, events, n, events[n].token);
    RefreshAnswers(svc, worlds[n], events[n], worlds[n + 1]);
    if events[n].token in worlds[n].refreshOf && !Exchanged(events, n, events[n].token) {
      ExchangeableIff(svc, worlds, events, n, events[n], worlds[n].refreshOf[events[n].token]);
    } else if events[n].token !in worlds[n].refreshOf {
      UnknownIsNotHeld(worlds[n], events[n].token, events[n].device);
    }
  }

  /** The session of a token that has not been exchanged may rotate, apart from clashes, which fresh secrets exclude. */
  ghost predicate Rotatable(svc: Service, w: World, sid: Id, e: Event)
    requires e.RefreshEvent?
  {
    && HoldsRefresh(w.db, sid, Hash(e.token), e.device) && IsActive(w.db.sessions[sid], false, w.now)
    && e.provider.Some? && Unchanged(svc, w.db, w.db.sessions[sid], e.provider.value)
  }

  lemma RefreshAnswers(svc: Service, w: World, e: Event, w': World)
    requires Invariant(w) && Next(svc, w, e, w') && e.RefreshEvent?
    ensures e.outcome == Granted(SessionRevoked) <==> Hash(e.token) in w.db.consumed
    ensures ExchangesAt(e, e.token) <==> Hash(e.token) !in w.db.consumed && exists sid :: Rotatable(svc, w, sid, e)
  {
    assert NextRefresh(svc, w, e, w');
    if Hash(e.token) !in w.db.consumed {
      RotatesIff(svc, w, e, w');
    }
  }

  lemma RotatesIff(svc: Service, w: World, e: Event, w': World)
    requires Invariant(w) && e.RefreshEvent? && NextRefresh(svc, w, e, w') && Hash(e.token) !in w.db.consumed
    ensures e.outcome.Granted? ==> e.outcome.value.Rotated?
    ensures e.outcome.Granted? <==> exists sid :: Rotatable(svc, w, sid, e)
  {
    if e.outcome.Granted? {
      var sid := RotationOf(svc, w, e, w');
      assert Rotatable(svc, w, sid, e);
    } else {
      forall sid | Rotatable(svc, w, sid, e)
        ensures false
      {
        var s := RotatedSession(w.db.sessions[sid], e.provider.value, e.access, e.refresh, w.now);
        FreshNeverClashes(w, sid, s, e.access, e.refresh);
        assert MayRotate(svc, w.db, sid, e.token, e.device, e.provider, e.access, e.refresh, w.now);
      }
    }
  }

  lemma UnknownIsNotHeld(w: World, token: Secret, device: string)
    requires RefreshAccounted(w) && token !in w.refreshOf
    ensures forall sid :: !HoldsRefresh(w.db, sid, Hash(token), device)
  {
    forall sid | sid in w.db.sessions
      ensures w.db.sessions[sid].refreshHash != Hash(token)
    {
      assert RefreshKnown(w, sid);
    }
  }

  lemma ExchangeableIff(svc: Service, worlds: seq<World>, events: seq<Event>, n: nat, e: Event, sid: Id)
    requires IsRun(svc, worlds, events) && n < |events| && e.RefreshEvent? && e.token in worlds[n].refreshOf
    requires sid == worlds[n].refreshOf[e.token] && !Exchanged(events, n, e.token)
    ensures Exchangeable(svc, worlds, events, n, e) <==> exists other :: Rotatable(svc, worlds[n], other, e)
  {
    var w := worlds[n];
    RunInvariant(svc, worlds, events, n);
    RunRecorded(svc, worlds, events, n);
    RunOwners(svc, worlds, events, n);
    ConsumedIffExchanged(svc, worlds, events, n, e.token);
    assert IsCurrent(w, e.token);
    RevokedIff(svc, worlds, events, n, sid);
    HolderIsKnown(w, e.token, e.device);
    RotatableIff(svc, w, sid, e);
  }

  lemma HolderIsKnown(w: World, token: Secret, device: string)
    requires RefreshAccounted(w) && token in w.refreshOf
    ensures forall sid | HoldsRefresh(w.db, sid, Hash(token), device) :: sid == w.refreshOf[token]
  {
    forall sid | HoldsRefresh(w.db, sid, Hash(token), device)
      ensures sid == w.refreshOf[token]
    {
      assert RefreshKnown(w, sid);
    }
  }

  lemma RotatableIff(svc: Service, w: World, sid: Id, e: Event)
    requires e.RefreshEvent? && sid in w.db.sessions && w.db.sessions[sid].refreshHash == Hash(e.token)
    requires UniqueOwners(w) && Recorded(w, sid) && Owned(svc, w, sid)
    ensures Rotatable(svc, w, sid, e) <==>
            && w.handed.openings[sid].device == e.device && !w.db.sessions[sid].revoked
            && w.now < w.handed.openings[sid].at + THIRTY_DAYS && e.provider.Some?
            && e.provider.value.subject == w.handed.openings[sid].subject
            && exists owner :: Confirms(svc, w, e.provider.value, owner)
  {
    if Rotatable(svc, w, sid, e) {
      assert Confirms(svc, w, e.provider.value, w.db.sessions[sid].identity);
    }
  }

  // ----- claims -----

  /** The k-th event inserts the login: it is in the table after it, and was not before. */
  ghost predicate InsertsAt(worlds: seq<World>, events: seq<Event>, k: nat, id: Id)
    requires k < |events| && |worlds| == |events| + 1
  {
    && events[k].InsertEvent? && events[k].id == id && events[k].begin in worlds[k].begins
    && id !in worlds[k].db.logins && id in worlds[k + 1].db.logins
  }

  /** The k-th event claims the login: it is consumed after it, and was not before. */
  ghost predicate ClaimsAt(worlds: seq<World>, events: seq<Event>, k: nat, id: Id)
    requires k < |events| && |worlds| == |events| + 1
  {
    && events[k].ClaimEvent? && events[k].id == id && id in worlds[k].db.logins && id in worlds[k + 1].db.logins
    && !worlds[k].db.logins[id].consumed && worlds[k + 1].db.logins[id].consumed
  }

  ghost predicate ClaimedBefore(worlds: seq<World>, events: seq<Event>, n: nat, id: Id)
    requires n <= |events| && |worlds| == |events| + 1
  {
    exists k :: 0 <= k < n && ClaimsAt(worlds, events, k, id)
  }

  /**
   A login is inserted with the device, the state and the end that its begin gives it, and changes only when claimed.
   */
  ghost predicate LoginStep(w: World, e: Event, w': World, id: Id) {
    && (id in w.db.logins ==>
          && id in w'.db.logins && w'.db.logins[id].(consumed := false) == w.db.logins[id].(consumed := false)
          && (w.db.logins[id].consumed ==> w'.db.logins[id].consumed)
          && (w'.db.logins[id].consumed && !w.db.logins[id].consumed ==> e.ClaimEvent? && e.id == id))
    && (id !in w.db.logins && id in w'.db.logins ==>
          && e.InsertEvent? && e.id == id && e.begin in w.begins
          && w'.db.logins[id] == Login(w.begins[e.begin], Hash(e.state), e.nonce, e.verifier, w.now + 600, false))
  }

  lemma StepLogin(svc: Service, w: World, e: Event, w': World, id: Id)
    requires Invariant(w) && Next(svc, w, e, w')
    ensures LoginStep(w, e, w', id)
  {
    if e.RefreshEvent? {
      RefreshOnlySessions(svc, w, e, w');
    } else if e.OpenEvent? {
      OpeningPersists(svc, w.db, w'.db, w.claims[e.login], e.p, e.sid, e.access, e.refresh, w.now, e.opening);
    }
  }

  lemma RunLogin(svc: Service, worlds: seq<World>, events: seq<Event>, n: nat, id: Id)
    requires IsRun(svc, worlds, events) && n < |events|
    ensures LoginStep(worlds[n], events[n], worlds[n + 1], id)
  {
    RunInvariant(svc, worlds, events, n);
    StepLogin(svc, worlds[n], events[n], worlds[n + 1], id);
  }

  /** Where a login comes from. */
  ghost predicate Originates(worlds: seq<World>, events: seq<Event>, k: nat, n: nat, id: Id)
    requires k < n < |worlds| && |worlds| == |events| + 1
  {
    && InsertsAt(worlds, events, k, id) && id in worlds[n].db.logins
    && worlds[n].db.logins[id].device == worlds[k].begins[events[k].begin]
    && worlds[n].db.logins[id].stateHash == Hash(events[k].state)
    && worlds[n].db.logins[id].expires == worlds[k].now + 600
  }

  lemma {:induction false} LoginOrigin(worlds: seq<World>, events: seq<Event>, n: nat, id: Id) returns (k: nat)
    requires n < |worlds| && |worlds| == |events| + 1 && id in worlds[n].db.logins && worlds[0].db.logins == map[]
    requires forall i | 0 <= i < |events| :: LoginStep(worlds[i], events[i], worlds[i + 1], id)
    ensures k < n && Originates(worlds, events, k, n, id)
  {
    assert LoginStep(worlds[n - 1], events[n - 1], worlds[n - 1 + 1], id);
    if id in worlds[n - 1].db.logins {
      k := LoginOrigin(worlds, events, n - 1, id);
      LoginStays(worlds[n - 1].db.logins[id], worlds[n].db.logins[id]);
    } else {
      k := n - 1;
    }
  }

  lemma LoginStays(a: Login, b: Login)
    requires b.(consumed := false) == a.(consumed := false)
    ensures b.device == a.device && b.stateHash == a.stateHash && b.expires == a.expires
  {
  }

  lemma {:induction false} ConsumedIffClaimed(worlds: seq<World>, events: seq<Event>, n: nat, id: Id)
    requires n < |worlds| && |worlds| == |events| + 1 && worlds[0].db.logins == map[]
    requires forall i | 0 <= i < |events| :: LoginStep(worlds[i], events[i], worlds[i + 1], id)
    ensures id in worlds[n].db.logins && worlds[n].db.logins[id].consumed <==> ClaimedBefore(worlds, events, n, id)
  {
    if n > 0 {
      ConsumedIffClaimed(worlds, events, n - 1, id);
      assert LoginStep(worlds[n - 1], events[n - 1], worlds[n - 1 + 1], id);
      ClaimedGrows(worlds, events, n - 1, id);
    }
  }

  lemma ClaimedGrows(worlds: seq<World>, events: seq<Event>, n: nat, id: Id)
    requires n < |events| && |worlds| == |events| + 1
    ensures ClaimedBefore(worlds, events, n + 1, id) <==>
            ClaimedBefore(worlds, events, n, id) || ClaimsAt(worlds, events, n, id)
  {
  }

  lemma RunLogins(svc: Service, worlds: seq<World>, events: seq<Event>, id: Id)
    requires IsRun(svc, worlds, events)
    ensures worlds[0].db.logins == map[]
    ensures forall i | 0 <= i < |events| :: LoginStep(worlds[i], events[i], worlds[i + 1], id)
  {
    forall i | 0 <= i < |events|
      ensures LoginStep(worlds[i], events[i], worlds[i + 1], id)
    {
      RunLogin(svc, worlds, events, i, id);
    }
  }

  /** The begin of the login: it was inserted for this device with this state, less than ten minutes ago. */
  ghost predicate BegunAs(worlds: seq<World>, events: seq<Event>, k: nat, n: nat, id: Id, device: string, state: Secret)
    requires k < n < |worlds| && |worlds| == |events| + 1
  {
    && InsertsAt(worlds, events, k, id) && worlds[k].begins[events[k].begin] == device && events[k].state == state
    && worlds[n].now < worlds[k].now + 600
  }

  /**
   Over every run, a login is claimed exactly by the state and on the device with which it was begun, within ten
   minutes, and once.
   */
  lemma ClaimIff(svc: Service, worlds: seq<World>, events: seq<Event>, n: nat, id: Id, device: string, state: Secret)
    requires IsRun(svc, worlds, events) && n < |worlds|
    ensures Claiming(worlds[n].db, id, device, state, worlds[n].now).1.Granted? <==>
            !ClaimedBefore(worlds, events, n, id) && exists k: nat ::
              k < n && BegunAs(worlds, events, k, n, id, device, state)
  {
    RunLogins(svc, worlds, events, id);
    ConsumedIffClaimed(worlds, events, n, id);
    if id in worlds[n].db.logins {
      var k := LoginOrigin(worlds, events, n, id);
      forall j: nat | j < n && BegunAs(worlds, events, j, n, id, device, state)
        ensures j == k
      {
        InsertedOnce(worlds, events, j, k, id);
      }
      assert BegunAs(worlds, events, k, n, id, device, state) <==>
             Live(worlds[n].db.logins[id].(consumed := false), device, worlds[n].now) &&
             Hash(state) == worlds[n].db.logins[id].stateHash;
    } else {
      NeverInserted(worlds, events, n, id);
    }
  }

  lemma {:induction false} LoginRemains(worlds: seq<World>, events: seq<Event>, m: nat, n: nat, id: Id)
    requires m <= n < |worlds| && |worlds| == |events| + 1 && id in worlds[m].db.logins
    requires forall i | 0 <= i < |events| :: LoginStep(worlds[i], events[i], worlds[i + 1], id)
    ensures id in worlds[n].db.logins
    decreases n - m
  {
    if m < n {
      LoginRemains(worlds, events, m, n - 1, id);
      assert LoginStep(worlds[n - 1], events[n - 1], worlds[n - 1 + 1], id);
    }
  }

  lemma InsertedOnce(worlds: seq<World>, events: seq<Event>, j: nat, k: nat, id: Id)
    requires j < |events| && k < |events| && |worlds| == |events| + 1
    requires InsertsAt(worlds, events, j, id) && InsertsAt(worlds, events, k, id)
    requires forall i | 0 <= i < |events| :: LoginStep(worlds[i], events[i], worlds[i + 1], id)
    ensures j == k
  {
    if j < k {
      LoginRemains(worlds, events, j + 1, k, id);
    } else if k < j {
      LoginRemains(worlds, events, k + 1, j, id);
    }
  }

  lemma NeverInserted(worlds: seq<World>, events: seq<Event>, n: nat, id: Id)
    requires n < |worlds| && |worlds| == |events| + 1 && id !in worlds[n].db.logins
    requires forall i | 0 <= i < |events| :: LoginStep(worlds[i], events[i], worlds[i + 1], id)
    ensures forall k | 0 <= k < n :: !InsertsAt(worlds, events, k, id)
  {
    forall k | 0 <= k < n
      ensures !InsertsAt(worlds, events, k, id)
    {
      if InsertsAt(worlds, events, k, id) {
        LoginRemains(worlds, events, k + 1, n, id);
      }
    }
  }
}
