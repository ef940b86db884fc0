/**
 When the identity service accepts a token, over its whole runs and in terms of what it handed out
 (apps/mcp-identity/src/main/java/local/sts/identity/IdentityService.java).
 */
module IdentityTokens {
  import opened IdentityStore
  import opened IdentityRuns

  const THIRTY_DAYS: int := 30 * 24 * 60 * 60
  const QUARTER_HOUR: int := 15 * 60

  // ----- what is handed out describes the sessions -----

  /** The record of a session: its newest access token with the announced end, its device, its end and its owner. */
  ghost predicate Recorded(w: World, sid: Id)
    requires sid in w.db.sessions
  {
    var s := w.db.sessions[sid];
    && sid in w.handed.newest && s.accessHash == Hash(w.handed.newest[sid])
    && w.handed.newest[sid] in w.accessOf && w.accessOf[w.handed.newest[sid]] == sid
    && w.handed.newest[sid] in w.handed.endOf && w.handed.endOf[w.handed.newest[sid]] == s.accessExpires
    && sid in w.handed.openings && s.device == w.handed.openings[sid].device
    && s.expires == w.handed.openings[sid].at + THIRTY_DAYS
  }

  ghost predicate Owned(svc: Service, w: World, sid: Id)
    requires sid in w.db.sessions
  {
    && sid in w.handed.openings && w.db.sessions[sid].identity in w.db.identities
    && w.db.identities[w.db.sessions[sid].identity].issuer == svc.issuer
    && w.db.identities[w.db.sessions[sid].identity].subject == w.handed.openings[sid].subject
  }

  ghost predicate AllRecorded(svc: Service, w: World) {
    && w.handed.endOf.Keys == w.accessOf.Keys
    && forall sid | sid in w.db.sessions :: Recorded(w, sid) && Owned(svc, w, sid)
  }

  lemma SameSessionRecorded(svc: Service, w: World, w': World, sid: Id)
    requires sid in w.db.sessions && Recorded(w, sid) && Owned(svc, w, sid) && sid in w'.db.sessions
    requires w'.db.sessions[sid].(revoked := false) == w.db.sessions[sid].(revoked := false)
    requires w'.handed.newest == w.handed.newest && w'.handed.openings == w.handed.openings
    requires w'.handed.endOf == w.handed.endOf && w'.accessOf == w.accessOf
    requires SameOwners(w, w')
    ensures Recorded(w', sid) && Owned(svc, w', sid)
  {
    var s, s' := w.db.sessions[sid], w'.db.sessions[sid];
    assert s'.accessHash == s.accessHash && s'.device == s.device && s'.expires == s.expires;
    assert s'.accessExpires == s.accessExpires && s'.identity == s.identity;
  }

  /** Identities keep who they are; only whether they are enabled may change. */
  ghost predicate SameOwners(w: World, w': World) {
    forall id | id in w.db.identities ::
      id in w'.db.identities && w'.db.identities[id].(enabled := true) == w.db.identities[id].(enabled := true)
  }

  lemma OtherRecorded(svc: Service, w: World, e: Event, w': World)
    requires AllRecorded(svc, w) && RefreshAccounted(w) && Next(svc, w, e, w')
    requires !(e.OpenEvent? && e.opening.Granted?)
    requires !(e.RefreshEvent? && e.outcome.Granted? && e.outcome.value.Rotated?)
    ensures AllRecorded(svc, w')
  {
    QuietStep(svc, w, e, w');
    forall sid | sid in w'.db.sessions
      ensures Recorded(w', sid) && Owned(svc, w', sid)
    {
      SameSessionRecorded(svc, w, w', sid);
    }
  }

  /** Steps that hand out nothing. */
  lemma QuietStep(svc: Service, w: World, e: Event, w': World)
    requires Next(svc, w, e, w')
    requires !(e.OpenEvent? && e.opening.Granted?)
    requires !(e.RefreshEvent? && e.outcome.Granted? && e.outcome.value.Rotated?)
    ensures w'.handed == w.handed && w'.accessOf == w.accessOf && w'.db.sessions.Keys == w.db.sessions.Keys
    ensures forall sid | sid in w.db.sessions ::
              w'.db.sessions[sid].(revoked := false) == w.db.sessions[sid].(revoked := false)
    ensures SameOwners(w, w')
  {
  }

  lemma OpeningRecorded(svc: Service, w: World, e: Event, w': World)
    requires AllRecorded(svc, w) && AccessAccounted(w) && e.OpenEvent? && NextOpen(svc, w, e, w') && e.opening.Granted?
    ensures AllRecorded(svc, w')
  {
    var s := OpenedSession(svc, w, e, w');
    NewRecorded(svc, w, w', e.sid, s, e.access, Opening(w.claims[e.login], w.now, e.p.subject));
  }

  /** A session joins the others. */
  lemma NewRecorded(svc: Service, w: World, w': World, sid: Id, s: AccountSession, access: Secret, opening: Opening)
    requires AllRecorded(svc, w) && sid !in w.db.sessions && access !in w.accessOf && w'.db == WithSession(w.db, sid, s)
    requires s.accessHash == Hash(access) && s.device == opening.device && s.expires == opening.at + THIRTY_DAYS
    requires KnownAs(w.db, svc.issuer, s.identity, opening.subject) && w'.accessOf == w.accessOf[access := sid]
    requires w'.handed.newest == w.handed.newest[sid := access]
    requires w'.handed.endOf == w.handed.endOf[access := s.accessExpires]
    requires w'.handed.openings == w.handed.openings[sid := opening]
    ensures AllRecorded(svc, w')
  {
    forall other | other in w'.db.sessions
      ensures Recorded(w', other) && Owned(svc, w', other)
    {
      if other != sid {
        OlderRecorded(svc, w, w', other, access);
      }
    }
  }

  /** Another session got a new access token. */
  lemma OlderRecorded(svc: Service, w: World, w': World, sid: Id, access: Secret)
    requires sid in w.db.sessions && Recorded(w, sid) && Owned(svc, w, sid) && access !in w.accessOf
    requires sid in w'.db.sessions && w'.db.sessions[sid] == w.db.sessions[sid] && w'.db.identities == w.db.identities
    requires sid in w'.handed.newest && w'.handed.newest[sid] == w.handed.newest[sid]
    requires sid in w'.handed.openings && w'.handed.openings[sid] == w.handed.openings[sid]
    requires forall a | a in w.accessOf :: a in w'.accessOf && w'.accessOf[a] == w.accessOf[a]
    requires forall a | a in w.handed.endOf && a != access ::
             a in w'.handed.endOf && w'.handed.endOf[a] == w.handed.endOf[a]
    ensures Recorded(w', sid) && Owned(svc, w', sid)
  {
    assert w.handed.newest[sid] != access;
  }

  lemma RotationRecorded(svc: Service, w: World, e: Event, w': World)
    requires AllRecorded(svc, w) && RefreshAccounted(w) && e.RefreshEvent? && NextRefresh(svc, w, e, w')
    requires e.outcome.Granted? && e.outcome.value.Rotated?
    ensures AllRecorded(svc, w')
  {
    var sid := RotationOf(svc, w, e, w');
    var s := RotatedSession(w.db.sessions[sid], e.provider.value, e.access, e.refresh, w.now);
    RenewedRecorded(svc, w, w', sid, s, e.access);
  }

  /** A session gets a new access token. */
  lemma RenewedRecorded(svc: Service, w: World, w': World, sid: Id, s: AccountSession, access: Secret)
    requires AllRecorded(svc, w) && sid in w.db.sessions && access !in w.accessOf
    requires w'.db.sessions == w.db.sessions[sid := s] && w'.db.identities == w.db.identities
    requires s.accessHash == Hash(access) && s.device == w.db.sessions[sid].device
    requires s.expires == w.db.sessions[sid].expires && s.identity == w.db.sessions[sid].identity
    requires w'.accessOf == w.accessOf[access := sid] && w'.handed.newest == w.handed.newest[sid := access]
    requires w'.handed.endOf == w.handed.endOf[access := s.accessExpires] && w'.handed.openings == w.handed.openings
    ensures AllRecorded(svc, w')
  {
    assert Recorded(w, sid) && Owned(svc, w, sid);
    forall other | other in w'.db.sessions
      ensures Recorded(w', other) && Owned(svc, w', other)
    {
      if other != sid {
        OlderRecorded(svc, w, w', other, access);
      }
    }
  }

  lemma StepRecorded(svc: Service, w: World, e: Event, w': World)
    requires AllRecorded(svc, w) && Invariant(w) && Next(svc, w, e, w')
    ensures AllRecorded(svc, w')
  {
    if e.OpenEvent? && e.opening.Granted? {
      OpeningRecorded(svc, w, e, w');
    } else if e.RefreshEvent? && e.outcome.Granted? && e.outcome.value.Rotated? {
      RotationRecorded(svc, w, e, w');
    } else {
      OtherRecorded(svc, w, e, w');
    }
  }

  lemma {:induction false} RunRecorded(svc: Service, worlds: seq<World>, events: seq<Event>, n: nat)
    requires IsRun(svc, worlds, events) && n < |worlds|
    ensures AllRecorded(svc, worlds[n])
  {
    if n > 0 {
      RunRecorded(svc, worlds, events, n - 1);
      RunInvariant(svc, worlds, events, n - 1);
      StepRecorded(svc, worlds[n - 1], events[n - 1], worlds[n]);
    }
  }

  // ----- owners are unique -----

  ghost predicate UniqueOwners(w: World) {
    forall a, b | a in w.db.identities && b in w.db.identities
    && w.db.identities[a].issuer == w.db.identities[b].issuer &&
      w.db.identities[a].subject == w.db.identities[b].subject :: a == b
  }

  lemma StepKeepsOwners(svc: Service, w: World, e: Event, w': World)
    requires Next(svc, w, e, w') && RefreshAccounted(w)
    ensures SameOwners(w, w') && w'.db.identities.Keys == w.db.identities.Keys
  {
    if e.RefreshEvent? && e.outcome.Granted? && e.outcome.value.Rotated? {
      var sid := RotationOf(svc, w, e, w');
    } else if e.OpenEvent? && e.opening.Granted? {
      var s := OpenedSession(svc, w, e, w');
    } else {
      QuietStep(svc, w, e, w');
      QuietKeepsKeys(svc, w, e, w');
    }
  }

  lemma QuietKeepsKeys(svc: Service, w: World, e: Event, w': World)
    requires Next(svc, w, e, w')
    requires !(e.OpenEvent? && e.opening.Granted?)
    requires !(e.RefreshEvent? && e.outcome.Granted? && e.outcome.value.Rotated?)
    ensures w'.db.identities.Keys == w.db.identities.Keys
  {
  }

  lemma OwnersStayUnique(w: World, w': World)
    requires UniqueOwners(w) && SameOwners(w, w') && w'.db.identities.Keys == w.db.identities.Keys
    ensures UniqueOwners(w')
  {
    forall id | id in w'.db.identities
      ensures w'.db.identities[id].issuer == w.db.identities[id].issuer
      ensures w'.db.identities[id].subject == w.db.identities[id].subject
    {
      assert w'.db.identities[id].(enabled := true) == w.db.identities[id].(enabled := true);
    }
  }

  lemma {:induction false} RunOwners(svc: Service, worlds: seq<World>, events: seq<Event>, n: nat)
    requires IsRun(svc, worlds, events) && n < |worlds|
    ensures UniqueOwners(worlds[n])
  {
    if n > 0 {
      RunOwners(svc, worlds, events, n - 1);
      RunKeepsOwners(svc, worlds, events, n - 1);
      OwnersStayUnique(worlds[n - 1], worlds[n]);
    }
  }

  lemma RunKeepsOwners(svc: Service, worlds: seq<World>, events: seq<Event>, n: nat)
    requires IsRun(svc, worlds, events) && n < |events|
    ensures SameOwners(worlds[n], worlds[n + 1])
    ensures worlds[n + 1].db.identities.Keys == worlds[n].db.identities.Keys
  {
    RunInvariant(svc, worlds, events, n);
    StepKeepsOwners(svc, worlds[n], events[n], worlds[n + 1]);
  }

  // ----- revocation, as events -----

  /** The k-th event revokes the session: a logout, or the replay of a refresh token that it has already exchanged. */
  ghost predicate RevokesAt(worlds: seq<World>, events: seq<Event>, k: nat, sid: Id)
    requires k < |events| <= |worlds|
  {
    || events[k] == RevokeEvent(sid)
    || (events[k].RefreshEvent? && events[k].token in worlds[k].refreshOf &&
        worlds[k].refreshOf[events[k].token] == sid && Exchanged(events, k, events[k].token))
  }

  /** A refresh before the k-th event exchanged the token for new ones. */
  ghost predicate Exchanged(events: seq<Event>, k: nat, token: Secret)
    requires k <= |events|
  {
    exists i :: 0 <= i < k && ExchangesAt(events[i], token)
  }

  predicate ExchangesAt(e: Event, token: Secret) {
    e.RefreshEvent? && e.token == token && e.outcome.Granted? && e.outcome.value.Rotated?
  }

  ghost predicate RevokedBefore(worlds: seq<World>, events: seq<Event>, n: nat, sid: Id)
    requires n <= |events| <= |worlds|
  {
    exists k :: 0 <= k < n && RevokesAt(worlds, events, k, sid)
  }

  lemma StepConsumes(svc: Service, w: World, e: Event, w': World, token: Secret)
    requires RefreshAccounted(w) && Next(svc, w, e, w')
    ensures Hash(token) in w'.db.consumed <==> Hash(token) in w.db.consumed || ExchangesAt(e, token)
  {
    if e.RefreshEvent? && e.outcome.Granted? && e.outcome.value.Rotated? {
      RotationConsumes(svc, w, e, w', token);
    }
  }

  lemma RotationConsumes(svc: Service, w: World, e: Event, w': World, token: Secret)
    requires RefreshAccounted(w) && e.RefreshEvent? && NextRefresh(svc, w, e, w') && e.outcome.Granted?
    requires e.outcome.value.Rotated?
    ensures Hash(token) in w'.db.consumed <==> Hash(token) in w.db.consumed || ExchangesAt(e, token)
  {
    var sid := RotationOf(svc, w, e, w');
  }

  ghost predicate ConsumesAt(worlds: seq<World>, events: seq<Event>, k: nat, token: Secret)
    requires k < |events| && |worlds| == |events| + 1
  {
    Hash(token) in worlds[k + 1].db.consumed <==> Hash(token) in worlds[k].db.consumed || ExchangesAt(events[k], token)
  }

  lemma RunConsumes(svc: Service, worlds: seq<World>, events: seq<Event>, n: nat, token: Secret)
    requires IsRun(svc, worlds, events) && n < |events|
    ensures ConsumesAt(worlds, events, n, token)
  {
    RunInvariant(svc, worlds, events, n);
    StepConsumes(svc, worlds[n], events[n], worlds[n + 1], token);
  }

  lemma {:induction false} ChainConsumes(worlds: seq<World>, events: seq<Event>, n: nat, token: Secret)
    requires n <= |events| && |worlds| == |events| + 1 && Hash(token) !in worlds[0].db.consumed
    requires forall k | 0 <= k < |events| :: ConsumesAt(worlds, events, k, token)
    ensures Hash(token) in worlds[n].db.consumed <==> Exchanged(events, n, token)
  {
    if n > 0 {
      ChainConsumes(worlds, events, n - 1, token);
      ExchangedGrows(events, n - 1, token);
      assert ConsumesAt(worlds, events, n - 1, token);
    }
  }

  lemma ConsumedIffExchanged(svc: Service, worlds: seq<World>, events: seq<Event>, n: nat, token: Secret)
    requires IsRun(svc, worlds, events) && n < |worlds|
    ensures Hash(token) in worlds[n].db.consumed <==> Exchanged(events, n, token)
  {
    forall k | 0 <= k < |events|
      ensures ConsumesAt(worlds, events, k, token)
    {
      RunConsumes(svc, worlds, events, k, token);
    }
    ChainConsumes(worlds, events, n, token);
  }

  lemma ExchangedGrows(events: seq<Event>, n: nat, token: Secret)
    requires n < |events|
    ensures Exchanged(events, n + 1, token) <==> Exchanged(events, n, token) || ExchangesAt(events[n], token)
  {
  }

  /** What one event makes of the revocation of a session. */
  lemma StepRevokes(svc: Service, w: World, e: Event, w': World, sid: Id)
    requires Invariant(w) && Next(svc, w, e, w') && sid in w'.db.sessions
    ensures w'.db.sessions[sid].revoked <==>
              || (sid in w.db.sessions && w.db.sessions[sid].revoked)
              || e == RevokeEvent(sid)
              || (e.RefreshEvent? && Hash(e.token) in w.db.consumed && w.db.consumed[Hash(e.token)] == sid)
  {
    if e.RefreshEvent? && e.outcome.Granted? && e.outcome.value.Rotated? {
      RotationRevokes(svc, w, e, w', sid);
    } else if e.OpenEvent? && e.opening.Granted? {
      OpeningRevokes(svc, w, e, w', sid);
    } else {
      QuietRevokes(svc, w, e, w', sid);
    }
  }

  lemma RotationRevokes(svc: Service, w: World, e: Event, w': World, sid: Id)
    requires RefreshAccounted(w) && e.RefreshEvent? && NextRefresh(svc, w, e, w') && e.outcome.Granted?
    requires e.outcome.value.Rotated? && sid in w'.db.sessions
    ensures w'.db.sessions[sid].revoked <==> sid in w.db.sessions && w.db.sessions[sid].revoked
    ensures Hash(e.token) !in w.db.consumed
  {
    var served := RotationOf(svc, w, e, w');
    assert IsActive(w.db.sessions[served], false, w.now);
  }

  lemma OpeningRevokes(svc: Service, w: World, e: Event, w': World, sid: Id)
    requires e.OpenEvent? && NextOpen(svc, w, e, w') && e.opening.Granted? && sid in w'.db.sessions
    ensures w'.db.sessions[sid].revoked <==> sid in w.db.sessions && w.db.sessions[sid].revoked
  {
    var s := OpenedSession(svc, w, e, w');
  }

  lemma QuietRevokes(svc: Service, w: World, e: Event, w': World, sid: Id)
    requires Next(svc, w, e, w') && sid in w'.db.sessions
    requires !(e.OpenEvent? && e.opening.Granted?)
    requires !(e.RefreshEvent? && e.outcome.Granted? && e.outcome.value.Rotated?)
    ensures w'.db.sessions[sid].revoked <==>
              || (sid in w.db.sessions && w.db.sessions[sid].revoked)
              || e == RevokeEvent(sid)
              || (e.RefreshEvent? && Hash(e.token) in w.db.consumed && w.db.consumed[Hash(e.token)] == sid)
  {
  }

  lemma ConsumedIsKnown(w: World, token: Secret)
    requires RefreshAccounted(w) && Hash(token) in w.db.consumed
    ensures token in w.refreshOf && w.db.consumed[Hash(token)] == w.refreshOf[token]
  {
    assert Hash(token).preimage in w.refreshOf;
    assert IsCurrent(w, token) || IsConsumed(w, token);
  }

  lemma RevokesAtIff(svc: Service, worlds: seq<World>, events: seq<Event>, n: nat, sid: Id)
    requires IsRun(svc, worlds, events) && n < |events|
    ensures RevokesAt(worlds, events, n, sid) <==>
              || events[n] == RevokeEvent(sid)
              || (events[n].RefreshEvent? && Hash(events[n].token) in worlds[n].db.consumed &&
                  worlds[n].db.consumed[Hash(events[n].token)] == sid)
  {
    RunInvariant(svc, worlds, events, n);
    if events[n].RefreshEvent? {
      ConsumedIffExchanged(svc, worlds, events, n, events[n].token);
      if Hash(events[n].token) in worlds[n].db.consumed {
        ConsumedIsKnown(worlds[n], events[n].token);
      }
    }
  }

  /** Over every run a session is revoked exactly when a logout or the replay of an exchanged token has revoked it. */
  lemma {:induction false} RevokedIff(svc: Service, worlds: seq<World>, events: seq<Event>, n: nat, sid: Id)
    requires IsRun(svc, worlds, events) && n < |worlds| && sid in worlds[n].db.sessions
    ensures worlds[n].db.sessions[sid].revoked <==> RevokedBefore(worlds, events, n, sid)
  {
    if n > 0 {
      RunInvariant(svc, worlds, events, n - 1);
      StepRevokes(svc, worlds[n - 1], events[n - 1], worlds[n], sid);
      RevokesAtIff(svc, worlds, events, n - 1, sid);
      RevokedGrows(worlds, events, n - 1, sid);
      if sid in worlds[n - 1].db.sessions {
        RevokedIff(svc, worlds, events, n - 1, sid);
      } else {
        UnopenedUnrevoked(svc, worlds, events, n - 1, sid);
      }
    }
  }

  lemma RevokedGrows(worlds: seq<World>, events: seq<Event>, n: nat, sid: Id)
    requires n < |events| <= |worlds|
    ensures RevokedBefore(worlds, events, n + 1, sid) <==>
            RevokedBefore(worlds, events, n, sid) || RevokesAt(worlds, events, n, sid)
  {
  }

  /** Only sessions that are there are revoked. */
  lemma UnopenedUnrevoked(svc: Service, worlds: seq<World>, events: seq<Event>, n: nat, sid: Id)
    requires IsRun(svc, worlds, events) && n < |worlds| && sid !in worlds[n].db.sessions
    ensures !RevokedBefore(worlds, events, n, sid)
  {
    forall k | 0 <= k < n
      ensures !RevokesAt(worlds, events, k, sid)
    {
      RunInvariant(svc, worlds, events, k);
      RunPersists(svc, worlds, events, k, n);
      assert Next(svc, worlds[k], events[k], worlds[k + 1]);
    }
  }

  // ----- which tokens are accepted -----

  /** The session may be used on the device: not revoked, not at its end, and its newest access token not at its own. */
  ghost predicate InForce(worlds: seq<World>, events: seq<Event>, n: nat, sid: Id, device: string)
    requires n <= |events| <= |worlds| && n < |worlds|
  {
    var w := worlds[n];
    && sid in w.handed.openings && sid in w.handed.newest && w.handed.newest[sid] in w.handed.endOf
    && w.handed.openings[sid].device == device && !RevokedBefore(worlds, events, n, sid)
    && w.now < w.handed.openings[sid].at + THIRTY_DAYS && w.now < w.handed.endOf[w.handed.newest[sid]]
  }

  /** The enabled identity for which the session was opened. */
  ghost predicate OwnedBy(svc: Service, w: World, sid: Id, owner: Id) {
    && sid in w.handed.openings && owner in w.db.identities && w.db.identities[owner].enabled
    && w.db.identities[owner].issuer == svc.issuer && w.db.identities[owner].subject == w.handed.openings[sid].subject
  }

  lemma OwnedByIff(svc: Service, w: World, sid: Id, owner: Id)
    requires UniqueOwners(w) && sid in w.db.sessions && Owned(svc, w, sid)
    ensures OwnedBy(svc, w, sid, owner) <==>
            owner == w.db.sessions[sid].identity && HasPrincipal(w.db, w.db.sessions[sid])
  {
  }

  lemma InForceIff(svc: Service, worlds: seq<World>, events: seq<Event>, n: nat, sid: Id, device: string)
    requires IsRun(svc, worlds, events) && n < |worlds|
    ensures InForce(worlds, events, n, sid, device) <==>
            && sid in worlds[n].db.sessions && worlds[n].db.sessions[sid].device == device
            && IsActive(worlds[n].db.sessions[sid], true, worlds[n].now)
  {
    RunRecorded(svc, worlds, events, n);
    OpeningsAreSessions(svc, worlds, events, n);
    if sid in worlds[n].db.sessions {
      assert Recorded(worlds[n], sid);
      RevokedIff(svc, worlds, events, n, sid);
    }
  }

  lemma {:induction false} OpeningsAreSessions(svc: Service, worlds: seq<World>, events: seq<Event>, n: nat)
    requires IsRun(svc, worlds, events) && n < |worlds|
    ensures worlds[n].handed.openings.Keys == worlds[n].db.sessions.Keys
  {
    if n > 0 {
      OpeningsAreSessions(svc, worlds, events, n - 1);
      RunOpens(svc, worlds, events, n - 1);
    }
  }

  lemma RunOpens(svc: Service, worlds: seq<World>, events: seq<Event>, n: nat)
    requires IsRun(svc, worlds, events) && n < |events|
    requires worlds[n].handed.openings.Keys == worlds[n].db.sessions.Keys
    ensures worlds[n + 1].handed.openings.Keys == worlds[n + 1].db.sessions.Keys
  {
    RunInvariant(svc, worlds, events, n);
    StepOpens(svc, worlds[n], events[n], worlds[n + 1]);
  }

  lemma StepOpens(svc: Service, w: World, e: Event, w': World)
    requires Invariant(w) && Next(svc, w, e, w') && w.handed.openings.Keys == w.db.sessions.Keys
    ensures w'.handed.openings.Keys == w'.db.sessions.Keys
  {
    if e.OpenEvent? && e.opening.Granted? {
      OpeningOpens(svc, w, e, w');
    } else if e.RefreshEvent? && e.outcome.Granted? && e.outcome.value.Rotated? {
      RotationOpens(svc, w, e, w');
    } else {
      QuietStep(svc, w, e, w');
    }
  }

  lemma OpeningOpens(svc: Service, w: World, e: Event, w': World)
    requires e.OpenEvent? && NextOpen(svc, w, e, w') && e.opening.Granted?
    ensures w'.handed.openings.Keys == w.handed.openings.Keys + {e.sid}
    ensures w'.db.sessions.Keys == w.db.sessions.Keys + {e.sid}
  {
    var s := OpenedSession(svc, w, e, w');
  }

  lemma RotationOpens(svc: Service, w: World, e: Event, w': World)
    requires RefreshAccounted(w) && e.RefreshEvent? && NextRefresh(svc, w, e, w') && e.outcome.Granted?
    requires e.outcome.value.Rotated?
    ensures w'.handed.openings == w.handed.openings && w'.db.sessions.Keys == w.db.sessions.Keys
  {
    var sid := RotationOf(svc, w, e, w');
  }

  /** An access token is accepted for a principal: it is the newest of a session in force, with its enabled owner. */
  ghost predicate Accepts(svc: Service, worlds: seq<World>, events: seq<Event>, n: nat, access: Secret, device: string,
                          p: Principal)
    requires n <= |events| <= |worlds| && n < |worlds|
  {
    var w, sid := worlds[n], p.sessionRef;
    && InForce(worlds, events, n, sid, device) && w.handed.newest[sid] == access
    && OwnedBy(svc, w, sid, p.subject) && p.clientCode == w.db.identities[p.subject].clientCode && p.device == device
  }

  lemma AcceptsIff(svc: Service, worlds: seq<World>, events: seq<Event>, n: nat, access: Secret, device: string,
                   p: Principal)
    requires IsRun(svc, worlds, events) && n < |worlds|
    ensures Accepts(svc, worlds, events, n, access, device, p) <==>
            && HoldsAccess(worlds[n].db, p.sessionRef, Hash(access), device)
            && IsActive(worlds[n].db.sessions[p.sessionRef], true, worlds[n].now)
            && HasPrincipal(worlds[n].db, worlds[n].db.sessions[p.sessionRef])
               && p == PrincipalOf(worlds[n].db, p.sessionRef)
  {
    var w, sid := worlds[n], p.sessionRef;
    InForceIff(svc, worlds, events, n, sid, device);
    if sid in w.db.sessions {
      RunRecorded(svc, worlds, events, n);
      RunOwners(svc, worlds, events, n);
      assert Recorded(w, sid);
      OwnedByIff(svc, w, sid, p.subject);
    }
  }

  /**
   Over every run, an access token introspects exactly to the principal of the session whose newest one it is, on the
   device that session was opened for, as long as no logout or replay has revoked the session, neither its thirty days
   nor the end announced with the token are over, and its owner is enabled. Every other token is denied.
   */
  lemma IntrospectsIff(svc: Service, worlds: seq<World>, events: seq<Event>, n: nat, access: Secret, device: string,
                       p: Principal)
    requires IsRun(svc, worlds, events) && n < |worlds|
    ensures Introspects(worlds[n].db, access, device, worlds[n].now, Granted(p)) <==>
            Accepts(svc, worlds, events, n, access, device, p)
    ensures Introspects(worlds[n].db, access, device, worlds[n].now, Denied) <==>
            forall q :: !Accepts(svc, worlds, events, n, access, device, q)
  {
    AcceptsIff(svc, worlds, events, n, access, device, p);
    DeniedIff(svc, worlds, events, n, access, device);
  }

  lemma DeniedIff(svc: Service, worlds: seq<World>, events: seq<Event>, n: nat, access: Secret, device: string)
    requires IsRun(svc, worlds, events) && n < |worlds|
    ensures Introspects(worlds[n].db, access, device, worlds[n].now, Denied) <==>
            forall q :: !Accepts(svc, worlds, events, n, access, device, q)
  {
    var db, now := worlds[n].db, worlds[n].now;
    forall q
      ensures Accepts(svc, worlds, events, n, access, device, q) ==> !Introspects(db, access, device, now, Denied)
    {
      AcceptsIff(svc, worlds, events, n, access, device, q);
    }
    if !Introspects(db, access, device, now, Denied) {
      var sid :| HoldsAccess(db, sid, Hash(access), device) && IsActive(db.sessions[sid], true, now) &&
        HasPrincipal(db, db.sessions[sid]);
      AcceptsIff(svc, worlds, events, n, access, device, PrincipalOf(db, sid));
    }
  }

  /** A session reference is admitted exactly while its session is in force, for its enabled owner and code. */
  lemma SessionAdmitsIff(svc: Service, worlds: seq<World>, events: seq<Event>, n: nat, ref: Id, subject: Id,
                         code: string,
                         device: string)
    requires IsRun(svc, worlds, events) && n < |worlds|
    ensures Admits(worlds[n].db, ref, subject, code, device, worlds[n].now) <==>
            && InForce(worlds, events, n, ref, device) && OwnedBy(svc, worlds[n], ref, subject)
            && worlds[n].db.identities[subject].clientCode == code
  {
    InForceIff(svc, worlds, events, n, ref, device);
    if ref in worlds[n].db.sessions {
      RunRecorded(svc, worlds, events, n);
      RunOwners(svc, worlds, events, n);
      OwnedByIff(svc, worlds[n], ref, subject);
    }
  }
}
