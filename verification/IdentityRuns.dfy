/** Whole runs of the identity service: rotation, family revocation and single-use logins. */
module IdentityRuns {
  import opened Basics
  import opened IdentityStore

  /**
   The tables, the clock, the begins that have counted and not yet inserted, with their devices, and what was
   handed out: which session every refresh and access token was issued for, which claimed logins may still open a
   session, which login opened which session, and what the answers to the clients said.
   */
  datatype World = World(
    db: Db,
    now: int,
    begins: map<Id, string>,
    refreshOf: map<Secret, Id>,
    accessOf: map<Secret, Id>,
    claims: map<Id, string>,
    loginOf: map<Id, Id>,
    handed: Handed)

  /** For which device, when and for whom a session was opened. */
  datatype Opening = Opening(device: string, at: int, subject: string)

  /** The end announced with each access token, the access token last handed out for each session, and its opening. */
  datatype Handed = Handed(endOf: map<Secret, int>, newest: map<Id, Secret>, openings: map<Id, Opening>)

  function HandedOut(handed: Handed, sid: Id, issued: Issued): Handed {
    handed.(endOf := handed.endOf[issued.access := issued.expires], newest := handed.newest[sid := issued.access])
  }

  datatype Event =
    | Tick(now: int)
    | CountEvent(device: string, begin: Id)
    | InsertEvent(begin: Id, id: Id, state: Secret, nonce: Secret, verifier: Secret)
    | DropEvent(begin: Id)
    | ClaimEvent(id: Id, device: string, state: Secret)
    | OpenEvent(login: Id, p: ProviderTokens, sid: Id, access: Secret, refresh: Secret, opening: Answer<Issued>)
    | RefreshEvent(token: Secret, device: string, provider: Option<ProviderTokens>, access: Secret, refresh: Secret,
                   outcome: Answer<Refreshed>)
    | RevokeEvent(sid: Id)
    | EnableEvent(identity: Id, enabled: bool)

  ghost predicate Starts(w: World) {
    w.db.logins == map[] && w.db.sessions == map[] && w.db.consumed == map[] && UniqueHashes(w.db)
    && w.begins == map[] &&
    w.refreshOf == map[] && w.accessOf == map[] && w.claims == map[] && w.loginOf == map[] &&
    w.handed == Handed(map[], map[], map[])
  }

  ghost predicate NextOpen(svc: Service, w: World, e: Event, w': World)
    requires e.OpenEvent?
  {
    && e.login in w.claims && e.access !in w.accessOf && e.refresh !in w.refreshOf
    && Opens(svc, w.db, w'.db, w.claims[e.login], e.p, e.sid, e.access, e.refresh, w.now, e.opening)
    && w' == if e.opening.Granted? then
               w.(db := w'.db, refreshOf := w.refreshOf[e.refresh := e.sid], accessOf := w.accessOf[e.access := e.sid],
                  claims := w.claims - {e.login}, loginOf := w.loginOf[e.sid := e.login],
                  handed := Opened(HandedOut(w.handed, e.sid, e.opening.value), e.sid,
                                   Opening(w.claims[e.login], w.now, e.p.subject)))
             else w.(claims := w.claims - {e.login})
  }

  function Opened(handed: Handed, sid: Id, opening: Opening): Handed {
    handed.(openings := handed.openings[sid := opening])
  }

  ghost predicate NextRefresh(svc: Service, w: World, e: Event, w': World)
    requires e.RefreshEvent?
  {
    && e.access !in w.accessOf && e.refresh !in w.refreshOf
    && Refreshes(svc, w.db, w'.db, e.token, e.device, e.provider, e.access, e.refresh, w.now, e.outcome)
    && (if e.outcome.Granted? && e.outcome.value.Rotated? then
          exists sid :: HoldsRefresh(w.db, sid, Hash(e.token), e.device) &&
            w' == w.(db := w'.db, refreshOf := w.refreshOf[e.refresh := sid], accessOf := w.accessOf[e.access := sid],
                     handed := HandedOut(w.handed, sid, e.outcome.value.tokens))
        else w' == w.(db := w'.db))
  }

  ghost predicate NextCount(w: World, e: Event, w': World)
    requires e.CountEvent?
  {
    e.begin !in w.begins && w' == if MayBegin(w.db, e.device, w.now) then w.(begins := w.begins[e.begin := e.device])
    else w
  }

  ghost predicate NextInsert(w: World, e: Event, w': World)
    requires e.InsertEvent?
  {
    && e.begin in w.begins
    && w' == w.(db := Inserting(w.db, w.begins[e.begin], e.id, e.state, e.nonce, e.verifier, w.now).0,
                begins := w.begins - {e.begin})
  }

  ghost predicate NextClaim(w: World, e: Event, w': World)
    requires e.ClaimEvent?
  {
    var (db, claimed) := Claiming(w.db, e.id, e.device, e.state, w.now);
    w' == w.(db := db, claims := if claimed.Granted? then w.claims[e.id := e.device] else w.claims)
  }

  /**
   Begins overlap as they like, and may be lost. Secrets are drawn fresh; both kinds of logout are RevokeEvent for the
   session they find.
   */
  ghost predicate Next(svc: Service, w: World, e: Event, w': World) {
    match e
    case Tick(now) => w.now <= now && w' == w.(now := now)
    case CountEvent(_, _) => NextCount(w, e, w')
    case InsertEvent(_, _, _, _, _) => NextInsert(w, e, w')
    case DropEvent(begin) => begin in w.begins && w' == w.(begins := w.begins - {begin})
    case ClaimEvent(_, _, _) => NextClaim(w, e, w')
    case OpenEvent(_, _, _, _, _, _) => NextOpen(svc, w, e, w')
    case RefreshEvent(_, _, _, _, _, _) => NextRefresh(svc, w, e, w')
    case RevokeEvent(sid) => sid in w.db.sessions && w' == w.(db := Revoking(w.db, sid))
    case EnableEvent(identity, enabled) =>
      identity in w.db.identities &&
      w' == w.(db := w.db.(identities := w.db.identities[identity := w.db.identities[identity].(enabled := enabled)]))
  }

  ghost predicate IsRun(svc: Service, worlds: seq<World>, events: seq<Event>) {
    && |worlds| == |events| + 1
    && Starts(worlds[0])
    && forall i | 0 <= i < |events| :: Next(svc, worlds[i], events[i], worlds[i + 1])
  }

  // ----- refresh tokens -----

  ghost predicate IsCurrent(w: World, token: Secret) {
    token in w.refreshOf && w.refreshOf[token] in w.db.sessions
    && w.db.sessions[w.refreshOf[token]].refreshHash == Hash(token)
  }

  ghost predicate IsConsumed(w: World, token: Secret) {
    token in w.refreshOf && Hash(token) in w.db.consumed && w.db.consumed[Hash(token)] == w.refreshOf[token]
  }

  ghost predicate RefreshAccounted(w: World) {
    && (forall t | t in w.refreshOf :: w.refreshOf[t] in w.db.sessions)
    && (forall t | t in w.refreshOf :: IsCurrent(w, t) || IsConsumed(w, t))
    && (forall t | t in w.refreshOf :: !(IsCurrent(w, t) && Hash(t) in w.db.consumed))
    && (forall sid | sid in w.db.sessions :: RefreshKnown(w, sid))
    && (forall h | h in w.db.consumed :: h.preimage in w.refreshOf)
  }

  ghost predicate RefreshKnown(w: World, sid: Id)
    requires sid in w.db.sessions
  {
    var h := w.db.sessions[sid].refreshHash;
    h.preimage in w.refreshOf && w.refreshOf[h.preimage] == sid
  }

  ghost predicate AccessAccounted(w: World) {
    && (forall a | a in w.accessOf :: w.accessOf[a] in w.db.sessions)
    && (forall sid | sid in w.db.sessions :: AccessKnown(w, sid))
  }

  ghost predicate AccessKnown(w: World, sid: Id)
    requires sid in w.db.sessions
  {
    var s := w.db.sessions[sid];
    s.accessHash.preimage in w.accessOf && w.accessOf[s.accessHash.preimage] == sid && s.accessExpires <= s.expires
  }

  ghost predicate LoginsAccounted(w: World) {
    && (forall id | id in w.claims :: id in w.db.logins && w.db.logins[id].consumed)
    && (forall sid | sid in w.db.sessions :: sid in w.loginOf)
    && (forall sid | sid in w.loginOf :: LoginSpent(w, w.loginOf[sid]))
    && (forall a, b | a in w.loginOf && b in w.loginOf && w.loginOf[a] == w.loginOf[b] :: a == b)
  }

  ghost predicate LoginSpent(w: World, login: Id) {
    login !in w.claims && login in w.db.logins && w.db.logins[login].consumed
  }

  ghost predicate Invariant(w: World) {
    RefreshAccounted(w) && AccessAccounted(w) && LoginsAccounted(w)
  }

  // ----- one event at a time -----

  lemma RotateKeepsRefresh(w: World, w': World, sid: Id, token: Secret, s': AccountSession, refresh: Secret)
    requires RefreshAccounted(w) && sid in w.db.sessions && w.db.sessions[sid].refreshHash == Hash(token)
    requires Hash(token) !in w.db.consumed && refresh !in w.refreshOf && s'.refreshHash == Hash(refresh)
    requires w'.db.sessions == w.db.sessions[sid := s'] && w'.db.consumed == w.db.consumed[Hash(token) := sid]
    requires w'.refreshOf == w.refreshOf[refresh := sid]
    ensures RefreshAccounted(w')
  {
    forall t | t in w'.refreshOf
      ensures IsCurrent(w', t) || IsConsumed(w', t)
      ensures !(IsCurrent(w', t) && Hash(t) in w'.db.consumed)
    {
      RotateKeepsToken(w, w', sid, token, s', refresh, t);
    }
    forall other | other in w'.db.sessions
      ensures RefreshKnown(w', other)
    {
      assert other != sid ==> RefreshKnown(w, other);
    }
  }

  lemma RotateKeepsToken(w: World, w': World, sid: Id, token: Secret, s': AccountSession, refresh: Secret, t: Secret)
    requires RefreshAccounted(w) && sid in w.db.sessions && w.db.sessions[sid].refreshHash == Hash(token)
    requires Hash(token) !in w.db.consumed && refresh !in w.refreshOf && s'.refreshHash == Hash(refresh)
    requires w'.db.sessions == w.db.sessions[sid := s'] && w'.db.consumed == w.db.consumed[Hash(token) := sid]
    requires w'.refreshOf == w.refreshOf[refresh := sid] && t in w'.refreshOf
    ensures (IsCurrent(w', t) || IsConsumed(w', t)) && !(IsCurrent(w', t) && Hash(t) in w'.db.consumed)
  {
    assert RefreshKnown(w, sid);
    if t == refresh {
      assert Hash(refresh) in w.db.consumed ==> Hash(refresh).preimage in w.refreshOf;
    } else if t == token {
      assert IsConsumed(w', t);
    } else if IsCurrent(w, t) {
      assert w.refreshOf[t] != sid;
    }
  }

  lemma OpenKeepsRefresh(w: World, w': World, sid: Id, s: AccountSession, refresh: Secret)
    requires RefreshAccounted(w) && sid !in w.db.sessions && refresh !in w.refreshOf && s.refreshHash == Hash(refresh)
    requires w'.db.sessions == w.db.sessions[sid := s] && w'.db.consumed == w.db.consumed
    requires w'.refreshOf == w.refreshOf[refresh := sid]
    ensures RefreshAccounted(w')
  {
    forall t | t in w'.refreshOf
      ensures IsCurrent(w', t) || IsConsumed(w', t)
      ensures !(IsCurrent(w', t) && Hash(t) in w'.db.consumed)
    {
      if t == refresh {
        assert Hash(refresh) in w.db.consumed ==> Hash(refresh).preimage in w.refreshOf;
      } else {
        assert w.refreshOf[t] in w.db.sessions;
        assert IsCurrent(w, t) <==> IsCurrent(w', t);
      }
    }
    forall other | other in w'.db.sessions
      ensures RefreshKnown(w', other)
    {
      assert other != sid ==> RefreshKnown(w, other);
    }
  }

  /** Events that change no hash of any session. */
  ghost predicate SameHashes(w: World, w': World) {
    && w'.db.consumed == w.db.consumed && w'.refreshOf == w.refreshOf && w'.accessOf == w.accessOf
    && w'.db.sessions.Keys == w.db.sessions.Keys
    && forall sid | sid in w.db.sessions ::
       w'.db.sessions[sid].(revoked := false) == w.db.sessions[sid].(revoked := false)
  }

  lemma SameHashesKeepTokens(w: World, w': World)
    requires RefreshAccounted(w) && AccessAccounted(w) && SameHashes(w, w')
    ensures RefreshAccounted(w') && AccessAccounted(w')
  {
    forall t | t in w'.refreshOf
      ensures IsCurrent(w', t) <==> IsCurrent(w, t)
      ensures IsConsumed(w', t) <==> IsConsumed(w, t)
    {
      assert w.db.sessions[w.refreshOf[t]].refreshHash == w'.db.sessions[w.refreshOf[t]].refreshHash;
    }
    forall sid | sid in w'.db.sessions
      ensures RefreshKnown(w', sid) && AccessKnown(w', sid)
    {
      assert RefreshKnown(w, sid) && AccessKnown(w, sid);
      assert w'.db.sessions[sid].refreshHash == w.db.sessions[sid].refreshHash;
      assert w'.db.sessions[sid].accessHash == w.db.sessions[sid].accessHash;
    }
  }

  lemma NewHashesKeepAccess(w: World, w': World, sid: Id, s: AccountSession, access: Secret)
    requires AccessAccounted(w) && access !in w.accessOf && s.accessHash == Hash(access) && s.accessExpires <= s.expires
    requires w'.db.sessions == w.db.sessions[sid := s] && w'.accessOf == w.accessOf[access := sid]
    ensures AccessAccounted(w')
  {
    forall other | other in w'.db.sessions
      ensures AccessKnown(w', other)
    {
      assert other != sid ==> AccessKnown(w, other);
    }
  }

  lemma RotationKeepsTokens(svc: Service, w: World, sid: Id, token: Secret, device: string,
                            provider: Option<ProviderTokens>,
                            access: Secret, refresh: Secret, w': World)
    requires RefreshAccounted(w) && AccessAccounted(w)
    requires MayRotate(svc, w.db, sid, token, device, provider, access, refresh, w.now)
    requires Hash(token) !in w.db.consumed && access !in w.accessOf && refresh !in w.refreshOf
    requires w'.db == Rotating(w.db, sid, token, provider.value, access, refresh, w.now).0
    requires w'.refreshOf == w.refreshOf[refresh := sid] && w'.accessOf == w.accessOf[access := sid]
    ensures RefreshAccounted(w') && AccessAccounted(w')
  {
    var s := RotatedSession(w.db.sessions[sid], provider.value, access, refresh, w.now);
    RotateKeepsRefresh(w, w', sid, token, s, refresh);
    NewHashesKeepAccess(w, w', sid, s, access);
  }

  /** The session a rotation served, and what it did. */
  lemma RotationOf(svc: Service, w: World, e: Event, w': World) returns (sid: Id)
    requires RefreshAccounted(w) && e.RefreshEvent? && NextRefresh(svc, w, e, w') && e.outcome.Granted?
    requires e.outcome.value.Rotated?
    ensures MayRotate(svc, w.db, sid, e.token, e.device, e.provider, e.access, e.refresh, w.now)
    ensures w' == w.(db := Rotating(w.db, sid, e.token, e.provider.value, e.access, e.refresh, w.now).0,
                     refreshOf := w.refreshOf[e.refresh := sid], accessOf := w.accessOf[e.access := sid],
                     handed := HandedOut(w.handed, sid, e.outcome.value.tokens))
    ensures e.outcome.value.tokens == Rotating(w.db, sid, e.token, e.provider.value, e.access, e.refresh, w.now).1
  {
    sid :| MayRotate(svc, w.db, sid, e.token, e.device, e.provider, e.access, e.refresh, w.now) &&
      (w'.db, e.outcome.value.tokens) == Rotating(w.db, sid, e.token, e.provider.value, e.access, e.refresh, w.now);
    var other :| HoldsRefresh(w.db, other, Hash(e.token), e.device) &&
      w' == w.(db := w'.db, refreshOf := w.refreshOf[e.refresh := other], accessOf := w.accessOf[e.access := other],
               handed := HandedOut(w.handed, other, e.outcome.value.tokens));
    assert RefreshKnown(w, sid) && RefreshKnown(w, other);
  }

  lemma RefreshKeepsTokens(svc: Service, w: World, e: Event, w': World)
    requires RefreshAccounted(w) && AccessAccounted(w) && e.RefreshEvent? && NextRefresh(svc, w, e, w')
    ensures RefreshAccounted(w') && AccessAccounted(w')
  {
    if e.outcome.Granted? && e.outcome.value.Rotated? {
      var sid := RotationOf(svc, w, e, w');
      RotationKeepsTokens(svc, w, sid, e.token, e.device, e.provider, e.access, e.refresh, w');
    } else {
      UnrotatedSameHashes(svc, w, e, w');
      SameHashesKeepTokens(w, w');
    }
  }

  lemma UnrotatedSameHashes(svc: Service, w: World, e: Event, w': World)
    requires e.RefreshEvent? && NextRefresh(svc, w, e, w') && !(e.outcome.Granted? && e.outcome.value.Rotated?)
    ensures SameHashes(w, w')
  {
  }

  lemma OpenKeepsTokens(svc: Service, w: World, e: Event, w': World)
    requires RefreshAccounted(w) && AccessAccounted(w) && e.OpenEvent? && NextOpen(svc, w, e, w')
    ensures RefreshAccounted(w') && AccessAccounted(w')
  {
    if e.opening.Granted? {
      var s := OpenedSession(svc, w, e, w');
      OpenKeepsRefresh(w, w', e.sid, s, e.refresh);
      NewHashesKeepAccess(w, w', e.sid, s, e.access);
    } else {
      SameHashesKeepTokens(w, w');
    }
  }

  /** The session that an opening adds. */
  lemma OpenedSession(svc: Service, w: World, e: Event, w': World) returns (s: AccountSession)
    requires e.OpenEvent? && NextOpen(svc, w, e, w') && e.opening.Granted?
    ensures e.sid !in w.db.sessions && w'.db == WithSession(w.db, e.sid, s)
    ensures s.refreshHash == Hash(e.refresh) && s.accessHash == Hash(e.access) && s.accessExpires <= s.expires
    ensures s == NewSession(s.identity, w.claims[e.login], e.p, e.access, e.refresh, w.now)
    ensures OpensFor(svc, w.db, e.p, s.identity) && e.opening.value == Issued(e.access, e.refresh, s.accessExpires)
  {
    var owner :| MayOpen(svc, w.db, owner, w.claims[e.login], e.p, e.sid, e.access, e.refresh, w.now) &&
      var session := NewSession(owner, w.claims[e.login], e.p, e.access, e.refresh, w.now);
      w'.db == WithSession(w.db, e.sid, session)
      && e.opening.value == Issued(e.access, e.refresh, session.accessExpires);
    s := NewSession(owner, w.claims[e.login], e.p, e.access, e.refresh, w.now);
  }

  lemma StepKeepsTokens(svc: Service, w: World, e: Event, w': World)
    requires RefreshAccounted(w) && AccessAccounted(w) && Next(svc, w, e, w')
    ensures RefreshAccounted(w') && AccessAccounted(w')
  {
    match e
    case RefreshEvent(_, _, _, _, _, _) => RefreshKeepsTokens(svc, w, e, w');
    case OpenEvent(_, _, _, _, _, _) => OpenKeepsTokens(svc, w, e, w');
    case _ => OtherKeepsTokens(svc, w, e, w');
  }

  lemma OtherKeepsTokens(svc: Service, w: World, e: Event, w': World)
    requires RefreshAccounted(w) && AccessAccounted(w) && Next(svc, w, e, w') && !e.RefreshEvent? && !e.OpenEvent?
    ensures RefreshAccounted(w') && AccessAccounted(w')
  {
    OtherSameHashes(svc, w, e, w');
    SameHashesKeepTokens(w, w');
  }

  lemma OtherSameHashes(svc: Service, w: World, e: Event, w': World)
    requires Next(svc, w, e, w') && !e.RefreshEvent? && !e.OpenEvent?
    ensures SameHashes(w, w')
  {
  }

  // ----- logins -----

  /** Logins stay, and what was spent or claimed stays consumed. */
  ghost predicate LoginsKept(w: World, w': World) {
    && w'.loginOf == w.loginOf && w'.claims == w.claims
    && forall id | id in w.db.logins :: id in w'.db.logins && (w.db.logins[id].consumed ==> w'.db.logins[id].consumed)
  }

  lemma KeptLoginsAccounted(w: World, w': World)
    requires LoginsAccounted(w) && LoginsKept(w, w') && w'.db.sessions.Keys <= w.db.sessions.Keys
    ensures LoginsAccounted(w')
  {
    forall sid | sid in w'.loginOf
      ensures LoginSpent(w', w'.loginOf[sid])
    {
      assert LoginSpent(w, w.loginOf[sid]);
    }
  }

  lemma ClaimKeepsLogins(w: World, e: Event, w': World)
    requires LoginsAccounted(w) && e.ClaimEvent? && NextClaim(w, e, w')
    ensures LoginsAccounted(w')
  {
    forall sid | sid in w'.loginOf
      ensures LoginSpent(w', w'.loginOf[sid])
    {
      assert LoginSpent(w, w.loginOf[sid]);
    }
  }

  lemma OpenKeepsLogins(w: World, e: Event, w': World)
    requires LoginsAccounted(w) && e.OpenEvent? && e.login in w.claims
    requires w'.db.logins == w.db.logins && w'.claims == w.claims - {e.login}
    requires w'.loginOf == if e.opening.Granted? then w.loginOf[e.sid := e.login] else w.loginOf
    requires w'.db.sessions.Keys <= w.db.sessions.Keys + OpensSession(e)
    ensures LoginsAccounted(w')
  {
    forall sid | sid in w'.loginOf
      ensures LoginSpent(w', w'.loginOf[sid])
    {
      assert sid in w.loginOf ==> LoginSpent(w, w.loginOf[sid]);
    }
  }

  lemma OpeningKeepsLogins(svc: Service, w: World, e: Event, w': World)
    requires LoginsAccounted(w) && e.OpenEvent? && NextOpen(svc, w, e, w')
    ensures LoginsAccounted(w')
  {
    OpeningPersists(svc, w.db, w'.db, w.claims[e.login], e.p, e.sid, e.access, e.refresh, w.now, e.opening);
    OpenKeepsLogins(w, e, w');
  }

  lemma RefreshKeepsLogins(svc: Service, w: World, e: Event, w': World)
    requires LoginsAccounted(w) && RefreshAccounted(w) && e.RefreshEvent? && NextRefresh(svc, w, e, w')
    ensures LoginsAccounted(w')
  {
    RefreshPersists(svc, w, e, w');
    RefreshOnlySessions(svc, w, e, w');
    KeptLoginsAccounted(w, w');
  }

  lemma RefreshOnlySessions(svc: Service, w: World, e: Event, w': World)
    requires RefreshAccounted(w) && e.RefreshEvent? && NextRefresh(svc, w, e, w')
    ensures w'.db.logins == w.db.logins && w'.loginOf == w.loginOf && w'.claims == w.claims && w'.begins == w.begins
    ensures w'.now == w.now
  {
    if e.outcome.Granted? && e.outcome.value.Rotated? {
      var sid := RotationOf(svc, w, e, w');
    }
  }

  lemma StepKeepsLogins(svc: Service, w: World, e: Event, w': World)
    requires LoginsAccounted(w) && RefreshAccounted(w) && Next(svc, w, e, w')
    ensures LoginsAccounted(w')
  {
    match e
    case ClaimEvent(_, _, _) => ClaimKeepsLogins(w, e, w');
    case OpenEvent(_, _, _, _, _, _) => OpeningKeepsLogins(svc, w, e, w');
    case RefreshEvent(_, _, _, _, _, _) => RefreshKeepsLogins(svc, w, e, w');
    case _ => KeptLoginsAccounted(w, w');
  }

  ghost function OpensSession(e: Event): set<Id> {
    if e.OpenEvent? && e.opening.Granted? then {e.sid} else {}
  }

  // ----- sessions only change in the ways listed -----

  /** Sessions never disappear, never change owner, device or end, and are never un-revoked. */
  ghost predicate SessionsPersist(db: Db, db': Db) {
    forall sid | sid in db.sessions ::
      sid in db'.sessions && Persists(db.sessions[sid], db'.sessions[sid])
  }

  predicate Persists(s: AccountSession, s': AccountSession) {
    s'.identity == s.identity && s'.device == s.device && s'.expires == s.expires
    && (s.revoked ==> s'.revoked && s'.refreshHash == s.refreshHash)
  }

  /** Sessions persist, and no issued token is forgotten. */
  ghost predicate WorldPersists(w: World, w': World) {
    && SessionsPersist(w.db, w'.db)
    && (forall t | t in w.refreshOf :: t in w'.refreshOf && w'.refreshOf[t] == w.refreshOf[t])
    && (forall a | a in w.accessOf :: a in w'.accessOf && w'.accessOf[a] == w.accessOf[a])
  }

  lemma StepPersists(svc: Service, w: World, e: Event, w': World)
    requires Next(svc, w, e, w') && RefreshAccounted(w)
    ensures WorldPersists(w, w') && w'.db.sessions.Keys <= w.db.sessions.Keys + OpensSession(e)
  {
    match e
    case RefreshEvent(_, _, _, _, _, _) => RefreshPersists(svc, w, e, w');
    case OpenEvent(_, _, _, _, _, _) => OpenPersists(svc, w, e, w');
    case _ => OtherPersists(svc, w, e, w');
  }

  lemma OpenPersists(svc: Service, w: World, e: Event, w': World)
    requires e.OpenEvent? && NextOpen(svc, w, e, w')
    ensures WorldPersists(w, w') && w'.db.sessions.Keys <= w.db.sessions.Keys + OpensSession(e)
  {
    OpeningPersists(svc, w.db, w'.db, w.claims[e.login], e.p, e.sid, e.access, e.refresh, w.now, e.opening);
  }

  lemma OtherPersists(svc: Service, w: World, e: Event, w': World)
    requires Next(svc, w, e, w') && !e.RefreshEvent? && !e.OpenEvent?
    ensures WorldPersists(w, w') && w'.db.sessions.Keys <= w.db.sessions.Keys
  {
  }

  lemma RefreshPersists(svc: Service, w: World, e: Event, w': World)
    requires e.RefreshEvent? && NextRefresh(svc, w, e, w') && RefreshAccounted(w)
    ensures WorldPersists(w, w') && w'.db.sessions.Keys <= w.db.sessions.Keys
  {
    if e.outcome.Granted? && e.outcome.value.Rotated? {
      var sid := RotationOf(svc, w, e, w');
      RotationPersists(w, sid, e.token, e.provider.value, e.access, e.refresh, w');
    } else {
      OtherRefresh(svc, w, e, w');
    }
  }

  lemma RotationPersists(w: World, sid: Id, token: Secret, p: ProviderTokens, access: Secret, refresh: Secret,
                         w': World)
    requires sid in w.db.sessions && !w.db.sessions[sid].revoked && access !in w.accessOf && refresh !in w.refreshOf
    requires w'.db == Rotating(w.db, sid, token, p, access, refresh, w.now).0
    requires w'.refreshOf == w.refreshOf[refresh := sid] && w'.accessOf == w.accessOf[access := sid]
    ensures WorldPersists(w, w') && w'.db.sessions.Keys <= w.db.sessions.Keys
  {
    RotatingPersists(w.db, sid, token, p, access, refresh, w.now);
  }

  lemma RotatingPersists(db: Db, sid: Id, token: Secret, p: ProviderTokens, access: Secret, refresh: Secret, now: int)
    requires sid in db.sessions && !db.sessions[sid].revoked
    ensures var db' := Rotating(db, sid, token, p, access, refresh, now).0;
            SessionsPersist(db, db') && db'.sessions.Keys == db.sessions.Keys
  {
  }

  lemma OtherRefresh(svc: Service, w: World, e: Event, w': World)
    requires e.RefreshEvent? && NextRefresh(svc, w, e, w') && !(e.outcome.Granted? && e.outcome.value.Rotated?)
    ensures w' == w || (Hash(e.token) in w.db.consumed && w' == w.(db := Revoking(w.db, w.db.consumed[Hash(e.token)])))
    ensures SessionsPersist(w.db, w'.db) && w'.db.sessions.Keys == w.db.sessions.Keys
  {
  }

  lemma OpeningPersists(svc: Service, db: Db, db': Db, device: string, p: ProviderTokens, sid: Id,
                        access: Secret, refresh: Secret, now: int, answer: Answer<Issued>)
    requires Opens(svc, db, db', device, p, sid, access, refresh, now, answer)
    ensures SessionsPersist(db, db') && db'.logins == db.logins
    ensures db'.sessions.Keys <= db.sessions.Keys + if answer.Granted? then {sid} else {}
  {
  }

  lemma StepKeepsInvariant(svc: Service, w: World, e: Event, w': World)
    requires Invariant(w) && Next(svc, w, e, w')
    ensures Invariant(w')
  {
    StepPersists(svc, w, e, w');
    StepKeepsTokens(svc, w, e, w');
    StepKeepsLogins(svc, w, e, w');
  }

  // ----- whole runs -----

  lemma RunStep(svc: Service, worlds: seq<World>, events: seq<Event>, n: nat)
    requires IsRun(svc, worlds, events) && n < |events|
    ensures Next(svc, worlds[n], events[n], worlds[n + 1])
  {
  }

  lemma {:induction false} RunInvariant(svc: Service, worlds: seq<World>, events: seq<Event>, n: nat)
    requires IsRun(svc, worlds, events) && n < |worlds|
    ensures Invariant(worlds[n])
  {
    if n > 0 {
      RunInvariant(svc, worlds, events, n - 1);
      RunStep(svc, worlds, events, n - 1);
      StepKeepsInvariant(svc, worlds[n - 1], events[n - 1], worlds[n]);
    }
  }

  lemma RunPersists(svc: Service, worlds: seq<World>, events: seq<Event>, m: nat, n: nat)
    requires IsRun(svc, worlds, events) && m <= n < |worlds|
    ensures WorldPersists(worlds[m], worlds[n])
  {
    forall k | 0 <= k < |events|
      ensures WorldPersists(worlds[k], worlds[k + 1])
    {
      RunInvariant(svc, worlds, events, k);
      StepPersists(svc, worlds[k], events[k], worlds[k + 1]);
    }
    ChainPersists(worlds, m, n);
  }

  lemma {:induction false} ChainPersists(worlds: seq<World>, m: nat, n: nat)
    requires m <= n < |worlds| && forall k | 0 <= k < |worlds| - 1 :: WorldPersists(worlds[k], worlds[k + 1])
    ensures WorldPersists(worlds[m], worlds[n])
    decreases n - m
  {
    if m < n {
      ChainPersists(worlds, m, n - 1);
      assert WorldPersists(worlds[n - 1], worlds[n - 1 + 1]);
      PersistenceChains(worlds[m], worlds[n - 1], worlds[n]);
    }
  }

  lemma PersistenceChains(a: World, b: World, c: World)
    requires WorldPersists(a, b) && WorldPersists(b, c)
    ensures WorldPersists(a, c)
  {
    forall sid | sid in a.db.sessions
      ensures sid in c.db.sessions && Persists(a.db.sessions[sid], c.db.sessions[sid])
    {
      assert Persists(a.db.sessions[sid], b.db.sessions[sid]) && Persists(b.db.sessions[sid], c.db.sessions[sid]);
    }
  }

  /**
   Every refresh token ever issued is, at any time, either the single current token of its session
   or recorded as consumed for that session, and never both.
   */
  lemma EveryTokenIsCurrentOrConsumed(svc: Service, worlds: seq<World>, events: seq<Event>, n: nat, token: Secret)
    requires IsRun(svc, worlds, events) && n < |worlds| && token in worlds[n].refreshOf
    ensures IsCurrent(worlds[n], token) <==> !IsConsumed(worlds[n], token)
    ensures forall t | t in worlds[n].refreshOf && worlds[n].refreshOf[t] == worlds[n].refreshOf[token] ::
              IsCurrent(worlds[n], t) && IsCurrent(worlds[n], token) ==> t == token
  {
    RunInvariant(svc, worlds, events, n);
  }

  /** Presenting a consumed token, from any device, revokes the session it was issued for. */
  lemma ReplayRevokesFamily(svc: Service, worlds: seq<World>, events: seq<Event>, n: nat)
    requires IsRun(svc, worlds, events) && n < |events| && events[n].RefreshEvent?
    requires IsConsumed(worlds[n], events[n].token)
    ensures events[n].outcome == Granted(SessionRevoked)
    ensures var sid := worlds[n].refreshOf[events[n].token];
            sid in worlds[n + 1].db.sessions && worlds[n + 1].db.sessions[sid].revoked
  {
    RunInvariant(svc, worlds, events, n);
    assert NextRefresh(svc, worlds[n], events[n], worlds[n + 1]) by {
      assert Next(svc, worlds[n], events[n], worlds[n + 1]);
    }
  }

  /** What any token or reference of a session can still achieve. */
  ghost predicate DeadFamily(svc: Service, w: World, sid: Id) {
    && (forall t, device, provider, access, refresh, answer, db' |
          t in w.refreshOf && w.refreshOf[t] == sid &&
          Refreshes(svc, w.db, db', t, device, provider, access, refresh, w.now, answer) ::
          answer == Denied || answer == Granted(SessionRevoked))
    && (forall a, device, answer | a in w.accessOf && w.accessOf[a] == sid
        && Introspects(w.db, a, device, w.now, answer) ::
          answer == Denied)
    && (forall subject, code, device :: !Admits(w.db, sid, subject, code, device, w.now))
  }

  lemma RevokedMeansDead(svc: Service, w: World, sid: Id)
    requires Invariant(w) && sid in w.db.sessions && w.db.sessions[sid].revoked
    ensures DeadFamily(svc, w, sid)
  {
    forall t, device, provider, access, refresh, answer, db' |
      t in w.refreshOf && w.refreshOf[t] == sid &&
      Refreshes(svc, w.db, db', t, device, provider, access, refresh, w.now, answer)
      ensures answer == Denied || answer == Granted(SessionRevoked)
    {
      RevokedRefresh(svc, w, sid, t, device, provider, access, refresh, answer, db');
    }
    forall a, device, answer | a in w.accessOf && w.accessOf[a] == sid && Introspects(w.db, a, device, w.now, answer)
      ensures answer == Denied
    {
      RevokedAccess(w, sid, a, device, answer);
    }
  }

  lemma RevokedRefresh(svc: Service, w: World, sid: Id, t: Secret, device: string, provider: Option<ProviderTokens>,
                       access: Secret, refresh: Secret, answer: Answer<Refreshed>, db': Db)
    requires RefreshAccounted(w) && sid in w.db.sessions && w.db.sessions[sid].revoked && t in w.refreshOf
    requires w.refreshOf[t] == sid
    requires Refreshes(svc, w.db, db', t, device, provider, access, refresh, w.now, answer)
    ensures answer == Denied || answer == Granted(SessionRevoked)
  {
    forall other | HoldsRefresh(w.db, other, Hash(t), device)
      ensures other == sid
    {
      assert RefreshKnown(w, other);
    }
  }

  lemma RevokedAccess(w: World, sid: Id, a: Secret, device: string, answer: Answer<Principal>)
    requires AccessAccounted(w) && sid in w.db.sessions && w.db.sessions[sid].revoked && a in w.accessOf
    requires w.accessOf[a] == sid
    requires Introspects(w.db, a, device, w.now, answer)
    ensures answer == Denied
  {
    forall other | HoldsAccess(w.db, other, Hash(a), device)
      ensures other == sid
    {
      assert AccessKnown(w, other);
    }
  }

  /**
   Once a session is revoked, by replay or by logout, in every continuation no refresh, introspection
   or session check on its family succeeds, for every token it was ever given.
   */
  lemma RevocationIsPermanent(svc: Service, worlds: seq<World>, events: seq<Event>, m: nat, n: nat, sid: Id)
    requires IsRun(svc, worlds, events) && m <= n < |worlds|
    requires sid in worlds[m].db.sessions && worlds[m].db.sessions[sid].revoked
    ensures DeadFamily(svc, worlds[n], sid)
    ensures sid in worlds[n].db.sessions
    ensures worlds[n].db.sessions[sid].refreshHash == worlds[m].db.sessions[sid].refreshHash
  {
    RunInvariant(svc, worlds, events, n);
    RunPersists(svc, worlds, events, m, n);
    RevokedMeansDead(svc, worlds[n], sid);
  }

  /** Every session was opened by a login, and a login opens at most one session. */
  lemma LoginsAreSingleUse(svc: Service, worlds: seq<World>, events: seq<Event>, n: nat)
    requires IsRun(svc, worlds, events) && n < |worlds|
    ensures forall sid | sid in worlds[n].db.sessions :: sid in worlds[n].loginOf
    ensures forall a, b | a in worlds[n].loginOf && b in worlds[n].loginOf
            && worlds[n].loginOf[a] == worlds[n].loginOf[b] :: a == b
  {
    RunInvariant(svc, worlds, events, n);
  }
}
