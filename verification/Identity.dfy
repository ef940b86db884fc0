/**
 Login transactions and account sessions
 (apps/mcp-identity/src/main/java/local/sts/identity/IdentityService.java).

 Claim, Open and Refresh are one database transaction each. Complete claims the login, asks the provider, and
 opens the session in a second transaction. Begin is no transaction: it counts the live logins of the device, and
 inserts another one in a second statement. Random values, clock readings and the provider's answer are inputs;
 hashes do not collide and decryption undoes encryption.
 */
module IdentityStore {
  import opened Basics

  type Id = string
  type Secret = string

  datatype Identity = Identity(issuer: string, subject: string, email: string, clientCode: string, enabled: bool)

  datatype Login = Login(device: string, stateHash: Digest, nonce: Secret, verifier: Secret, expires: int,
                         consumed: bool)

  datatype AccountSession = AccountSession(
    identity: Id,
    device: string,
    accessHash: Digest,
    refreshHash: Digest,
    providerToken: Secret,
    accessExpires: int,
    expires: int,
    revoked: bool)

  datatype Db = Db(
    identities: map<Id, Identity>,
    logins: map<Id, Login>,
    sessions: map<Id, AccountSession>,
    consumed: map<Digest, Id>)

  datatype ProviderTokens = ProviderTokens(subject: string, email: string, refresh: Secret, expiresAt: int)

  datatype Issued = Issued(access: Secret, refresh: Secret, expires: int)

  datatype Refreshed = SessionRevoked | Rotated(tokens: Issued)

  datatype Principal = Principal(subject: Id, clientCode: string, sessionRef: Id, device: string)

  /** A denied operation throws, so its transaction changes nothing. */
  datatype Answer<+T> = Granted(value: T) | Denied

  /** The configured provider, and the comparison of e-mail addresses. */
  datatype Service = Service(issuer: string, sameEmail: (string, string) -> bool)

  const LOGIN_SECONDS: int := 600
  const MAX_LIVE_LOGINS: nat := 5
  const ACCESS_SECONDS: int := 900
  const SESSION_SECONDS: int := 2592000

  function Hash(secret: Secret): Digest { Sha256(secret) }

  function Min(a: int, b: int): int { if a < b then a else b }

  predicate ValidDevice(device: string) {
    |device| == 64 && forall i | 0 <= i < 64 :: 'a' <= device[i] <= 'f' || '0' <= device[i] <= '9'
  }

  predicate Live(login: Login, device: string, now: int) {
    login.device == device && !login.consumed && login.expires > now
  }

  function LiveLogins(db: Db, device: string, now: int): set<Id> {
    set id | id in db.logins && Live(db.logins[id], device, now)
  }

  /** The UNIQUE columns of the schema. */
  ghost predicate UniqueHashes(db: Db) {
    && (forall a, b | a in db.sessions && b in db.sessions
        && db.sessions[a].refreshHash == db.sessions[b].refreshHash :: a == b)
    && (forall a, b | a in db.sessions && b in db.sessions
        && db.sessions[a].accessHash == db.sessions[b].accessHash :: a == b)
    && (forall a, b | a in db.logins && b in db.logins && db.logins[a].stateHash == db.logins[b].stateHash :: a == b)
    && (forall a, b | a in db.identities && b in db.identities &&
          db.identities[a].issuer == db.identities[b].issuer && db.identities[a].subject == db.identities[b].subject ::
            a == b)
  }

  ghost predicate HoldsRefresh(db: Db, sid: Id, hash: Digest, device: string) {
    sid in db.sessions && db.sessions[sid].refreshHash == hash && db.sessions[sid].device == device
  }

  ghost predicate HoldsAccess(db: Db, sid: Id, hash: Digest, device: string) {
    sid in db.sessions && db.sessions[sid].accessHash == hash && db.sessions[sid].device == device
  }

  predicate IsActive(s: AccountSession, access: bool, now: int) {
    !s.revoked && s.expires > now && (access ==> s.accessExpires > now)
  }

  ghost predicate KnownAs(db: Db, issuer: string, id: Id, subject: string) {
    id in db.identities && db.identities[id].issuer == issuer && db.identities[id].subject == subject
    && db.identities[id].enabled
  }

  /** Whether inserting or updating session sid to s would break a UNIQUE column. */
  predicate Clashes(db: Db, sid: Id, s: AccountSession) {
    exists other :: other in db.sessions && other != sid &&
      (db.sessions[other].refreshHash == s.refreshHash || db.sessions[other].accessHash == s.accessHash)
  }

  function WithSession(db: Db, sid: Id, s: AccountSession): Db {
    db.(sessions := db.sessions[sid := s])
  }

  function Revoking(db: Db, sid: Id): Db {
    if sid in db.sessions then WithSession(db, sid, db.sessions[sid].(revoked := true)) else db
  }

  // ----- logins -----

  /** The first half of beginning a login: the device has room for another one. */
  predicate MayBegin(db: Db, device: string, now: int) {
    ValidDevice(device) && |LiveLogins(db, device, now)| < MAX_LIVE_LOGINS
  }

  /** The second half, which counts no more. */
  function Inserting(db: Db, device: string, id: Id, state: Secret, nonce: Secret, verifier: Secret,
                     now: int): (Db, Answer<Id>) {
    if id in db.logins || (exists other :: other in db.logins && db.logins[other].stateHash == Hash(state)) then
      (db, Denied)
    else
      (db.(logins := db.logins[id := Login(device, Hash(state), nonce, verifier, now + LOGIN_SECONDS, false)]),
       Granted(id))
  }

  function Claiming(db: Db, id: Id, device: string, state: Secret, now: int): (Db, Answer<Login>) {
    if id !in db.logins || !Live(db.logins[id], device, now) || Hash(state) != db.logins[id].stateHash then (db, Denied)
    else (db.(logins := db.logins[id := db.logins[id].(consumed := true)]), Granted(db.logins[id]))
  }

  ghost predicate OpensFor(svc: Service, db: Db, p: ProviderTokens, owner: Id) {
    KnownAs(db, svc.issuer, owner, p.subject) && svc.sameEmail(p.email, db.identities[owner].email)
  }

  function NewSession(owner: Id, device: string, p: ProviderTokens, access: Secret, refresh: Secret,
                      now: int): AccountSession {
    AccountSession(owner, device, Hash(access), Hash(refresh), p.refresh, Min(now + ACCESS_SECONDS, p.expiresAt),
                   now + SESSION_SECONDS, false)
  }

  /** The provider's answer names this enabled owner, is not stale, and the new session breaks no UNIQUE column. */
  ghost predicate MayOpen(svc: Service, db: Db, owner: Id, device: string, p: ProviderTokens, sid: Id, access: Secret,
                          refresh: Secret, now: int)
  {
    var s := NewSession(owner, device, p, access, refresh, now);
    OpensFor(svc, db, p, owner) && s.accessExpires > now && sid !in db.sessions && !Clashes(db, sid, s)
  }

  /** The transaction that opens a session for the provider's answer. */
  ghost predicate Opens(svc: Service, db: Db, db': Db, device: string, p: ProviderTokens, sid: Id,
                        access: Secret, refresh: Secret, now: int, answer: Answer<Issued>)
  {
    match answer
    case Denied => db' == db && !exists owner :: MayOpen(svc, db, owner, device, p, sid, access, refresh, now)
    case Granted(issued) =>
      exists owner :: MayOpen(svc, db, owner, device, p, sid, access, refresh, now) &&
        var s := NewSession(owner, device, p, access, refresh, now);
        db' == WithSession(db, sid, s) && issued == Issued(access, refresh, s.accessExpires)
  }

  // ----- refresh -----

  predicate Unchanged(svc: Service, db: Db, s: AccountSession, p: ProviderTokens) {
    s.identity in db.identities && db.identities[s.identity].enabled &&
    p.subject == db.identities[s.identity].subject && svc.sameEmail(p.email, db.identities[s.identity].email)
  }

  function RotatedSession(s: AccountSession, p: ProviderTokens, access: Secret, refresh: Secret,
                          now: int): AccountSession {
    s.(accessHash := Hash(access), refreshHash := Hash(refresh), providerToken := p.refresh,
       accessExpires := Min(Min(now + ACCESS_SECONDS, p.expiresAt), s.expires))
  }

  /** Session sid holds the token for this device, may be refreshed, and the provider confirms its owner. */
  ghost predicate MayRotate(svc: Service, db: Db, sid: Id, token: Secret, device: string,
                            provider: Option<ProviderTokens>,
                            access: Secret, refresh: Secret, now: int)
  {
    && HoldsRefresh(db, sid, Hash(token), device) && IsActive(db.sessions[sid], false, now)
    && provider.Some? && Unchanged(svc, db, db.sessions[sid], provider.value)
    && !Clashes(db, sid, RotatedSession(db.sessions[sid], provider.value, access, refresh, now))
  }

  function Rotating(db: Db, sid: Id, token: Secret, p: ProviderTokens, access: Secret, refresh: Secret,
                    now: int): (Db, Issued)
    requires sid in db.sessions
  {
    var s := RotatedSession(db.sessions[sid], p, access, refresh, now);
    (WithSession(db, sid, s).(consumed := db.consumed[Hash(token) := sid]), Issued(access, refresh, s.accessExpires))
  }

  /** One use of a refresh token; provider is None when the provider refuses. */
  ghost predicate Refreshes(svc: Service, db: Db, db': Db, token: Secret, device: string,
                            provider: Option<ProviderTokens>,
                            access: Secret, refresh: Secret, now: int, answer: Answer<Refreshed>)
  {
    if Hash(token) in db.consumed then
      db' == Revoking(db, db.consumed[Hash(token)]) && answer == Granted(SessionRevoked)
    else
      match answer
      case Denied => db' == db && !exists sid :: MayRotate(svc, db, sid, token, device, provider, access, refresh, now)
      case Granted(refreshed) =>
        refreshed.Rotated? &&
        exists sid :: MayRotate(svc, db, sid, token, device, provider, access, refresh, now) &&
          (db', refreshed.tokens) == Rotating(db, sid, token, provider.value, access, refresh, now)
  }

  // ----- reading sessions -----

  predicate HasPrincipal(db: Db, s: AccountSession) {
    s.identity in db.identities && db.identities[s.identity].enabled
  }

  function PrincipalOf(db: Db, sid: Id): Principal
    requires sid in db.sessions && HasPrincipal(db, db.sessions[sid])
  {
    var s := db.sessions[sid];
    Principal(s.identity, db.identities[s.identity].clientCode, sid, s.device)
  }

  ghost predicate Introspects(db: Db, access: Secret, device: string, now: int, answer: Answer<Principal>) {
    match answer
    case Granted(p) =>
      exists sid :: HoldsAccess(db, sid, Hash(access), device) && IsActive(db.sessions[sid], true, now) &&
        HasPrincipal(db, db.sessions[sid]) && p == PrincipalOf(db, sid)
    case Denied =>
      !exists sid :: HoldsAccess(db, sid, Hash(access), device) && IsActive(db.sessions[sid], true, now) &&
        HasPrincipal(db, db.sessions[sid])
  }

  predicate Admits(db: Db, ref: Id, subject: Id, code: string, device: string, now: int) {
    ref in db.sessions && db.sessions[ref].device == device && IsActive(db.sessions[ref], true, now) &&
    HasPrincipal(db, db.sessions[ref]) &&
    PrincipalOf(db, ref).subject == subject && PrincipalOf(db, ref).clientCode == code
  }

  class IdentityService {
    const service: Service
    var identities: map<Id, Identity>
    var logins: map<Id, Login>
    var sessions: map<Id, AccountSession>
    var consumed: map<Digest, Id>

    ghost function Value(): Db
      reads this
    {
      Db(identities, logins, sessions, consumed)
    }

    method CountLogins(device: string, now: int) returns (mayBegin: bool)
      ensures mayBegin <==> MayBegin(Value(), device, now)
    {
      if !ValidDevice(device) {
        return false;
      }
      var live := set id | id in logins && Live(logins[id], device, now);
      assert live == LiveLogins(Value(), device, now);
      mayBegin := |live| < MAX_LIVE_LOGINS;
    }

    method InsertLogin(device: string, id: Id, state: Secret, nonce: Secret, verifier: Secret, now: int)
      returns (answer: Answer<Id>)
      modifies this`logins
      ensures (Value(), answer) == Inserting(old(Value()), device, id, state, nonce, verifier, now)
    {
      if id in logins || exists other :: other in logins && logins[other].stateHash == Hash(state) {
        return Denied;
      }
      logins := logins[id := Login(device, Hash(state), nonce, verifier, now + LOGIN_SECONDS, false)];
      answer := Granted(id);
    }

    /** Begin when no other caller comes between its two statements; runs interleave the statements. */
    method Begin(device: string, id: Id, state: Secret, nonce: Secret, verifier: Secret, countedAt: int,
                 insertedAt: int)
      returns (answer: Answer<Id>)
      modifies this`logins
      ensures (Value(), answer) == if MayBegin(old(Value()), device, countedAt)
                                   then Inserting(old(Value()), device, id, state, nonce, verifier, insertedAt)
                                   else (old(Value()), Denied)
    {
      var mayBegin := CountLogins(device, countedAt);
      if !mayBegin {
        return Denied;
      }
      answer := InsertLogin(device, id, state, nonce, verifier, insertedAt);
    }

    method Claim(id: Id, device: string, state: Secret, now: int) returns (answer: Answer<Login>)
      modifies this`logins
      ensures (Value(), answer) == Claiming(old(Value()), id, device, state, now)
    {
      if id !in logins || logins[id].device != device {
        return Denied;
      }
      var row := logins[id];
      if row.consumed || row.expires <= now {
        return Denied;
      }
      if Hash(state) != row.stateHash {
        return Denied;
      }
      logins := logins[id := row.(consumed := true)];
      answer := Granted(row);
    }

    method Open(device: string, p: ProviderTokens, sid: Id, access: Secret, refresh: Secret, now: int)
      returns (answer: Answer<Issued>)
      requires UniqueHashes(Value())
      modifies this`sessions
      ensures Opens(service, old(Value()), Value(), device, p, sid, access, refresh, now, answer)
    {
      ghost var db := Value();
      if owner :| owner in identities && identities[owner].issuer == service.issuer &&
                  identities[owner].subject == p.subject && identities[owner].enabled
      {
        if !service.sameEmail(p.email, identities[owner].email) {
          return Denied;
        }
        var expiry := Min(now + ACCESS_SECONDS, p.expiresAt);
        if expiry <= now {
          return Denied;
        }
        var s := AccountSession(owner, device, Hash(access), Hash(refresh), p.refresh, expiry, now + SESSION_SECONDS,
                                false);
        if sid in sessions || Clashes(Db(identities, logins, sessions, consumed), sid, s) {
          return Denied;
        }
        sessions := sessions[sid := s];
        assert MayOpen(service, db, owner, device, p, sid, access, refresh, now);
        return Granted(Issued(access, refresh, expiry));
      }
      answer := Denied;
    }

    /** The callback: claim the login, exchange the code with the provider, open the session. */
    method Complete(id: Id, device: string, state: Secret, provider: Option<ProviderTokens>, sid: Id, access: Secret,
                    refresh: Secret,
                    claimedAt: int, openedAt: int)
      returns (answer: Answer<Issued>)
      requires UniqueHashes(Value())
      modifies this`logins, this`sessions
      ensures var (db1, claimed) := Claiming(old(Value()), id, device, state, claimedAt);
              if claimed.Denied? || provider.None? then Value() == db1 && answer == Denied
              else Opens(service, db1, Value(), device, provider.value, sid, access, refresh, openedAt, answer)
    {
      var claimed := Claim(id, device, state, claimedAt);
      if claimed.Denied? || provider.None? {
        return Denied;
      }
      answer := Open(device, provider.value, sid, access, refresh, openedAt);
    }

    method Refresh(token: Secret, device: string, provider: Option<ProviderTokens>, access: Secret, refresh: Secret,
                   now: int)
      returns (answer: Answer<Refreshed>)
      requires UniqueHashes(Value())
      modifies this`sessions, this`consumed
      ensures Refreshes(service, old(Value()), Value(), token, device, provider, access, refresh, now, answer)
    {
      ghost var db := Value();
      if Hash(token) in consumed {
        var sid := consumed[Hash(token)];
        if sid in sessions {
          sessions := sessions[sid := sessions[sid].(revoked := true)];
        }
        return Granted(SessionRevoked);
      }
      if sid :| sid in sessions && sessions[sid].refreshHash == Hash(token) && sessions[sid].device == device {
        var s := sessions[sid];
        assert HoldsRefresh(db, sid, Hash(token), device);
        if s.revoked || s.expires <= now {
          return Denied;
        }
        if provider.None? {
          return Denied;
        }
        var p := provider.value;
        if s.identity !in identities || !identities[s.identity].enabled {
          return Denied;
        }
        if p.subject != identities[s.identity].subject || !service.sameEmail(p.email, identities[s.identity].email) {
          return Denied;
        }
        var expiry := Min(Min(now + ACCESS_SECONDS, p.expiresAt), s.expires);
        var s' := s.(accessHash := Hash(access), refreshHash := Hash(refresh), providerToken := p.refresh,
                     accessExpires := expiry);
        assert s' == RotatedSession(db.sessions[sid], p, access, refresh, now);
        if Clashes(Db(identities, logins, sessions, consumed), sid, s') {
          return Denied;
        }
        assert MayRotate(service, db, sid, token, device, provider, access, refresh, now);
        consumed := consumed[Hash(token) := sid];
        sessions := sessions[sid := s'];
        return Granted(Rotated(Issued(access, refresh, expiry)));
      }
      answer := Denied;
    }

    method Introspect(access: Secret, device: string, now: int) returns (answer: Answer<Principal>)
      requires UniqueHashes(Value())
      ensures Introspects(Value(), access, device, now, answer)
    {
      if sid :| sid in sessions && sessions[sid].accessHash == Hash(access) && sessions[sid].device == device {
        var s := sessions[sid];
        assert HoldsAccess(Value(), sid, Hash(access), device);
        if s.revoked || s.expires <= now || s.accessExpires <= now {
          return Denied;
        }
        if s.identity !in identities || !identities[s.identity].enabled {
          return Denied;
        }
        return Granted(Principal(s.identity, identities[s.identity].clientCode, sid, s.device));
      }
      answer := Denied;
    }

    method Session(ref: Id, subject: Id, code: string, device: string, now: int) returns (answer: Answer<Principal>)
      ensures answer == if Admits(Value(), ref, subject, code, device, now) then Granted(PrincipalOf(Value(), ref))
              else Denied
    {
      if ref !in sessions || sessions[ref].device != device {
        return Denied;
      }
      var s := sessions[ref];
      if s.revoked || s.expires <= now || s.accessExpires <= now {
        return Denied;
      }
      if s.identity !in identities || !identities[s.identity].enabled {
        return Denied;
      }
      var p := Principal(s.identity, identities[s.identity].clientCode, ref, s.device);
      if subject != p.subject || code != p.clientCode {
        return Denied;
      }
      answer := Granted(p);
    }

    method Logout(ref: Id, subject: Id, code: string, device: string, now: int) returns (answer: Answer<()>)
      modifies this`sessions
      ensures answer == if Admits(old(Value()), ref, subject, code, device, now) then Granted(()) else Denied
      ensures Value() == if answer.Granted? then Revoking(old(Value()), ref) else old(Value())
    {
      var p := Session(ref, subject, code, device, now);
      if p.Denied? {
        return Denied;
      }
      sessions := sessions[ref := sessions[ref].(revoked := true)];
      answer := Granted(());
    }

    method LogoutRefresh(token: Secret, device: string) returns (answer: Answer<()>)
      requires UniqueHashes(Value())
      modifies this`sessions
      ensures answer.Granted? ==>
                exists sid ::
                  HoldsRefresh(old(Value()), sid, Hash(token), device) && Value() == Revoking(old(Value()), sid)
      ensures answer.Denied? ==>
                Value() == old(Value()) && !exists sid :: HoldsRefresh(old(Value()), sid, Hash(token), device)
    {
      ghost var db := Value();
      if sid :| sid in sessions && sessions[sid].refreshHash == Hash(token) && sessions[sid].device == device {
        assert HoldsRefresh(db, sid, Hash(token), device);
        sessions := sessions[sid := sessions[sid].(revoked := true)];
        return Granted(());
      }
      answer := Denied;
    }
  }
}
