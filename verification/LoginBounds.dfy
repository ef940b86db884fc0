/** How many live logins a device can have, when begins count and insert in two statements and overlap. */
module LoginBounds {
  import opened Basics
  import opened IdentityStore
  import opened IdentityRuns

  function LiveAt(w: World, device: string): nat {
    |LiveLogins(w.db, device, w.now)|
  }

  /** The begins of a device that have counted and not yet inserted. */
  function InFlight(w: World, device: string): set<Id> {
    set b | b in w.begins && w.begins[b] == device
  }

  // ----- what one event does to a device's live logins -----

  /** An insertion that is not refused adds one live login to its device. */
  ghost predicate Inserts(w: World, e: Event, device: string) {
    && e.InsertEvent? && e.begin in w.begins && w.begins[e.begin] == device
    && e.id !in w.db.logins && !exists other :: other in w.db.logins && w.db.logins[other].stateHash == Hash(e.state)
  }

  lemma InsertedLive(db: Db, id: Id, login: Login, device: string, now: int)
    requires id !in db.logins && login.expires > now && !login.consumed
    ensures var db' := db.(logins := db.logins[id := login]);
            |LiveLogins(db', device, now)| == |LiveLogins(db, device, now)| + if device == login.device then 1 else 0
  {
    var before, after := LiveLogins(db, device, now), LiveLogins(db.(logins := db.logins[id := login]), device, now);
    assert after == if device == login.device then before + {id} else before;
  }

  /** Events other than insertions add no live login. */
  lemma FewerLive(w: World, w': World, device: string)
    requires w.now <= w'.now && LiveLogins(w'.db, device, w'.now) <= LiveLogins(w.db, device, w.now)
    ensures LiveAt(w', device) <= LiveAt(w, device)
  {
    SubsetSize(LiveLogins(w'.db, device, w'.now), LiveLogins(w.db, device, w.now));
  }

  lemma SameLoginsFewer(w: World, w': World, device: string)
    requires w.now <= w'.now && w'.db.logins == w.db.logins
    ensures LiveAt(w', device) <= LiveAt(w, device) && (w'.now == w.now ==> LiveAt(w', device) == LiveAt(w, device))
  {
    assert w'.now == w.now ==> LiveLogins(w'.db, device, w'.now) == LiveLogins(w.db, device, w.now);
    FewerLive(w, w', device);
  }

  lemma InsertLive(w: World, e: Event, w': World, device: string)
    requires e.InsertEvent? && NextInsert(w, e, w')
    ensures LiveAt(w', device) == LiveAt(w, device) + if Inserts(w, e, device) then 1 else 0
  {
    if w'.db != w.db {
      InsertedLive(w.db, e.id, Login(w.begins[e.begin], Hash(e.state), e.nonce, e.verifier, w.now + LOGIN_SECONDS,
                                     false), device, w.now);
    }
  }

  lemma ClaimLive(w: World, e: Event, w': World, device: string)
    requires e.ClaimEvent? && NextClaim(w, e, w')
    ensures LiveAt(w', device) <= LiveAt(w, device)
  {
    FewerLive(w, w', device);
  }

  lemma OpenLive(svc: Service, w: World, e: Event, w': World)
    requires e.OpenEvent? && NextOpen(svc, w, e, w')
    ensures w'.db.logins == w.db.logins && w'.now == w.now && w'.begins == w.begins
  {
    OpeningPersists(svc, w.db, w'.db, w.claims[e.login], e.p, e.sid, e.access, e.refresh, w.now, e.opening);
  }

  /** Only an insertion for the device adds a live login, and it adds one. */
  lemma StepLive(svc: Service, w: World, e: Event, w': World, device: string)
    requires RefreshAccounted(w) && Next(svc, w, e, w')
    ensures if Inserts(w, e, device) then LiveAt(w', device) == LiveAt(w, device) + 1
            else LiveAt(w', device) <= LiveAt(w, device)
  {
    match e
    case InsertEvent(_, _, _, _, _) => InsertLive(w, e, w', device);
    case ClaimEvent(_, _, _) => ClaimLive(w, e, w', device);
    case OpenEvent(_, _, _, _, _, _) =>
      OpenLive(svc, w, e, w');
      SameLoginsFewer(w, w', device);
    case RefreshEvent(_, _, _, _, _, _) =>
      RefreshOnlySessions(svc, w, e, w');
      SameLoginsFewer(w, w', device);
    case _ => SameLoginsFewer(w, w', device);
  }

  /** Only a count adds a begin of the device, and a begin leaves with its insertion. */
  lemma StepInFlight(svc: Service, w: World, e: Event, w': World, device: string)
    requires RefreshAccounted(w) && Next(svc, w, e, w')
    ensures !e.CountEvent? ==> |InFlight(w', device)| <= |InFlight(w, device)| - if Inserts(w, e, device) then 1 else 0
    ensures e.CountEvent? && InFlight(w', device) != InFlight(w, device) ==>
              LiveAt(w, device) < MAX_LIVE_LOGINS && LiveAt(w', device) == LiveAt(w, device)
  {
    match e
    case OpenEvent(_, _, _, _, _, _) => OpenLive(svc, w, e, w');
    case RefreshEvent(_, _, _, _, _, _) => RefreshOnlySessions(svc, w, e, w');
    case InsertEvent(begin, _, _, _, _) => LeavesFlight(w, w', device, begin);
    case DropEvent(begin) => LeavesFlight(w, w', device, begin);
    case _ =>
  }

  lemma LeavesFlight(w: World, w': World, device: string, begin: Id)
    requires begin in w.begins && w'.begins == w.begins - {begin}
    ensures |InFlight(w', device)| == |InFlight(w, device)| - if w.begins[begin] == device then 1 else 0
  {
    assert InFlight(w', device) == InFlight(w, device) - {begin};
  }

  /** A begin of the device has counted and not yet inserted. */
  predicate Flies(w: World, begin: Id, device: string) {
    begin in w.begins && w.begins[begin] == device
  }

  lemma StepFlies(svc: Service, w: World, e: Event, w': World, device: string, begin: Id)
    requires RefreshAccounted(w) && Next(svc, w, e, w') && Flies(w', begin, device) && !Flies(w, begin, device)
    ensures e == CountEvent(device, begin) && LiveAt(w, device) < MAX_LIVE_LOGINS
    ensures LiveAt(w', device) == LiveAt(w, device)
  {
    match e
    case OpenEvent(_, _, _, _, _, _) => OpenLive(svc, w, e, w');
    case RefreshEvent(_, _, _, _, _, _) => RefreshOnlySessions(svc, w, e, w');
    case _ =>
  }

  /** What an event does to the live logins of a device and to its begins in flight. */
  ghost predicate Accounts(w: World, e: Event, w': World, device: string) {
    && LiveAt(w', device) <= LiveAt(w, device) + (if Inserts(w, e, device) then 1 else 0)
    && (Inserts(w, e, device) ==> LiveAt(w', device) == LiveAt(w, device) + 1)
    && (!e.CountEvent? ==> |InFlight(w', device)| <= |InFlight(w, device)| - if Inserts(w, e, device) then 1 else 0)
    && (e.CountEvent? && InFlight(w', device) != InFlight(w, device) ==>
          LiveAt(w, device) < MAX_LIVE_LOGINS && LiveAt(w', device) == LiveAt(w, device))
    && (forall begin | Flies(w', begin, device) && !Flies(w, begin, device) ::
          e == CountEvent(device, begin) && LiveAt(w, device) < MAX_LIVE_LOGINS
          && LiveAt(w', device) == LiveAt(w, device))
  }

  lemma StepAccounts(svc: Service, w: World, e: Event, w': World, device: string)
    requires RefreshAccounted(w) && Next(svc, w, e, w')
    ensures Accounts(w, e, w', device)
  {
    StepLive(svc, w, e, w', device);
    StepInFlight(svc, w, e, w', device);
    forall begin | Flies(w', begin, device) && !Flies(w, begin, device)
      ensures e == CountEvent(device, begin) && LiveAt(w, device) < MAX_LIVE_LOGINS
      ensures LiveAt(w', device) == LiveAt(w, device)
    {
      StepFlies(svc, w, e, w', device, begin);
    }
  }

  /** A run, as far as the logins of one device are concerned. */
  ghost predicate IsAccount(worlds: seq<World>, events: seq<Event>, device: string) {
    && |worlds| == |events| + 1 && LiveAt(worlds[0], device) == 0 && InFlight(worlds[0], device) == {}
    && forall n | 0 <= n < |events| :: Accounts(worlds[n], events[n], worlds[n + 1], device)
  }

  lemma RunAccounts(svc: Service, worlds: seq<World>, events: seq<Event>, device: string)
    requires IsRun(svc, worlds, events)
    ensures IsAccount(worlds, events, device)
  {
    assert LiveLogins(worlds[0].db, device, worlds[0].now) == {};
    forall n | 0 <= n < |events|
      ensures Accounts(worlds[n], events[n], worlds[n + 1], device)
    {
      RunInvariant(svc, worlds, events, n);
      StepAccounts(svc, worlds[n], events[n], worlds[n + 1], device);
    }
  }

  // ----- the bound in the number of begins in flight -----

  /** At most k begins of the device are ever in flight at once. */
  ghost predicate AtMostInFlight(worlds: seq<World>, device: string, k: nat) {
    forall n | 0 <= n < |worlds| :: FewInFlight(worlds[n], device, k)
  }

  predicate FewInFlight(w: World, device: string, k: nat) {
    |InFlight(w, device)| <= k
  }

  lemma {:induction false} LiveAndInFlight(worlds: seq<World>, events: seq<Event>, n: nat, device: string, k: nat)
    requires IsAccount(worlds, events, device) && n < |worlds| && AtMostInFlight(worlds, device, k)
    ensures LiveAt(worlds[n], device) + |InFlight(worlds[n], device)| <= MAX_LIVE_LOGINS - 1 + k
  {
    if n > 0 {
      LiveAndInFlight(worlds, events, n - 1, device, k);
      assert Accounts(worlds[n - 1], events[n - 1], worlds[n - 1 + 1], device);
      assert FewInFlight(worlds[n], device, k);
    }
  }

  /** With at most k begins of a device in flight at once, it never has more than 4 + k live logins. */
  lemma LiveLoginsBounded(svc: Service, worlds: seq<World>, events: seq<Event>, n: nat, device: string, k: nat)
    requires IsRun(svc, worlds, events) && n < |worlds| && AtMostInFlight(worlds, device, k)
    ensures LiveAt(worlds[n], device) <= MAX_LIVE_LOGINS - 1 + k
  {
    RunAccounts(svc, worlds, events, device);
    LiveAndInFlight(worlds, events, n, device, k);
  }

  // ----- the bound is reached -----

  function Unary(n: nat): (id: Id)
    ensures |id| == n
  {
    seq(n, _ => 'a')
  }

  function Names(lo: nat, hi: nat): set<Id> {
    set i | lo <= i < hi :: Unary(i)
  }

  lemma NamesAre(lo: nat, hi: nat, n: nat)
    ensures Unary(n) in Names(lo, hi) <==> lo <= n < hi
  {
    if Unary(n) in Names(lo, hi) {
      var i :| lo <= i < hi && Unary(i) == Unary(n);
    }
  }

  lemma NamesGrow(lo: nat, hi: nat)
    requires lo <= hi
    ensures Names(lo, hi + 1) == Names(lo, hi) + {Unary(hi)}
  {
  }

  lemma {:induction false} NamesCount(lo: nat, hi: nat)
    requires lo <= hi
    ensures |Names(lo, hi)| == hi - lo
    decreases hi
  {
    if lo == hi {
      assert Names(lo, hi) == {};
    } else {
      NamesCount(lo, hi - 1);
      NamesGrow(lo, hi - 1);
      NamesAre(lo, hi - 1, hi - 1);
    }
  }

  function BurstLogin(device: string, id: Id): Login {
    Login(device, Hash(id), "", "", LOGIN_SECONDS, false)
  }

  /** The first n begins have inserted, and those up to hi have counted. */
  function Burst(device: string, n: nat, hi: nat): World {
    World(Db(map[], map id | id in Names(0, n) :: BurstLogin(device, id), map[], map[]), 0,
          map b | b in Names(n, hi) :: device, map[], map[], map[], map[], Handed(map[], map[], map[]))
  }

  lemma BurstCounts(device: string, n: nat, hi: nat)
    requires n <= hi
    ensures LiveAt(Burst(device, n, hi), device) == n && |InFlight(Burst(device, n, hi), device)| == hi - n
  {
    var w := Burst(device, n, hi);
    assert LiveLogins(w.db, device, w.now) == Names(0, n);
    assert InFlight(w, device) == Names(n, hi);
    NamesCount(0, n);
    NamesCount(n, hi);
  }

  lemma BurstCount(device: string, n: nat, hi: nat)
    requires ValidDevice(device) && n < MAX_LIVE_LOGINS && n <= hi
    ensures NextCount(Burst(device, n, hi), CountEvent(device, Unary(hi)), Burst(device, n, hi + 1))
  {
    BurstCounts(device, n, hi);
    NamesAre(n, hi, hi);
    NamesGrow(n, hi);
    assert Burst(device, n, hi + 1).begins == Burst(device, n, hi).begins[Unary(hi) := device];
  }

  function BurstInsertion(n: nat): Event {
    InsertEvent(Unary(n), Unary(n), Unary(n), "", "")
  }

  lemma BurstInsert(device: string, n: nat, hi: nat)
    requires n < hi
    ensures NextInsert(Burst(device, n, hi), BurstInsertion(n), Burst(device, n + 1, hi))
  {
    var w, w' := Burst(device, n, hi), Burst(device, n + 1, hi);
    NamesAre(n, hi, n);
    NamesAre(0, n, n);
    NamesGrow(0, n);
    assert w'.db.logins == w.db.logins[Unary(n) := BurstLogin(device, Unary(n))];
    assert Names(n + 1, hi) == Names(n, hi) - {Unary(n)} by {
      forall i | n <= i < hi && Unary(i) == Unary(n)
        ensures i == n
      {
        assert |Unary(i)| == |Unary(n)|;
      }
    }
    assert w'.begins == w.begins - {Unary(n)};
  }

  ghost predicate RunsTo(svc: Service, worlds: seq<World>, events: seq<Event>, w: World) {
    IsRun(svc, worlds, events) && worlds[|events|] == w
  }

  lemma OneMore(svc: Service, worlds: seq<World>, events: seq<Event>, w: World, e: Event, w': World, device: string,
                k: nat)
    requires RunsTo(svc, worlds, events, w) && Next(svc, w, e, w') && AtMostInFlight(worlds, device, k)
    requires FewInFlight(w', device, k)
    ensures RunsTo(svc, worlds + [w'], events + [e], w') && AtMostInFlight(worlds + [w'], device, k)
  {
    var worlds', events' := worlds + [w'], events + [e];
    forall i | 0 <= i < |events'|
      ensures Next(svc, worlds'[i], events'[i], worlds'[i + 1])
    {
      if i < |events| {
        assert worlds'[i] == worlds[i] && worlds'[i + 1] == worlds[i + 1] && events'[i] == events[i];
      }
    }
  }

  /** The first n begins have inserted, those up to hi have counted, and at most k were in flight at once. */
  ghost predicate Reaches(svc: Service, worlds: seq<World>, events: seq<Event>, device: string, n: nat, hi: nat,
                          k: nat) {
    RunsTo(svc, worlds, events, Burst(device, n, hi)) && AtMostInFlight(worlds, device, k)
  }

  lemma OneMoreCount(svc: Service, worlds: seq<World>, events: seq<Event>, device: string, n: nat, hi: nat, k: nat)
    returns (worlds': seq<World>, events': seq<Event>)
    requires Reaches(svc, worlds, events, device, n, hi, k)
    requires ValidDevice(device) && n < MAX_LIVE_LOGINS && n <= hi < n + k
    ensures Reaches(svc, worlds', events', device, n, hi + 1, k)
    ensures worlds' == worlds + [Burst(device, n, hi + 1)] && events' == events + [CountEvent(device, Unary(hi))]
  {
    var e, w' := CountEvent(device, Unary(hi)), Burst(device, n, hi + 1);
    BurstCount(device, n, hi);
    BurstCounts(device, n, hi + 1);
    OneMore(svc, worlds, events, Burst(device, n, hi), e, w', device, k);
    worlds', events' := worlds + [w'], events + [e];
  }

  lemma OneMoreInsertion(svc: Service, worlds: seq<World>, events: seq<Event>, device: string, n: nat, hi: nat, k: nat)
    returns (worlds': seq<World>, events': seq<Event>)
    requires Reaches(svc, worlds, events, device, n, hi, k) && n < hi <= n + 1 + k
    ensures Reaches(svc, worlds', events', device, n + 1, hi, k)
    ensures worlds' == worlds + [Burst(device, n + 1, hi)] && events' == events + [BurstInsertion(n)]
  {
    var w' := Burst(device, n + 1, hi);
    BurstInsert(device, n, hi);
    BurstCounts(device, n + 1, hi);
    OneMore(svc, worlds, events, Burst(device, n, hi), BurstInsertion(n), w', device, k);
    worlds', events' := worlds + [w'], events + [BurstInsertion(n)];
  }

  lemma OneMoreBegin(svc: Service, worlds: seq<World>, events: seq<Event>, device: string, n: nat, k: nat)
    returns (worlds': seq<World>, events': seq<Event>)
    requires n > 0 && Reaches(svc, worlds, events, device, n - 1, n - 1, k)
    requires ValidDevice(device) && n <= MAX_LIVE_LOGINS && k >= 1
    ensures Reaches(svc, worlds', events', device, n, n, k)
  {
    var counted, counts := OneMoreCount(svc, worlds, events, device, n - 1, n - 1, k);
    worlds', events' := OneMoreInsertion(svc, counted, counts, device, n - 1, n, k);
  }

  lemma NoBegin(svc: Service, device: string, k: nat) returns (worlds: seq<World>, events: seq<Event>)
    ensures Reaches(svc, worlds, events, device, 0, 0, k)
  {
    worlds, events := [Burst(device, 0, 0)], [];
    assert Names(0, 0) == {};
    BurstCounts(device, 0, 0);
  }

  /** Up to five begins one after the other. */
  lemma {:induction false} CalmRun(svc: Service, device: string, n: nat, k: nat)
    returns (worlds: seq<World>, events: seq<Event>)
    requires ValidDevice(device) && n <= MAX_LIVE_LOGINS && k >= 1
    ensures Reaches(svc, worlds, events, device, n, n, k)
  {
    if n == 0 {
      worlds, events := NoBegin(svc, device, k);
    } else {
      var before, begun := CalmRun(svc, device, n - 1, k);
      worlds, events := OneMoreBegin(svc, before, begun, device, n, k);
    }
  }

  /** Then begins that have all counted four. */
  lemma {:induction false} CrowdRun(svc: Service, device: string, hi: nat, k: nat)
    returns (worlds: seq<World>, events: seq<Event>)
    requires ValidDevice(device) && 4 <= hi <= 4 + k && k >= 1
    ensures Reaches(svc, worlds, events, device, 4, hi, k)
  {
    if hi == 4 {
      worlds, events := CalmRun(svc, device, 4, k);
    } else {
      var before, begun := CrowdRun(svc, device, hi - 1, k);
      worlds, events := OneMoreCount(svc, before, begun, device, 4, hi - 1, k);
    }
  }

  lemma InsertsAnother(svc: Service, worlds: seq<World>, events: seq<Event>, device: string, n: nat, hi: nat, k: nat)
    returns (worlds': seq<World>, events': seq<Event>)
    requires n > 0 && Reaches(svc, worlds, events, device, n - 1, hi, k) && n <= hi <= n + k
    ensures Reaches(svc, worlds', events', device, n, hi, k)
  {
    worlds', events' := OneMoreInsertion(svc, worlds, events, device, n - 1, hi, k);
  }

  /** Then they insert one after the other. */
  lemma {:induction false} BurstRun(svc: Service, device: string, n: nat, hi: nat, k: nat)
    returns (worlds: seq<World>, events: seq<Event>)
    requires ValidDevice(device) && 4 <= n <= hi == 4 + k && k >= 1
    ensures Reaches(svc, worlds, events, device, n, hi, k)
  {
    if n == 4 {
      worlds, events := CrowdRun(svc, device, hi, k);
    } else {
      var before, begun := BurstRun(svc, device, n - 1, hi, k);
      worlds, events := InsertsAnother(svc, before, begun, device, n, hi, k);
    }
  }

  /** Begins that overlap k at a time can leave a device with 4 + k live logins. */
  lemma BurstReaches(svc: Service, device: string, k: nat) returns (worlds: seq<World>, events: seq<Event>)
    requires ValidDevice(device) && k >= 1
    ensures IsRun(svc, worlds, events) && AtMostInFlight(worlds, device, k) && LiveAt(worlds[|events|], device) == 4 + k
  {
    worlds, events := BurstRun(svc, device, 4 + k, 4 + k, k);
    BurstCounts(device, 4 + k, 4 + k);
  }

  /** Two begins that overlap: both count four live logins, both insert, and the device has six. */
  lemma TwoBeginsOverlap(svc: Service, device: string) returns (worlds: seq<World>, events: seq<Event>)
    requires ValidDevice(device)
    ensures IsRun(svc, worlds, events) && |events| >= 4
    ensures events[|events| - 4..] ==
            [CountEvent(device, Unary(4)), CountEvent(device, Unary(5)), BurstInsertion(4), BurstInsertion(5)]
    ensures LiveAt(worlds[|events| - 4], device) == 4 && LiveAt(worlds[|events|], device) == 6
  {
    var calm, quiet := CalmRun(svc, device, 4, 2);
    BurstCounts(device, 4, 4);
    var one, first := OneMoreCount(svc, calm, quiet, device, 4, 4, 2);
    var two, second := OneMoreCount(svc, one, first, device, 4, 5, 2);
    var three, third := OneMoreInsertion(svc, two, second, device, 4, 6, 2);
    worlds, events := OneMoreInsertion(svc, three, third, device, 5, 6, 2);
    BurstCounts(device, 6, 6);
    assert worlds[|quiet|] == calm[|quiet|];
    assert events[|events| - 4..] == [CountEvent(device, Unary(4)), CountEvent(device, Unary(5)), BurstInsertion(4),
                                      BurstInsertion(5)];
  }

  /** No run with at most k begins of the device in flight at once exceeds the bound of five. */
  ghost predicate FiveHolds(svc: Service, device: string, k: nat) {
    forall worlds, events, n: nat | IsRun(svc, worlds, events) && n < |worlds| && AtMostInFlight(worlds, device, k) ::
      LiveAt(worlds[n], device) <= MAX_LIVE_LOGINS
  }

  /** The bound of five live logins holds exactly when begins of the device do not overlap. */
  lemma FiveIffOneAtATime(svc: Service, device: string, k: nat)
    requires ValidDevice(device)
    ensures FiveHolds(svc, device, k) <==> k <= 1
  {
    if k <= 1 {
      forall worlds, events, n: nat | IsRun(svc, worlds, events) && n < |worlds| && AtMostInFlight(worlds, device, k)
        ensures LiveAt(worlds[n], device) <= MAX_LIVE_LOGINS
      {
        LiveLoginsBounded(svc, worlds, events, n, device, k);
      }
    } else {
      var worlds, events := BurstReaches(svc, device, k);
    }
  }

  // ----- when a run exceeds the bound -----

  ghost predicate KeepsFive(worlds: seq<World>, device: string) {
    forall n | 0 <= n < |worlds| :: LiveAt(worlds[n], device) <= MAX_LIVE_LOGINS
  }

  /** Event i inserts a login although the device already has five live ones. */
  ghost predicate InsertsSixth(worlds: seq<World>, events: seq<Event>, device: string, i: nat)
    requires i < |events| < |worlds|
  {
    Inserts(worlds[i], events[i], device) && LiveAt(worlds[i], device) >= MAX_LIVE_LOGINS
  }

  lemma {:induction false} FiveUnlessSixth(worlds: seq<World>, events: seq<Event>, n: nat, device: string)
    requires IsAccount(worlds, events, device) && n < |worlds|
    requires forall i | 0 <= i < |events| :: !InsertsSixth(worlds, events, device, i)
    ensures LiveAt(worlds[n], device) <= MAX_LIVE_LOGINS
  {
    if n > 0 {
      FiveUnlessSixth(worlds, events, n - 1, device);
      assert Accounts(worlds[n - 1], events[n - 1], worlds[n - 1 + 1], device);
      assert !InsertsSixth(worlds, events, device, n - 1);
    }
  }

  /** A begin is in flight at every point after event c and up to event i. */
  ghost predicate FliesFrom(worlds: seq<World>, device: string, begin: Id, c: nat, i: nat)
    requires i < |worlds|
  {
    forall m | c < m <= i :: Flies(worlds[m], begin, device)
  }

  /** Event c counted for the begin that inserts in event i. */
  ghost predicate CountsFor(worlds: seq<World>, events: seq<Event>, device: string, begin: Id, c: nat, i: nat)
    requires i < |events| < |worlds|
  {
    && c < i && events[c] == CountEvent(device, begin) && LiveAt(worlds[c], device) < MAX_LIVE_LOGINS
    && FliesFrom(worlds, device, begin, c, i)
  }

  /** A begin in flight has counted, and had room when it did. */
  lemma {:induction false} SomeCount(worlds: seq<World>, events: seq<Event>, device: string, begin: Id, n: nat)
    returns (c: nat)
    requires IsAccount(worlds, events, device) && n < |worlds| && Flies(worlds[n], begin, device)
    ensures c < n && events[c] == CountEvent(device, begin) && LiveAt(worlds[c], device) < MAX_LIVE_LOGINS
    ensures LiveAt(worlds[c + 1], device) == LiveAt(worlds[c], device) && FliesFrom(worlds, device, begin, c, n)
  {
    assert begin in InFlight(worlds[n], device);
    assert Accounts(worlds[n - 1], events[n - 1], worlds[n - 1 + 1], device);
    if Flies(worlds[n - 1], begin, device) {
      c := SomeCount(worlds, events, device, begin, n - 1);
    } else {
      c := n - 1;
    }
  }

  /** The last insertion that made four live logins five, from which on there were five. */
  lemma {:induction false} FifthInsertion(worlds: seq<World>, events: seq<Event>, device: string, from: nat, n: nat)
    returns (j: nat)
    requires IsAccount(worlds, events, device) && from < n < |worlds|
    requires LiveAt(worlds[from], device) < MAX_LIVE_LOGINS <= LiveAt(worlds[n], device)
    ensures from <= j < n && Inserts(worlds[j], events[j], device) && LiveAt(worlds[j], device) == MAX_LIVE_LOGINS - 1
    ensures forall m | j < m <= n :: LiveAt(worlds[m], device) >= MAX_LIVE_LOGINS
  {
    assert Accounts(worlds[n - 1], events[n - 1], worlds[n - 1 + 1], device);
    if LiveAt(worlds[n - 1], device) < MAX_LIVE_LOGINS {
      j := n - 1;
    } else {
      j := FifthInsertion(worlds, events, device, from, n - 1);
    }
  }

  /**
   Between the count of the begin that inserts in event i and that insertion, another begin of the device inserted
   while four logins were live, and from then on five were.
   */
  ghost predicate Overtaken(worlds: seq<World>, events: seq<Event>, device: string, c: nat, j: nat, i: nat)
    requires c < j < i < |events| < |worlds|
  {
    && Inserts(worlds[i], events[i], device) && CountsFor(worlds, events, device, events[i].begin, c, i)
    && Inserts(worlds[j], events[j], device) && LiveAt(worlds[j], device) == MAX_LIVE_LOGINS - 1
    && forall m | j < m <= i :: LiveAt(worlds[m], device) >= MAX_LIVE_LOGINS
  }

  lemma SixthIsOvertaken(worlds: seq<World>, events: seq<Event>, device: string, i: nat) returns (c: nat, j: nat)
    requires IsAccount(worlds, events, device) && i < |events| && InsertsSixth(worlds, events, device, i)
    ensures c < j < i && Overtaken(worlds, events, device, c, j, i)
  {
    c := SomeCount(worlds, events, device, events[i].begin, i);
    j := FifthInsertion(worlds, events, device, c + 1, i);
  }

  lemma OvertakenExceeds(worlds: seq<World>, events: seq<Event>, device: string, c: nat, j: nat, i: nat)
    requires IsAccount(worlds, events, device) && c < j < i < |events| && Overtaken(worlds, events, device, c, j, i)
    ensures LiveAt(worlds[i + 1], device) > MAX_LIVE_LOGINS
  {
    assert Accounts(worlds[i], events[i], worlds[i + 1], device);
  }

  /** A run keeps the bound of five exactly when no begin of the device is overtaken. */
  lemma FiveIffNotOvertaken(svc: Service, worlds: seq<World>, events: seq<Event>, device: string)
    requires IsRun(svc, worlds, events)
    ensures KeepsFive(worlds, device) <==>
            forall c, j, i | 0 <= c < j < i < |events| :: !Overtaken(worlds, events, device, c, j, i)
  {
    RunAccounts(svc, worlds, events, device);
    FiveIffNone(worlds, events, device);
  }

  lemma FiveIffNone(worlds: seq<World>, events: seq<Event>, device: string)
    requires IsAccount(worlds, events, device)
    ensures KeepsFive(worlds, device) <==>
            forall c, j, i | 0 <= c < j < i < |events| :: !Overtaken(worlds, events, device, c, j, i)
  {
    forall c, j, i | 0 <= c < j < i < |events| && Overtaken(worlds, events, device, c, j, i)
      ensures !KeepsFive(worlds, device)
    {
      OvertakenExceeds(worlds, events, device, c, j, i);
    }
    if forall c, j, i | 0 <= c < j < i < |events| :: !Overtaken(worlds, events, device, c, j, i) {
      forall i | 0 <= i < |events|
        ensures !InsertsSixth(worlds, events, device, i)
      {
        if InsertsSixth(worlds, events, device, i) {
          var c, j := SixthIsOvertaken(worlds, events, device, i);
        }
      }
      forall n | 0 <= n < |worlds|
        ensures LiveAt(worlds[n], device) <= MAX_LIVE_LOGINS
      {
        FiveUnlessSixth(worlds, events, n, device);
      }
    }
  }
}
