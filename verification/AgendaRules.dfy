/** What every agenda reachable by creating and cancelling satisfies, and what slot search promises. */
module AgendaRules {
  import opened Basics
  import opened Ledger
  import opened AgendaStore

  predicate Apart(e: AgendaEvent, f: AgendaEvent) {
    e.end <= f.start || f.end <= e.start
  }

  predicate ActiveAvailable(data: Data) {
    forall i | 0 <= i < |data| && data[i].active :: data[i].start < data[i].end && Available(data[i].start, data[i].end)
  }

  predicate ActiveApart(data: Data) {
    forall i, k | 0 <= i < k < |data| && data[i].active && data[k].active :: Apart(data[i], data[k])
  }

  predicate DistinctIds(data: Data) {
    forall i, k | 0 <= i < k < |data| :: data[i].id != data[k].id
  }

  predicate Sound(data: Data) {
    ActiveAvailable(data) && ActiveApart(data) && DistinctIds(data)
  }

  lemma CreateKeepsSound(data: Data, input: Input, id: string)
    requires Sound(data) && Creating(data, input, id).Ok?
    ensures Sound(data + [Creating(data, input, id).value])
  {
    var e := Creating(data, input, id).value;
    assert !Conflicts(data, e.start, e.end);
    forall i | 0 <= i < |data|
      ensures data[i].active ==> Apart(data[i], e)
      ensures data[i].id != id
    {
      assert !Overlaps(data[i], e.start, e.end);
    }
  }

  lemma AppliedKeepsSound(codec: Codec, data: Data, name: string, args: string, draw: Draw)
    requires Sound(data) && Applied(codec, data, name, args, draw).Ok?
    ensures Sound(Applied(codec, data, name, args, draw).value.0)
  {
    if name == CREATE {
      CreateKeepsSound(data, codec.decode(args).value, draw.id);
    }
  }

  /** Mutations as they arrive at the store. */
  datatype Request = Request(key: string, name: string, args: string, confirmed: bool, draw: Draw)

  function Served(codec: Codec, db: Db<string, Data>, requests: seq<Request>): Db<string, Data>
    decreases |requests|
  {
    if requests == [] then db
    else
      var r := requests[0];
      var db' := if 0 < |r.key| <= 256
                 then Transact(AgendaDomain(codec), codec.canon, db, r.key, r.name, r.args, r.confirmed, r.draw).0
                 else db;
      Served(codec, db', requests[1..])
  }

  /** In every reachable agenda, active events are available and pairwise disjoint half-open intervals. */
  lemma {:induction false} ReachableAgendasAreSound(codec: Codec, db: Db<string, Data>, requests: seq<Request>)
    requires Sound(db.data)
    ensures Sound(Served(codec, db, requests).data)
    decreases |requests|
  {
    if requests != [] {
      var r := requests[0];
      if 0 < |r.key| <= 256 {
        var next := Transact(AgendaDomain(codec), codec.canon, db, r.key, r.name, r.args, r.confirmed, r.draw).0;
        if next.data != db.data {
          AppliedKeepsSound(codec, db.data, r.name, r.args, r.draw);
        }
        ReachableAgendasAreSound(codec, next, requests[1..]);
      } else {
        ReachableAgendasAreSound(codec, db, requests[1..]);
      }
    }
  }

  // ----- no day holds more than nine hours -----

  function DayTotal(data: Data, day: int): int {
    if data == [] then 0
    else (if data[0].active && LocalDay(data[0].start) == day then data[0].end - data[0].start else 0)
         + DayTotal(data[1..], day)
  }

  predicate Within(a: int, t: int, b: int) { a <= t < b }

  function Range(a: int, b: int): set<int> {
    set t | a <= t < b && Within(a, t, b)
  }

  lemma {:induction false} RangeSize(a: int, b: int)
    requires a <= b
    ensures |Range(a, b)| == b - a
    decreases b - a
  {
    if a < b {
      RangeSize(a + 1, b);
      assert Range(a, b) == {a} + Range(a + 1, b);
    } else {
      assert Range(a, b) == {};
    }
  }

  /** The seconds of a day taken by active events. */
  function Taken(data: Data, day: int): set<int> {
    if data == [] then {}
    else (if data[0].active && LocalDay(data[0].start) == day then Range(data[0].start, data[0].end) else {})
         + Taken(data[1..], day)
  }

  function Opening(day: int): int { day * DAY - LOCAL_OFFSET + OPENS * HOUR }

  function Closing(day: int): int { day * DAY - LOCAL_OFFSET + CLOSES * HOUR }

  lemma AvailableWithinHours(a: int, b: int)
    requires Available(a, b) && a < b
    ensures Opening(LocalDay(a)) <= a && b <= Closing(LocalDay(a))
  {
    var x, y := Local(a), Local(b);
    assert x == x / DAY * DAY + x % DAY && y == y / DAY * DAY + y % DAY;
    assert y % DAY == y % DAY / HOUR * HOUR + y % DAY % HOUR;
    assert y % HOUR == y % DAY % HOUR by {
      HourOfDay(y);
    }
  }

  lemma HourOfDay(y: int)
    ensures y % DAY % HOUR == y % HOUR
  {
    assert y == y / DAY * DAY + y % DAY && DAY == 24 * HOUR;
    assert y == (y / DAY * 24 + y % DAY / HOUR) * HOUR + y % DAY % HOUR;
  }

  lemma {:induction false} TakenBefore(data: Data, day: int, e: AgendaEvent, t: int)
    requires forall i | 0 <= i < |data| && data[i].active :: Apart(e, data[i])
    requires e.start <= t < e.end
    ensures t !in Taken(data, day)
  {
    if data != [] {
      assert forall i | 0 <= i < |data[1..]| :: data[1..][i] == data[i + 1];
      TakenBefore(data[1..], day, e, t);
      assert data[0].active ==> Apart(e, data[0]);
    }
  }

  lemma {:induction false} TotalIsTaken(data: Data, day: int)
    requires Sound(data)
    ensures DayTotal(data, day) == |Taken(data, day)|
    ensures Taken(data, day) <= Range(Opening(day), Closing(day))
  {
    if data != [] {
      var e, rest := data[0], data[1..];
      TotalIsTaken(rest, day);
      if e.active && LocalDay(e.start) == day {
        AvailableWithinHours(e.start, e.end);
        RangeSize(e.start, e.end);
        forall t | t in Range(e.start, e.end)
          ensures t !in Taken(rest, day)
        {
          assert forall i | 0 <= i < |rest| && rest[i].active :: Apart(e, data[i + 1]);
          TakenBefore(rest, day, e, t);
        }
        assert Range(e.start, e.end) !! Taken(rest, day);
      }
    }
  }

  /** The active events of any local date last at most nine hours together. */
  lemma AtMostNineHoursADay(codec: Codec, requests: seq<Request>, day: int)
    ensures 0 <= DayTotal(Served(codec, Db([], map[]), requests).data, day) <= 9 * HOUR
  {
    var data := Served(codec, Db([], map[]), requests).data;
    ReachableAgendasAreSound(codec, Db([], map[]), requests);
    TotalIsTaken(data, day);
    SubsetSize(Taken(data, day), Range(Opening(day), Closing(day)));
    RangeSize(Opening(day), Closing(day));
  }

  // ----- cancelling, seeding -----

  lemma ConflictsAppend(data: Data, e: AgendaEvent, a: int, b: int)
    ensures Conflicts(data + [e], a, b) <==> Conflicts(data, a, b) || Overlaps(e, a, b)
  {
    var all := data + [e];
    if Conflicts(data, a, b) {
      var i :| 0 <= i < |data| && Overlaps(data[i], a, b);
      assert Overlaps(all[i], a, b);
    }
    assert all[|data|] == e;
  }

  /** Cancelling a created event frees exactly what creating it took. */
  lemma CancelUndoesCreate(data: Data, input: Input, id: string, a: int, b: int)
    requires Creating(data, input, id).Ok?
    ensures var data' := Cancelled(data + [Creating(data, input, id).value], id);
            Conflicts(data', a, b) <==> Conflicts(data, a, b)
  {
    var e := Creating(data, input, id).value;
    var data' := Cancelled(data + [e], id);
    assert forall i | 0 <= i < |data| :: data[i].id != id;
    assert data' == data + [e.(active := false)];
    ConflictsAppend(data, e.(active := false), a, b);
  }

  const FIXTURE: AgendaEvent := AgendaEvent("fixture-2030", "Reunião fictícia", 1905166800, 1905170400, true)

  /** Seeding inserts the fixture unless its id is taken, and looks at nothing else. */
  function Seeded(data: Data): Data {
    if HasId(data, FIXTURE.id) then data else data + [FIXTURE]
  }

  /** Seeding keeps an agenda sound exactly when the id is taken or the fixture's hour is free. */
  lemma SeedingIsSoundIff(data: Data)
    requires Sound(data)
    ensures Sound(Seeded(data)) <==> HasId(data, FIXTURE.id) || !Conflicts(data, FIXTURE.start, FIXTURE.end)
  {
    var seeded := Seeded(data);
    if !HasId(data, FIXTURE.id) {
      assert Available(FIXTURE.start, FIXTURE.end);
      assert forall i | 0 <= i < |data| :: data[i].id != FIXTURE.id;
      assert seeded[|data|] == FIXTURE;
      if Conflicts(data, FIXTURE.start, FIXTURE.end) {
        var i :| 0 <= i < |data| && Overlaps(data[i], FIXTURE.start, FIXTURE.end);
        assert seeded[i].active && seeded[|data|].active && !Apart(seeded[i], seeded[|data|]);
      } else {
        assert forall i | 0 <= i < |data| :: !Overlaps(data[i], FIXTURE.start, FIXTURE.end);
      }
    }
  }

  // ----- slot search -----

  predicate OnGrid(a: int, x: int) {
    a <= x && (x - a) % GRID == 0
  }

  predicate Free(data: Data, x: int, b: int, d: int) {
    x + d <= b && Available(x, x + d) && !Conflicts(data, x, x + d)
  }

  predicate Increasing(slots: seq<int>) {
    forall i, k | 0 <= i < k < |slots| :: slots[i] < slots[k]
  }

  lemma {:induction false} FreeSlotsMembers(data: Data, a: int, b: int, d: int, x: int)
    requires d > 0
    ensures x in FreeSlots(data, a, b, d) <==> OnGrid(a, x) && Free(data, x, b, d)
    decreases b - a
  {
    if a + d <= b {
      FreeSlotsMembers(data, a + GRID, b, d, x);
      GridStep(a, x);
    }
  }

  lemma {:induction false} FreeSlotsSorted(data: Data, a: int, b: int, d: int)
    requires d > 0
    ensures Increasing(FreeSlots(data, a, b, d))
    decreases b - a
  {
    if a + d <= b {
      FreeSlotsSorted(data, a + GRID, b, d);
      var rest := FreeSlots(data, a + GRID, b, d);
      forall k | 0 <= k < |rest|
        ensures a < rest[k]
      {
        assert rest[k] in rest;
        FreeSlotsMembers(data, a + GRID, b, d, rest[k]);
      }
      PrependSorted(a, rest);
    }
  }

  lemma PrependSorted(a: int, rest: seq<int>)
    requires forall k | 0 <= k < |rest| :: a < rest[k]
    requires Increasing(rest)
    ensures Increasing([a] + rest)
    ensures [] + rest == rest
  {
  }

  /** Slot search finds exactly the grid points that can be met, in increasing order. */
  lemma FreeSlotsExact(data: Data, a: int, b: int, d: int)
    requires d > 0
    ensures var slots := FreeSlots(data, a, b, d);
            (forall x :: x in slots <==> OnGrid(a, x) && Free(data, x, b, d)) &&
            Increasing(slots)
  {
    forall x
      ensures x in FreeSlots(data, a, b, d) <==> OnGrid(a, x) && Free(data, x, b, d)
    {
      FreeSlotsMembers(data, a, b, d, x);
    }
    FreeSlotsSorted(data, a, b, d);
  }

  lemma GridStep(a: int, x: int)
    ensures OnGrid(a, x) <==> x == a || OnGrid(a + GRID, x)
  {
    assert (x - a) % GRID == (x - (a + GRID)) % GRID;
    assert a < x < a + GRID ==> (x - a) % GRID == x - a;
  }

  /** Every slot the search returns can be booked in the same agenda, with any valid title and new id. */
  lemma SlotsAreBookable(data: Data, search: Input, x: int, title: string, id: string)
    requires Interval(search.start, search.end).Some? && ValidDuration(search.minutes)
    requires var (a, b) := Interval(search.start, search.end).value;
             x in First(FreeSlots(data, a, b, search.minutes * 60), MAX_SLOTS)
    requires !Blank(title) && Utf8Length(title) <= 256 && !HasId(data, id)
    ensures var input := Input("", title, Some(x), Some(x + search.minutes * 60), 0);
            Creating(data, input, id) == Ok(AgendaEvent(id, title, x, x + search.minutes * 60, true))
  {
    var (a, b) := Interval(search.start, search.end).value;
    FreeSlotsMembers(data, a, b, search.minutes * 60, x);
    assert x in FreeSlots(data, a, b, search.minutes * 60);
  }
}
