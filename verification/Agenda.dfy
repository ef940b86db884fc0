/**
 The agenda store and its scheduling arithmetic
 (apps/mcp-agenda/internal/adapters/sqlite/store.go, internal/scheduling/model.go).
 Instants are integer seconds; local time is three hours behind UTC.
 */
module AgendaStore {
  import opened Basics
  import opened Ledger

  const DAY: int := 86400
  const HOUR: int := 3600
  const LOCAL_OFFSET: int := -10800
  const OPENS: int := 9
  const CLOSES: int := 18
  const LONGEST: int := 28800
  const WIDEST: int := 2678400
  const GRID: int := 900
  const MAX_SLOTS: nat := 100

  function Local(t: int): int { t + LOCAL_OFFSET }

  function LocalDay(t: int): int { Local(t) / DAY }

  function LocalHour(t: int): int { Local(t) % DAY / HOUR }

  /** Seconds past the full hour. */
  function PastHour(t: int): int { Local(t) % HOUR }

  /** Sunday is 0; the epoch was a Thursday. */
  function Weekday(t: int): int { (LocalDay(t) + 4) % 7 }

  predicate Available(a: int, b: int) {
    && Weekday(a) != 6 && Weekday(a) != 0
    && LocalDay(a) == LocalDay(b)
    && LocalHour(a) >= OPENS
    && (LocalHour(b) < CLOSES || (LocalHour(b) == CLOSES && PastHour(b) == 0))
    && b - a <= LONGEST
  }

  /** The two instants of a request; None stands for a text that is not a whole-second instant. */
  function Interval(start: Option<int>, end: Option<int>): Option<(int, int)> {
    if start.Some? && end.Some? && start.value < end.value && end.value - start.value <= WIDEST
    then Some((start.value, end.value)) else None
  }

  datatype AgendaEvent = AgendaEvent(id: string, title: string, start: int, end: int, active: bool)

  datatype Input = Input(id: string, title: string, start: Option<int>, end: Option<int>, minutes: int)

  datatype Codec = Codec(
    decode: string -> Option<Input>,
    canon: string -> string,
    created: AgendaEvent -> string,
    cancelled: string -> string)

  /** The rows of agenda_events in insertion order. */
  type Data = seq<AgendaEvent>

  const CREATE: string := "agenda.create_event"
  const CANCEL: string := "agenda.cancel_event"

  predicate Overlaps(e: AgendaEvent, a: int, b: int) {
    e.active && e.start < b && e.end > a
  }

  predicate Conflicts(data: Data, a: int, b: int) {
    exists i :: 0 <= i < |data| && Overlaps(data[i], a, b)
  }

  predicate HasId(data: Data, id: string) {
    exists i :: 0 <= i < |data| && data[i].id == id
  }

  function Cancelled(data: Data, id: string): Data {
    seq(|data|, i requires 0 <= i < |data| => if data[i].id == id && data[i].active then data[i].(active := false)
        else data[i])
  }

  function ActiveCount(data: Data, id: string): nat {
    if data == [] then 0 else (if data[0].id == id && data[0].active then 1 else 0) + ActiveCount(data[1..], id)
  }

  function Admitted(codec: Codec, name: string, args: string, confirmed: bool): Option<string> {
    if codec.decode(args).None? then Some("invalid_arguments")
    else if name == CANCEL && !confirmed then Some("confirmation_required")
    else None
  }

  function Creating(data: Data, input: Input, id: string): Result<AgendaEvent, string> {
    match Interval(input.start, input.end)
    case None => Err("invalid_interval")
    case Some((a, b)) =>
      if Blank(input.title) || Utf8Length(input.title) > 256 then Err("invalid_title")
      else if !Available(a, b) then Err("outside_availability")
      else if Conflicts(data, a, b) then Err("slot_conflict")
      else if HasId(data, id) then Err("constraint")
      else Ok(AgendaEvent(id, input.title, a, b, true))
  }

  function Applied(codec: Codec, data: Data, name: string, args: string, draw: Draw): Result<(Data, string), string> {
    match codec.decode(args)
    case None => Err("invalid_arguments")
    case Some(input) =>
      if name == CREATE then
        match Creating(data, input, draw.id)
        case Err(code) => Err(code)
        case Ok(event) => Ok((data + [event], codec.created(event)))
      else if name == CANCEL then
        if ActiveCount(data, input.id) != 1 then Err("event_not_found")
        else Ok((Cancelled(data, input.id), codec.cancelled(input.id)))
      else Err("unknown_mutation")
  }

  function AgendaDomain(codec: Codec): Domain<Data> {
    Domain((name: string, args: string, confirmed: bool) => Admitted(codec, name, args, confirmed),
           (data: Data, name: string, args: string, draw: Draw) => Applied(codec, data, name, args, draw))
  }

  // ----- slot search -----

  /** The grid points from x on that can hold a meeting of d seconds ending by b. */
  function FreeSlots(data: Data, x: int, b: int, d: int): seq<int>
    decreases b - x
  {
    if x + d > b || d <= 0 then []
    else (if Available(x, x + d) && !Conflicts(data, x, x + d) then [x] else []) + FreeSlots(data, x + GRID, b, d)
  }

  function First(slots: seq<int>, n: nat): seq<int> {
    if |slots| <= n then slots else slots[..n]
  }

  lemma FirstOf(slots: seq<int>, rest: seq<int>)
    requires |slots| <= MAX_SLOTS && (rest == [] || |slots| == MAX_SLOTS)
    ensures First(slots + rest, MAX_SLOTS) == slots
  {
    assert (slots + rest)[..|slots|] == slots;
  }

  predicate ValidDuration(minutes: int) {
    15 <= minutes <= 240 && minutes % 15 == 0
  }

  class Agenda {
    const codec: Codec
    var events: seq<AgendaEvent>
    var operations: map<string, Row>

    ghost function Value(): Db<string, Data>
      reads this
    {
      Db(events, operations)
    }

    constructor (codec: Codec)
      ensures this.codec == codec && Value() == Db([], map[])
    {
      this.codec := codec;
      events, operations := [], map[];
    }

    method Slots(input: Input) returns (r: Result<seq<int>, string>)
      ensures match Interval(input.start, input.end)
              case None => r == Err("invalid_interval")
              case Some((a, b)) =>
                r == if !ValidDuration(input.minutes) then Err("invalid_duration")
                     else Ok(First(FreeSlots(events, a, b, input.minutes * 60), MAX_SLOTS))
    {
      var interval := Interval(input.start, input.end);
      if interval.None? {
        return Err("invalid_interval");
      }
      if input.minutes < 15 || input.minutes > 240 || input.minutes % 15 != 0 {
        return Err("invalid_duration");
      }
      var (a, b) := interval.value;
      var slots := Search(a, b, input.minutes * 60);
      r := Ok(slots);
    }

    method Search(a: int, b: int, duration: int) returns (slots: seq<int>)
      requires duration > 0
      ensures slots == First(FreeSlots(events, a, b, duration), MAX_SLOTS)
    {
      slots := [];
      var x := a;
      ghost var all := FreeSlots(events, a, b, duration);
      while x + duration <= b && |slots| < MAX_SLOTS
        invariant |slots| <= MAX_SLOTS
        invariant slots + FreeSlots(events, x, b, duration) == all
        decreases b - x
      {
        var y := x + duration;
        ghost var rest := FreeSlots(events, x + GRID, b, duration);
        ghost var before := slots;
        if Available(x, y) {
          var conflict := Conflicts(events, x, y);
          if !conflict {
            slots := slots + [x];
            assert before + ([x] + rest) == slots + rest;
          }
        }
        assert slots + rest == all;
        x := x + GRID;
      }
      FirstOf(slots, FreeSlots(events, x, b, duration));
    }

    method CancelActive(id: string) returns (changed: nat)
      modifies this`events
      ensures events == Cancelled(old(events), id)
      ensures changed == ActiveCount(old(events), id)
    {
      changed := 0;
      var i := 0;
      ghost var before := events;
      while i < |events|
        invariant 0 <= i <= |events| == |before|
        invariant changed + ActiveCount(before[i..], id) == ActiveCount(before, id)
        invariant events[i..] == before[i..]
        invariant events[..i] == Cancelled(before, id)[..i]
      {
        assert events[i] == before[i..][0] && before[i..][1..] == before[i + 1..];
        assert Cancelled(before, id)[..i + 1] == Cancelled(before, id)[..i] + [Cancelled(before, id)[i]];
        if events[i].id == id && events[i].active {
          events := events[i := events[i].(active := false)];
          changed := changed + 1;
        }
        i := i + 1;
      }
    }

    method MutateAgenda(key: string, name: string, args: string, confirmed: bool, draw: Draw) returns (answer: Answered)
      modifies this
      ensures !(0 < |key| <= 256) ==> Value() == old(Value()) && answer == Rejected("invalid_key")
      ensures 0 < |key| <= 256 ==>
                (Value(), answer) == Transact(AgendaDomain(codec), codec.canon, old(Value()), key, name, args,
                                              confirmed, draw)
    {
      if key == "" || |key| > 256 {
        return Rejected("invalid_key");
      }
      var decoded := codec.decode(args);
      if decoded.None? {
        return Rejected("invalid_arguments");
      }
      var input := decoded.value;
      if name == CANCEL && !confirmed {
        return Rejected("confirmation_required");
      }
      var canonical := codec.canon(args);
      if key in operations {
        var row := operations[key];
        if row.name != name || row.arguments != canonical {
          return Conflict;
        }
        return Replayed(row.result);
      }
      var result;
      if name == CREATE {
        var interval := Interval(input.start, input.end);
        if interval.None? {
          return Rejected("invalid_interval");
        }
        var (a, b) := interval.value;
        if Blank(input.title) || Utf8Length(input.title) > 256 {
          return Rejected("invalid_title");
        }
        if !Available(a, b) {
          return Rejected("outside_availability");
        }
        if Conflicts(events, a, b) {
          return Rejected("slot_conflict");
        }
        if HasId(events, draw.id) {
          return Rejected("constraint");
        }
        var event := AgendaEvent(draw.id, input.title, a, b, true);
        events := events + [event];
        result := codec.created(event);
      } else if name == CANCEL {
        var before := events;
        var n := CancelActive(input.id);
        if n != 1 {
          events := before;
          return Rejected("event_not_found");
        }
        result := codec.cancelled(input.id);
      } else {
        return Rejected("unknown_mutation");
      }
      operations := operations[key := Row(name, canonical, result)];
      answer := Committed(result);
    }
  }
}
