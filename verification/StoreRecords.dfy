/**
 What the stores hold, told from the mutations that took effect in a run
 (apps/mcp-notes/internal/adapters/sqlite/store.go, apps/mcp-agenda/internal/adapters/sqlite/store.go,
 apps/mcp-agenda/internal/scheduling/model.go).
 */
module StoreRecords {
  import opened Basics
  import opened ActionRuntime
  import opened Ledger
  import opened ExactlyOnce
  import A = AgendaStore
  import G = AgendaRules
  import N = NotesStore

  // ----- when a delivered mutation takes effect -----

  /** The mutation is admitted, no effect has its key yet, and the store's data allow it. */
  ghost predicate TakesEffect<D>(cfg: Config<D>, w: World<D>, f: Flight, draw: Draw)
    requires f.job.key.Some?
  {
    && cfg.domain.admit(f.job.name, f.job.args, f.job.confirmed).None?
    && !HasEffect(w.effects, f.job.key.value)
    && cfg.domain.apply(w.db.data, f.job.name, f.job.args, draw).Ok?
  }

  /**
   In every run, a delivered mutation takes effect if and only if it is admitted, no effect has its key and the store's
   data allow it; then it is recorded with its result, and the data change. Otherwise effects and data stay.
   */
  lemma TakesEffectIff<D(!new)>(cfg: Config<D>, worlds: seq<World<D>>, events: seq<Event>, n: nat, f: Flight,
                                draw: Draw)
    requires WellBound(cfg.tools) && IsRun(cfg, worlds, events) && n < |worlds|
    requires f in worlds[n].wire && f.job.key.Some? && IsMutation(cfg, f.job)
    ensures var w, w' := worlds[n], Step(cfg, worlds[n], Execute(f, draw));
            if TakesEffect(cfg, w, f, draw) then
              var (data, result) := cfg.domain.apply(w.db.data, f.job.name, f.job.args, draw).value;
              w'.effects == w.effects + [Effect(f, draw, result)] && w'.db.data == data
            else w'.effects == w.effects && w'.db.data == w.db.data
  {
    RunConsistent(cfg, worlds, events, n);
    MutationExecutes(cfg, worlds[n], f, draw);
    RecordedIff(cfg, worlds[n], f.job.key.value);
  }

  lemma RecordedIff<D>(cfg: Config<D>, w: World<D>, key: Digest)
    requires Consistent(cfg, w)
    ensures key in w.db.ledger <==> HasEffect(w.effects, key)
  {
    if HasEffect(w.effects, key) {
      var i :| 0 <= i < |w.effects| && w.effects[i].flight.job.key == Some(key);
      assert EffectRecorded(Origins(cfg, w.logs), cfg.canon, w.db.ledger, w.effects[i]);
    }
  }

  // ----- notes -----

  /** The effect creates the note under the id. */
  predicate CreatesNote(codec: N.Codec, e: Effect, id: string, note: N.Note) {
    && e.flight.job.name == "notes.create" && e.draw.id == id
    && var input := codec.decode(e.flight.job.args);
    input.Some? && note == N.Note(input.value.title, input.value.content, e.draw.now)
  }

  predicate DeletesNote(codec: N.Codec, e: Effect, id: string) {
    && e.flight.job.name == "notes.delete"
    && var input := codec.decode(e.flight.job.args);
    input.Some? && input.value.id == id
  }

  /** The i-th effect created the note, and no later one deleted it. */
  predicate NoteStands(codec: N.Codec, effects: seq<Effect>, i: nat, id: string, note: N.Note) {
    && i < |effects| && CreatesNote(codec, effects[i], id, note)
    && forall k | i < k < |effects| :: !DeletesNote(codec, effects[k], id)
  }

  ghost predicate NoteIsDue(codec: N.Codec, effects: seq<Effect>, id: string, note: N.Note) {
    exists i: nat :: NoteStands(codec, effects, i, id, note)
  }

  predicate HoldsNote(data: N.Data, id: string, note: N.Note) {
    id in data && data[id] == note
  }

  ghost predicate HoldsNotes(codec: N.Codec, effects: seq<Effect>, data: N.Data) {
    forall id, note :: HoldsNote(data, id, note) <==> NoteIsDue(codec, effects, id, note)
  }

  lemma NoteApplied(codec: N.Codec, data: N.Data, e: Effect, id: string, note: N.Note)
    requires N.Applied(codec, data, e.flight.job.name, e.flight.job.args, e.draw).Ok?
    ensures var data' := N.Applied(codec, data, e.flight.job.name, e.flight.job.args, e.draw).value.0;
            HoldsNote(data', id, note) <==>
            CreatesNote(codec, e, id, note) || (HoldsNote(data, id, note) && !DeletesNote(codec, e, id))
  {
  }

  lemma NoteDueOn(codec: N.Codec, effects: seq<Effect>, e: Effect, id: string, note: N.Note)
    ensures NoteIsDue(codec, effects + [e], id, note) <==>
            CreatesNote(codec, e, id, note) || (NoteIsDue(codec, effects, id, note) && !DeletesNote(codec, e, id))
  {
    var more := effects + [e];
    assert forall k | 0 <= k < |effects| :: more[k] == effects[k];
    assert more[|effects|] == e;
    if CreatesNote(codec, e, id, note) {
      assert NoteStands(codec, more, |effects|, id, note);
    } else if NoteIsDue(codec, effects, id, note) && !DeletesNote(codec, e, id) {
      var i: nat :| NoteStands(codec, effects, i, id, note);
      assert NoteStands(codec, more, i, id, note);
    }
    if NoteIsDue(codec, more, id, note) && !CreatesNote(codec, e, id, note) {
      var i: nat :| NoteStands(codec, more, i, id, note);
      assert NoteStands(codec, effects, i, id, note);
    }
  }

  lemma {:induction false} FoldedHoldsNotes(cfg: Config<N.Data>, codec: N.Codec, effects: seq<Effect>)
    requires cfg.domain == N.NotesDomain(codec) && cfg.initial == map[] && Folded(cfg, effects).Some?
    ensures HoldsNotes(codec, effects, Folded(cfg, effects).value)
    decreases |effects|
  {
    if effects != [] {
      var before, e := effects[..|effects| - 1], effects[|effects| - 1];
      FoldedHoldsNotes(cfg, codec, before);
      var data, data' := Folded(cfg, before).value, Folded(cfg, effects).value;
      assert effects == before + [e];
      NotesHeldOn(codec, before, e, data, data');
    }
  }

  lemma NotesHeldOn(codec: N.Codec, before: seq<Effect>, e: Effect, data: N.Data, data': N.Data)
    requires HoldsNotes(codec, before, data)
    requires N.Applied(codec, data, e.flight.job.name, e.flight.job.args, e.draw).Ok?
    requires data' == N.Applied(codec, data, e.flight.job.name, e.flight.job.args, e.draw).value.0
    ensures HoldsNotes(codec, before + [e], data')
  {
    forall id, note
      ensures HoldsNote(data', id, note) <==> NoteIsDue(codec, before + [e], id, note)
    {
      NoteApplied(codec, data, e, id, note);
      NoteDueOn(codec, before, e, id, note);
    }
  }

  /**
   In every run the notes held are exactly those that an effect created and none deleted since, each with the title
   and the content of its request and the time at which it was created.
   */
  lemma NotesAreThoseCreated(cfg: Config<N.Data>, codec: N.Codec, worlds: seq<World<N.Data>>, events: seq<Event>,
                             n: nat)
    requires cfg.domain == N.NotesDomain(codec) && cfg.initial == map[]
    requires WellBound(cfg.tools) && IsRun(cfg, worlds, events) && n < |worlds|
    ensures HoldsNotes(codec, worlds[n].effects, worlds[n].db.data)
  {
    EffectsHappenAtMostOnce(cfg, worlds, events, n);
    FoldedHoldsNotes(cfg, codec, worlds[n].effects);
  }

  /**
   A note can be created if and only if its texts are in order and the id is new; deleted if and only if it is there.
   */
  lemma NoteAllowedIff(codec: N.Codec, data: N.Data, name: string, args: string, draw: Draw)
    requires codec.decode(args).Some?
    ensures var input := codec.decode(args).value;
            N.Applied(codec, data, name, args, draw).Ok? <==>
            || (name == "notes.create" && !Blank(input.title) && !Blank(input.content) && draw.id !in data
                && Utf8Length(input.title) <= 256 && Utf8Length(input.content) <= 8192)
            || (name == "notes.delete" && input.id != "" && input.id in data)
  {
  }

  // ----- the agenda -----

  predicate CreatesEvent(e: Effect) {
    e.flight.job.name == "agenda.create_event"
  }

  predicate CancelsEvent(codec: A.Codec, e: Effect, id: string) {
    && e.flight.job.name == "agenda.cancel_event"
    && var input := codec.decode(e.flight.job.args);
    input.Some? && input.value.id == id
  }

  /** The effects that create an event, in order. */
  function Creations(effects: seq<Effect>): seq<nat> {
    if effects == [] then []
    else
      var n := |effects| - 1;
      Creations(effects[..n]) + if CreatesEvent(effects[n]) then [n] else []
  }

  /** The row is that of the i-th effect's request, and active unless a later effect cancelled it. */
  predicate RowOf(codec: A.Codec, effects: seq<Effect>, i: nat, row: A.AgendaEvent) {
    && i < |effects| && CreatesEvent(effects[i])
    && row.id == effects[i].draw.id
    && (row.active <==> forall k | i < k < |effects| :: !CancelsEvent(codec, effects[k], row.id))
    && var input := codec.decode(effects[i].flight.job.args);
    && input.Some? && row.title == input.value.title
    && input.value.start == Some(row.start) && input.value.end == Some(row.end)
  }

  predicate HoldsEvents(codec: A.Codec, effects: seq<Effect>, data: A.Data) {
    && |data| == |Creations(effects)|
    && forall k | 0 <= k < |data| :: RowOf(codec, effects, Creations(effects)[k], data[k])
  }

  lemma CreatedRow(codec: A.Codec, data: A.Data, e: Effect)
    requires A.Applied(codec, data, e.flight.job.name, e.flight.job.args, e.draw).Ok? && CreatesEvent(e)
    ensures var data' := A.Applied(codec, data, e.flight.job.name, e.flight.job.args, e.draw).value.0;
            && |data'| == |data| + 1 && data'[..|data|] == data && RowOf(codec, [e], 0, data'[|data|])
  {
  }

  lemma CancelledRows(codec: A.Codec, data: A.Data, e: Effect)
    requires A.Applied(codec, data, e.flight.job.name, e.flight.job.args, e.draw).Ok? && !CreatesEvent(e)
    ensures var data' := A.Applied(codec, data, e.flight.job.name, e.flight.job.args, e.draw).value.0;
            && |data'| == |data|
            && forall k | 0 <= k < |data| ::
                 data'[k] == data[k].(active := data[k].active && !CancelsEvent(codec, e, data[k].id))
  {
  }

  lemma RowStays(codec: A.Codec, effects: seq<Effect>, e: Effect, i: nat, row: A.AgendaEvent)
    requires RowOf(codec, effects, i, row)
    ensures RowOf(codec, effects + [e], i, row.(active := row.active && !CancelsEvent(codec, e, row.id)))
  {
    var more := effects + [e];
    assert forall k | 0 <= k < |effects| :: more[k] == effects[k];
    assert more[|effects|] == e;
  }

  lemma RowBegins(codec: A.Codec, effects: seq<Effect>, e: Effect, row: A.AgendaEvent)
    requires RowOf(codec, [e], 0, row)
    ensures RowOf(codec, effects + [e], |effects|, row)
  {
    assert (effects + [e])[|effects|] == e;
  }

  lemma EventsHeldOn(codec: A.Codec, before: seq<Effect>, e: Effect, data: A.Data, data': A.Data)
    requires HoldsEvents(codec, before, data)
    requires A.Applied(codec, data, e.flight.job.name, e.flight.job.args, e.draw).Ok?
    requires data' == A.Applied(codec, data, e.flight.job.name, e.flight.job.args, e.draw).value.0
    ensures HoldsEvents(codec, before + [e], data')
  {
    var effects := before + [e];
    assert effects[..|effects| - 1] == before;
    if CreatesEvent(e) {
      CreatedRow(codec, data, e);
      RowBegins(codec, before, e, data'[|data|]);
    } else {
      CancelledRows(codec, data, e);
    }
    forall k | 0 <= k < |data|
      ensures RowOf(codec, effects, Creations(before)[k], data'[k])
    {
      RowStays(codec, before, e, Creations(before)[k], data[k]);
      if CreatesEvent(e) {
        assert data'[k] == data[k];
        assert data[k].(active := data[k].active && !CancelsEvent(codec, e, data[k].id)) == data[k];
      }
    }
  }

  lemma {:induction false} FoldedHoldsEvents(cfg: Config<A.Data>, codec: A.Codec, effects: seq<Effect>)
    requires cfg.domain == A.AgendaDomain(codec) && cfg.initial == [] && Folded(cfg, effects).Some?
    ensures HoldsEvents(codec, effects, Folded(cfg, effects).value)
    decreases |effects|
  {
    if effects != [] {
      var before, e := effects[..|effects| - 1], effects[|effects| - 1];
      FoldedHoldsEvents(cfg, codec, before);
      assert effects == before + [e];
      EventsHeldOn(codec, before, e, Folded(cfg, before).value, Folded(cfg, effects).value);
    }
  }

  /**
   In every run the agenda's rows are those that effects created, in that order, each with the title and the times of
   its request, and active unless a later effect cancelled it.
   */
  lemma EventsAreThoseCreated(cfg: Config<A.Data>, codec: A.Codec, worlds: seq<World<A.Data>>, events: seq<Event>,
                              n: nat)
    requires cfg.domain == A.AgendaDomain(codec) && cfg.initial == []
    requires WellBound(cfg.tools) && IsRun(cfg, worlds, events) && n < |worlds|
    ensures HoldsEvents(codec, worlds[n].effects, worlds[n].db.data)
  {
    EffectsHappenAtMostOnce(cfg, worlds, events, n);
    FoldedHoldsEvents(cfg, codec, worlds[n].effects);
  }

  // ----- opening hours -----

  /** Midnight, three hours behind UTC, of the k-th day of week w; week 0 begins on Monday, 5 January 1970. */
  function Midnight(w: int, k: int): int {
    (4 + 7 * w + k) * 86400 + 10800
  }

  /** From nine to eighteen o'clock of one day from Monday to Friday, for at most eight hours. */
  ghost predicate InOpeningHours(a: int, b: int) {
    exists w: int, k: int :: 0 <= k < 5 && OpenOn(Midnight(w, k), a, b)
  }

  predicate OpenOn(midnight: int, a: int, b: int) {
    midnight + 9 * 3600 <= a && b <= midnight + 18 * 3600 && b - a <= 8 * 3600
  }

  /** An event can be booked for a period if and only if it lies in opening hours. */
  lemma AvailableIff(a: int, b: int)
    requires a < b
    ensures A.Available(a, b) <==> InOpeningHours(a, b)
  {
    if A.Available(a, b) {
      OpenWhenAvailable(a, b);
    }
    forall w: int, k: int | 0 <= k < 5 && OpenOn(Midnight(w, k), a, b)
      ensures A.Available(a, b)
    {
      AvailableWhenOpen(w, k, a, b);
    }
  }

  lemma DayOf(midnight: int, day: int, t: int)
    requires midnight == day * 86400 + 10800 && midnight <= t < midnight + 86400
    ensures A.LocalDay(t) == day && A.LocalHour(t) == (t - midnight) / 3600 && A.PastHour(t) == (t - midnight) % 3600
  {
    var s := t - midnight;
    assert A.Local(t) == day * 86400 + s;
    assert (day * 86400 + s) / 86400 == day && (day * 86400 + s) % 86400 == s;
    assert day * 86400 + s == (day * 24) * 3600 + s;
    assert ((day * 24) * 3600 + s) % 3600 == s % 3600;
  }

  lemma AvailableWhenOpen(w: int, k: int, a: int, b: int)
    requires a < b && 0 <= k < 5 && OpenOn(Midnight(w, k), a, b)
    ensures A.Available(a, b)
  {
    var day := 4 + 7 * w + k;
    DayOf(Midnight(w, k), day, a);
    DayOf(Midnight(w, k), day, b);
    assert (day + 4) % 7 == k + 1 by {
      assert day + 4 == 7 * (w + 1) + (k + 1);
    }
  }

  lemma OpenWhenAvailable(a: int, b: int)
    requires a < b && A.Available(a, b)
    ensures InOpeningHours(a, b)
  {
    var day := A.LocalDay(a);
    var midnight := day * 86400 + 10800;
    assert midnight <= a < midnight + 86400 && midnight <= b < midnight + 86400;
    DayOf(midnight, day, a);
    DayOf(midnight, day, b);
    var w, k := (day - 4) / 7, (day - 4) % 7;
    assert day == 4 + 7 * w + k;
    assert (day + 4) % 7 == (k + 1) % 7 by {
      assert day + 4 == 7 * (w + 1) + (k + 1);
    }
    assert OpenOn(Midnight(w, k), a, b);
  }

  // ----- what can be booked -----

  /** Some second of the period belongs to an active event. */
  predicate IsTaken(data: A.Data, a: int, b: int) {
    exists i, t :: 0 <= i < |data| && a <= t < b && TakesSecond(data[i], t)
  }

  predicate TakesSecond(row: A.AgendaEvent, t: int) {
    row.active && row.start <= t < row.end
  }

  lemma ConflictsIff(data: A.Data, a: int, b: int)
    requires G.ActiveAvailable(data) && a < b
    ensures A.Conflicts(data, a, b) <==> IsTaken(data, a, b)
  {
    if A.Conflicts(data, a, b) {
      var i :| 0 <= i < |data| && A.Overlaps(data[i], a, b);
      var t := if data[i].start > a then data[i].start else a;
      assert TakesSecond(data[i], t);
    }
    if IsTaken(data, a, b) {
      var i, t :| 0 <= i < |data| && a <= t < b && TakesSecond(data[i], t);
      assert A.Overlaps(data[i], a, b);
    }
  }

  /** The request names a period of at most 31 days, in which it begins before it ends. */
  predicate IsPeriod(input: A.Input, a: int, b: int) {
    input.start == Some(a) && input.end == Some(b) && a < b && b - a <= 31 * 24 * 3600
  }

  /**
   In a sound agenda an event can be created if and only if its request names a period, in opening hours and with no
   second of it taken, its title is in order and its id is new.
   */
  lemma EventAllowedIff(codec: A.Codec, data: A.Data, args: string, draw: Draw)
    requires codec.decode(args).Some? && G.Sound(data)
    ensures var input := codec.decode(args).value;
            A.Applied(codec, data, "agenda.create_event", args, draw).Ok? <==>
            && (exists a, b :: IsPeriod(input, a, b) && InOpeningHours(a, b) && !IsTaken(data, a, b))
            && !Blank(input.title) && Utf8Length(input.title) <= 256
            && forall i | 0 <= i < |data| :: data[i].id != draw.id
  {
    var input := codec.decode(args).value;
    if input.start.Some? && input.end.Some? {
      var a, b := input.start.value, input.end.value;
      if a < b {
        AvailableIff(a, b);
        ConflictsIff(data, a, b);
        assert IsPeriod(input, a, b) <==> A.Interval(input.start, input.end) == Some((a, b));
      }
    }
  }

  /** An event can be cancelled if and only if it is there and active. */
  lemma CancelAllowedIff(codec: A.Codec, data: A.Data, args: string, draw: Draw)
    requires codec.decode(args).Some? && G.Sound(data)
    ensures A.Applied(codec, data, "agenda.cancel_event", args, draw).Ok? <==>
            exists i :: 0 <= i < |data| && data[i].id == codec.decode(args).value.id && data[i].active
  {
    CountsActive(data, codec.decode(args).value.id);
  }

  lemma {:induction false} CountsActive(data: A.Data, id: string)
    requires G.DistinctIds(data)
    ensures A.ActiveCount(data, id) == if exists i ::
            0 <= i < |data| && data[i].id == id && data[i].active then 1 else 0
  {
    if data != [] {
      var rest := data[1..];
      assert forall i | 0 <= i < |rest| :: rest[i] == data[i + 1];
      CountsActive(rest, id);
      if data[0].id == id && data[0].active {
        assert forall i | 0 <= i < |rest| :: rest[i].id != id;
      } else if exists i :: 0 <= i < |data| && data[i].id == id && data[i].active {
        var i :| 0 <= i < |data| && data[i].id == id && data[i].active;
        assert rest[i - 1] == data[i];
      }
    }
  }

  /**
   In a sound agenda the search finds exactly the beginnings, a multiple of fifteen minutes after that of the period,
   from which a meeting of that length ends in the period, lies in opening hours and has no second taken.
   */
  lemma SlotsFoundIff(data: A.Data, a: int, b: int, d: int, x: int)
    requires d > 0 && G.Sound(data)
    ensures x in A.FreeSlots(data, a, b, d) <==>
            x >= a && (x - a) % 900 == 0 && x + d <= b && InOpeningHours(x, x + d) && !IsTaken(data, x, x + d)
  {
    G.FreeSlotsMembers(data, a, b, d, x);
    AvailableIff(x, x + d);
    ConflictsIff(data, x, x + d);
  }
}
