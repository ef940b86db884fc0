/** The notes and agenda stores behind the planner sessions: what holds of their data in every run. */
module DurableStores {
  import opened Basics
  import opened ActionRuntime
  import opened ExactlyOnce
  import A = AgendaStore
  import R = AgendaRules
  import N = NotesStore

  lemma {:induction false} FoldedIsSound(cfg: Config<A.Data>, codec: A.Codec, effects: seq<Effect>)
    requires cfg.domain == A.AgendaDomain(codec) && cfg.initial == []
    ensures Folded(cfg, effects).Some? ==> R.Sound(Folded(cfg, effects).value)
    decreases |effects|
  {
    if effects != [] {
      var before, e := effects[..|effects| - 1], effects[|effects| - 1];
      FoldedIsSound(cfg, codec, before);
      if Folded(cfg, effects).Some? {
        R.AppliedKeepsSound(codec, Folded(cfg, before).value, e.flight.job.name, e.flight.job.args, e.draw);
      }
    }
  }

  /**
   Whatever sessions crash or requests are delivered again, no two active events overlap,
   all lie in opening hours, and no local date holds more than nine hours of them.
   */
  lemma AgendaStaysSound(cfg: Config<A.Data>, codec: A.Codec, worlds: seq<World<A.Data>>, events: seq<Event>, n: nat,
                         day: int)
    requires cfg.domain == A.AgendaDomain(codec) && cfg.initial == []
    requires WellBound(cfg.tools) && IsRun(cfg, worlds, events) && n < |worlds|
    ensures R.Sound(worlds[n].db.data)
    ensures R.DayTotal(worlds[n].db.data, day) <= 9 * A.HOUR
  {
    EffectsHappenAtMostOnce(cfg, worlds, events, n);
    FoldedIsSound(cfg, codec, worlds[n].effects);
    var data := worlds[n].db.data;
    R.TotalIsTaken(data, day);
    SubsetSize(R.Taken(data, day), R.Range(R.Opening(day), R.Closing(day)));
    R.RangeSize(R.Opening(day), R.Closing(day));
  }

  /** Notes created minus notes deleted, over the effects. */
  function Balance(effects: seq<Effect>): int {
    if effects == [] then 0
    else Balance(effects[..|effects| - 1]) + if effects[|effects| - 1].flight.job.name == N.CREATE then 1 else -1
  }

  lemma {:induction false} FoldedBalances(cfg: Config<N.Data>, codec: N.Codec, effects: seq<Effect>)
    requires cfg.domain == N.NotesDomain(codec) && cfg.initial == map[]
    ensures Folded(cfg, effects).Some? ==>
              |Folded(cfg, effects).value| == Balance(effects) && N.AllValid(Folded(cfg, effects).value)
    decreases |effects|
  {
    if effects != [] {
      var before, e := effects[..|effects| - 1], effects[|effects| - 1];
      FoldedBalances(cfg, codec, before);
      if Folded(cfg, effects).Some? {
        var data := Folded(cfg, before).value;
        N.AppliedCounts(codec, data, e.flight.job.name, e.flight.job.args, e.draw);
        N.AppliedKeepsValid(codec, data, e.flight.job.name, e.flight.job.args, e.draw);
      }
    }
  }

  /** The store holds as many notes as were created less those deleted, each operation counted once. */
  lemma NotesAreConserved(cfg: Config<N.Data>, codec: N.Codec, worlds: seq<World<N.Data>>, events: seq<Event>, n: nat)
    requires cfg.domain == N.NotesDomain(codec) && cfg.initial == map[]
    requires WellBound(cfg.tools) && IsRun(cfg, worlds, events) && n < |worlds|
    ensures |worlds[n].db.data| == Balance(worlds[n].effects) && KeysDistinct(worlds[n].effects)
    ensures N.AllValid(worlds[n].db.data)
  {
    EffectsHappenAtMostOnce(cfg, worlds, events, n);
    FoldedBalances(cfg, codec, worlds[n].effects);
  }
}
