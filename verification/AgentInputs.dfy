/** The input frames that the personal assistant's loop accepts. */
module AgentInputs {
  import opened Basics
  import R = RealtimeMapper
  import A = ActionRuntime
  import opened AgentParts
  import opened WorkerPool
  import opened AgentLoop
  import opened AgentRuns

  predicate Continues(frame: Output, last: Output) {
    frame.ToEar? && last.ToEar? && frame.turn == last.turn && frame.sequence == last.sequence + 1
  }

  predicate HeardIn(frames: seq<Output>, turn: Id) {
    exists j :: 0 <= j < |frames| && frames[j].ToEar? && frames[j].turn == turn
  }

  /** A frame continues the one before it, or is the first of a turn not heard before. */
  predicate InPlace(frames: seq<Output>, k: nat)
    requires k < |frames|
  {
    && frames[k].ToEar?
    && ((k > 0 && Continues(frames[k], frames[k - 1]))
        || (frames[k].sequence == 1 && !HeardIn(frames[..k], frames[k].turn)))
  }

  predicate InOrder(frames: seq<Output>) {
    forall k | 0 <= k < |frames| :: InPlace(frames, k)
  }

  ghost predicate Tracks(frames: seq<Output>, i: Inputs) {
    && InOrder(frames)
    && |i.used| <= MAX_INPUTS
    && (forall turn :: HeardIn(frames, turn) ==> turn in i.used)
    && (i.id != "" ==>
          frames != [] && frames[|frames| - 1].ToEar? && frames[|frames| - 1].turn == i.id &&
          frames[|frames| - 1].sequence == i.sequence)
  }

  predicate ForgetsAtMost(i: Inputs, i': Inputs) {
    i' == i || i' == i.(id := "", sequence := 0)
  }

  lemma RunningForgets(h: A.Host, a: Agent, now: int, call: StagedCall)
    ensures Free(Ears, Running(h, a, now, call).1) && Running(h, a, now, call).0.inputs == a.inputs
  {
  }

  lemma ToolsForget(h: A.Host, a: Agent, now: int, e: R.ProviderEvent, events: seq<R.ServerEvent>)
    ensures Free(Ears, Tools(h, a, now, e, events).1) && Tools(h, a, now, e, events).0.inputs == a.inputs
  {
    if e.ContentEnd? && e.cid in a.staged {
      RunningForgets(h, a.(staged := a.staged - {e.cid}), now, a.staged[e.cid]);
    }
  }

  lemma ReactingForgets(h: A.Host, a: Agent, now: int, e: R.ProviderEvent, outcome: R.Outcome)
    ensures Free(Ears, Reacting(h, a, now, e, outcome).1) && Reacting(h, a, now, e, outcome).0.inputs == a.inputs
  {
    if outcome.Events? {
      var (speech, ok) := Collecting(a.speech, e, outcome.events);
      if ok {
        var (a1, observed) := Observing(h, a.(speech := speech), now, e);
        ToolsForget(h, a1, now, e, outcome.events);
      }
    }
  }

  predicate IsHearing(step: Step) {
    step.TakeStep? && step.input.AudioAppend?
  }

  lemma OtherStepsForget(h: A.Host, a: Agent, step: Step)
    requires R.Bounded(a.mapper) && Enabled(a, step) && !IsHearing(step)
    ensures Free(Ears, Next(h, a, step).1) && ForgetsAtMost(a.inputs, Next(h, a, step).0.inputs)
  {
    if step.MapStep? {
      ReactingForgets(h, a.(mapper := R.Mapping(a.mapper, step.event, step.random).0), step.now, step.event,
                      R.Mapping(a.mapper, step.event, step.random).1);
    }
  }

  lemma HearingTracks(a: Agent, turn: Id, sequence: nat, frames: seq<Output>)
    requires Tracks(frames, a.inputs) && turn != ""
    ensures Tracks(frames + Only(Ears, HearingAudio(a, turn, sequence).1), HearingAudio(a, turn, sequence).0.inputs)
  {
    var (i, heard) := Hearing(a.inputs, turn, sequence);
    var outputs := HearingAudio(a, turn, sequence).1;
    var frame := ToEar(a.stream, turn, sequence);
    if heard == Refused {
      OnlyFree(Ears, outputs);
      assert frames + [] == frames;
    } else {
      var before := if heard == Opened then Voices(R.StartingInput(a.mapper, turn).1) else [];
      assert outputs == before + [frame] + [];
      OnlyOne(Ears, before, frame, []);
      FrameTracks(frames, a.inputs, frame, i);
    }
  }

  /** An accepted frame keeps the order. */
  lemma FrameTracks(frames: seq<Output>, i: Inputs, frame: Output, i': Inputs)
    requires Tracks(frames, i) && frame.ToEar? && frame.turn != ""
    requires Hearing(i, frame.turn, frame.sequence).0 == i' && Hearing(i, frame.turn, frame.sequence).1 != Refused
    ensures Tracks(frames + [frame], i')
  {
    var all := frames + [frame];
    forall k | 0 <= k < |all|
      ensures InPlace(all, k)
    {
      assert all[..k] == frames[..k];
      assert k < |frames| ==> InPlace(frames, k);
      assert k == |frames| ==> frames[..k] == frames;
    }
    forall turn | HeardIn(all, turn)
      ensures turn in i'.used
    {
      var j :| 0 <= j < |all| && all[j].ToEar? && all[j].turn == turn;
      if j < |frames| {
        assert HeardIn(frames, turn);
      } else if frame.turn == i.id {
        assert HeardIn(frames, turn) by { assert frames[|frames| - 1].turn == turn; }
      }
    }
  }

  lemma StepTracks(h: A.Host, a: Agent, step: Step, frames: seq<Output>)
    requires R.Bounded(a.mapper) && Enabled(a, step) && Tracks(frames, a.inputs)
    ensures Tracks(frames + Only(Ears, Next(h, a, step).1), Next(h, a, step).0.inputs)
  {
    if IsHearing(step) {
      HearingTracks(a, step.input.turn, step.input.sequence, frames);
    } else {
      OtherStepsForget(h, a, step);
      OnlyFree(Ears, Next(h, a, step).1);
      assert frames + [] == frames;
    }
  }

  lemma {:induction false} InputTracked(h: A.Host, steps: seq<Step>)
    ensures Tracks(Only(Ears, Run(h, steps).1), Run(h, steps).0.inputs)
  {
    if steps != [] {
      var before, step := steps[..|steps| - 1], steps[|steps| - 1];
      InputTracked(h, before);
      var (a, outputs) := Run(h, before);
      if Enabled(a, step) {
        StepTracks(h, a, step, Only(Ears, outputs));
        OnlyParts(Ears, outputs, Next(h, a, step).1);
      }
    }
  }

  predicate SameTurn(x: Output, y: Output) {
    x.ToEar? && y.ToEar? && x.turn == y.turn
  }

  lemma {:induction false} InOrderNumbers(frames: seq<Output>, k: nat, j: nat)
    requires InOrder(frames) && j <= k < |frames|
    ensures InPlace(frames, k) && InPlace(frames, j) && 1 <= frames[k].sequence <= k + 1
    ensures SameTurn(frames[j], frames[k]) <==> k - j < frames[k].sequence
    ensures SameTurn(frames[j], frames[k]) ==> frames[j].sequence == frames[k].sequence - (k - j)
  {
    assert InPlace(frames, k) && InPlace(frames, j);
    if k > 0 {
      InOrderNumbers(frames, k - 1, if j < k then j else 0);
      if j < k && !Continues(frames[k], frames[k - 1]) {
        assert frames[..k][j] == frames[j];
      }
    }
  }

  /**
   Over every run, what a stream hears of an input turn is one unbroken stretch of frames numbered 1, 2, 3 and so on,
   a turn once left is never heard again, and no more than 128 turns are heard.
   */
  lemma InputIsSequenced(h: A.Host, steps: seq<Step>, k: nat, j: nat)
    requires j <= k < |Only(Ears, Run(h, steps).1)|
    ensures var frames := Only(Ears, Run(h, steps).1);
            && frames[j].ToEar? && frames[k].ToEar? && 1 <= frames[k].sequence <= k + 1
            && (SameTurn(frames[j], frames[k]) <==> k - j < frames[k].sequence)
            && (SameTurn(frames[j], frames[k]) ==> frames[j].sequence == frames[k].sequence - (k - j))
            && frames[k].turn in Run(h, steps).0.inputs.used && |Run(h, steps).0.inputs.used| <= MAX_INPUTS
  {
    InputTracked(h, steps);
    var frames := Only(Ears, Run(h, steps).1);
    InOrderNumbers(frames, k, j);
    assert HeardIn(frames, frames[k].turn);
  }
}
