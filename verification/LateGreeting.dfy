/** A run of the mapper that numbers one turn from 1 twice, because a greeting begins after an input. */
module LateGreeting {
  import opened Basics
  import opened RealtimeMapper
  import opened MapperRuns

  function Speech(cid: Id): ProviderEvent {
    ContentStart(cid, User, Text, Final, 0)
  }

  function Voice(cid: Id): ProviderEvent {
    ContentStart(cid, Assistant, Audio, OtherStage, OUTPUT_RATE)
  }

  function Sound(cid: Id): ProviderEvent {
    AudioOutput(cid, Base64([0, 0]))
  }

  /**
   The user's input "a" is answered; then a greeting "g" begins and is interrupted; when the user speaks again, the
   mapper opens "a" once more, and answers it from chunk 1.
   */
  function Greeted(): seq<Call> {
    [InputCall("a"), MapCall(Speech("u"), "r"), MapCall(Voice("x"), ""), MapCall(Sound("x"), ""),
     AssistantCall("g"), InterruptCall, MapCall(Speech("v"), "r"), MapCall(Voice("y"), ""), MapCall(Sound("y"), "")]
  }

  predicate Shows(s: MapperState, turn: Id, activity: Activity, sequence: nat, cancelled: set<Id>) {
    && s.turn == turn && s.activity == activity && s.sequence == sequence && s.cancelled == cancelled
       && s.nextInput == "a"
    && s.answered == {} && !s.waitingUser && Bounded(s)
  }

  /** One call, and what it adds to the numbers of turn "a" and to its starts. */
  predicate Adds(s: MapperState, call: Call, s': MapperState, numbers: seq<nat>, starts: nat)
    requires Bounded(s)
  {
    && Step(s, call).1.Events? && Step(s, call).0 == s'
    && NumbersOf(StepEvents(s, call), "a") == numbers && Starts(StepEvents(s, call), "a") == starts
  }

  lemma CountsOne(x: ServerEvent)
    ensures NumbersOf([x], "a") == if ChunkOf(x, "a") then [x.sequence] else []
    ensures Starts([x], "a") == if x == TurnStarted("a") then 1 else 0
  {
    assert [x][1..] == [];
  }

  lemma CountsTwo(x: ServerEvent, y: ServerEvent)
    requires !x.AudioChunk? && y.SessionState?
    ensures NumbersOf([x, y], "a") == [] && Starts([x, y], "a") == if x == TurnStarted("a") then 1 else 0
  {
    assert [x, y][1..] == [y];
    CountsOne(y);
  }

  lemma Hears(s: MapperState) returns (s': MapperState)
    requires s == Fresh([])
    ensures Bounded(s') && s'.turn == "a" && s'.nextInput == "a" && s'.answered == s'.cancelled == {}
    ensures s'.contents == map[]
    ensures s'.activity == Listening && s'.sequence == 0
    ensures Adds(s, InputCall("a"), s', [], 1)
  {
    s' := Step(s, InputCall("a")).0;
    var events := StepEvents(s, InputCall("a"));
    assert events == [TurnStarted("a"), StateEvent(s')];
    CountsTwo(TurnStarted("a"), StateEvent(s'));
  }

  lemma Listens(s: MapperState) returns (s': MapperState)
    requires Bounded(s) && s.turn == "a" && s.nextInput == "a" && s.answered == s.cancelled == {}
    requires s.activity == Listening && s.sequence == 0
    requires |s.contents| < 100
    ensures Shows(s', "a", Listening, 0, {}) && s'.contents == s.contents["u" := Content("a", Text, User, Final, 0, "")]
    ensures Adds(s, MapCall(Speech("u"), "r"), s', [], 0)
  {
    s' := Step(s, MapCall(Speech("u"), "r")).0;
    var events := StepEvents(s, MapCall(Speech("u"), "r"));
    assert |s.answered| + |s.cancelled| == 0;
    assert events == [StateEvent(s')];
    CountsOne(StateEvent(s'));
  }

  /** The assistant's voice opens for the current turn. */
  lemma Answers(s: MapperState, cid: Id, cancelled: set<Id>) returns (s': MapperState)
    requires Shows(s, "a", Listening, 0, cancelled) && "a" !in cancelled && |s.contents| < 100
    ensures Shows(s', "a", Responding, 0, cancelled) && |s'.contents| <= |s.contents| + 1
    ensures cid in s'.contents && s'.contents[cid] == Content("a", Audio, Assistant, OtherStage, OUTPUT_RATE, "")
    ensures Adds(s, MapCall(Voice(cid), ""), s', [], 0)
  {
    s' := Step(s, MapCall(Voice(cid), "")).0;
    assert StepEvents(s, MapCall(Voice(cid), "")) == [StateEvent(s')];
    CountsOne(StateEvent(s'));
  }

  lemma Sounds(s: MapperState, cid: Id, cancelled: set<Id>) returns (s': MapperState)
    requires Shows(s, "a", Responding, 0, cancelled) && "a" !in cancelled
    requires cid in s.contents && s.contents[cid] == Content("a", Audio, Assistant, OtherStage, OUTPUT_RATE, "")
    ensures Shows(s', "a", Responding, 1, cancelled) && s'.contents == s.contents
    ensures Adds(s, MapCall(Sound(cid), ""), s', [1], 0)
  {
    s' := Step(s, MapCall(Sound(cid), "")).0;
    var chunk := AudioChunk("a", 1, OUTPUT_RATE, [0, 0]);
    assert StepEvents(s, MapCall(Sound(cid), "")) == [chunk];
    CountsOne(chunk);
  }

  lemma Greets(s: MapperState) returns (s': MapperState)
    requires Shows(s, "a", Responding, 1, {})
    ensures Shows(s', "g", Responding, 0, {}) && s'.contents == s.contents
    ensures Adds(s, AssistantCall("g"), s', [], 0)
  {
    s' := Step(s, AssistantCall("g")).0;
    assert StepEvents(s, AssistantCall("g")) == [TurnStarted("g"), StateEvent(s')];
    CountsTwo(TurnStarted("g"), StateEvent(s'));
  }

  lemma Interrupts(s: MapperState) returns (s': MapperState)
    requires Shows(s, "g", Responding, 0, {})
    ensures Shows(s', "g", Idle, 0, {"g"}) && s'.contents == s.contents
    ensures Adds(s, InterruptCall, s', [], 0)
  {
    s' := Step(s, InterruptCall).0;
    assert StepEvents(s, InterruptCall) == [TurnInterrupted("g"), StateEvent(s')];
    CountsTwo(TurnInterrupted("g"), StateEvent(s'));
  }

  lemma Reopens(s: MapperState) returns (s': MapperState)
    requires Shows(s, "g", Idle, 0, {"g"}) && |s.contents| < 100
    ensures Shows(s', "a", Listening, 0, {"g"}) && |s'.contents| <= |s.contents| + 1
    ensures Adds(s, MapCall(Speech("v"), "r"), s', [], 1)
  {
    s' := Step(s, MapCall(Speech("v"), "r")).0;
    assert |s.answered| + |s.cancelled| == 1;
    assert StepEvents(s, MapCall(Speech("v"), "r")) == [TurnStarted("a"), StateEvent(s')];
    CountsTwo(TurnStarted("a"), StateEvent(s'));
  }

  lemma {:induction false} NumbersConcat(first: seq<ServerEvent>, rest: seq<ServerEvent>, turn: Id)
    ensures NumbersOf(first + rest, turn) == NumbersOf(first, turn) + NumbersOf(rest, turn)
  {
    if first == [] {
      assert first + rest == rest;
    } else {
      NumbersConcat(first[1..], rest, turn);
      assert (first + rest)[1..] == first[1..] + rest;
      Associate(if ChunkOf(first[0], turn) then [first[0].sequence]
                else [], NumbersOf(first[1..], turn), NumbersOf(rest, turn));
    }
  }

  lemma AddsFirst(s: MapperState, calls: seq<Call>, s': MapperState, numbers: seq<nat>, starts: nat)
    requires Bounded(s) && Bounded(s') && calls != [] && Adds(s, calls[0], s', numbers, starts)
    ensures NumbersOf(Emitted(s, calls), "a") == numbers + NumbersOf(Emitted(s', calls[1..]), "a")
    ensures Starts(Emitted(s, calls), "a") == starts + Starts(Emitted(s', calls[1..]), "a")
  {
    NumbersConcat(StepEvents(s, calls[0]), Emitted(s', calls[1..]), "a");
    StartsConcat(StepEvents(s, calls[0]), Emitted(s', calls[1..]), "a");
  }

  /** The second half of the run: from the interrupted greeting to the second chunk numbered 1. */
  lemma AnswersAgain(s: MapperState, calls: seq<Call>)
    requires Shows(s, "g", Idle, 0, {"g"}) && |s.contents| < 90
    requires calls == [MapCall(Speech("v"), "r"), MapCall(Voice("y"), ""), MapCall(Sound("y"), "")]
    ensures NumbersOf(Emitted(s, calls), "a") == [1] && Starts(Emitted(s, calls), "a") == 1
  {
    var s1 := Reopens(s);
    var s2 := Answers(s1, "y", {"g"});
    var s3 := Sounds(s2, "y", {"g"});
    AddsFirst(s, calls, s1, [], 1);
    AddsFirst(s1, calls[1..], s2, [], 0);
    AddsFirst(s2, calls[1..][1..], s3, [1], 0);
    assert calls[1..][1..][1..] == [];
  }

  lemma GreetsLate(s: MapperState, calls: seq<Call>)
    requires Shows(s, "a", Responding, 1, {}) && |s.contents| < 90
    requires calls == [AssistantCall("g"), InterruptCall, MapCall(Speech("v"), "r"), MapCall(Voice("y"), ""),
                       MapCall(Sound("y"), "")]
    ensures NumbersOf(Emitted(s, calls), "a") == [1] && Starts(Emitted(s, calls), "a") == 1
  {
    var s1 := Greets(s);
    var s2 := Interrupts(s1);
    AddsFirst(s, calls, s1, [], 0);
    AddsFirst(s1, calls[1..], s2, [], 0);
    assert calls[1..][1..] == [MapCall(Speech("v"), "r"), MapCall(Voice("y"), ""), MapCall(Sound("y"), "")];
    AnswersAgain(s2, calls[1..][1..]);
  }

  lemma AnswersFirst(s: MapperState, calls: seq<Call>) returns (s': MapperState)
    requires s == Fresh([]) && calls == Greeted()
    ensures Shows(s', "a", Responding, 1, {}) && |s'.contents| < 90
    ensures NumbersOf(Emitted(s, calls), "a") == [1] + NumbersOf(Emitted(s', calls[4..]), "a")
    ensures Starts(Emitted(s, calls), "a") == 1 + Starts(Emitted(s', calls[4..]), "a")
  {
    var s1 := Hears(s);
    var s2 := Listens(s1);
    var s3 := Answers(s2, "x", {});
    s' := Sounds(s3, "x", {});
    AddsFirst(s, calls, s1, [], 1);
    AddsFirst(s1, calls[1..], s2, [], 0);
    AddsFirst(s2, calls[1..][1..], s3, [], 0);
    AddsFirst(s3, calls[1..][1..][1..], s', [1], 0);
    assert calls[1..][1..][1..][1..] == calls[4..];
  }

  /** The run starts turn "a" twice, and numbers its chunks 1 and 1. */
  lemma LateGreetingRestartsInput(calls: seq<Call>)
    requires calls == Greeted()
    ensures var events := Emitted(Fresh([]), calls);
            Starts(events, "a") == 2 && NumbersOf(events, "a") == [1, 1] && Restarted(events, "a")
  {
    GreetedNumbers(Fresh([]), calls);
    TurnAudioIsOneToN([], calls, "a");
    assert From(1, 2)[1] == 2;
  }

  lemma GreetedNumbers(s: MapperState, calls: seq<Call>)
    requires s == Fresh([]) && calls == Greeted()
    ensures Starts(Emitted(s, calls), "a") == 2 && NumbersOf(Emitted(s, calls), "a") == [1, 1]
  {
    var s' := AnswersFirst(s, calls);
    GreetsLate(s', calls[4..]);
  }
}
