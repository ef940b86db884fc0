/** The conversation history that a renewed provider stream is opened with. */
module MapperHistory {
  import opened Basics
  import opened RealtimeMapper
  import opened MapperRuns

  /** A completed exchange: what the user said and what the assistant answered. */
  datatype Exchanged = Exchanged(user: string, assistant: string)

  function Flatten(log: seq<Exchanged>): (messages: seq<Message>)
    ensures |messages| == 2 * |log|
  {
    if log == [] then []
    else [UserMessage(log[0].user), AssistantMessage(log[0].assistant)] + Flatten(log[1..])
  }

  predicate Small(log: seq<Exchanged>) {
    forall i | 0 <= i < |log| :: |log[i].user| <= MAX_TRANSCRIPT && |log[i].assistant| <= MAX_TRANSCRIPT
  }

  /** k starts the longest suffix of the log that fits the limits. */
  predicate LongestFittingFrom(log: seq<Exchanged>, k: nat) {
    && k <= |log|
    && Fits(Flatten(log[k..]))
    && (forall j | 0 <= j < k :: !Fits(Flatten(log[j..])))
    && (log != [] ==> k < |log|)
  }

  ghost predicate IsLongestFittingSuffix(history: seq<Message>, log: seq<Exchanged>) {
    exists k: nat :: LongestFittingFrom(log, k) && history == Flatten(log[k..])
  }

  lemma {:induction false} FlattenConcat(first: seq<Exchanged>, rest: seq<Exchanged>)
    ensures Flatten(first + rest) == Flatten(first) + Flatten(rest)
  {
    if first == [] {
      assert first + rest == rest;
    } else {
      FlattenConcat(first[1..], rest);
      assert (first + rest)[1..] == first[1..] + rest && (first + rest)[0] == first[0];
      var one, others, more := [UserMessage(first[0].user), AssistantMessage(first[0].assistant)], Flatten(first[1..]),
          Flatten(rest);
      assert one + (others + more) == (one + others) + more;
    }
  }

  lemma {:induction false} BytesConcat(first: seq<Message>, rest: seq<Message>)
    ensures HistoryBytes(first + rest) == HistoryBytes(first) + HistoryBytes(rest)
  {
    if first == [] {
      assert first + rest == rest;
    } else {
      BytesConcat(first[1..], rest);
      assert (first + rest)[1..] == first[1..] + rest;
    }
  }

  lemma OneExchangeFits(log: seq<Exchanged>)
    requires Small(log) && |log| <= 1
    ensures Fits(Flatten(log))
  {
    if log != [] {
      assert log == [log[0]];
      OneFits(log[0]);
    }
  }

  lemma OneFits(x: Exchanged)
    requires |x.user| <= MAX_TRANSCRIPT && |x.assistant| <= MAX_TRANSCRIPT
    ensures Fits(Flatten([x]))
  {
    TwoMessages([UserMessage(x.user), AssistantMessage(x.assistant)]);
    assert Flatten([x]) == [UserMessage(x.user), AssistantMessage(x.assistant)];
  }

  lemma LastIsSmall(log: seq<Exchanged>)
    requires Small(log) && log != []
    ensures var messages := Flatten(log); |messages[|messages| - 1].content| <= MAX_TRANSCRIPT
  {
    if |log| > 1 {
      LastIsSmall(log[1..]);
    }
  }

  /** Evicting two messages at a time finds the longest suffix of whole exchanges that fits. */
  lemma {:induction false} EvictionFindsLongest(log: seq<Exchanged>) returns (k: nat)
    requires Small(log) && log != []
    ensures LongestFittingFrom(log, k)
    ensures (LastIsSmall(log); Evicted(Flatten(log)) == Flatten(log[k..]))
    decreases |log|
  {
    LastIsSmall(log);
    if |log| == 1 {
      OneExchangeFits(log);
    }
    if Fits(Flatten(log)) {
      k := 0;
      assert log[0..] == log;
    } else {
      assert Flatten(log)[2..] == Flatten(log[1..]);
      var k' := EvictionFindsLongest(log[1..]);
      k := k' + 1;
      assert log[1..][k'..] == log[k..];
      LongestFromRest(log, k');
    }
  }

  lemma {:induction false} LongestFromRest(log: seq<Exchanged>, k: nat)
    requires |log| > 1 && !Fits(Flatten(log)) && LongestFittingFrom(log[1..], k)
    ensures LongestFittingFrom(log, k + 1)
  {
    assert log[1..][k..] == log[k + 1..];
    forall j | 0 <= j < k + 1
      ensures !Fits(Flatten(log[j..]))
    {
      if j == 0 {
        assert log[0..] == log;
      } else {
        assert log[1..][j - 1..] == log[j..];
      }
    }
  }

  lemma StillTooLong(log: seq<Exchanged>, j: nat, x: Exchanged)
    requires j <= |log| && !Fits(Flatten(log[j..]))
    ensures !Fits(Flatten((log + [x])[j..]))
  {
    assert (log + [x])[j..] == log[j..] + [x];
    FlattenConcat(log[j..], [x]);
    BytesConcat(Flatten(log[j..]), Flatten([x]));
  }

  /** Appending an exchange to the kept suffix and evicting keeps the longest suffix of the longer log. */
  lemma AppendKeepsLongest(log: seq<Exchanged>, k: nat, x: Exchanged) returns (k': nat)
    requires Small(log) && Small([x]) && LongestFittingFrom(log, k)
    ensures LongestFittingFrom(log + [x], k')
    ensures (LastIsSmall(log[k..] + [x]); Evicted(Flatten(log[k..] + [x])) == Flatten((log + [x])[k'..]))
  {
    var kept := log[k..] + [x];
    assert (log + [x])[k..] == kept;
    assert Small(kept);
    var n := EvictionFindsLongest(kept);
    k' := k + n;
    assert (log + [x])[k'..] == kept[n..];
    forall j | 0 <= j < k'
      ensures !Fits(Flatten((log + [x])[j..]))
    {
      if j < k {
        StillTooLong(log, j, x);
      } else {
        assert (log + [x])[j..] == kept[j - k..];
      }
    }
  }

  // ----- runs -----

  /** The exchange that a call completes, if any. */
  function Completed(s: MapperState, call: Call): seq<Exchanged>
    requires Bounded(s)
  {
    if call.MapCall? && call.event.ContentEnd? && !Stale(s, call.event.cid) &&
       call.event.stop != InterruptedTurn && ClosesExchange(s, s.contents[call.event.cid])
    then [Exchanged(UserSpeech(s, s.turn), s.contents[call.event.cid].text)]
    else []
  }

  predicate SmallUsers(s: MapperState) {
    forall turn | turn in s.users :: |s.users[turn]| <= MAX_TRANSCRIPT
  }

  ghost predicate Remembers(s: MapperState, log: seq<Exchanged>) {
    Bounded(s) && SmallUsers(s) && Small(log) && IsLongestFittingSuffix(s.history, log)
  }

  lemma EndRemembers(s: MapperState, cid: Id, stop: StopReason, log: seq<Exchanged>)
    requires Remembers(s, log) && !Stale(s, cid)
    ensures var call := MapCall(ContentEnd(cid, stop), "");
            Remembers(MappingEnd(s, cid, stop).0, log + Completed(s, call))
  {
    EndKeepsBounded(s, cid, stop);
    EndKeepsSmall(s, cid, stop);
    var c := s.contents[cid];
    assert log + [] == log;
    if stop != InterruptedTurn && ClosesExchange(s, c) {
      ExchangeRemembered(s.history, log, Exchanged(UserSpeech(s, c.turn), c.text));
      assert MappingEnd(s, cid, stop).0.history == Evicted(s.history + Exchange(s, c));
    } else {
      assert MappingEnd(s, cid, stop).0.history == s.history;
    }
  }

  lemma EndKeepsSmall(s: MapperState, cid: Id, stop: StopReason)
    requires Bounded(s) && SmallUsers(s) && !Stale(s, cid)
    ensures SmallUsers(MappingEnd(s, cid, stop).0)
  {
  }

  /** Appending a completed exchange and evicting. */
  lemma ExchangeRemembered(history: seq<Message>, log: seq<Exchanged>, x: Exchanged)
    requires Small(log) && |x.user| <= MAX_TRANSCRIPT && |x.assistant| <= MAX_TRANSCRIPT
    requires IsLongestFittingSuffix(history, log)
    ensures IsLongestFittingSuffix(Evicted(history + [UserMessage(x.user), AssistantMessage(x.assistant)]), log + [x])
  {
    var k: nat :| LongestFittingFrom(log, k) && history == Flatten(log[k..]);
    var k' := AppendKeepsLongest(log, k, x);
    FlattenConcat(log[k..], [x]);
    assert Flatten([x]) == [UserMessage(x.user), AssistantMessage(x.assistant)];
  }

  lemma OtherMappingRemembers(s: MapperState, e: ProviderEvent, random: Id)
    requires Bounded(s) && !(e.ContentEnd? && !Stale(s, e.cid))
    ensures Mapping(s, e, random).0.history == s.history && Mapping(s, e, random).0.users == s.users
  {
    if e.ContentStart? {
      StartRemembers(s, e, random);
    }
  }

  lemma StartRemembers(s: MapperState, e: ProviderEvent, random: Id)
    requires e.ContentStart?
    ensures MappingUserStart(s, e, random).0.history == s.history && MappingUserStart(s, e, random).0.users == s.users
    ensures MappingOtherStart(s, e).0.history == s.history && MappingOtherStart(s, e).0.users == s.users
  {
  }

  lemma OtherStepsRemember(s: MapperState, call: Call)
    requires Bounded(s)
    requires !(call.MapCall? && call.event.ContentEnd? && !Stale(s, call.event.cid))
    ensures Step(s, call).0.history == s.history && Step(s, call).0.users == s.users
  {
    if call.MapCall? {
      OtherMappingRemembers(s, call.event, call.random);
    }
  }

  lemma StepRemembers(s: MapperState, call: Call, log: seq<Exchanged>)
    requires Remembers(s, log)
    ensures Remembers(Step(s, call).0, log + Completed(s, call))
  {
    if call.MapCall? && call.event.ContentEnd? && !Stale(s, call.event.cid) {
      StepEnds(s, call);
      EndRemembers(s, call.event.cid, call.event.stop, log);
    } else {
      StepKeepsBounded(s, call);
      OtherStepsRemember(s, call);
      SameRemembered(s, Step(s, call).0, log);
    }
  }

  lemma StepEnds(s: MapperState, call: Call)
    requires Bounded(s) && call.MapCall? && call.event.ContentEnd? && !Stale(s, call.event.cid)
    ensures Step(s, call).0 == MappingEnd(s, call.event.cid, call.event.stop).0
    ensures Completed(s, call) == Completed(s, MapCall(ContentEnd(call.event.cid, call.event.stop), ""))
  {
  }

  lemma SameRemembered(s: MapperState, s': MapperState, log: seq<Exchanged>)
    requires Remembers(s, log) && Bounded(s') && s'.history == s.history && s'.users == s.users
    ensures Remembers(s', log + [])
  {
    assert log + [] == log;
  }

  /** The mapper after the calls; it stops where a call fails. */
  function AfterUntilFailure(s: MapperState, calls: seq<Call>): (s': MapperState)
    requires Bounded(s)
    ensures Bounded(s')
    decreases |calls|
  {
    if calls == [] then s
    else
      StepKeepsBounded(s, calls[0]);
      if Step(s, calls[0]).1.Failed? then Step(s, calls[0]).0 else AfterUntilFailure(Step(s, calls[0]).0, calls[1..])
  }

  function CompletedIn(s: MapperState, calls: seq<Call>): seq<Exchanged>
    requires Bounded(s)
    decreases |calls|
  {
    if calls == [] then []
    else
      StepKeepsBounded(s, calls[0]);
      Completed(s, calls[0]) +
      if Step(s, calls[0]).1.Failed? then [] else CompletedIn(Step(s, calls[0]).0, calls[1..])
  }

  lemma Regroup(log: seq<Exchanged>, done: seq<Exchanged>, later: seq<Exchanged>)
    ensures log + (done + later) == (log + done) + later && log + done + [] == log + done
  {
  }

  lemma {:induction false} RunRemembers(s: MapperState, calls: seq<Call>, log: seq<Exchanged>)
    requires Remembers(s, log)
    ensures Remembers(AfterUntilFailure(s, calls), log + CompletedIn(s, calls))
    decreases |calls|
  {
    if calls == [] {
      assert log + [] == log;
    } else {
      StepKeepsBounded(s, calls[0]);
      StepRemembers(s, calls[0], log);
      var s', done := Step(s, calls[0]).0, Completed(s, calls[0]);
      if Step(s, calls[0]).1.Failed? {
        Regroup(log, done, []);
      } else {
        RunRemembers(s', calls[1..], log + done);
        Regroup(log, done, CompletedIn(s', calls[1..]));
      }
    }
  }

  /** A session is a series of mappers, each opened on the history of the one before. */
  function SessionHistory(history: seq<Message>, lives: seq<seq<Call>>): seq<Message>
    decreases |lives|
  {
    if lives == [] then history
    else SessionHistory(AfterUntilFailure(Fresh(history), lives[0]).history, lives[1..])
  }

  function SessionLog(history: seq<Message>, lives: seq<seq<Call>>): seq<Exchanged>
    decreases |lives|
  {
    if lives == [] then []
    else CompletedIn(Fresh(history), lives[0])
         + SessionLog(AfterUntilFailure(Fresh(history), lives[0]).history, lives[1..])
  }

  lemma {:induction false} SessionRemembers(history: seq<Message>, lives: seq<seq<Call>>, log: seq<Exchanged>)
    requires Small(log) && IsLongestFittingSuffix(history, log)
    ensures IsLongestFittingSuffix(SessionHistory(history, lives), log + SessionLog(history, lives))
    ensures Small(log + SessionLog(history, lives))
    decreases |lives|
  {
    if lives == [] {
      assert log + [] == log;
    } else {
      RunRemembers(Fresh(history), lives[0], log);
      var done := CompletedIn(Fresh(history), lives[0]);
      var history' := AfterUntilFailure(Fresh(history), lives[0]).history;
      SessionRemembers(history', lives[1..], log + done);
      Regroup(log, done, SessionLog(history', lives[1..]));
    }
  }

  predicate Alternates(messages: seq<Message>) {
    |messages| % 2 == 0 &&
    forall i | 0 <= i < |messages| :: messages[i].UserMessage? <==> i % 2 == 0
  }

  lemma FlattenAlternates(log: seq<Exchanged>)
    ensures Alternates(Flatten(log))
  {
    if log != [] {
      FlattenAlternates(log[1..]);
      var rest := Flatten(log[1..]);
      forall i | 2 <= i < |Flatten(log)|
        ensures Flatten(log)[i].UserMessage? <==> i % 2 == 0
      {
        assert Flatten(log)[i] == rest[i - 2];
      }
    }
  }

  /**
   Over any session, across renewals, the history is the longest suffix of the completed
   exchanges that fits 32 messages and 65536 bytes; it alternates roles and ends with the newest exchange.
   */
  lemma HistoryIsLongestFittingSuffix(lives: seq<seq<Call>>)
    ensures var history, log := SessionHistory([], lives), SessionLog([], lives);
            IsLongestFittingSuffix(history, log) && Alternates(history) &&
            (log != [] ==> |history| >= 2 && history[|history| - 2..] == Flatten(log[|log| - 1..]))
  {
    var none: seq<Exchanged> := [];
    assert none[0..] == [];
    assert LongestFittingFrom(none, 0) && Flatten(none[0..]) == [];
    SessionRemembers([], lives, none);
    var history, log := SessionHistory([], lives), SessionLog([], lives);
    assert none + log == log;
    SuffixShape(history, log);
  }

  lemma SuffixShape(history: seq<Message>, log: seq<Exchanged>)
    requires IsLongestFittingSuffix(history, log)
    ensures Alternates(history)
    ensures log != [] ==> |history| >= 2 && history[|history| - 2..] == Flatten(log[|log| - 1..])
  {
    var k: nat :| LongestFittingFrom(log, k) && history == Flatten(log[k..]);
    FlattenAlternates(log[k..]);
    if log != [] {
      assert log[k..] == log[k..|log| - 1] + log[|log| - 1..];
      FlattenConcat(log[k..|log| - 1], log[|log| - 1..]);
    }
  }

  /**
   Whatever history a mapper is given, even one that does not alternate, eviction never slices
   out of range and leaves a suffix of the messages whose newest answer is still there.
   */
  lemma {:induction false} EvictionStaysInRange(messages: seq<Message>)
    requires |messages| >= 2 && |messages[|messages| - 1].content| <= MAX_TRANSCRIPT
    requires |messages[|messages| - 2].content| <= MAX_TRANSCRIPT
    ensures KeepsNewest(messages, Evicted(messages))
    decreases |messages|
  {
    if |messages| == 2 {
      TwoMessages(messages);
    } else if !Fits(messages) {
      var rest := messages[2..];
      ShortHistoryFits(rest);
      if |messages| > 3 {
        EvictionStaysInRange(rest);
      }
      SuffixOfRest(messages, Evicted(rest));
    }
  }

  /** A fitting, non-empty suffix, an even number of messages shorter. */
  predicate KeepsNewest(messages: seq<Message>, kept: seq<Message>) {
    && 0 < |kept| <= |messages| && kept == messages[|messages| - |kept|..] && Fits(kept)
    && (|messages| - |kept|) % 2 == 0
  }

  lemma SuffixOfRest(messages: seq<Message>, kept: seq<Message>)
    requires |messages| > 2
    requires (KeepsNewest(messages[2..], kept) || (|messages| == 3 && kept == messages[2..] && Fits(kept)))
    ensures KeepsNewest(messages, kept)
  {
  }

  lemma TwoMessages(messages: seq<Message>)
    requires |messages| == 2
    ensures HistoryBytes(messages) == |messages[0].content| + |messages[1].content|
  {
    assert messages[1..][1..] == [];
    assert HistoryBytes(messages[1..]) == |messages[1].content| + HistoryBytes(messages[1..][1..]);
  }
}
