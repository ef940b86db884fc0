/** The calls that one mapper receives in its life, and when the ids they bring in are fresh. */
module MapperLife {
  import opened Basics
  import opened RealtimeMapper
  import opened MapperRuns

  /** The mapper after its calls. */
  function After(s: MapperState, calls: seq<Call>): (s': MapperState)
    requires Bounded(s)
    ensures Bounded(s')
  {
    if calls == [] then s
    else
      var before := After(s, calls[..|calls| - 1]);
      StepKeepsBounded(before, calls[|calls| - 1]);
      Step(before, calls[|calls| - 1]).0
  }

  lemma {:induction false} AfterParts(s: MapperState, x: seq<Call>, y: seq<Call>)
    requires Bounded(s)
    ensures After(s, x + y) == After(After(s, x), y)
  {
    if y == [] {
      assert x + y == x;
    } else {
      var front := y[..|y| - 1];
      AfterParts(s, x, front);
      assert (x + y)[..|x + y| - 1] == x + front;
    }
  }

  lemma AfterOne(s: MapperState, call: Call)
    requires Bounded(s)
    ensures After(s, [call]) == Step(s, call).0
  {
    assert [call][..0] == [];
  }

  // ----- ids that the client names, and ids that the server names -----

  /** The client names the turns of its input; the server draws the others, and names the greeting's. */
  predicate Named(call: Call) {
    call.InputCall? || call.QueueCall?
  }

  /** Inputs are named once, and only the first call may begin a greeting. */
  predicate OwnInputs(calls: seq<Call>) {
    && (forall j | 0 <= j < |calls| && Named(calls[j]) :: calls[j].id != "")
    && (forall i, j | 0 <= i < j < |calls| && Named(calls[i]) && Named(calls[j]) :: calls[i].id != calls[j].id)
    && (forall j | 0 < j < |calls| :: !calls[j].AssistantCall?)
  }

  predicate Apart(calls: seq<Call>, i: nat, j: nat)
    requires i < j < |calls|
  {
    Supplied(calls[i]) !! Supplied(calls[j])
  }

  /** What the server names is no empty id, and is not named again, by the server or by the client. */
  predicate DrawsFresh(calls: seq<Call>) {
    && (forall j | 0 <= j < |calls| && !Named(calls[j]) :: "" !in Supplied(calls[j]))
    && (forall i, j | 0 <= i < j < |calls| && !(Named(calls[i]) && Named(calls[j])) :: Apart(calls, i, j))
  }

  predicate FreshPairs(calls: seq<Call>, used: set<Id>) {
    && (forall j | 0 <= j < |calls| :: FreshCall(calls, j, used))
    && (forall i, j | 0 <= i < j < |calls| :: Apart(calls, i, j))
  }

  predicate FreshCall(calls: seq<Call>, j: nat, used: set<Id>)
    requires j < |calls|
  {
    && Supplied(calls[j]) !! used + {""}
    && (calls[j].AssistantCall? ==> used == {} && forall i | 0 <= i < j :: Supplied(calls[i]) == {})
  }

  lemma {:induction false} FreshIsPairs(calls: seq<Call>, used: set<Id>)
    ensures FreshRun(calls, used) <==> FreshPairs(calls, used)
    decreases |calls|
  {
    if calls != [] {
      var rest, used' := calls[1..], used + Supplied(calls[0]);
      FreshIsPairs(rest, used');
      if FreshRun(calls, used) {
        PairsFromRest(calls, used);
      }
      if FreshPairs(calls, used) {
        RestFromPairs(calls, used);
      }
    }
  }

  lemma PairsFromRest(calls: seq<Call>, used: set<Id>)
    requires calls != [] && FreshPairs(calls[1..], used + Supplied(calls[0]))
    requires Supplied(calls[0]) !! used + {""} && (calls[0].AssistantCall? ==> used == {})
    ensures FreshPairs(calls, used)
  {
    var rest, used' := calls[1..], used + Supplied(calls[0]);
    forall j | 0 <= j < |calls|
      ensures FreshCall(calls, j, used)
    {
      if j > 0 {
        assert FreshCall(rest, j - 1, used');
        assert forall i | 0 < i < j :: rest[i - 1] == calls[i];
      }
    }
    forall i, j | 0 <= i < j < |calls|
      ensures Apart(calls, i, j)
    {
      assert FreshCall(rest, j - 1, used');
      assert i > 0 ==> Apart(rest, i - 1, j - 1);
    }
  }

  lemma RestFromPairs(calls: seq<Call>, used: set<Id>)
    requires calls != [] && FreshPairs(calls, used)
    ensures FreshPairs(calls[1..], used + Supplied(calls[0]))
    ensures Supplied(calls[0]) !! used + {""} && (calls[0].AssistantCall? ==> used == {})
  {
    var rest, used' := calls[1..], used + Supplied(calls[0]);
    assert FreshCall(calls, 0, used);
    forall j | 0 <= j < |rest|
      ensures FreshCall(rest, j, used')
    {
      assert FreshCall(calls, j + 1, used) && Apart(calls, 0, j + 1);
    }
    forall i, j | 0 <= i < j < |rest|
      ensures Apart(rest, i, j)
    {
      assert Apart(calls, i + 1, j + 1);
    }
  }

  /** When the client names each input once, all ids of a life are fresh exactly when the server's are. */
  lemma FreshIffDrawsFresh(calls: seq<Call>)
    requires OwnInputs(calls)
    ensures FreshRun(calls, {}) <==> DrawsFresh(calls)
  {
    FreshIsPairs(calls, {});
    if FreshPairs(calls, {}) {
      PairsMakeDraws(calls);
    }
    if DrawsFresh(calls) {
      DrawsMakePairs(calls);
    }
  }

  lemma PairsMakeDraws(calls: seq<Call>)
    requires FreshPairs(calls, {})
    ensures DrawsFresh(calls)
  {
    forall j | 0 <= j < |calls|
      ensures "" !in Supplied(calls[j])
    {
      assert FreshCall(calls, j, {});
    }
  }

  lemma DrawsMakePairs(calls: seq<Call>)
    requires OwnInputs(calls) && DrawsFresh(calls)
    ensures FreshPairs(calls, {})
  {
    forall i, j | 0 <= i < j < |calls|
      ensures Apart(calls, i, j)
    {
      if Named(calls[i]) && Named(calls[j]) {
        assert calls[i].id != calls[j].id;
      }
    }
    forall j | 0 <= j < |calls|
      ensures FreshCall(calls, j, {})
    {
      assert Named(calls[j]) ==> calls[j].id != "";
      assert !Named(calls[j]) ==> "" !in Supplied(calls[j]);
    }
  }

  /** One more call of the client's own. */
  predicate NamesOnce(calls: seq<Call>, used: set<Id>) {
    forall j | 0 <= j < |calls| && Named(calls[j]) :: calls[j].id in used
  }

  lemma OwnInputsGrow(calls: seq<Call>, used: set<Id>, call: Call)
    requires OwnInputs(calls) && NamesOnce(calls, used)
    requires if Named(call) then call.id != "" && call.id !in used else !call.AssistantCall?
    ensures OwnInputs(calls + [call])
    ensures NamesOnce(calls + [call], if Named(call) then used + {call.id} else used)
  {
  }
}
