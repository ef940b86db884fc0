/**
 What the client takes for an event of its session: the socket's deliveries
 (apps/apple/VoiceCore/Sources/VoiceCore/ConversationState.swift).
 */
module Deliveries {
  import opened Basics
  import opened RealtimeMapper
  import opened ConversationClient
  import opened VoiceComposition

  /** The client handles deliveries one by one and stops at the first failure. */
  function Delivered(c: ClientState, ds: seq<Delivery>): Reception
    decreases |ds|
  {
    if ds == [] then Reception(c, [], None)
    else
      var (c', handled) := Handling(c, ds[0]);
      if handled.Err? then Reception(c', [], Some(handled.error))
      else
        var rest := Delivered(c', ds[1..]);
        Reception(rest.client, handled.value + rest.effects, rest.failure)
  }

  const NEW_CLIENT: ClientState := ClientState(None, None, Detached, 0, 0, {})

  /** The session that was announced last and has not been stopped since. */
  function OpenSession(ds: seq<Delivery>): Option<string> {
    if ds == [] then None
    else
      match ds[|ds| - 1].body
      case Ready => ds[|ds| - 1].sessionId
      case Stopped => None
      case _ => OpenSession(ds[..|ds| - 1])
  }

  /**
   A delivery fits after the earlier ones: an announcement names a valid session when none is open, and anything else
   carries the open session; both have a known version.
   */
  predicate Fits(earlier: seq<Delivery>, d: Delivery) {
    && d.version in {1, 2} && !d.body.ErrorBody?
    && if d.body.Ready? then OpenSession(earlier).None? && d.sessionId.Some? && ValidId(d.sessionId.value)
       else OpenSession(earlier).Some? && d.sessionId == OpenSession(earlier)
  }

  predicate AllFit(ds: seq<Delivery>) {
    forall n | 0 <= n < |ds| :: Fits(ds[..n], ds[n])
  }

  lemma {:induction false} DeliveredConcat(c: ClientState, first: seq<Delivery>, d: Delivery)
    ensures var a := Delivered(c, first);
            Delivered(c, first + [d]) ==
            if a.failure.Some? then a
            else
              var (c', handled) := Handling(a.client, d);
              if handled.Err? then Reception(c', a.effects, Some(handled.error))
              else Reception(c', a.effects + handled.value, None)
    decreases |first|
  {
    if first == [] {
      assert first + [d] == [d] && [d][1..] == [];
      var (c', handled) := Handling(c, d);
      assert handled.Ok? ==> handled.value + [] == [] + handled.value;
    } else {
      assert (first + [d])[1..] == first[1..] + [d];
      var (c', handled) := Handling(c, first[0]);
      if handled.Ok? {
        DeliveredConcat(c', first[1..], d);
        var a := Delivered(c', first[1..]);
        var last := Handling(a.client, d).1;
        if last.Ok? {
          Associate(handled.value, a.effects, last.value);
        }
      }
    }
  }

  /** The client's session is the open one. */
  lemma {:induction false} SessionIsOpen(ds: seq<Delivery>)
    requires Delivered(NEW_CLIENT, ds).failure.None?
    ensures Delivered(NEW_CLIENT, ds).client.sessionId == OpenSession(ds)
  {
    if ds != [] {
      var before, d := ds[..|ds| - 1], ds[|ds| - 1];
      assert ds == before + [d];
      DeliveredConcat(NEW_CLIENT, before, d);
      SessionIsOpen(before);
    }
  }

  /** A delivery is refused if and only if it does not fit or, being an event of the session, the event is refused. */
  lemma AcceptedIff(ds: seq<Delivery>, d: Delivery)
    requires Delivered(NEW_CLIENT, ds).failure.None?
    ensures var c := Delivered(NEW_CLIENT, ds).client;
            Delivered(NEW_CLIENT, ds + [d]).failure.None? <==>
            Fits(ds, d) && (d.body.FromServer? ==> HandlingServer(c, d.body.event).1.Ok?)
  {
    DeliveredConcat(NEW_CLIENT, ds, d);
    SessionIsOpen(ds);
  }

  /** Over every sequence of deliveries that the client accepts, each fits after the earlier ones. */
  lemma {:induction false} OnlyTheSessionIsHeard(ds: seq<Delivery>)
    requires Delivered(NEW_CLIENT, ds).failure.None?
    ensures AllFit(ds)
  {
    if ds != [] {
      var before, d := ds[..|ds| - 1], ds[|ds| - 1];
      assert ds == before + [d];
      DeliveredConcat(NEW_CLIENT, before, d);
      OnlyTheSessionIsHeard(before);
      AcceptedIff(before, d);
      forall n | 0 <= n < |ds|
        ensures Fits(ds[..n], ds[n])
      {
        assert n < |before| ==> ds[..n] == before[..n] && ds[n] == before[n];
        assert n == |before| ==> ds[..n] == before;
      }
    }
  }

  /** The deliveries carry the events in the session. */
  predicate Carry(ds: seq<Delivery>, sessionId: string, events: seq<ServerEvent>) {
    && |ds| == |events|
    && forall n | 0 <= n < |ds| ::
         ds[n].version in {1, 2} && ds[n].sessionId == Some(sessionId) && ds[n].body == FromServer(events[n])
  }

  lemma {:induction false} EventsAreReceived(c: ClientState, ds: seq<Delivery>, sessionId: string,
                                             events: seq<ServerEvent>)
    requires Carry(ds, sessionId, events) && c.sessionId == Some(sessionId)
    ensures Delivered(c, ds) == Receive(c, events)
    decreases |events|
  {
    if events != [] {
      assert Handling(c, ds[0]) == HandlingServer(c, events[0]);
      EventsAreReceived(HandlingServer(c, events[0]).0, ds[1..], sessionId, events[1..]);
    }
  }

  /** A new client that a valid session is announced to receives the events delivered in it, and nothing is lost. */
  lemma SessionIsHeard(ready: Delivery, ds: seq<Delivery>, sessionId: string, events: seq<ServerEvent>)
    requires ready == Delivery(ready.version, Some(sessionId), Ready) && ready.version in {1, 2} && ValidId(sessionId)
    requires Carry(ds, sessionId, events)
    ensures var r, heard := Receive(Attached(sessionId), events), Delivered(NEW_CLIENT, [ready] + ds);
            heard == Reception(r.client, [ReadyEffect] + r.effects, r.failure)
  {
    assert ([ready] + ds)[0] == ready && ([ready] + ds)[1..] == ds;
    EventsAreReceived(Attached(sessionId), ds, sessionId, events);
  }
}
