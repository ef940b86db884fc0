/**
 The capture path end to end: microphone buffers, frames, the outbox, its writer, the network in order and the
 session that listens. The producer, the controls, the writer and the session step in any order.
 */
module CaptureRuns {
  import opened Basics
  import opened AudioCapture
  import opened FakeConversation

  /**
   The producer owns the pump, the frames it has cut and not yet numbered, and the event it is waiting to enqueue.
   The last three fields record the run: what was captured, enqueued and received.
   */
  datatype World = World(
    alive: bool,
    pump: Pump,
    backlog: seq<seq<byte>>,
    hand: Option<Event>,
    outbox: Outbox,
    writing: Option<Event>,
    wire: seq<Event>,
    talk: Talk,
    captured: seq<byte>,
    admitted: seq<Event>,
    delivered: seq<Event>)

  datatype Step =
    | Capture(data: seq<byte>)
    | Take
    | TryAudio(cancelled: bool, late: bool)
    | Control(e: Event)
    | WriteNext
    | Written
    | Deliver
    | Disconnect

  function Start(session: string, turn: string, capacity: nat, talk: Talk): World {
    World(true, Pump(session, turn, 0, []), [], None, Outbox(capacity, [], 0, false), None, [], talk, [], [], [])
  }

  function Capturing(w: World, data: seq<byte>): World {
    if !w.alive || w.backlog != [] || w.hand.Some? then w
    else if !AcceptedBuffer(data) then w.(alive := false)
    else w.(pump := w.pump.(pending := Remainder(w.pump.pending + data)), backlog := Frames(w.pump.pending + data),
            captured := w.captured + data)
  }

  function Taking(w: World): World {
    if w.hand.Some? || w.backlog == [] then w
    else
      var n := w.pump.sequence + 1;
      w.(pump := w.pump.(sequence := n), backlog := w.backlog[1..],
         hand := Some(Audio(w.pump.session, w.pump.turn, n, w.backlog[0])))
  }

  /** A failure ends the producer; congestion also disconnects. */
  function Trying(w: World, cancelled: bool, late: bool): World {
    if w.hand.None? then w
    else
      match EnqueueingAudio(w.outbox, w.hand.value, cancelled, late)
      case (o, Admitted) => w.(outbox := o, hand := None, admitted := w.admitted + [w.hand.value])
      case (o, Waiting) => w
      case (o, Failed(failure)) =>
        w.(alive := false, hand := None, backlog := [], outbox := if failure == SendBackpressure then o.(closed := true)
           else o)
  }

  function Controlling(w: World, e: Event): World {
    if e.Audio? then w
    else
      match EnqueueingControl(w.outbox, e)
      case (o, Admitted) => w.(outbox := o, admitted := w.admitted + [e])
      case (o, _) => w.(outbox := o.(closed := true))
  }

  function Writing(w: World): World {
    if w.writing.Some? || w.outbox.stream == [] then w
    else
      var e := w.outbox.stream[0];
      w.(outbox := w.outbox.(stream := w.outbox.stream[1..]), writing := Some(e), wire := w.wire + [e])
  }

  function Finishing(w: World): World {
    if w.writing.None? then w
    else w.(writing := None, outbox := w.outbox.(pending := if w.outbox.pending == 0 then 0 else w.outbox.pending - 1))
  }

  function Delivering(w: World): World {
    if w.wire == [] then w
    else w.(talk := Receiving(w.talk, w.wire[0]), wire := w.wire[1..], delivered := w.delivered + [w.wire[0]])
  }

  function Next(w: World, step: Step): World {
    match step
    case Capture(data) => Capturing(w, data)
    case Take => Taking(w)
    case TryAudio(cancelled, late) => Trying(w, cancelled, late)
    case Control(e) => Controlling(w, e)
    case WriteNext => Writing(w)
    case Written => Finishing(w)
    case Deliver => Delivering(w)
    case Disconnect => w.(outbox := w.outbox.(closed := true))
  }

  function Run(w: World, steps: seq<Step>): World {
    if steps == [] then w else Next(Run(w, steps[..|steps| - 1]), steps[|steps| - 1])
  }

  // ----- occupancy -----

  function Held<T>(o: Option<T>): seq<T> {
    if o.Some? then [o.value] else []
  }

  /** What is counted: the stream and the event being written. */
  predicate Counted(w: World) {
    && w.outbox.pending == |w.outbox.stream| + |Held(w.writing)|
    && w.outbox.pending <= w.outbox.capacity + 2
    && |AudioOf(Held(w.writing) + w.outbox.stream)| <= w.outbox.capacity
    && (w.hand.Some? ==> w.hand.value.Audio?)
  }

  lemma {:induction false} AudioOfParts(a: seq<Event>, b: seq<Event>)
    ensures AudioOf(a + b) == AudioOf(a) + AudioOf(b)
  {
    if b == [] {
      assert a + b == a;
    } else {
      var front := b[..|b| - 1];
      AudioOfParts(a, front);
      assert (a + b)[..|a + b| - 1] == a + front;
    }
  }

  lemma AudioOfOne(e: Event)
    ensures AudioOf([e]) == if e.Audio? then [e] else []
  {
    assert [e][..0] == [];
  }

  lemma {:induction false} AudioOfShorter(s: seq<Event>)
    ensures |AudioOf(s)| <= |s|
  {
    if s != [] {
      AudioOfShorter(s[..|s| - 1]);
    }
  }

  lemma AdmittedCounted(o: Outbox, writing: Option<Event>, e: Event)
    ensures |AudioOf(Held(writing) + (o.stream + [e]))| == |AudioOf(Held(writing) + o.stream)| + if e.Audio? then 1
            else 0
  {
    AudioOfParts(Held(writing) + o.stream, [e]);
    AudioOfOne(e);
    assert Held(writing) + (o.stream + [e]) == Held(writing) + o.stream + [e];
  }

  lemma TryKeepsCounted(w: World, cancelled: bool, late: bool)
    requires Counted(w)
    ensures Counted(Trying(w, cancelled, late))
  {
    if w.hand.Some? {
      AdmittedCounted(w.outbox, w.writing, w.hand.value);
      AudioOfShorter(Held(w.writing) + w.outbox.stream);
    }
  }

  lemma ControlKeepsCounted(w: World, e: Event)
    requires Counted(w)
    ensures Counted(Controlling(w, e))
  {
    if !e.Audio? && EnqueueingControl(w.outbox, e).1 == Admitted {
      AdmittedCounted(w.outbox, w.writing, e);
      AdmitKeepsCounted(w, Controlling(w, e), e);
    }
  }

  lemma AdmitKeepsCounted(w: World, next: World, e: Event)
    requires Counted(w) && next.outbox == Admitting(w.outbox, e) && next.writing == w.writing && next.hand == w.hand
    requires w.outbox.pending < w.outbox.capacity + 2
    requires |AudioOf(Held(w.writing) + (w.outbox.stream + [e]))| <= w.outbox.capacity
    ensures Counted(next)
  {
  }

  lemma WriterKeepsCounted(w: World)
    requires Counted(w)
    ensures Counted(Writing(w)) && Counted(Finishing(w))
  {
    var s := w.outbox.stream;
    if w.writing.None? && s != [] {
      assert [s[0]] + s[1..] == s == [] + s;
    }
    if w.writing.Some? {
      AudioOfParts([w.writing.value], s);
      assert [] + s == s;
    }
  }

  lemma StepKeepsCapacity(w: World, step: Step)
    ensures Next(w, step).outbox.capacity == w.outbox.capacity
  {
  }

  lemma OthersKeepCounted(w: World, data: seq<byte>)
    requires Counted(w)
    ensures Counted(Capturing(w, data)) && Counted(Taking(w)) && Counted(Delivering(w))
    ensures Counted(w.(outbox := w.outbox.(closed := true)))
  {
  }

  lemma StepKeepsCounted(w: World, step: Step)
    requires Counted(w)
    ensures Counted(Next(w, step)) && Next(w, step).outbox.capacity == w.outbox.capacity
  {
    StepKeepsCapacity(w, step);
    match step
    case TryAudio(cancelled, late) => TryKeepsCounted(w, cancelled, late);
    case Control(e) => ControlKeepsCounted(w, e);
    case WriteNext => WriterKeepsCounted(w);
    case Written => WriterKeepsCounted(w);
    case Capture(data) => OthersKeepCounted(w, data);
    case _ => OthersKeepCounted(w, []);
  }

  // ----- order -----

  /** Nothing is lost or overtaken between the outbox and the session. */
  predicate InLine(w: World, start: Talk) {
    && w.admitted == w.delivered + w.wire + w.outbox.stream
    && w.talk == Received(start, w.delivered)
  }

  predicate Onward(w: World, next: World, start: Talk) {
    InLine(next, start) && w.admitted <= next.admitted && w.delivered <= next.delivered
  }

  lemma AdmitKeepsInLine(w: World, next: World, e: Event, start: Talk)
    requires InLine(w, start)
    requires next.outbox.stream == w.outbox.stream + [e] && next.admitted == w.admitted + [e]
    requires next.wire == w.wire && next.delivered == w.delivered && next.talk == w.talk
    ensures Onward(w, next, start)
  {
    assert w.delivered + w.wire + (w.outbox.stream + [e]) == w.delivered + w.wire + w.outbox.stream + [e];
  }

  lemma TryKeepsInLine(w: World, cancelled: bool, late: bool, start: Talk)
    requires InLine(w, start)
    ensures Onward(w, Trying(w, cancelled, late), start)
  {
    if w.hand.Some? && EnqueueingAudio(w.outbox, w.hand.value, cancelled, late).1 == Admitted {
      AdmitKeepsInLine(w, Trying(w, cancelled, late), w.hand.value, start);
    }
  }

  lemma ControlKeepsInLine(w: World, e: Event, start: Talk)
    requires InLine(w, start)
    ensures Onward(w, Controlling(w, e), start)
  {
    if !e.Audio? && EnqueueingControl(w.outbox, e).1 == Admitted {
      AdmitKeepsInLine(w, Controlling(w, e), e, start);
    }
  }

  lemma WriteKeepsInLine(w: World, start: Talk)
    requires InLine(w, start)
    ensures Onward(w, Writing(w), start)
  {
    if w.writing.None? && w.outbox.stream != [] {
      Moved(w.delivered, w.wire, w.outbox.stream);
    }
  }

  lemma Moved<T>(a: seq<T>, b: seq<T>, s: seq<T>)
    requires s != []
    ensures a + (b + [s[0]]) + s[1..] == a + b + s
  {
    assert s == [s[0]] + s[1..];
  }

  lemma DeliverKeepsInLine(w: World, start: Talk)
    requires InLine(w, start)
    ensures Onward(w, Delivering(w), start)
  {
    if w.wire != [] {
      ReceivedNext(start, w.delivered, w.wire[0]);
      FirstMoves(w.delivered, w.wire);
    }
  }

  lemma FirstMoves<T>(a: seq<T>, s: seq<T>)
    requires s != []
    ensures (a + [s[0]]) + s[1..] == a + s
  {
  }

  lemma ReceivedNext(start: Talk, events: seq<Event>, e: Event)
    ensures Received(start, events + [e]) == Receiving(Received(start, events), e)
  {
    assert (events + [e])[..|events|] == events;
  }

  lemma StepKeepsInLine(w: World, step: Step, start: Talk)
    requires InLine(w, start)
    ensures Onward(w, Next(w, step), start)
  {
    match step
    case TryAudio(cancelled, late) => TryKeepsInLine(w, cancelled, late, start);
    case Control(e) => ControlKeepsInLine(w, e, start);
    case WriteNext => WriteKeepsInLine(w, start);
    case Deliver => DeliverKeepsInLine(w, start);
    case _ =>
  }

  // ----- numbering -----

  /** The audio enqueued is the frames of what was captured, numbered from one; a living producer holds the rest. */
  ghost predicate Framed(w: World, session: string, turn: string) {
    var all := Numbered(session, turn, 1, Frames(w.captured));
    var audio := AudioOf(w.admitted);
    && w.pump.session == session && w.pump.turn == turn
    && audio <= all
    && (!w.alive ==> w.backlog == [])
    && (w.alive || w.hand.Some? ==> Producing(w, all, audio))
  }

  predicate Producing(w: World, all: seq<Event>, audio: seq<Event>) {
    && w.pump.sequence <= |all| == |Frames(w.captured)|
    && w.pump.pending == Remainder(w.captured)
    && audio + Held(w.hand) == all[..w.pump.sequence]
    && w.backlog == Frames(w.captured)[w.pump.sequence..]
  }

  lemma NumberedParts(session: string, turn: string, a: seq<seq<byte>>, b: seq<seq<byte>>)
    ensures Numbered(session, turn, 1, a + b)[..|a|] == Numbered(session, turn, 1, a)
  {
  }

  lemma CaptureKeepsFramed(w: World, data: seq<byte>, session: string, turn: string)
    requires Framed(w, session, turn)
    ensures Framed(Capturing(w, data), session, turn)
  {
    if w.alive && w.backlog == [] && w.hand.None? && AcceptedBuffer(data) {
      var all, more := Frames(w.captured), Frames(w.pump.pending + data);
      FramesOfParts(w.captured, data);
      assert w.pump.sequence == |all|;
      NumberedParts(session, turn, all, more);
      assert AudioOf(w.admitted) == Numbered(session, turn, 1, all);
      assert (all + more)[|all|..] == more;
    }
  }

  lemma TakeKeepsFramed(w: World, session: string, turn: string)
    requires Framed(w, session, turn)
    ensures Framed(Taking(w), session, turn)
  {
    if w.hand.None? && w.backlog != [] {
      var all := Numbered(session, turn, 1, Frames(w.captured));
      var n := w.pump.sequence;
      assert all[n] == Audio(session, turn, n + 1, w.backlog[0]);
      assert all[..n + 1] == all[..n] + [all[n]];
    }
  }

  lemma TryKeepsFramed(w: World, cancelled: bool, late: bool, session: string, turn: string)
    requires Framed(w, session, turn) && Counted(w)
    ensures Framed(Trying(w, cancelled, late), session, turn)
  {
    if w.hand.Some? && EnqueueingAudio(w.outbox, w.hand.value, cancelled, late).1 == Admitted {
      AudioOfParts(w.admitted, [w.hand.value]);
      AudioOfOne(w.hand.value);
      AdmitKeepsFramed(w, Trying(w, cancelled, late), session, turn);
    }
  }

  /** The event in hand becomes the last one enqueued. */
  lemma AdmitKeepsFramed(w: World, next: World, session: string, turn: string)
    requires Framed(w, session, turn) && w.hand.Some?
    requires next.alive == w.alive && next.pump == w.pump && next.backlog == w.backlog && next.hand.None?
    requires next.captured == w.captured
    requires AudioOf(next.admitted) == AudioOf(w.admitted) + [w.hand.value]
    ensures Framed(next, session, turn)
  {
  }

  lemma ControlKeepsFramed(w: World, e: Event, session: string, turn: string)
    requires Framed(w, session, turn)
    ensures Framed(Controlling(w, e), session, turn)
  {
    AudioOfParts(w.admitted, [e]);
    AudioOfOne(e);
    OthersKeepFramed(w, Controlling(w, e), session, turn);
  }

  /** The queue, the socket and the receiver have no part in it. */
  lemma OthersKeepFramed(w: World, next: World, session: string, turn: string)
    requires Framed(w, session, turn) && AudioOf(next.admitted) == AudioOf(w.admitted)
    requires next.captured == w.captured && next.pump == w.pump && next.alive == w.alive && next.backlog == w.backlog
    requires next.hand == w.hand
    ensures Framed(next, session, turn)
  {
  }

  lemma WriterKeepsFramed(w: World, session: string, turn: string)
    requires Framed(w, session, turn)
    ensures Framed(Writing(w), session, turn) && Framed(Finishing(w), session, turn)
    ensures Framed(Delivering(w), session, turn)
  {
    OthersKeepFramed(w, Writing(w), session, turn);
    OthersKeepFramed(w, Finishing(w), session, turn);
    OthersKeepFramed(w, Delivering(w), session, turn);
  }

  lemma StepKeepsFramed(w: World, step: Step, session: string, turn: string)
    requires Framed(w, session, turn) && Counted(w)
    ensures Framed(Next(w, step), session, turn)
  {
    match step
    case Capture(data) => CaptureKeepsFramed(w, data, session, turn);
    case Take => TakeKeepsFramed(w, session, turn);
    case TryAudio(cancelled, late) => TryKeepsFramed(w, cancelled, late, session, turn);
    case Control(e) => ControlKeepsFramed(w, e, session, turn);
    case _ => WriterKeepsFramed(w, session, turn);
  }

  // ----- runs -----

  /**
   Over every run: at most capacity + 2 events are counted, at most capacity of them audio; the session has received
   a prefix of what was enqueued, in order; and the audio enqueued is the first frames of what was captured,
   numbered 1, 2, 3 and so on.
   */
  lemma {:induction false} CaptureIsOrderedAndBounded(session: string, turn: string, capacity: nat, talk: Talk,
                                                      steps: seq<Step>)
    ensures var w := Run(Start(session, turn, capacity, talk), steps);
            Counted(w) && InLine(w, talk) && Framed(w, session, turn) && w.outbox.capacity == capacity
  {
    if steps == [] {
      StartHolds(session, turn, capacity, talk);
    } else {
      var before, step := steps[..|steps| - 1], steps[|steps| - 1];
      CaptureIsOrderedAndBounded(session, turn, capacity, talk, before);
      StepKeepsAll(Run(Start(session, turn, capacity, talk), before), step, session, turn, talk);
    }
  }

  lemma StartHolds(session: string, turn: string, capacity: nat, talk: Talk)
    ensures var w := Start(session, turn, capacity, talk);
            Counted(w) && InLine(w, talk) && Framed(w, session, turn)
  {
    assert Frames([]) == [];
  }

  lemma StepKeepsAll(w: World, step: Step, session: string, turn: string, talk: Talk)
    requires Counted(w) && InLine(w, talk) && Framed(w, session, turn)
    ensures var next := Next(w, step);
            Counted(next) && InLine(next, talk) && Framed(next, session, turn)
            && next.outbox.capacity == w.outbox.capacity
  {
    StepKeepsCounted(w, step);
    StepKeepsInLine(w, step, talk);
    StepKeepsFramed(w, step, session, turn);
  }

  lemma {:induction false} LogsGrow(w: World, start: Talk, steps: seq<Step>)
    requires InLine(w, start)
    ensures Onward(w, Run(w, steps), start)
  {
    if steps != [] {
      var before, step := steps[..|steps| - 1], steps[|steps| - 1];
      LogsGrow(w, start, before);
      StepKeepsInLine(Run(w, before), step, start);
    }
  }

  /** Every captured frame is in the outbox or beyond. */
  predicate Flushed(w: World) {
    w.alive && w.backlog == [] && w.hand.None?
  }

  /** What a commit returns for the bytes captured: whole frames only, and no more than fit in 30 seconds. */
  function Committed(captured: seq<byte>): Result<seq<byte>, Refusal> {
    if |captured| < FRAME then Err(NothingToCommit)
    else Ok(captured[..Fitting(|captured| / FRAME) * FRAME])
  }

  /**
   End to end, for any chunking of the capture and any interleaving of producer, writer and network: if a commit is
   enqueued once all frames are, then at the moment the session is to receive it, the commit will return exactly
   the captured bytes truncated to whole frames and to the 937 frames that fit in a turn.
   */
  lemma CommitReturnsCapture(turn: string, capacity: nat, talk: Talk, before: seq<Step>, after: seq<Step>)
    requires talk.state != Closed && ReadyFor(talk, turn)
    requires var w1 := Run(Start(talk.id, turn, capacity, talk), before);
             Flushed(w1) && Quiet(w1.admitted) && EnqueueingControl(w1.outbox, Commit(turn)).1 == Admitted
    ensures var w1 := Run(Start(talk.id, turn, capacity, talk), before);
            var w2 := Run(Next(w1, Control(Commit(turn))), after);
            |w2.delivered| == |w1.admitted| && w2.wire != [] ==>
              w2.wire[0] == Commit(turn) && Committing(w2.talk, turn).1 == Committed(w1.captured)
  {
    var w1 := Run(Start(talk.id, turn, capacity, talk), before);
    CaptureIsOrderedAndBounded(talk.id, turn, capacity, talk, before);
    StepKeepsInLine(w1, Control(Commit(turn)), talk);
    var w := Next(w1, Control(Commit(turn)));
    LogsGrow(w, talk, after);
    var w2 := Run(w, after);
    if |w2.delivered| == |w1.admitted| && w2.wire != [] {
      assert w.admitted == w1.admitted + [Commit(turn)];
      Positions(w1.admitted, Commit(turn), w2.admitted, w2.delivered, w2.wire, w2.outbox.stream);
      FlushedSession(talk, turn, w1, w2.talk);
    }
  }

  lemma Positions(first: seq<Event>, e: Event, admitted: seq<Event>, delivered: seq<Event>, wire: seq<Event>,
                  stream: seq<Event>)
    requires first + [e] <= admitted && admitted == delivered + wire + stream && |delivered| == |first| && wire != []
    ensures delivered == first && wire[0] == e
  {
    assert delivered == admitted[..|first|] == first;
    assert wire[0] == admitted[|first|] == (first + [e])[|first|];
  }

  lemma FlushedSession(talk: Talk, turn: string, w: World, t: Talk)
    requires talk.state != Closed && ReadyFor(talk, turn)
    requires Framed(w, talk.id, turn) && Flushed(w) && Quiet(w.admitted) && t == Received(talk, w.admitted)
    ensures Committing(t, turn).1 == Committed(w.captured)
  {
    var all := Numbered(talk.id, turn, 1, Frames(w.captured));
    assert AudioOf(w.admitted) == all;
    ReceivedFrames(talk, turn, w.admitted, w.captured);
    var k := |w.captured| / FRAME;
    if k > 0 {
      assert Fitting(k) > 0;
    }
  }

  // ----- what the outbox admits -----

  /** The events in the outbox: the one being written, and those that wait. */
  function InOutbox(w: World): seq<Event> {
    Held(w.writing) + w.outbox.stream
  }

  /**
   Over every run and at each point of it: while the outbox is open, a control is admitted if and only if fewer than
   capacity + 2 events are in it, and so whenever fewer than two controls are; audio is admitted if and only if its
   producer is not cancelled and fewer than capacity events are in it, and else waits until it is late. What is
   admitted joins the end, and a closed outbox admits nothing.
   */
  lemma AdmittedIff(session: string, turn: string, capacity: nat, talk: Talk, steps: seq<Step>, e: Event,
                    cancelled: bool, late: bool)
    ensures var w := Run(Start(session, turn, capacity, talk), steps);
            var control, audio := EnqueueingControl(w.outbox, e), EnqueueingAudio(w.outbox, e, cancelled, late);
            && (control.1 == Admitted <==> !w.outbox.closed && |InOutbox(w)| < capacity + 2)
            && (!w.outbox.closed && |InOutbox(w)| < |AudioOf(InOutbox(w))| + 2 ==> control.1 == Admitted)
            && (audio.1 == Admitted <==> !cancelled && !w.outbox.closed && |InOutbox(w)| < capacity)
            && (audio.1 == Waiting <==> !cancelled && !w.outbox.closed && |InOutbox(w)| >= capacity && !late)
            && (control.1 == Admitted ==> control.0.stream == w.outbox.stream + [e])
            && (control.1 != Admitted ==> control.0 == w.outbox)
            && (audio.1 == Admitted ==> audio.0.stream == w.outbox.stream + [e])
            && (audio.1 != Admitted ==> audio.0 == w.outbox)
  {
    CaptureIsOrderedAndBounded(session, turn, capacity, talk, steps);
  }
}
