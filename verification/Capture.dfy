/**
 The microphone side of the Apple client: re-chunking, numbering and the bounded outbox
 (apps/apple/VoiceCore/Sources/VoiceCore: AudioFrames, VoiceInputPump, VoiceOutbox).
 Audio travels as bytes; its base64 form is not modelled.
 */
module AudioCapture {
  import opened Basics

  datatype Event =
    | Audio(session: string, turn: string, sequence: nat, pcm: seq<byte>)
    | Commit(turn: string)
    | Cancel(turn: string)
    | Stop
    | Other

  datatype VoiceFailure = AudioFormat | Disconnected | SendBackpressure | Cancelled

  const FRAME: nat := 1024
  const MAX_BUFFER: nat := 32000

  // ----- frames of fixed size -----

  function Frames(s: seq<byte>): (frames: seq<seq<byte>>)
    ensures |frames| == |s| / FRAME
  {
    if |s| < FRAME then [] else [s[..FRAME]] + Frames(s[FRAME..])
  }

  function Remainder(s: seq<byte>): (r: seq<byte>)
    ensures |r| < FRAME
  {
    if |s| < FRAME then s else Remainder(s[FRAME..])
  }

  lemma {:induction false} FrameAt(s: seq<byte>, i: nat)
    requires i < |Frames(s)|
    ensures (i + 1) * FRAME <= |s| && Frames(s)[i] == s[i * FRAME..(i + 1) * FRAME]
  {
    if i > 0 {
      FrameAt(s[FRAME..], i - 1);
      SliceShift(s, FRAME, (i - 1) * FRAME, i * FRAME);
    }
  }

  lemma SliceShift(s: seq<byte>, n: nat, a: nat, b: nat)
    requires n <= |s| && a <= b <= |s| - n
    ensures s[n..][a..b] == s[n + a..n + b]
  {
  }

  function Join(frames: seq<seq<byte>>): seq<byte> {
    if frames == [] then [] else frames[0] + Join(frames[1..])
  }

  lemma {:induction false} FramesJoin(s: seq<byte>)
    ensures Join(Frames(s)) + Remainder(s) == s
  {
    if |s| >= FRAME {
      FramesJoin(s[FRAME..]);
      assert Frames(s)[1..] == Frames(s[FRAME..]);
      assert s == s[..FRAME] + s[FRAME..];
    }
  }

  /** Chunking does not matter: frames of a whole are the frames of a part and of what it left with the rest. */
  lemma {:induction false} FramesOfParts(a: seq<byte>, b: seq<byte>)
    ensures Frames(a + b) == Frames(a) + Frames(Remainder(a) + b)
    ensures Remainder(a + b) == Remainder(Remainder(a) + b)
  {
    if |a| >= FRAME {
      FramesOfParts(a[FRAME..], b);
      FirstFrame(a, b);
      var first, rest, more := [a[..FRAME]], Frames(a[FRAME..]), Frames(Remainder(a) + b);
      assert first + (rest + more) == (first + rest) + more;
    } else {
      assert Frames(a) + Frames(a + b) == Frames(a + b);
    }
  }

  lemma FirstFrame(a: seq<byte>, b: seq<byte>)
    requires |a| >= FRAME
    ensures Frames(a + b) == [a[..FRAME]] + Frames(a[FRAME..] + b) && Remainder(a + b) == Remainder(a[FRAME..] + b)
  {
    assert (a + b)[..FRAME] == a[..FRAME] && (a + b)[FRAME..] == a[FRAME..] + b;
  }

  predicate AcceptedBuffer(pcm: seq<byte>) {
    |pcm| % 2 == 0 && |pcm| <= MAX_BUFFER
  }

  class AudioFrames {
    var pending: seq<byte>

    ghost predicate Valid() reads this {
      |pending| < FRAME
    }

    constructor ()
      ensures Valid() && pending == []
    {
      pending := [];
    }

    method Append(pcm: seq<byte>) returns (r: Result<seq<seq<byte>>, VoiceFailure>)
      modifies this
      ensures if AcceptedBuffer(pcm)
              then r == Ok(Frames(old(pending) + pcm)) && pending == Remainder(old(pending) + pcm) && Valid()
              else r == Err(AudioFormat) && pending == old(pending)
    {
      if |pcm| % 2 != 0 || |pcm| > MAX_BUFFER {
        return Err(AudioFormat);
      }
      pending := pending + pcm;
      ghost var all := pending;
      var frames := [];
      while |pending| >= FRAME
        invariant Frames(all) == frames + Frames(pending) && Remainder(all) == Remainder(pending)
        decreases |pending|
      {
        ghost var before := pending;
        frames := frames + [pending[..FRAME]];
        pending := pending[FRAME..];
        assert Frames(before) == [before[..FRAME]] + Frames(pending);
      }
      assert frames + Frames(pending) == frames;
      r := Ok(frames);
    }

    method Reset()
      modifies this
      ensures Valid() && pending == []
    {
      pending := [];
    }
  }

  // ----- numbering -----

  /** The pump between two frames: its turn, the last number and the bytes that are not yet a frame. */
  datatype Pump = Pump(session: string, turn: string, sequence: nat, pending: seq<byte>)

  /** Frames as events of a turn, numbered from first. */
  function Numbered(session: string, turn: string, first: nat, frames: seq<seq<byte>>): seq<Event> {
    seq(|frames|, i requires 0 <= i < |frames| => Audio(session, turn, first + i, frames[i]))
  }

  function Sending(p: Pump, data: seq<byte>): (Pump, Result<seq<Event>, VoiceFailure>) {
    if !AcceptedBuffer(data) then (p, Err(AudioFormat))
    else
      var frames := Frames(p.pending + data);
      (p.(sequence := p.sequence + |frames|, pending := Remainder(p.pending + data)),
       Ok(Numbered(p.session, p.turn, p.sequence + 1, frames)))
  }

  class VoiceInputPump {
    const session: string
    var turn: string
    var sequence: nat
    const frames: AudioFrames

    ghost predicate Valid() reads this, frames {
      frames.Valid()
    }

    ghost function Value(): Pump reads this, frames {
      Pump(session, turn, sequence, frames.pending)
    }

    constructor (session: string, turn: string)
      ensures Valid() && Value() == Pump(session, turn, 0, []) && fresh(frames)
    {
      this.session := session;
      this.turn := turn;
      sequence := 0;
      frames := new AudioFrames();
    }

    method Renew(turn: string)
      modifies this, frames
      ensures Valid() && Value() == Pump(session, turn, 0, [])
    {
      this.turn := turn;
      sequence := 0;
      frames.Reset();
    }

    /** The audio that one buffer gives, when no renewal comes between its frames. */
    method Send(data: seq<byte>) returns (r: Result<seq<Event>, VoiceFailure>)
      requires Valid()
      modifies this, frames
      ensures Valid() && (Value(), r) == Sending(old(Value()), data)
    {
      var cut := frames.Append(data);
      if cut.Err? {
        return Err(cut.error);
      }
      var events := [];
      for k := 0 to |cut.value|
        invariant sequence == old(sequence) + k && turn == old(turn)
                  && frames.pending == Remainder(old(frames.pending) + data)
        invariant events == Numbered(session, turn, old(sequence) + 1, cut.value[..k])
      {
        sequence := sequence + 1;
        events := events + [Audio(session, turn, sequence, cut.value[k])];
      }
      assert cut.value[..|cut.value|] == cut.value;
      r := Ok(events);
    }
  }

  // ----- the outbox -----

  datatype Outbox = Outbox(capacity: nat, stream: seq<Event>, pending: nat, closed: bool)

  datatype Attempt = Waiting | Admitted | Failed(failure: VoiceFailure)

  function Admitting(o: Outbox, e: Event): Outbox {
    o.(stream := o.stream + [e], pending := o.pending + 1)
  }

  function EnqueueingControl(o: Outbox, e: Event): (Outbox, Attempt) {
    if o.closed then (o, Failed(Disconnected))
    else if o.pending >= o.capacity + 2 then (o, Failed(SendBackpressure))
    else (Admitting(o, e), Admitted)
  }

  /** One look at the outbox by the audio producer; cancelled and late are what the clock and the task say. */
  function EnqueueingAudio(o: Outbox, e: Event, cancelled: bool, late: bool): (Outbox, Attempt) {
    if cancelled then (o, Failed(Cancelled))
    else if o.closed then (o, Failed(Disconnected))
    else if o.pending < o.capacity then (Admitting(o, e), Admitted)
    else if late then (o, Failed(SendBackpressure))
    else (o, Waiting)
  }

  class VoiceOutbox {
    const capacity: nat
    var stream: seq<Event>
    var pending: nat
    var closed: bool

    ghost function Value(): Outbox reads this {
      Outbox(capacity, stream, pending, closed)
    }

    constructor (capacity: nat)
      requires capacity > 0
      ensures Value() == Outbox(capacity, [], 0, false)
    {
      this.capacity := capacity;
      stream, pending, closed := [], 0, false;
    }

    method Admit(e: Event)
      modifies this
      ensures Value() == Admitting(old(Value()), e)
    {
      pending := pending + 1;
      stream := stream + [e];
    }

    method EnqueueControl(e: Event) returns (r: Attempt)
      modifies this
      ensures (Value(), r) == EnqueueingControl(old(Value()), e)
    {
      if closed {
        return Failed(Disconnected);
      }
      if !(pending < capacity + 2) {
        return Failed(SendBackpressure);
      }
      Admit(e);
      r := Admitted;
    }

    method EnqueueAudio(e: Event, cancelled: bool, late: bool) returns (r: Attempt)
      modifies this
      ensures (Value(), r) == EnqueueingAudio(old(Value()), e, cancelled, late)
    {
      if pending >= capacity {
        if cancelled {
          return Failed(Cancelled);
        }
        if closed {
          return Failed(Disconnected);
        }
        if late {
          return Failed(SendBackpressure);
        }
        return Waiting;
      }
      if cancelled {
        return Failed(Cancelled);
      }
      if closed {
        return Failed(Disconnected);
      }
      Admit(e);
      r := Admitted;
    }

    /** The writer takes the next event of the stream. */
    method Next() returns (e: Option<Event>)
      modifies this
      ensures e == if old(stream) == [] then None else Some(old(stream)[0])
      ensures Value() == if old(stream) == [] then old(Value()) else old(Value()).(stream := old(stream)[1..])
    {
      if stream == [] {
        return None;
      }
      e, stream := Some(stream[0]), stream[1..];
    }

    method Sent()
      modifies this
      ensures Value() == old(Value()).(pending := if old(pending) == 0 then 0 else old(pending) - 1)
    {
      pending := if pending == 0 then 0 else pending - 1;
    }

    method Close()
      modifies this
      ensures Value() == old(Value()).(closed := true)
    {
      closed := true;
    }
  }
}
