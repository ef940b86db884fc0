/**
 What a fake conversation answers, told from what it has accepted before
 (apps/personal-assistant-agent/internal/fake/conversation/session.go).
 */
module FakeTurns {
  import opened Basics
  import opened AudioCapture
  import opened FakeConversation

  datatype Request =
    | Frame(session: string, turn: string, sequence: nat, pcm: seq<byte>)
    | HandOver(turn: string)
    | GiveUp(turn: string)
    | Finish(turn: string)
    | Leave

  /** What became of a request. Handed audio is what the session answers; a begun turn names the one it interrupts. */
  datatype Outcome =
    | Nothing
    | Began(turn: string, pcm: seq<byte>, interrupted: string)
    | Went(pcm: seq<byte>)
    | Handed(audio: seq<byte>)
    | GivenUp
    | Finished
    | Left

  function Answering(t: Talk, request: Request): (Talk, Outcome) {
    match request
    case Frame(session, turn, sequence, pcm) =>
      var (t', r) := Appending(t, session, turn, sequence, pcm);
      (t', if r.Err? then Nothing else if OpensTurn(t, turn) then Began(turn, pcm, r.value) else Went(pcm))
    case HandOver(turn) =>
      var (t', r) := Committing(t, turn);
      (t', if r.Err? then Nothing else Handed(r.value))
    case GiveUp(turn) =>
      var (t', r) := Cancelling(t, turn);
      (t', if r.Err? then Nothing else GivenUp)
    case Finish(turn) =>
      var (t', done) := CompletingTurn(t, turn);
      (t', if done then Finished else Nothing)
    case Leave => (t.(state := State.Closed, pcm := []), Left)
  }

  // ----- where the conversation stands -----

  /**
   A user speaks, with so many frames and this audio so far; or waits for the answer; or nobody is on; or all is over.
   */
  datatype Phase = Nobody | Speaking(turn: string, frames: nat, audio: seq<byte>) | Awaiting(turn: string) | Over

  function NextPhase(before: Phase, outcome: Outcome): Phase {
    match outcome
    case Nothing => before
    case Began(turn, pcm, _) => Speaking(turn, 1, pcm)
    case Went(pcm) => if before.Speaking? then Speaking(before.turn, before.frames + 1, before.audio + pcm) else before
    case Handed(_) => if before.Speaking? then Awaiting(before.turn) else before
    case Left => Over
    case _ => if before.Over? then Over else Nobody
  }

  function PhaseOf(log: seq<Outcome>): Phase {
    if log == [] then Nobody else NextPhase(PhaseOf(log[..|log| - 1]), log[|log| - 1])
  }

  /** The turns that were begun. */
  function Begun(log: seq<Outcome>): set<string> {
    if log == [] then {}
    else
      Begun(log[..|log| - 1]) + if log[|log| - 1].Began? then {log[|log| - 1].turn} else {}
  }

  /** What a frame comes to. */
  function FrameDue(phase: Phase, begun: set<string>, turn: string, sequence: nat, pcm: seq<byte>): Outcome {
    if phase.Over? || pcm == [] || |pcm| % 2 != 0 || |pcm| > 32000 then Nothing
    else if phase.Speaking? then
      if turn == phase.turn && sequence == phase.frames + 1 && |phase.audio| + |pcm| <= 960000 then Went(pcm)
      else Nothing
    else if phase.Awaiting? && turn == phase.turn then Nothing
    else if sequence == 1 && turn !in begun && |begun| < 128 then
      Began(turn, pcm, if phase.Awaiting? then phase.turn else "")
    else Nothing
  }

  /** What a request comes to. */
  function DueIn(id: string, phase: Phase, begun: set<string>, request: Request): Outcome {
    match request
    case Frame(session, turn, sequence, pcm) =>
      if session == id then FrameDue(phase, begun, turn, sequence, pcm) else Nothing
    case HandOver(turn) => if phase.Speaking? && turn == phase.turn then Handed(phase.audio) else Nothing
    case GiveUp(turn) => if (phase.Speaking? || phase.Awaiting?) && turn == phase.turn then GivenUp else Nothing
    case Finish(turn) => if phase.Awaiting? && turn == phase.turn then Finished else Nothing
    case Leave => Left
  }

  function Due(id: string, log: seq<Outcome>, request: Request): Outcome {
    DueIn(id, PhaseOf(log), Begun(log), request)
  }

  // ----- the session's fields are what was accepted -----

  predicate InPhase(t: Talk, phase: Phase) {
    match phase
    case Nobody => t.state == Idle
    case Speaking(turn, frames, audio) =>
      t.state == Listening && t.turn == turn && t.sequence == frames && t.pcm == audio && audio != []
    case Awaiting(turn) => t.state == Responding && t.turn == turn
    case Over => t.state == State.Closed
  }

  predicate Stands(t: Talk, id: string, log: seq<Outcome>) {
    t.id == id && t.used == Begun(log) && InPhase(t, PhaseOf(log))
  }

  lemma FrameIsDue(t: Talk, phase: Phase, session: string, turn: string, sequence: nat, pcm: seq<byte>)
    requires InPhase(t, phase)
    ensures var (t', outcome) := Answering(t, Frame(session, turn, sequence, pcm));
            && outcome == DueIn(t.id, phase, t.used, Frame(session, turn, sequence, pcm))
            && InPhase(t', NextPhase(phase, outcome)) && t'.id == t.id
            && t'.used == t.used + if outcome.Began? then {outcome.turn} else {}
  {
  }

  lemma OtherIsDue(t: Talk, phase: Phase, request: Request)
    requires InPhase(t, phase) && !request.Frame?
    ensures var (t', outcome) := Answering(t, request);
            && outcome == DueIn(t.id, phase, t.used, request)
            && InPhase(t', NextPhase(phase, outcome)) && t'.id == t.id && t'.used == t.used && !outcome.Began?
  {
  }

  lemma AnswerIsDue(t: Talk, id: string, log: seq<Outcome>, request: Request)
    requires Stands(t, id, log)
    ensures Answering(t, request).1 == Due(id, log, request)
    ensures Stands(Answering(t, request).0, id, log + [Due(id, log, request)])
  {
    var more := log + [Due(id, log, request)];
    assert more[..|more| - 1] == log;
    if request.Frame? {
      FrameIsDue(t, PhaseOf(log), request.session, request.turn, request.sequence, request.pcm);
    } else {
      OtherIsDue(t, PhaseOf(log), request);
    }
  }

  /** What the requests of a new session come to. */
  function Answers(t: Talk, requests: seq<Request>): (r: (Talk, seq<Outcome>))
    ensures |r.1| == |requests|
  {
    if requests == [] then (t, [])
    else
      var (before, log) := Answers(t, requests[..|requests| - 1]);
      var (t', outcome) := Answering(before, requests[|requests| - 1]);
      (t', log + [outcome])
  }

  lemma {:induction false} AnswersStand(id: string, requests: seq<Request>)
    ensures var (t, log) := Answers(Talk(id, Idle, "", 0, [], {}), requests);
            Stands(t, id, log)
  {
    if requests != [] {
      var before := requests[..|requests| - 1];
      AnswersStand(id, before);
      var (t, log) := Answers(Talk(id, Idle, "", 0, [], {}), before);
      AnswerIsDue(t, id, log, requests[|requests| - 1]);
    }
  }

  /**
   Over every sequence of requests to a new session, each comes to what is due after those before it: turns are begun
   once, their frames go on in order while they fit, what is handed over is all their audio, and only what is on can be
   given up or finished.
   */
  lemma RequestsAreAnswered(id: string, requests: seq<Request>, request: Request)
    ensures var before := Answers(Talk(id, Idle, "", 0, [], {}), requests).1;
            Answers(Talk(id, Idle, "", 0, [], {}), requests + [request]).1 ==
            before + [Due(id, before, request)]
  {
    var (t, log) := Answers(Talk(id, Idle, "", 0, [], {}), requests);
    assert (requests + [request])[..|requests|] == requests;
    AnswersStand(id, requests);
    AnswerIsDue(t, id, log, request);
  }
}
