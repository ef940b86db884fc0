/**
 Which input frames the agent loops accept, told from the frames before
 (apps/personal-assistant-agent/internal/agent and apps/account-agent/internal/account: runtime.go).
 */
module InputFrames {
  import opened AgentParts

  /** A frame arrives, or the input that is open is given up. */
  datatype Attempt = Frame(turn: Id, sequence: nat) | GiveUp

  /** What became of an attempt. */
  datatype Trial = Heard(turn: Id, sequence: nat) | Refusal | GivenUp

  function Tried(i: Inputs, next: Attempt): (Inputs, Trial) {
    match next
    case Frame(turn, sequence) =>
      var (i', heard) := Hearing(i, turn, sequence);
      (i', if heard == Refused then Refusal else Heard(turn, sequence))
    case GiveUp => (i.(id := "", sequence := 0), GivenUp)
  }

  /** The numbering after the attempts, and what became of each. */
  function Trials(attempts: seq<Attempt>): (Inputs, seq<Trial>) {
    if attempts == [] then (Inputs("", 0, {}), [])
    else
      var (i, ts) := Trials(attempts[..|attempts| - 1]);
      var (i', t) := Tried(i, attempts[|attempts| - 1]);
      (i', ts + [t])
  }

  /** The turns that frames were accepted for. */
  function Turns(ts: seq<Trial>): set<Id> {
    set k | 0 <= k < |ts| && ts[k].Heard? :: ts[k].turn
  }

  /** The frame accepted last is the k-th, and the input was not given up since. */
  predicate StillOpen(ts: seq<Trial>, k: nat) {
    k < |ts| && ts[k].Heard? && forall j | k < j < |ts| :: ts[j].Refusal?
  }

  predicate NoneOpen(ts: seq<Trial>) {
    forall k | 0 <= k < |ts| && ts[k].Heard? :: exists j :: k < j < |ts| && ts[j].GivenUp?
  }

  /** A frame of the open turn with the next number, or the first one of a turn not heard before. */
  ghost predicate FitsIn(ts: seq<Trial>, turn: Id, sequence: nat) {
    || (exists k: nat :: StillOpen(ts, k) && ts[k].turn == turn && sequence == ts[k].sequence + 1)
    || (sequence == 1 && turn !in Turns(ts) && |Turns(ts)| < 128)
  }

  ghost predicate Knows(ts: seq<Trial>, i: Inputs) {
    && i.used == Turns(ts)
    && (i.id == "" ==> NoneOpen(ts))
    && (i.id != "" ==> exists k: nat :: StillOpen(ts, k) && ts[k].turn == i.id && ts[k].sequence == i.sequence)
  }

  predicate Named(attempts: seq<Attempt>) {
    forall k | 0 <= k < |attempts| :: attempts[k].Frame? ==> attempts[k].turn != ""
  }

  // ----- one more attempt -----

  lemma TurnsOn(ts: seq<Trial>, t: Trial)
    ensures Turns(ts + [t]) == Turns(ts) + if t.Heard? then {t.turn} else {}
  {
    var more := ts + [t];
    assert more[|ts|] == t && forall k | 0 <= k < |ts| :: more[k] == ts[k];
  }

  lemma NoneOpenOn(ts: seq<Trial>, t: Trial)
    requires t.GivenUp? || (NoneOpen(ts) && !t.Heard?)
    ensures NoneOpen(ts + [t])
  {
    var more := ts + [t];
    forall k | 0 <= k < |more| && more[k].Heard?
      ensures exists j :: k < j < |more| && more[j].GivenUp?
    {
      if t.GivenUp? {
        assert more[|ts|].GivenUp?;
      } else {
        var j :| k < j < |ts| && ts[j].GivenUp?;
        assert more[j].GivenUp?;
      }
    }
  }

  lemma OpenIsLast(ts: seq<Trial>, k: nat, j: nat)
    requires StillOpen(ts, k) && StillOpen(ts, j)
    ensures k == j
  {
  }

  lemma OpenIsNotNone(ts: seq<Trial>, k: nat)
    requires StillOpen(ts, k)
    ensures !NoneOpen(ts)
  {
  }

  /** A frame is accepted if and only if it fits in. */
  lemma HearingIff(ts: seq<Trial>, i: Inputs, turn: Id, sequence: nat)
    requires Knows(ts, i) && turn != ""
    ensures Hearing(i, turn, sequence).1 != Refused <==> FitsIn(ts, turn, sequence)
  {
    if i.id == "" {
      forall k: nat
        ensures !StillOpen(ts, k)
      {
        if StillOpen(ts, k) {
          OpenIsNotNone(ts, k);
        }
      }
    } else {
      var k: nat :| StillOpen(ts, k) && ts[k].turn == i.id && ts[k].sequence == i.sequence;
      forall j: nat | StillOpen(ts, j)
        ensures j == k
      {
        OpenIsLast(ts, k, j);
      }
      assert i.id in Turns(ts);
    }
  }

  lemma KnowsOn(ts: seq<Trial>, i: Inputs, next: Attempt)
    requires Knows(ts, i) && (next.Frame? ==> next.turn != "")
    ensures Knows(ts + [Tried(i, next).1], Tried(i, next).0)
  {
    var t := Tried(i, next).1;
    TurnsOn(ts, t);
    if t.GivenUp? || (t.Refusal? && i.id == "") {
      NoneOpenOn(ts, t);
    } else if t.Refusal? {
      var k: nat :| StillOpen(ts, k) && ts[k].turn == i.id && ts[k].sequence == i.sequence;
      assert StillOpen(ts + [t], k);
    } else {
      assert StillOpen(ts + [t], |ts|);
      if next.turn == i.id {
        assert i.id in Turns(ts);
      }
    }
  }

  lemma {:induction false} KnowsAll(attempts: seq<Attempt>)
    requires Named(attempts)
    ensures Knows(Trials(attempts).1, Trials(attempts).0)
  {
    if attempts != [] {
      var before := attempts[..|attempts| - 1];
      KnowsAll(before);
      KnowsOn(Trials(before).1, Trials(before).0, attempts[|attempts| - 1]);
    }
  }

  /**
   Whatever frames arrive, and wherever an input is given up: a frame is accepted if and only if it carries the next
   number of the turn accepted last, which was not given up, or number 1 of a turn that was not heard before while
   fewer than 128 turns were.
   */
  lemma FramesAreHeardIff(attempts: seq<Attempt>, turn: Id, sequence: nat)
    requires Named(attempts) && turn != ""
    ensures var ts := Trials(attempts).1;
            Trials(attempts + [Frame(turn, sequence)]).1 ==
            ts + [if FitsIn(ts, turn, sequence) then Heard(turn, sequence) else Refusal]
  {
    KnowsAll(attempts);
    assert (attempts + [Frame(turn, sequence)])[..|attempts|] == attempts;
    HearingIff(Trials(attempts).1, Trials(attempts).0, turn, sequence);
  }
}
