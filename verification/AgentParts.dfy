/**
 What the two agent loops share: numbering of input frames, the collection of user speech and staged tool calls
 (apps/personal-assistant-agent/internal/agent and apps/account-agent/internal/account: runtime.go).
 */
module AgentParts {
  import opened Basics
  import R = RealtimeMapper

  type Id = string

  // ----- input frames -----

  datatype Inputs = Inputs(id: Id, sequence: nat, used: set<Id>)

  datatype Heard = Refused | Opened | Continued

  const MAX_INPUTS: nat := 128

  /** A frame of input: it opens a new turn, continues the current one, or is refused. */
  function Hearing(i: Inputs, turn: Id, sequence: nat): (Inputs, Heard) {
    if turn != i.id then
      if sequence != 1 || turn in i.used || |i.used| >= MAX_INPUTS then (i, Refused)
      else (Inputs(turn, 1, i.used + {turn}), Opened)
    else if sequence != i.sequence + 1 then (i, Refused)
    else (i.(sequence := sequence), Continued)
  }

  // ----- user speech -----

  /** Fragments of open contents, and the finished utterance of the turn that spoke last. */
  datatype Speech = Speech(texts: map<Id, string>, turns: map<Id, Id>, text: string, turn: Id)

  const MAX_UTTERANCE: nat := 8192

  function TrimLeft(s: string): (r: string)
    ensures |r| <= |s|
  {
    if s != "" && IsSpace(s[0]) then TrimLeft(s[1..]) else s
  }

  function TrimRight(s: string): (r: string)
    ensures |r| <= |s|
  {
    if s != "" && IsSpace(s[|s| - 1]) then TrimRight(s[..|s| - 1]) else s
  }

  function Trim(s: string): string {
    TrimRight(TrimLeft(s))
  }

  predicate FinalUserText(e: R.ServerEvent) {
    e.Transcript? && e.role == R.User && e.stage == R.Final
  }

  function Spoken(s: Speech, cid: Id): string {
    if cid in s.texts then s.texts[cid] else ""
  }

  /** Adds the final user transcripts among the events, up to one that makes an utterance too long. */
  function Fragments(s: Speech, cid: Id, events: seq<R.ServerEvent>): (Speech, bool)
    decreases |events|
  {
    if events == [] then (s, true)
    else if !FinalUserText(events[0]) then Fragments(s, cid, events[1..])
    else if |Spoken(s, cid)| + |events[0].text| > MAX_UTTERANCE then (s, false)
    else
      Fragments(s.(texts := s.texts[cid := Spoken(s, cid) + events[0].text], turns := s.turns[cid := events[0].turn]),
                cid, events[1..])
  }

  /** Events without user speech. */
  predicate Silent(events: seq<R.ServerEvent>) {
    forall i | 0 <= i < |events| :: !FinalUserText(events[i])
  }

  lemma {:induction false} SilentFragments(s: Speech, cid: Id, events: seq<R.ServerEvent>)
    requires Silent(events)
    ensures Fragments(s, cid, events) == (s, true)
    decreases |events|
  {
    if events != [] {
      SilentFragments(s, cid, events[1..]);
    }
  }

  /** The end of a content adds its text to the utterance of its turn. */
  function Ending(s: Speech, cid: Id): Speech {
    if cid !in s.texts || cid !in s.turns then s
    else
      var turn := s.turns[cid];
      var before := if s.turn != turn then "" else s.text;
      Speech(s.texts - {cid}, s.turns - {cid}, Trim(before + " " + s.texts[cid]), turn)
  }

  /** The content a provider event speaks of. */
  function ContentOf(e: R.ProviderEvent): Id {
    match e
    case ContentStart(cid, _, _, _, _) => cid
    case TextOutput(cid, _) => cid
    case AudioOutput(cid, _) => cid
    case ToolUse(cid, _, _, _) => cid
    case ContentEnd(cid, _) => cid
    case _ => ""
  }

  function Collecting(s: Speech, e: R.ProviderEvent, events: seq<R.ServerEvent>): (Speech, bool) {
    var (s', ok) := Fragments(s, ContentOf(e), events);
    (if ok && e.ContentEnd? then Ending(s', e.cid) else s', ok)
  }

  /** New content that is not the user's: what the user has finished saying is an utterance. */
  predicate AtBoundary(s: Speech, e: R.ProviderEvent) {
    e.ContentStart? && e.role != R.User && s.turn != "" && s.texts == map[]
  }

  // ----- staged tool calls -----

  /** asked is the stream that issued the call. */
  datatype StagedCall = StagedCall(turn: Id, operation: Id, name: string, arguments: string, cancelled: bool,
                                   asked: nat)

  const MAX_STAGED: nat := 32

  /** The call that a toolUse stages: what the mapper announced, or a cancelled one when it kept silent. */
  function Staging(e: R.ProviderEvent, events: seq<R.ServerEvent>, turn: Id, stream: nat): StagedCall
    requires e.ToolUse?
  {
    if events != [] && events[|events| - 1].ToolStarted? then
      var t := events[|events| - 1];
      StagedCall(t.turn, t.operation, t.name, t.arguments, false, stream)
    else StagedCall(turn, e.toolId, e.toolName, e.arguments, true, stream)
  }
}
