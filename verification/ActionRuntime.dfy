/**
 The planner that decides which tool calls run (packages/go/actionruntime/tools.go).

 Session is the mutable object; PlannerState and the functions beside it say what each
 method does to its value. One clock reading is taken per call.
 */
module ActionRuntime {
  import opened Basics

  type Json = string

  datatype Policy = ReadOnly | ExplicitIntent | ConfirmLater | OtherPolicy

  datatype ToolResult =
    | Failure(code: string)
    | DateTimeError
    | ConfirmationRequired(operationId: string, target: Json)
    | Reply(text: string)

  /** A discovered tool together with its trusted profile; checks on arguments and texts are functions of it. */
  datatype Binding = Binding(
    toolName: string,
    policy: Policy,
    dateTimesOk: Json -> bool,
    schemaOk: Json -> bool,
    direct: bool,
    matchesIntent: string -> bool,
    phrase: string,
    allowUI: bool)

  /** What a session is configured with. canon is the printing of decoded arguments, numbers as float64. */
  datatype Host = Host(
    namespace: string,
    tools: map<string, Binding>,
    canon: Json -> string,
    normalize: string -> string)

  datatype Pending = Pending(operationId: string, name: string, args: Json, turn: string, expires: int, approved: bool)

  datatype Job = Job(id: string, name: string, key: Option<Digest>, turn: string, args: Json, confirmed: bool)

  datatype PlannerState = PlannerState(
    intentTurn: string,
    intentText: string,
    pending: Option<Pending>,
    seen: map<string, Digest>,
    cache: map<Digest, ToolResult>,
    calls: nat,
    attempted: set<Digest>)

  const MAX_CALLS: nat := 128
  const CONFIRMATION_SECONDS: int := 60
  const DEFAULT_PHRASE: string := "confirmo executar"

  function NewSession(): PlannerState {
    PlannerState("", "", None, map[], map[], 0, {})
  }

  /** The idempotency key of a call: namespace, tool and canonical arguments, NUL separated and hashed. */
  function Key(canon: Json -> string, namespace: string, name: string, args: Json): Digest {
    Sha256(namespace + "\0" + name + "\0" + canon(args))
  }

  predicate NulFree(text: string) {
    '\0' !in text
  }

  lemma {:induction false} SplitAtNul(a: string, x: string, b: string, y: string)
    requires NulFree(a) && NulFree(b) && a + "\0" + x == b + "\0" + y
    ensures a == b && x == y
  {
    var left, right := a + "\0" + x, b + "\0" + y;
    assert left[0] == right[0];
    assert forall i | 0 <= i < |b| :: b[i] in b;
    if a == "" {
      assert left[1..] == x && right[1..] == y;
    } else {
      assert a[0] in a && b != "";
      assert left[1..] == a[1..] + "\0" + x && right[1..] == b[1..] + "\0" + y;
      SplitAtNul(a[1..], x, b[1..], y);
      assert a == [a[0]] + a[1..] && b == [b[0]] + b[1..];
    }
  }

  /** Equal keys mean the same namespace, the same tool and the same canonical arguments, and conversely. */
  lemma KeysIdentifyOperations(canon: Json -> string, ns: string, name: string, args: Json, ns': string, name': string,
                               args': Json)
    requires NulFree(ns) && NulFree(name) && NulFree(ns') && NulFree(name')
    ensures Key(canon, ns, name, args) == Key(canon, ns', name', args') <==>
            ns == ns' && name == name' && canon(args) == canon(args')
  {
    if Key(canon, ns, name, args) == Key(canon, ns', name', args') {
      var x, x' := name + "\0" + canon(args), name' + "\0" + canon(args');
      assert ns + "\0" + x == ns + "\0" + name + "\0" + canon(args);
      assert ns' + "\0" + x' == ns' + "\0" + name' + "\0" + canon(args');
      SplitAtNul(ns, x, ns', x');
      SplitAtNul(name, canon(args), name', canon(args'));
    }
  }

  function KeyOf(h: Host, name: string, args: Json): Digest {
    Key(h.canon, h.namespace, name, args)
  }

  /** Tool names are distinct, as the mapping of discovered names guarantees. */
  ghost predicate DistinctTools(tools: map<string, Binding>) {
    forall m, n | m in tools && n in tools && tools[m].toolName == tools[n].toolName :: m == n
  }

  predicate Knows(tools: map<string, Binding>, toolName: string) {
    exists n :: n in tools && tools[n].toolName == toolName
  }

  /** The binding of a tool name, when the host has one. */
  ghost function BindingOf(tools: map<string, Binding>, toolName: string): Binding
    requires Knows(tools, toolName)
  {
    var n :| n in tools && tools[n].toolName == toolName;
    tools[n]
  }

  function Refused(h: Host, id: string, name: string, turn: string, args: Json,
                   code: string): (Job, Option<ToolResult>) {
    var resolved := if name in h.tools then h.tools[name].toolName else name;
    (Job(id, resolved, None, turn, args, false), Some(Failure(code)))
  }

  predicate Matches(h: Host, p: Pending, name: string, key: Digest) {
    p.name == name && KeyOf(h, p.name, p.args) == key
  }

  predicate Releasable(h: Host, s: PlannerState, now: int, name: string, key: Digest) {
    s.pending.Some? && now < s.pending.value.expires && Matches(h, s.pending.value, name, key)
    && s.pending.value.approved
  }

  /** The pending confirmation after a call that may not run yet: kept while it matches and has not expired. */
  function Parked(h: Host, s: PlannerState, now: int, j: Job, key: Digest): Pending {
    if s.pending.Some? && Matches(h, s.pending.value, j.name, key) && now <= s.pending.value.expires
    then s.pending.value
    else Pending(j.id, j.name, j.args, j.turn, now + CONFIRMATION_SECONDS, false)
  }

  type Planned = (PlannerState, (Job, Option<ToolResult>))

  function Planning(h: Host, s: PlannerState, now: int, id: string, name: string, turn: string, args: Json): Planned {
    if !ValidId(id) then (s, Refused(h, id, name, turn, args, "invalid_tool_id"))
    else if name !in h.tools then (s, Refused(h, id, name, turn, args, "tool_not_allowed"))
    else
      var b := h.tools[name];
      if !b.dateTimesOk(args) then (s, (Job(id, b.toolName, None, turn, args, false), Some(DateTimeError)))
      else if !b.schemaOk(args) then (s, Refused(h, id, name, turn, args, "invalid_arguments"))
      else
        var key := KeyOf(h, b.toolName, args);
        if id in s.seen && s.seen[id] != key then (s, Refused(h, id, name, turn, args, "tool_id_conflict"))
        else if s.calls >= MAX_CALLS then (s, Refused(h, id, name, turn, args, "tool_limit_reached"))
        else
          var counted := s.(calls := s.calls + 1, seen := s.seen[id := key]);
          Deciding(h, counted, now, id, name, turn, args, key)
  }

  /** The part of Plan after the call has been counted. */
  function Deciding(h: Host, s: PlannerState, now: int, id: string, name: string, turn: string, args: Json,
                    key: Digest): Planned
    requires name in h.tools
  {
    var b := h.tools[name];
    var j := Job(id, b.toolName, Some(key), turn, args, false);
    if b.policy != ReadOnly && key in s.cache then (s, (j, Some(s.cache[key])))
    else if b.policy != ReadOnly && key in s.attempted then
      (s, Refused(h, id, name, turn, args, "mutation_outcome_pending_or_unknown"))
    else if b.policy == ConfirmLater && !Releasable(h, s, now, j.name, key) then
      var p := Parked(h, s, now, j, key);
      (s.(pending := Some(p)), (j, Some(ConfirmationRequired(p.operationId, p.args))))
    else if b.policy == ExplicitIntent && !b.direct && (s.intentTurn != turn || !b.matchesIntent(s.intentText)) then
      (s, Refused(h, id, name, turn, args, "clarification_required"))
    else
      var s1 := if b.policy == ConfirmLater then s.(pending := None) else s;
      var s2 := if b.policy != ReadOnly then s1.(attempted := s1.attempted + {key}) else s1;
      (s2, (j.(confirmed := b.policy == ConfirmLater), None))
  }

  predicate CachesResults(h: Host, toolName: string) {
    !exists n :: n in h.tools && h.tools[n].toolName == toolName && h.tools[n].policy == ReadOnly
  }

  function Completing(h: Host, s: PlannerState, j: Job, r: ToolResult): PlannerState {
    if j.key.Some? && CachesResults(h, j.name) then s.(cache := s.cache[j.key.value := r]) else s
  }

  predicate Quoted(text: string) {
    exists i :: 0 <= i < |text| && text[i] in {'\"', '\'', '\U{201C}', '\U{201D}', '\U{2018}', '\U{2019}', '?'}
  }

  predicate Refusal(phrase: string) {
    phrase == "nao" || "nao " <= phrase || phrase == "cancela" || phrase == "cancelar" || phrase == "cancele"
  }

  ghost function PhraseFor(h: Host, p: Pending): string {
    if Knows(h.tools, p.name) then BindingOf(h.tools, p.name).phrase else DEFAULT_PHRASE
  }

  ghost predicate Affirms(h: Host, p: Pending, text: string) {
    h.normalize(text) == h.normalize(PhraseFor(h, p)) && !Quoted(text)
  }

  ghost function Observing(h: Host, s: PlannerState, now: int, turn: string, text: string): (PlannerState, bool) {
    var s1 := s.(intentTurn := turn, intentText := if Quoted(text) then "" else h.normalize(text));
    if s1.pending.None? || turn == s1.pending.value.turn then (s1, false)
    else if now > s1.pending.value.expires then (s1.(pending := None), false)
    else if Affirms(h, s1.pending.value, text) then
      (s1.(pending := Some(s1.pending.value.(approved := true))), true)
    else if Refusal(h.normalize(text)) then (s1.(pending := None), false)
    else (s1, false)
  }

  predicate ForbidsUI(h: Host, toolName: string) {
    exists n :: n in h.tools && h.tools[n].toolName == toolName && !h.tools[n].allowUI
  }

  function Confirming(h: Host, s: PlannerState, now: int, operationId: string, approved: bool): (PlannerState, bool) {
    if s.pending.None? || s.pending.value.operationId != operationId || now > s.pending.value.expires then (s, false)
    else if ForbidsUI(h, s.pending.value.name) then (s, false)
    else if approved then (s.(pending := Some(s.pending.value.(approved := true))), true)
    else (s.(pending := None), true)
  }

  function Interrupting(s: PlannerState): PlannerState {
    s.(pending := None, intentText := "")
  }

  // ----- discovery -----

  datatype Profile = Profile(policy: Policy, direct: bool, matchesIntent: string -> bool, phrase: string, allowUI: bool)

  /** A tool as a server advertises it. */
  datatype Discovered = Discovered(
    name: string,
    originalName: string,
    metadataOk: bool,
    schemaCompiles: bool,
    hostPolicy: Option<Policy>,
    dateTimesOk: Json -> bool,
    schemaOk: Json -> bool)

  /** The name under which the model sees a tool. */
  function ModelName(name: string): string {
    seq(|name|, i requires 0 <= i < |name| => if name[i] == '.' || name[i] == '-' then '_' else name[i])
  }

  predicate Letter(c: char) {
    'a' <= c <= 'z' || 'A' <= c <= 'Z'
  }

  predicate ModelToolName(name: string) {
    name != "" && Letter(name[0]) && forall i | 0 <= i < |name| ::
      Letter(name[i]) || '0' <= name[i] <= '9' || name[i] == '_'
  }

  /** Every tool is bound under its model name, which has no other character than letters, digits and '_'. */
  ghost predicate WellBound(tools: map<string, Binding>) {
    forall n | n in tools :: n == ModelName(tools[n].toolName) && ModelToolName(n)
  }

  lemma WellBoundIsDistinct(tools: map<string, Binding>)
    requires WellBound(tools)
    ensures DistinctTools(tools)
  {
  }

  /** A binding takes its policy from the trusted profile of an allowed tool, never from the tool. */
  ghost predicate Trusted(tool: Discovered, b: Binding, profiles: map<string, Profile>) {
    var original := if tool.originalName == "" then tool.name else tool.originalName;
    && b.toolName == tool.name && original in profiles
    && b.policy == profiles[original].policy && b.allowUI == profiles[original].allowUI
    && b.phrase == profiles[original].phrase && b.direct == profiles[original].direct
  }

  function BindTool(tool: Discovered, profiles: map<string, Profile>): (r: Result<Binding, string>)
    ensures r.Ok? ==>
              Trusted(tool, r.value, profiles) && (tool.hostPolicy.Some? ==> tool.hostPolicy.value == r.value.policy)
  {
    var original := if tool.originalName == "" then tool.name else tool.originalName;
    if !tool.schemaCompiles then Err("invalid MCP tool schema")
    else if original !in profiles then Err("missing trusted tool profile")
    else
      var profile := profiles[original];
      if tool.hostPolicy.Some? && tool.hostPolicy.value != profile.policy then
        Err("tool policy differs from host profile")
      else
        Ok(Binding(tool.name, profile.policy, tool.dateTimesOk, tool.schemaOk, profile.direct,
                   profile.matchesIntent, profile.phrase, profile.allowUI))
  }

  /** Binds the allowed tools to their trusted profiles. */
  method BindTools(discovered: seq<Discovered>, allowed: set<string>, profiles: map<string, Profile>)
    returns (r: Result<map<string, Binding>, string>)
    ensures r.Ok? ==> WellBound(r.value) && DistinctTools(r.value) && r.value != map[]
    ensures r.Ok? ==> forall n | n in r.value :: r.value[n].toolName in allowed
    ensures r.Ok? ==> forall i | 0 <= i < |discovered| && discovered[i].name in allowed ::
      ModelName(discovered[i].name) in r.value
      && Trusted(discovered[i], r.value[ModelName(discovered[i].name)], profiles)
  {
    var tools: map<string, Binding> := map[];
    for i := 0 to |discovered|
      invariant WellBound(tools)
      invariant forall n | n in tools :: tools[n].toolName in allowed
      invariant forall k | 0 <= k < i && discovered[k].name in allowed ::
        ModelName(discovered[k].name) in tools && Trusted(discovered[k], tools[ModelName(discovered[k].name)], profiles)
    {
      var tool := discovered[i];
      if tool.name !in allowed {
        continue;
      }
      var name := ModelName(tool.name);
      if !ModelToolName(name) || |name| > 64 || !tool.metadataOk {
        return Err("unsupported tool metadata");
      }
      if name in tools {
        return Err("tool name mapping collision");
      }
      var binding := BindTool(tool, profiles);
      if binding.Err? {
        return Err(binding.error);
      }
      tools := tools[name := binding.value];
    }
    if tools == map[] {
      return Err("no allowed MCP tools discovered");
    }
    WellBoundIsDistinct(tools);
    r := Ok(tools);
  }

  lemma ToolNamesAreNulFree(tools: map<string, Binding>, n: string)
    requires WellBound(tools) && n in tools
    ensures NulFree(tools[n].toolName)
  {
    var name := tools[n].toolName;
    forall i | 0 <= i < |name|
      ensures name[i] != '\0'
    {
      assert ModelName(name)[i] == n[i];
    }
  }

  // ----- the session object -----

  class Session {
    var intentTurn: string
    var intentText: string
    const host: Host
    var pending: Option<Pending>
    var seen: map<string, Digest>
    var cache: map<Digest, ToolResult>
    var calls: nat
    var attempted: set<Digest>

    ghost function Value(): PlannerState
      reads this
    {
      PlannerState(intentTurn, intentText, pending, seen, cache, calls, attempted)
    }

    constructor (host: Host)
      ensures this.host == host && Value() == NewSession()
    {
      this.host := host;
      intentTurn, intentText, pending := "", "", None;
      seen, cache, calls, attempted := map[], map[], 0, {};
    }

    method Fail(id: string, name: string, turn: string, args: Json, code: string)
      returns (job: Job, result: Option<ToolResult>)
      ensures (job, result) == Refused(host, id, name, turn, args, code)
    {
      var resolved := name;
      if name in host.tools {
        resolved := host.tools[name].toolName;
      }
      job, result := Job(id, resolved, None, turn, args, false), Some(Failure(code));
    }

    method Plan(now: int, id: string, name: string, turn: string, args: Json)
      returns (job: Job, result: Option<ToolResult>)
      modifies this
      ensures (Value(), (job, result)) == Planning(host, old(Value()), now, id, name, turn, args)
    {
      if !ValidId(id) {
        job, result := Fail(id, name, turn, args, "invalid_tool_id");
        return;
      }
      if name !in host.tools {
        job, result := Fail(id, name, turn, args, "tool_not_allowed");
        return;
      }
      var b := host.tools[name];
      if !b.dateTimesOk(args) {
        return Job(id, b.toolName, None, turn, args, false), Some(DateTimeError);
      }
      if !b.schemaOk(args) {
        job, result := Fail(id, name, turn, args, "invalid_arguments");
        return;
      }
      var k := KeyOf(host, b.toolName, args);
      if id in seen && seen[id] != k {
        job, result := Fail(id, name, turn, args, "tool_id_conflict");
        return;
      }
      if calls >= MAX_CALLS {
        job, result := Fail(id, name, turn, args, "tool_limit_reached");
        return;
      }
      calls := calls + 1;
      seen := seen[id := k];
      job, result := Decide(now, id, name, turn, args, k);
    }

    /** What becomes of a call once it has been counted. */
    method Decide(now: int, id: string, name: string, turn: string, args: Json, k: Digest)
      returns (job: Job, result: Option<ToolResult>)
      requires name in host.tools
      modifies this`pending, this`attempted
      ensures (Value(), (job, result)) == Deciding(host, old(Value()), now, id, name, turn, args, k)
    {
      var b := host.tools[name];
      job := Job(id, b.toolName, Some(k), turn, args, false);
      if b.policy != ReadOnly && k in cache {
        return job, Some(cache[k]);
      }
      if b.policy != ReadOnly && k in attempted {
        job, result := Fail(id, name, turn, args, "mutation_outcome_pending_or_unknown");
        return;
      }
      if b.policy == ConfirmLater {
        var p := pending;
        if p.Some? && now < p.value.expires && p.value.name == job.name && KeyOf(host, p.value.name, p.value.args) == k
           && p.value.approved {
          job := job.(confirmed := true);
          pending := None;
        } else {
          if p.None? || p.value.name != job.name || KeyOf(host, p.value.name, p.value.args) != k
             || now > p.value.expires {
            pending := Some(Pending(id, job.name, job.args, turn, now + CONFIRMATION_SECONDS, false));
          }
          return job, Some(ConfirmationRequired(pending.value.operationId, pending.value.args));
        }
      }
      if b.policy == ExplicitIntent && !b.direct && (intentTurn != turn || !b.matchesIntent(intentText)) {
        job, result := Fail(id, name, turn, args, "clarification_required");
        return;
      }
      if b.policy != ReadOnly {
        attempted := attempted + {k};
      }
      result := None;
    }

    method Complete(j: Job, r: ToolResult)
      modifies this`cache
      ensures Value() == Completing(host, old(Value()), j, r)
    {
      var policy := Policy.OtherPolicy;
      if n :| n in host.tools && host.tools[n].toolName == j.name && host.tools[n].policy == ReadOnly {
        policy := ReadOnly;
      }
      if j.key.Some? && policy != ReadOnly {
        cache := cache[j.key.value := r];
      }
    }

    method ConfirmationPhrase() returns (phrase: string)
      requires DistinctTools(host.tools)
      ensures phrase == if pending.None? then DEFAULT_PHRASE else PhraseFor(host, pending.value)
    {
      if pending.None? {
        return DEFAULT_PHRASE;
      }
      if n :| n in host.tools && host.tools[n].toolName == pending.value.name {
        assert Knows(host.tools, pending.value.name);
        return host.tools[n].phrase;
      }
      phrase := DEFAULT_PHRASE;
    }

    method ObserveUser(now: int, turn: string, text: string) returns (approved: bool)
      requires DistinctTools(host.tools)
      modifies this
      ensures (Value(), approved) == Observing(host, old(Value()), now, turn, text)
    {
      intentTurn := turn;
      intentText := host.normalize(text);
      if Quoted(text) {
        intentText := "";
      }
      if pending.None? || turn == pending.value.turn {
        return false;
      }
      if now > pending.value.expires {
        pending := None;
        return false;
      }
      var phrase := host.normalize(text);
      var wanted := ConfirmationPhrase();
      if phrase == host.normalize(wanted) && !Quoted(text) {
        pending := Some(pending.value.(approved := true));
        return true;
      }
      if phrase == "nao" || "nao " <= phrase || phrase == "cancela" || phrase == "cancelar" || phrase == "cancele" {
        pending := None;
      }
      approved := false;
    }

    method Confirm(now: int, operationId: string, approved: bool) returns (accepted: bool)
      modifies this`pending
      ensures (Value(), accepted) == Confirming(host, old(Value()), now, operationId, approved)
    {
      if pending.None? || pending.value.operationId != operationId || now > pending.value.expires {
        return false;
      }
      if exists n :: n in host.tools && host.tools[n].toolName == pending.value.name && !host.tools[n].allowUI {
        return false;
      }
      if approved {
        pending := Some(pending.value.(approved := true));
      } else {
        pending := None;
      }
      accepted := true;
    }

    method Interrupt()
      modifies this`pending, this`intentText
      ensures Value() == Interrupting(old(Value()))
    {
      pending := None;
      intentText := "";
    }
  }
}
