/** What wrapping and unwrapping promise each other. */
module EnvelopeRules {
  import opened Basics
  import opened JsonText
  import opened JsonRoundTrip
  import opened Canonical
  import opened CanonicalRules
  import opened Envelopes

  // ----- parsed documents are well formed -----

  lemma {:induction false} ParsedValue(s: string)
    ensures ParseValue(s).Done? ==> WellFormed(ParseValue(s).value)
    decreases |s|, 1
  {
    var t := SkipSpace(s);
    if t != "" && t[0] == '{' {
      ParsedMembers(t[1..]);
    } else if t != "" && t[0] == '[' {
      ParsedItems(t[1..]);
    }
  }

  lemma {:induction false} ParsedItems(s: string)
    ensures ParseItems(s).Done? ==> forall i | 0 <= i < |ParseItems(s).value| :: WellFormed(ParseItems(s).value[i])
    decreases |s|, 2
  {
    ParsedValue(s);
    if ParseValue(s).Done? {
      var t := SkipSpace(ParseValue(s).rest);
      if t != "" {
        ParsedItems(t[1..]);
      }
    }
  }

  lemma {:induction false} ParsedMembers(s: string)
    ensures ParseMembers(s).Done? ==>
              forall i | 0 <= i < |ParseMembers(s).value| :: WellFormed(ParseMembers(s).value[i].value)
    decreases |s|, 2
  {
    if ParseKey(s).Done? {
      var after := ParseKey(s).rest;
      ParsedValue(after);
      if ParseValue(after).Done? {
        var t := SkipSpace(ParseValue(after).rest);
        if t != "" {
          ParsedMembers(t[1..]);
        }
      }
    }
  }

  lemma CanonicalPayloadIsStable(version: int, raw: string, v: Json)
    requires CanonicalPayload(version, raw) == Some(v)
    ensures WellFormed(v) && v.Object? && Parse(Print(Go, v)) == Some(v)
    ensures CanonicalPayload(version, Print(Go, v)) == if Utf8Length(Print(Go, v)) > MAX_PAYLOAD then None else Some(v)
  {
    var tree := Parse(raw).value;
    ParsedValue(raw);
    NormalizeKeepsWellFormed(Go, tree);
    ParseInvertsPrint(Go, v);
    NormalizeTwice(Go, Go, tree);
  }

  // ----- the printed envelope read back -----

  lemma RawLast(s: string, key: string, value: Json, raw: string, rest: string)
    requires ParseKey(s) == Done(key, raw + (['}'] + rest))
    requires ParseValue(raw + (['}'] + rest)) == Done(value, ['}'] + rest)
    ensures RawMembers(s) == Done([RawMember(key, raw)], rest)
  {
    var t := ['}'] + rest;
    assert (raw + t)[..|raw + t| - |t|] == raw;
    assert SkipSpace(t) == t && t[1..] == rest;
  }

  lemma RawNext(s: string, key: string, value: Json, raw: string, next: string, members: seq<RawMember>, rest: string)
    requires ParseKey(s) == Done(key, raw + ([','] + next))
    requires ParseValue(raw + ([','] + next)) == Done(value, [','] + next)
    requires RawMembers(next) == Done(members, rest)
    ensures RawMembers(s) == Done([RawMember(key, raw)] + members, rest)
  {
    var t := [','] + next;
    assert (raw + t)[..|raw + t| - |t|] == raw;
    assert SkipSpace(t) == t && t[1..] == next;
  }

  function TailText(key: string, raw: string): string {
    Quote(Go, key) + [':'] + (raw + (['}'] + ""))
  }

  function PairText(key: string, raw: string, next: string): string {
    Quote(Go, key) + [':'] + (raw + ([','] + next))
  }

  lemma PrintPair(a: Member, b: Member)
    ensures Print(Go, Object([a, b])) == ['{']
            + PairText(a.key, Print(Go, a.value), TailText(b.key, Print(Go, b.value)))
  {
    assert [a, b][1..] == [b];
    Associate(Quote(Go, a.key) + [':'], Print(Go, a.value), [','] + PrintMembers(Go, [b]));
    PrintTail(b);
  }

  lemma PrintTail(b: Member)
    ensures PrintMembers(Go, [b]) == TailText(b.key, Print(Go, b.value))
  {
    Associate(Quote(Go, b.key) + [':'], Print(Go, b.value), ['}']);
    assert ['}'] + "" == ['}'];
  }

  lemma TailReadsRaw(key: string, value: Json, raw: string)
    requires ParseValue(raw + (['}'] + "")) == Done(value, ['}'] + "")
    ensures RawMembers(TailText(key, raw)) == Done([RawMember(key, raw)], "")
  {
    KeyReads(Go, key, raw + (['}'] + ""));
    RawLast(TailText(key, raw), key, value, raw, "");
  }

  lemma PairTextReadsRaw(text: string, key: string, value: Json, raw: string, next: string, second: RawMember)
    requires text == PairText(key, raw, next)
    requires ParseValue(raw + ([','] + next)) == Done(value, [','] + next) && RawMembers(next) == Done([second], "")
    ensures RawMembers(text) == Done([RawMember(key, raw), second], "")
  {
    KeyReads(Go, key, raw + ([','] + next));
    RawNext(text, key, value, raw, next, [second], "");
    assert [RawMember(key, raw)] + [second] == [RawMember(key, raw), second];
  }

  /** The members of a printed pair, each with the text of its value. */
  lemma PairReadsRaw(a: Member, b: Member)
    requires WellFormed(a.value) && WellFormed(b.value)
    ensures RawObject(Print(Go, Object([a, b]))) ==
            Some([RawMember(a.key, Print(Go, a.value)), RawMember(b.key, Print(Go, b.value))])
  {
    var next := TailText(b.key, Print(Go, b.value));
    PrintPair(a, b);
    PrintedReads(Go, b.value, ['}'] + "");
    TailReadsRaw(b.key, b.value, Print(Go, b.value));
    PrintedReads(Go, a.value, [','] + next);
    var text := PairText(a.key, Print(Go, a.value), next);
    PairTextReadsRaw(text, a.key, a.value, Print(Go, a.value), next, RawMember(b.key, Print(Go, b.value)));
    BracedReadsRaw(text, [RawMember(a.key, Print(Go, a.value)), RawMember(b.key, Print(Go, b.value))]);
  }

  lemma BracedReadsRaw(text: string, members: seq<RawMember>)
    requires RawMembers(text) == Done(members, "")
    ensures RawObject(['{'] + text) == Some(members)
  {
    var s := ['{'] + text;
    assert SkipSpace(s) == s && s[1..] == text;
  }

  // ----- the context read back -----

  predicate DistinctNames(members: seq<Member>) {
    forall i, k | 0 <= i < k < |members| :: Lower(members[i].key) != Lower(members[k].key)
  }

  lemma {:induction false} FieldAt(members: seq<Member>, i: nat)
    requires i < |members| && DistinctNames(members) && !members[i].value.Null?
    ensures Field(members, Lower(members[i].key)) == Some(members[i].value)
  {
    if i == 0 {
      FieldAbsent(members[1..], Lower(members[0].key));
    } else {
      FieldAt(members[1..], i - 1);
    }
  }

  lemma {:induction false} FieldAbsent(members: seq<Member>, name: string)
    requires forall i | 0 <= i < |members| && Lower(members[i].key) == name :: members[i].value.Null?
    ensures Field(members, name).None?
  {
    if members != [] {
      FieldAbsent(members[1..], name);
    }
  }

  predicate Lowered(name: string) {
    forall i | 0 <= i < |name| :: !('A' <= name[i] <= 'Z')
  }

  lemma LowerOfLowered(name: string)
    requires Lowered(name)
    ensures Lower(name) == name
  {
  }

  lemma TextsAreTexts(items: seq<string>)
    ensures IsTexts(Array(Texts(items)))
    ensures TextsOf(Texts(items)) == items
  {
  }

  lemma TextAt(members: seq<Member>, i: nat, key: string, text: string)
    requires i < |members| && DistinctNames(members) && members[i] == Member(key, Text(text)) && Lowered(key)
    ensures TextField(members, key) == text
  {
    LowerOfLowered(key);
    FieldAt(members, i);
  }

  lemma IntAt(members: seq<Member>, i: nat, key: string, n: int)
    requires i < |members| && DistinctNames(members) && members[i] == Member(key, Number(IntText(n))) && Lowered(key)
    ensures IntField(members, key) == n
  {
    LowerOfLowered(key);
    FieldAt(members, i);
  }

  lemma IdentityReads(i: HostIdentity)
    ensures IdentityTyped(IdentityTree(i)) && IdentityOf(IdentityTree(i)) == i && WellFormed(IdentityTree(i))
  {
    var m := IdentityTree(i).members;
    IdentityNames();
    IdentityTextsRead(m, i);
    ScopesRead(m, i);
    if i.scopes.Some? {
      TextsAreTexts(i.scopes.value);
    }
  }

  lemma IdentityNames()
    ensures Lower("subject") == "subject" && Lower("client_code") == "client_code"
    ensures Lower("session_ref") == "session_ref"
    ensures Lower("device_id") == "device_id" && Lower("scopes") == "scopes"
  {
    LowerOfLowered("subject");
    LowerOfLowered("client_code");
    LowerOfLowered("session_ref");
    LowerOfLowered("device_id");
    LowerOfLowered("scopes");
  }

  lemma IdentityTextsRead(m: seq<Member>, i: HostIdentity)
    requires |m| == 5 && DistinctNames(m)
    requires m[0] == Member("subject", Text(i.subject)) && m[1] == Member("client_code", Text(i.clientCode))
    requires m[2] == Member("session_ref", Text(i.sessionRef)) && m[3] == Member("device_id", Text(i.deviceId))
    ensures TextField(m, "subject") == i.subject && TextField(m, "client_code") == i.clientCode
    ensures TextField(m, "session_ref") == i.sessionRef && TextField(m, "device_id") == i.deviceId
  {
    assert TextField(m, "subject") == i.subject by {
      TextAt(m, 0, "subject", i.subject);
    }
    assert TextField(m, "client_code") == i.clientCode by {
      TextAt(m, 1, "client_code", i.clientCode);
    }
    assert TextField(m, "session_ref") == i.sessionRef by {
      TextAt(m, 2, "session_ref", i.sessionRef);
    }
    assert TextField(m, "device_id") == i.deviceId by {
      TextAt(m, 3, "device_id", i.deviceId);
    }
  }

  lemma ScopesRead(m: seq<Member>, i: HostIdentity)
    requires |m| == 5 && DistinctNames(m) && m[4] == Member("scopes", ScopesTree(i.scopes))
    ensures ScopesField(m) == i.scopes
  {
    LowerOfLowered("scopes");
    if i.scopes.Some? {
      TextsAreTexts(i.scopes.value);
      FieldAt(m, 4);
    } else {
      assert forall k | 0 <= k < 4 :: Lower(m[k].key) != Lower(m[4].key);
      FieldAbsent(m, "scopes");
    }
  }

  predicate Encodable(version: int, c: HostContext) {
    (version == 1 || version == 2) && Int64(c.version) && Int64(c.expiresAt) && (c.identity.None? <==> version == 1)
  }

  lemma ContextNames()
    ensures Lower("version") == "version" && Lower("audience") == "audience" && Lower("tool") == "tool"
    ensures Lower("payload_hash") == "payload_hash" && Lower("idempotency_key") == "idempotency_key"
    ensures Lower("confirmed") == "confirmed" && Lower("expires_at") == "expires_at"
    ensures Lower("identity") == "identity" && Lower("signature") == "signature"
  {
    LowerOfLowered("version");
    LowerOfLowered("audience");
    LowerOfLowered("tool");
    LowerOfLowered("payload_hash");
    LowerOfLowered("idempotency_key");
    LowerOfLowered("confirmed");
    LowerOfLowered("expires_at");
    LowerOfLowered("identity");
    LowerOfLowered("signature");
  }

  lemma Placed(head: seq<Member>, middle: seq<Member>, last: Member)
    requires |head| == 7 && |middle| <= 1
    ensures var m := head + middle + [last];
            && |m| == 8 + |middle| && m[|m| - 1] == last && (middle != [] ==> m[7] == middle[0])
            && m[0] == head[0] && m[1] == head[1] && m[2] == head[2] && m[3] == head[3] && m[4] == head[4]
               && m[5] == head[5] && m[6] == head[6]
  {
  }

  /** The members in their places; the signature is last. */
  lemma ContextPlaces(c: HostContext)
    ensures var m := ContextMembers(c);
            var n := |m| - 1;
            && n == (if c.identity.Some? then 8 else 7)
            && m[0] == Member("version", Number(IntText(c.version))) && m[1] == Member("audience", Text(c.audience))
            && m[2] == Member("tool", Text(c.tool)) && m[3] == Member("payload_hash", Text(c.payloadHash))
            && m[4] == Member("idempotency_key", Text(c.key)) && m[5] == Member("confirmed", Bool(c.confirmed))
            && m[6] == Member("expires_at", Number(IntText(c.expiresAt)))
            && (c.identity.Some? ==> m[7] == Member("identity", IdentityTree(c.identity.value)))
            && m[n] == Member("signature", Text(c.signature))
  {
    Placed([Member("version", Number(IntText(c.version))), Member("audience", Text(c.audience)),
            Member("tool", Text(c.tool)),
            Member("payload_hash", Text(c.payloadHash)), Member("idempotency_key", Text(c.key)),
              Member("confirmed", Bool(c.confirmed)),
            Member("expires_at", Number(IntText(c.expiresAt)))],
           if c.identity.Some? then [Member("identity", IdentityTree(c.identity.value))] else [],
           Member("signature", Text(c.signature)));
  }

  lemma ContextDistinct(c: HostContext)
    ensures DistinctNames(ContextMembers(c))
  {
    ContextPlaces(c);
    PlacesDistinct(ContextMembers(c));
  }

  lemma PlacesDistinct(m: seq<Member>)
    requires |m| == 8 || |m| == 9
    requires m[0].key == "version" && m[1].key == "audience" && m[2].key == "tool" && m[3].key == "payload_hash"
    requires m[4].key == "idempotency_key" && m[5].key == "confirmed" && m[6].key == "expires_at"
    requires m[|m| - 1].key == "signature" && (|m| == 9 ==> m[7].key == "identity")
    ensures DistinctNames(m)
  {
    ContextNames();
    assert |"version"| == 7 && |"audience"| == |"identity"| == 8 && |"tool"| == 4 && |"payload_hash"| == 12;
    assert |"idempotency_key"| == 15 && |"confirmed"| == |"signature"| == 9 && |"expires_at"| == 10;
    assert "audience"[0] == 'a' && "identity"[0] == 'i' && "confirmed"[0] == 'c' && "signature"[0] == 's';
  }

  lemma TextMemberTyped(version: int, key: string, text: string)
    requires key in CONTEXT_TEXTS
    ensures ContextMember(version, Member(key, Text(text)))
  {
    ContextNames();
  }

  lemma IntMemberTyped(version: int, key: string, n: int)
    requires key in CONTEXT_INTS && Int64(n)
    ensures ContextMember(version, Member(key, Number(IntText(n))))
  {
    ContextNames();
  }

  lemma OtherMembersTyped(version: int, c: HostContext)
    requires Encodable(version, c)
    ensures ContextMember(version, Member("confirmed", Bool(c.confirmed)))
    ensures c.identity.Some? ==> ContextMember(version, Member("identity", IdentityTree(c.identity.value)))
  {
    ContextNames();
    if c.identity.Some? {
      IdentityReads(c.identity.value);
    }
  }

  lemma ContextIsTyped(version: int, c: HostContext)
    requires Encodable(version, c)
    ensures ContextTyped(version, ContextMembers(c))
  {
    IntMemberTyped(version, "version", c.version);
    TextMemberTyped(version, "audience", c.audience);
    TextMemberTyped(version, "tool", c.tool);
    TextMemberTyped(version, "payload_hash", c.payloadHash);
    TextMemberTyped(version, "idempotency_key", c.key);
    IntMemberTyped(version, "expires_at", c.expiresAt);
    TextMemberTyped(version, "signature", c.signature);
    OtherMembersTyped(version, c);
    PlacesTyped(version, c, ContextMembers(c));
  }

  lemma PlacesTyped(version: int, c: HostContext, m: seq<Member>)
    requires m == ContextMembers(c)
    requires ContextMember(version, Member("version", Number(IntText(c.version))))
    requires ContextMember(version, Member("audience", Text(c.audience)))
    requires ContextMember(version, Member("tool", Text(c.tool)))
    requires ContextMember(version, Member("payload_hash", Text(c.payloadHash)))
    requires ContextMember(version, Member("idempotency_key", Text(c.key)))
    requires ContextMember(version, Member("confirmed", Bool(c.confirmed)))
    requires ContextMember(version, Member("expires_at", Number(IntText(c.expiresAt))))
    requires c.identity.Some? ==> ContextMember(version, Member("identity", IdentityTree(c.identity.value)))
    requires ContextMember(version, Member("signature", Text(c.signature)))
    ensures ContextTyped(version, m)
  {
    ContextPlaces(c);
    forall i | 0 <= i < |m|
      ensures ContextMember(version, m[i])
    {
      assert i == 0 || i == 1 || i == 2 || i == 3 || i == 4 || i == 5 || i == 6 || i == |m| - 1
             || (i == 7 && c.identity.Some?);
    }
  }

  lemma ContextWellFormed(c: HostContext)
    ensures WellFormed(ContextTree(c))
  {
    ContextPlaces(c);
    var m := ContextMembers(c);
    if c.identity.Some? {
      IdentityReads(c.identity.value);
    }
    forall i | 0 <= i < |m|
      ensures WellFormed(m[i].value)
    {
      assert i == 0 || i == 1 || i == 2 || i == 3 || i == 4 || i == 5 || i == 6 || i == |m| - 1
             || (i == 7 && c.identity.Some?);
    }
  }

  /** What distinct members hold under the names of the text fields. */
  lemma TextFieldsOf(m: seq<Member>, c: HostContext)
    requires |m| > 7 && DistinctNames(m)
    requires m[1] == Member("audience", Text(c.audience)) && m[2] == Member("tool", Text(c.tool))
    requires m[3] == Member("payload_hash", Text(c.payloadHash)) && m[4] == Member("idempotency_key", Text(c.key))
    requires m[|m| - 1] == Member("signature", Text(c.signature))
    ensures TextField(m, "audience") == c.audience && TextField(m, "tool") == c.tool
    ensures TextField(m, "payload_hash") == c.payloadHash && TextField(m, "idempotency_key") == c.key
    ensures TextField(m, "signature") == c.signature
  {
    TextAt(m, 1, "audience", c.audience);
    TextAt(m, 2, "tool", c.tool);
    TextAt(m, 3, "payload_hash", c.payloadHash);
    TextAt(m, 4, "idempotency_key", c.key);
    TextAt(m, |m| - 1, "signature", c.signature);
  }

  lemma ContextTextFields(c: HostContext)
    ensures var m := ContextMembers(c);
            && TextField(m, "audience") == c.audience && TextField(m, "tool") == c.tool
            && TextField(m, "payload_hash") == c.payloadHash && TextField(m, "idempotency_key") == c.key
            && TextField(m, "signature") == c.signature
  {
    ContextPlaces(c);
    ContextDistinct(c);
    TextFieldsOf(ContextMembers(c), c);
  }

  lemma OtherFieldsOf(m: seq<Member>, c: HostContext)
    requires |m| > 7 && DistinctNames(m)
    requires m[0] == Member("version", Number(IntText(c.version))) && m[5] == Member("confirmed", Bool(c.confirmed))
    requires m[6] == Member("expires_at", Number(IntText(c.expiresAt)))
    requires c.identity.Some? ==> m[7] == Member("identity", IdentityTree(c.identity.value))
    ensures IntField(m, "version") == c.version && IntField(m, "expires_at") == c.expiresAt
    ensures BoolField(m, "confirmed") == c.confirmed
    ensures c.identity.Some? ==> IdentityField(m) == c.identity.value
  {
    ContextNames();
    IntAt(m, 0, "version", c.version);
    FieldAt(m, 5);
    IntAt(m, 6, "expires_at", c.expiresAt);
    if c.identity.Some? {
      IdentityReads(c.identity.value);
      FieldAt(m, 7);
    }
  }

  lemma ContextOtherFields(c: HostContext)
    ensures var m := ContextMembers(c);
            && IntField(m, "version") == c.version && IntField(m, "expires_at") == c.expiresAt
            && BoolField(m, "confirmed") == c.confirmed
            && (c.identity.Some? ==> IdentityField(m) == c.identity.value)
  {
    ContextPlaces(c);
    ContextDistinct(c);
    OtherFieldsOf(ContextMembers(c), c);
  }

  lemma ContextReads(version: int, c: HostContext)
    requires Encodable(version, c)
    ensures DecodeContext(version, ContextTree(c)) == Some(c)
    ensures WellFormed(ContextTree(c))
  {
    ContextIsTyped(version, c);
    ContextWellFormed(c);
    ContextTextFields(c);
    ContextOtherFields(c);
  }

  // ----- wrapping and unwrapping -----

  lemma EnvelopeReads(v: Json, c: HostContext, version: int)
    requires WellFormed(v) && Encodable(version, c)
    ensures var members := RawObject(Print(Go, EnvelopeTree(v, c)));
            && members.Some? && RawKnown(members.value)
            && RawField(members.value, "payload") == Print(Go, v)
            && RawField(members.value, "host_context") == Print(Go, ContextTree(c))
            && Parse(Print(Go, ContextTree(c))) == Some(ContextTree(c))
  {
    var a, b := Member("payload", v), Member("host_context", ContextTree(c));
    ContextReads(version, c);
    PairReadsRaw(a, b);
    ParseInvertsPrint(Go, ContextTree(c));
    PrintedHead(Go, v);
    PrintedHead(Go, ContextTree(c));
    EnvelopeFields(Print(Go, v), Print(Go, ContextTree(c)));
  }

  lemma EnvelopeFields(payload: string, context: string)
    requires payload != "" && context != ""
    ensures var members := [RawMember("payload", payload), RawMember("host_context", context)];
            RawKnown(members) && RawField(members, "payload") == payload && RawField(members, "host_context") == context
  {
    LowerOfLowered("payload");
    LowerOfLowered("host_context");
    assert |"payload"| != |"host_context"|;
    TwoRaw(RawMember("payload", payload), RawMember("host_context", context), "payload");
    TwoRaw(RawMember("payload", payload), RawMember("host_context", context), "host_context");
  }

  lemma TwoRaw(first: RawMember, last: RawMember, name: string)
    ensures RawField([first, last], name) ==
            if Lower(last.key) == name && last.raw != "" then last.raw else if Lower(first.key) == name then first.raw
            else ""
  {
    assert [first, last][1..] == [last] && [last][1..] == [];
    assert RawField([last], name) == if Lower(last.key) == name then last.raw else "";
  }

  lemma UnwrapPrinted(codec: Codec, version: int, tool: string, v: Json, c: HostContext, now: int)
    requires WellFormed(v) && Encodable(version, c)
    ensures var data := Print(Go, EnvelopeTree(v, c));
            Unwrap(codec, version, tool, data, now) ==
            if Utf8Length(data) > MAX_ENVELOPE then None else Checked(codec, version, tool, Print(Go, v), Some(c), now)
  {
    EnvelopeReads(v, c, version);
    ContextReads(version, c);
  }

  lemma CheckSigned(codec: Codec, version: int, tool: string, v: Json, key: string, confirmed: bool,
                    identity: Option<HostIdentity>, t: int, u: int)
    requires ValidKey(key) && ValidIdentity(version, identity)
    requires CanonicalPayload(version, Print(Go, v)) == if Utf8Length(Print(Go, v)) > MAX_PAYLOAD then None else Some(v)
    ensures var c := SignedContext(codec, version, tool, Print(Go, v), key, confirmed, identity, t);
            Checked(codec, version, tool, Print(Go, v), Some(c), u) ==
            if t <= u <= t + 59 && Utf8Length(Print(Go, v)) <= MAX_PAYLOAD
            then Some(Opened(Print(Go, v), key, confirmed, WithScopes(identity))) else None
  {
    var c := SignedContext(codec, version, tool, Print(Go, v), key, confirmed, identity, t);
    SignedContextSigns(codec, version, tool, Print(Go, v), key, confirmed, identity, t);
    CheckedWhen(codec, version, tool, Print(Go, v), c, v, u);
  }

  lemma SignedContextSigns(codec: Codec, version: int, tool: string, payload: string, key: string, confirmed: bool,
                           identity: Option<HostIdentity>, t: int)
    ensures var c := SignedContext(codec, version, tool, payload, key, confirmed, identity, t);
            HexDecode(c.signature) == Some(Sign(codec, c))
  {
    var c := SignedContext(codec, version, tool, payload, key, confirmed, identity, t);
    var unsigned := HostContext(version, codec.audience, tool, Hash(codec, payload), key, confirmed, t + LIFETIME,
                                WithScopes(identity), "");
    HexRoundTrip(Sign(codec, unsigned));
    SignIgnoresSignature(codec, c, unsigned);
  }

  lemma SignIgnoresSignature(codec: Codec, c: HostContext, d: HostContext)
    requires c.(signature := "") == d.(signature := "")
    ensures Sign(codec, c) == Sign(codec, d)
  {
  }

  lemma CheckedWhen(codec: Codec, version: int, tool: string, raw: string, c: HostContext, v: Json, now: int)
    requires CanonicalPayload(version, raw).Some? ==> CanonicalPayload(version, raw).value == v
    requires Hash(codec, Print(Go, v)) == c.payloadHash && HexDecode(c.signature) == Some(Sign(codec, c))
    ensures Checked(codec, version, tool, raw, Some(c), now) ==
            if Admissible(codec, version, tool, c, now) && CanonicalPayload(version, raw).Some?
            then Some(Opened(Print(Go, v), c.key, c.confirmed, c.identity)) else None
  {
  }

  /**
   Unwrapping what was wrapped at second t succeeds exactly from t to t + 59, provided the envelope has at
   most 32768 bytes and the canonical payload at most 16384; it returns the canonical payload, the key,
   the confirmation and the identity that were wrapped.
   */
  lemma UnwrapInvertsWrap(codec: Codec, version: int, tool: string, payload: string, key: string, confirmed: bool,
                          identity: Option<HostIdentity>, t: int, u: int)
    requires version == 1 || version == 2
    requires Int64(t + LIFETIME)
    requires Wrap(codec, version, tool, payload, key, confirmed, identity, t).Some?
    ensures var data := Wrap(codec, version, tool, payload, key, confirmed, identity, t).value;
            var canonical := Print(Go, CanonicalPayload(version, payload).value);
            Unwrap(codec, version, tool, data, u) ==
            if t <= u <= t + 59 && Utf8Length(data) <= MAX_ENVELOPE && Utf8Length(canonical) <= MAX_PAYLOAD
            then Some(Opened(canonical, key, confirmed, WithScopes(identity))) else None
  {
    var v := CanonicalPayload(version, payload).value;
    var c := SignedContext(codec, version, tool, Print(Go, v), key, confirmed, identity, t);
    CanonicalPayloadIsStable(version, payload, v);
    UnwrapPrinted(codec, version, tool, v, c, u);
    CheckSigned(codec, version, tool, v, key, confirmed, identity, t, u);
  }

  // ----- what a signature binds -----

  ghost predicate Injective(f: string -> seq<byte>) {
    forall x, y :: f(x) == f(y) ==> x == y
  }

  lemma HexInjective(x: seq<byte>, y: seq<byte>)
    requires HexEncode(x) == HexEncode(y)
    ensures x == y
  {
    HexRoundTrip(x);
    HexRoundTrip(y);
  }

  /**
   If two envelopes pass with one signature, they say the same: tool, key, confirmation, identity, expiry
   window and canonical payload. Nothing of a passed envelope can be changed and pass with its signature.
   */
  lemma SignatureBinds(codec: Codec, version: int, tool: string, raw: string, c: HostContext, now: int,
                       tool': string, raw': string, c': HostContext, now': int)
    requires version == 1 || version == 2
    requires Injective(codec.sha) && Injective(codec.mac)
    requires Encodable(version, c) && Encodable(version, c')
    requires Checked(codec, version, tool, raw, Some(c), now).Some?
    requires Checked(codec, version, tool', raw', Some(c'), now').Some?
    requires HexDecode(c.signature) == HexDecode(c'.signature)
    ensures tool == tool' && c.expiresAt == c'.expiresAt
    ensures Checked(codec, version, tool, raw, Some(c), now) == Checked(codec, version, tool', raw', Some(c'), now')
  {
    assert Sign(codec, c) == Sign(codec, c');
    SignInjective(codec, version, c, c');
    var v, v' := CanonicalPayload(version, raw).value, CanonicalPayload(version, raw').value;
    HexInjective(codec.sha(Print(Go, v)), codec.sha(Print(Go, v')));
  }

  lemma SignInjective(codec: Codec, version: int, c: HostContext, c': HostContext)
    requires Injective(codec.mac) && Encodable(version, c) && Encodable(version, c')
    requires c.version == c'.version && Sign(codec, c) == Sign(codec, c')
    ensures c.(signature := "") == c'.(signature := "")
  {
    var d, d' := c.(signature := ""), c'.(signature := "");
    SamePrefix(Domain(c.version), Print(Go, ContextTree(d)), Print(Go, ContextTree(d')));
    PrintedContextInjective(version, d, d');
  }

  lemma PrintedContextInjective(version: int, c: HostContext, c': HostContext)
    requires Encodable(version, c) && Encodable(version, c') && Print(Go, ContextTree(c)) == Print(Go, ContextTree(c'))
    ensures c == c'
  {
    ContextTreeReads(version, c);
    ContextTreeReads(version, c');
  }

  lemma ContextTreeReads(version: int, c: HostContext)
    requires Encodable(version, c)
    ensures var read := Parse(Print(Go, ContextTree(c))); read.Some? && DecodeContext(version, read.value) == Some(c)
  {
    ContextReads(version, c);
    ParseInvertsPrint(Go, ContextTree(c));
  }

  lemma SamePrefix(prefix: string, x: string, y: string)
    requires prefix + x == prefix + y
    ensures x == y
  {
    assert x == (prefix + x)[|prefix|..] && y == (prefix + y)[|prefix|..];
  }
}
