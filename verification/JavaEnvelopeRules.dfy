/** When the Java verifier accepts what the Go wrapper signed. */
module JavaEnvelopeRules {
  import opened Basics
  import opened JsonText
  import opened JsonRoundTrip
  import opened Canonical
  import opened CanonicalRules
  import opened Envelopes
  import opened EnvelopeRules
  import opened JavaEnvelopes
  import P = ProfileStore

  // ----- looking up members -----

  lemma LookupAt(members: seq<Member>, i: nat)
    requires i < |members| && DistinctKeys(members)
    ensures Lookup(members, members[i].key) == Some(members[i].value)
  {
    var key := members[i].key;
    var found := Lookup(members, key);
    if found.Some? {
      var k :| 0 <= k < |members| && members[k] == Member(key, found.value);
    }
  }

  lemma ExactlyNamed(members: seq<Member>, names: seq<string>)
    requires |members| == |names| && DistinctKeys(members) && forall i | 0 <= i < |names| :: members[i].key == names[i]
    ensures Exact(Object(members), names)
    ensures forall i | 0 <= i < |names| :: Get(members, names[i]) == members[i].value
  {
    forall i | 0 <= i < |names|
      ensures Lookup(members, names[i]) == Some(members[i].value)
    {
      LookupAt(members, i);
    }
  }

  /** Members whose lowered names differ have different keys. */
  lemma DistinctNamesDistinctKeys(members: seq<Member>)
    requires DistinctNames(members)
    ensures DistinctKeys(members)
  {
    forall i, k | 0 <= i < k < |members|
      ensures members[i].key != members[k].key
    {
      assert Lower(members[i].key) != Lower(members[k].key);
    }
  }

  lemma IdentityFields(i: HostIdentity)
    ensures var m := IdentityTree(i).members;
            && Exact(Object(m), IDENTITY)
            && Get(m, "subject") == Text(i.subject) && Get(m, "client_code") == Text(i.clientCode)
            && Get(m, "session_ref") == Text(i.sessionRef) && Get(m, "device_id") == Text(i.deviceId)
            && Get(m, "scopes") == ScopesTree(i.scopes)
  {
    var m := IdentityTree(i).members;
    ExactlyNamed(m, IDENTITY);
    assert IDENTITY[0] == "subject" && IDENTITY[1] == "client_code" && IDENTITY[2] == "session_ref";
    assert IDENTITY[3] == "device_id" && IDENTITY[4] == "scopes";
  }

  lemma ContextFields(c: HostContext)
    requires c.identity.Some?
    ensures var m := ContextMembers(c);
            && Exact(Object(m), CONTEXT)
            && (forall k | 0 <= k < |CONTEXT| :: Get(m, CONTEXT[k]) == m[k].value && m[k].key == CONTEXT[k])
  {
    var m := ContextMembers(c);
    ContextPlaces(c);
    ContextDistinct(c);
    DistinctNamesDistinctKeys(m);
    ContextKeys(m, c);
    ExactlyNamed(m, CONTEXT);
  }

  lemma ContextKeys(m: seq<Member>, c: HostContext)
    requires |m| == 9
    requires m[0].key == "version" && m[1].key == "audience" && m[2].key == "tool" && m[3].key == "payload_hash"
    requires m[4].key == "idempotency_key" && m[5].key == "confirmed" && m[6].key == "expires_at"
    requires m[7].key == "identity"
    requires m[8].key == "signature"
    ensures forall i | 0 <= i < |CONTEXT| :: m[i].key == CONTEXT[i]
  {
  }

  // ----- normal forms of what is signed -----

  lemma {:induction false} ValidV2Kept(d: Dialect, v: Json)
    requires ValidV2(v)
    ensures ValidV2(Normalize(d, v))
    decreases v
  {
    match v
    case Array(items) =>
      forall i | 0 <= i < |items|
        ensures ValidV2(NormalizeItems(d, items)[i])
      {
        NormalizeItemsAt(d, items, i);
        ValidV2Kept(d, items[i]);
      }
    case Object(members) =>
      var sorted := SortInto(d, [], members);
      forall i | 0 <= i < |sorted|
        ensures (forall k | 0 <= k < |sorted[i].key| :: sorted[i].key[k] <= '\U{7F}') && ValidV2(sorted[i].value)
      {
        SortIntoMembers(d, [], members, i);
        var k :| 0 <= k < |members| && sorted[i] == Member(members[k].key, Normalize(d, members[k].value));
        ValidV2Kept(d, members[k].value);
      }
    case _ =>
  }

  /** A printed integer is never the text -0. */
  lemma IntTextNormal(n: int)
    ensures IntText(n) != "-0"
  {
    if n < 0 {
      assert IntText(n)[1] == NatText(-n)[0];
    }
  }

  lemma {:induction false} TextsNormal(items: seq<Json>)
    requires forall i | 0 <= i < |items| :: items[i].Text?
    ensures NormalizeItems(Jackson, items) == items
  {
    forall i | 0 <= i < |items|
      ensures NormalizeItems(Jackson, items)[i] == items[i]
    {
      NormalizeItemsAt(Jackson, items, i);
    }
  }

  /** A value that is signed as it stands. */
  predicate Settled(v: Json) {
    Normalize(Jackson, v) == v && ValidV2(v)
  }

  lemma ScopesSettled(items: seq<string>)
    ensures Settled(Array(Texts(items)))
  {
    TextsNormal(Texts(items));
    forall i | 0 <= i < |Texts(items)|
      ensures ValidV2(Texts(items)[i])
    {
    }
  }

  lemma LeavesSettled(text: string, b: bool, n: int)
    ensures Settled(Text(text)) && Settled(Bool(b)) && Settled(Number(IntText(n)))
  {
    IntTextNormal(n);
  }

  /** The members of an object have these names, in this order, and values that are signed as they stand. */
  predicate InOrder(settled: Json -> bool, m: seq<Member>, names: seq<string>) {
    |m| == |names| && forall k | 0 <= k < |names| ::
      m[k].key == names[k] && Get(m, names[k]) == m[k].value && settled(m[k].value)
  }

  lemma InOrderSigned(m: seq<Member>, names: seq<string>)
    requires InOrder(Settled, m, names)
    ensures AllPrintable(m, names) && SignedIdentity(m, names) == m
  {
    forall k | 0 <= k < |names|
      ensures CanonicalOf(Get(m, names[k])).Some? && SignedIdentity(m, names)[k] == m[k]
    {
      assert Settled(m[k].value);
    }
  }

  lemma IdentitySettled(i: HostIdentity)
    requires i.scopes.Some?
    ensures InOrder(Settled, IdentityTree(i).members, IDENTITY)
  {
    LeavesSettled(i.subject, true, 0);
    LeavesSettled(i.clientCode, true, 0);
    LeavesSettled(i.sessionRef, true, 0);
    LeavesSettled(i.deviceId, true, 0);
    ScopesSettled(i.scopes.value);
    IdentityInOrder(Settled, i);
  }

  lemma IdentityInOrder(settled: Json -> bool, i: HostIdentity)
    requires settled(Text(i.subject)) && settled(Text(i.clientCode)) && settled(Text(i.sessionRef))
    requires settled(Text(i.deviceId))
    requires settled(ScopesTree(i.scopes))
    ensures InOrder(settled, IdentityTree(i).members, IDENTITY)
  {
    var m := IdentityTree(i).members;
    IdentityFields(i);
    forall k | 0 <= k < |IDENTITY|
      ensures m[k].key == IDENTITY[k] && Get(m, IDENTITY[k]) == m[k].value && settled(m[k].value)
    {
      assert k == 0 || k == 1 || k == 2 || k == 3 || k == 4;
    }
  }

  /** The text Java signs is what Jackson prints for the context with an empty signature. */
  lemma SignedTextIsContext(c: HostContext)
    requires c.identity.Some? && c.identity.value.scopes.Some?
    ensures SignedText(ContextMembers(c), IdentityTree(c.identity.value).members) ==
            Some(Print(Jackson, ContextTree(c.(signature := ""))))
  {
    ContextFieldsSettled(c);
    IdentitySettled(c.identity.value);
    InOrderSigned(IdentityTree(c.identity.value).members, IDENTITY);
    SignedPlaces(Settled, c);
    ContextFields(c);
    ContextFields(c.(signature := ""));
    SignedTextOf(ContextMembers(c), IdentityTree(c.identity.value).members, ContextMembers(c.(signature := "")));
  }

  lemma SignedPlaces(settled: Json -> bool, c: HostContext)
    requires c.identity.Some?
    requires settled(Number(IntText(c.version))) && settled(Text(c.audience)) && settled(Text(c.tool))
    requires settled(Text(c.payloadHash))
    requires settled(Text(c.key)) && settled(Bool(c.confirmed)) && settled(Number(IntText(c.expiresAt)))
    ensures var h, u := ContextMembers(c), ContextMembers(c.(signature := ""));
            && |h| == |u| == |CONTEXT|
            && (forall k | 0 <= k < 7 :: u[k] == h[k] && settled(h[k].value))
            && u[7].value == IdentityTree(c.identity.value) && u[8].value == Text("")
  {
    ContextPlaces(c);
    ContextPlaces(c.(signature := ""));
    SettledPlaces(settled, ContextMembers(c), ContextMembers(c.(signature := "")));
  }

  lemma SettledPlaces(settled: Json -> bool, h: seq<Member>, u: seq<Member>)
    requires |h| == |u| == |CONTEXT|
    requires h[0] == u[0] && h[1] == u[1] && h[2] == u[2] && h[3] == u[3] && h[4] == u[4] && h[5] == u[5]
    requires h[6] == u[6]
    requires settled(h[0].value) && settled(h[1].value) && settled(h[2].value) && settled(h[3].value)
    requires settled(h[4].value) && settled(h[5].value) && settled(h[6].value)
    ensures forall k | 0 <= k < 7 :: u[k] == h[k] && settled(h[k].value)
  {
    forall k | 0 <= k < 7
      ensures u[k] == h[k] && settled(h[k].value)
    {
      assert k == 0 || k == 1 || k == 2 || k == 3 || k == 4 || k == 5 || k == 6;
    }
  }

  lemma ContextFieldsSettled(c: HostContext)
    ensures Settled(Number(IntText(c.version))) && Settled(Text(c.audience)) && Settled(Text(c.tool))
    ensures Settled(Text(c.payloadHash))
    ensures Settled(Text(c.key)) && Settled(Bool(c.confirmed)) && Settled(Number(IntText(c.expiresAt)))
  {
    LeavesSettled(c.audience, c.confirmed, c.version);
    LeavesSettled(c.tool, c.confirmed, c.expiresAt);
    LeavesSettled(c.payloadHash, c.confirmed, c.expiresAt);
    LeavesSettled(c.key, c.confirmed, c.expiresAt);
  }

  lemma SignedTextOf(h: seq<Member>, i: seq<Member>, u: seq<Member>)
    requires |h| == |u| == |CONTEXT|
    requires AllPrintable(i, IDENTITY) && SignedIdentity(i, IDENTITY) == i
    requires forall k | 0 <= k < |CONTEXT| :: h[k].key == u[k].key == CONTEXT[k] && Get(h, CONTEXT[k]) == h[k].value
    requires forall k | 0 <= k < 7 :: u[k] == h[k] && Settled(h[k].value)
    requires u[7].value == Object(i) && u[8].value == Text("")
    ensures SignedText(h, i) == Some(Print(Jackson, Object(u)))
  {
    forall k | 0 <= k < |CONTEXT|
      ensures FieldPrintable(CONTEXT[k], h, i) && u[k] == Member(CONTEXT[k], SignedValue(CONTEXT[k], h, i))
    {
      SignedFieldOf(h, i, u, k);
    }
    assert SignedMembers(h, i, CONTEXT) == u;
    SignedTextPrints(h, i, CONTEXT);
  }

  lemma SignedFieldOf(h: seq<Member>, i: seq<Member>, u: seq<Member>, k: nat)
    requires k < |CONTEXT| == |h| == |u|
    requires AllPrintable(i, IDENTITY) && SignedIdentity(i, IDENTITY) == i
    requires u[k].key == CONTEXT[k] && Get(h, CONTEXT[k]) == h[k].value
    requires k < 7 ==> u[k] == h[k] && Settled(h[k].value)
    requires k == 7 ==> u[k].value == Object(i)
    requires k == 8 ==> u[k].value == Text("")
    ensures FieldPrintable(CONTEXT[k], h, i) && u[k] == Member(CONTEXT[k], SignedValue(CONTEXT[k], h, i))
  {
    if k < 7 {
      PlainField(k);
    } else if k == 7 {
      assert CONTEXT[k] == "identity";
      assert "identity" != "signature";
    } else {
      assert CONTEXT[k] == "signature";
    }
  }

  lemma PlainField(k: nat)
    requires k < 7
    ensures CONTEXT[k] != "signature" && CONTEXT[k] != "identity"
  {
    assert k == 0 || k == 1 || k == 2 || k == 3 || k == 4 || k == 5 || k == 6;
    assert "tool"[0] != "signature"[0] && "audience"[0] != "signature"[0] && "version"[0] != "signature"[0];
  }

  // ----- what Java demands beyond Go -----

  /** The identity fields match the patterns of the verifier. */
  predicate JavaIdentity(i: HostIdentity) {
    Named(i.subject) && Named(i.deviceId) && Reference(i.clientCode) && Reference(i.sessionRef)
  }

  lemma AdmittedIff(c: HostContext, audience: string, tool: string, now: int)
    requires c.version == 2 && c.identity.Some? && c.identity.value.scopes.Some?
    requires c.audience == audience && c.tool == tool && Utf8Length(c.key) <= MAX_KEY
    ensures ContextAdmitted(audience, tool, ContextMembers(c), IdentityTree(c.identity.value).members, now) <==>
            now < c.expiresAt <= now + LIFETIME && JavaIdentity(c.identity.value) && !P.IsBlank(c.key)
  {
    ContextValues(c);
    IdentityFields(c.identity.value);
    TwoIsTwo();
    AdmittedOf(c, ContextMembers(c), IdentityTree(c.identity.value).members, now);
  }

  lemma ContextValues(c: HostContext)
    requires c.identity.Some?
    ensures var h := ContextMembers(c);
            && Get(h, "version") == Number(IntText(c.version)) && Get(h, "audience") == Text(c.audience)
               && Get(h, "tool") == Text(c.tool)
            && Get(h, "payload_hash") == Text(c.payloadHash) && Get(h, "idempotency_key") == Text(c.key)
            && Get(h, "confirmed") == Bool(c.confirmed) && Get(h, "expires_at") == Number(IntText(c.expiresAt))
            && Get(h, "identity") == IdentityTree(c.identity.value) && Get(h, "signature") == Text(c.signature)
  {
    ContextFields(c);
    ContextPlaces(c);
    assert CONTEXT[0] == "version" && CONTEXT[1] == "audience" && CONTEXT[2] == "tool" && CONTEXT[3] == "payload_hash";
    assert CONTEXT[4] == "idempotency_key" && CONTEXT[5] == "confirmed" && CONTEXT[6] == "expires_at";
    assert CONTEXT[7] == "identity" && CONTEXT[8] == "signature";
  }

  lemma AdmittedOf(c: HostContext, h: seq<Member>, i: seq<Member>, now: int)
    requires c.identity.Some? && c.identity.value.scopes.Some? && Utf8Length(c.key) <= MAX_KEY
    requires Get(h, "version") == Number("2") && Get(h, "audience") == Text(c.audience)
    requires Get(h, "tool") == Text(c.tool)
    requires Get(h, "idempotency_key") == Text(c.key) && Get(h, "confirmed") == Bool(c.confirmed)
    requires Get(h, "expires_at") == Number(IntText(c.expiresAt))
    requires Get(i, "subject") == Text(c.identity.value.subject)
    requires Get(i, "client_code") == Text(c.identity.value.clientCode)
    requires Get(i, "session_ref") == Text(c.identity.value.sessionRef)
    requires Get(i, "device_id") == Text(c.identity.value.deviceId)
    requires Get(i, "scopes") == ScopesTree(c.identity.value.scopes)
    ensures ContextAdmitted(c.audience, c.tool, h, i, now) <==>
            now < c.expiresAt <= now + LIFETIME && JavaIdentity(c.identity.value) && !P.IsBlank(c.key)
  {
  }

  lemma TwoIsTwo()
    ensures IntText(2) == "2"
  {
    assert NatText(2) == "2";
  }

  lemma EnvelopeMembers(v: Json, context: Json)
    ensures var m := [Member("payload", v), Member("host_context", context)];
            Exact(Object(m), ["payload", "host_context"]) && Get(m, "payload") == v && Get(m, "host_context") == context
  {
    assert |"payload"| != |"host_context"|;
    var names := ["payload", "host_context"];
    ExactlyNamed([Member("payload", v), Member("host_context", context)], names);
    assert names[0] == "payload" && names[1] == "host_context";
  }

  /** Java computes the hash that Go signed exactly for payloads that both print alike. */
  lemma PayloadHashAgrees(codec: Codec, v: Json)
    requires Injective(codec.sha) && WellFormed(v) && Normalize(Go, v) == v && ValidV2(v)
    ensures CanonicalOf(v) == Some(CanonicalText(Jackson, v))
    ensures Hash(codec, CanonicalText(Jackson, v)) == Hash(codec, Print(Go, v)) <==> Portable(v)
    ensures Portable(v) ==> CanonicalText(Jackson, v) == Print(Go, v)
  {
    ValidV2Kept(Jackson, v);
    LibrariesAgreeIff(v);
    if Hash(codec, CanonicalText(Jackson, v)) == Hash(codec, Print(Go, v)) {
      HexInjective(codec.sha(CanonicalText(Jackson, v)), codec.sha(Print(Go, v)));
    }
  }

  /** Java computes the signature of Go exactly for contexts whose texts both print alike. */
  lemma SignatureAgrees(codec: Codec, unsigned: Json)
    requires Injective(codec.mac)
    ensures codec.mac(Domain(2) + Print(Jackson, unsigned)) == codec.mac(Domain(2) + Print(Go, unsigned)) <==>
            PortableTexts(unsigned)
  {
    PrintAgrees(unsigned);
    if codec.mac(Domain(2) + Print(Jackson, unsigned)) == codec.mac(Domain(2) + Print(Go, unsigned)) {
      SamePrefix(Domain(2), Print(Jackson, unsigned), Print(Go, unsigned));
    }
  }

  /** The decision on a context, once its fields are known. */
  lemma VerifyingContext(codec: Codec, v: Json, c: HostContext, now: int)
    requires v.Object? && c.identity.Some? && c.identity.value.scopes.Some?
    ensures var h, i := ContextMembers(c), IdentityTree(c.identity.value).members;
            Verifying(codec, codec.audience, c.tool, EnvelopeTree(v, c), now) ==
            if ContextAdmitted(codec.audience, c.tool, h, i, now)
            then Decision(codec, v, c, SignedText(h, i)) else None
  {
    EnvelopeMembers(v, ContextTree(c));
    ContextFields(c);
    ContextValues(c);
    IdentityFields(c.identity.value);
    VerifyingOf(codec, v, c, ContextMembers(c), IdentityTree(c.identity.value).members, now);
  }

  /** What is decided after the context is admitted. */
  function Decision(codec: Codec, v: Json, c: HostContext, signed: Option<string>): Option<Verified> {
    if CanonicalOf(v).Some? && Utf8Length(CanonicalOf(v).value) <= MAX_PAYLOAD
       && Hash(codec, CanonicalOf(v).value) == c.payloadHash &&
       signed.Some? && HexDecode(c.signature) == Some(codec.mac(Domain(2) + signed.value))
    then Some(Verified(v, c.key, c.confirmed, c.payloadHash)) else None
  }

  lemma VerifyingOf(codec: Codec, v: Json, c: HostContext, h: seq<Member>, i: seq<Member>, now: int)
    requires v.Object? && Exact(Object(h), CONTEXT) && Exact(Object(i), IDENTITY)
    requires Get(h, "identity") == Object(i) && Get(h, "idempotency_key") == Text(c.key)
    requires Get(h, "confirmed") == Bool(c.confirmed)
    requires Get(h, "payload_hash") == Text(c.payloadHash) && Get(h, "signature") == Text(c.signature)
    requires var m := [Member("payload", v), Member("host_context", Object(h))];
             Exact(Object(m), ["payload", "host_context"]) && Get(m, "payload") == v
             && Get(m, "host_context") == Object(h)
    ensures Verifying(codec, codec.audience, c.tool, Object([Member("payload", v), Member("host_context", Object(h))]),
                      now) ==
            if ContextAdmitted(codec.audience, c.tool, h, i, now) then Decision(codec, v, c, SignedText(h, i)) else None
  {
    assert Verifying(codec, codec.audience, c.tool, Object([Member("payload", v), Member("host_context", Object(h))]),
                     now) ==
           VerifyingParts(codec, codec.audience, c.tool, h, i, v, now);
    SignedDecision(codec, v, c, h, CanonicalOf(v), SignedText(h, i));
  }

  lemma SignedDecision(codec: Codec, v: Json, c: HostContext, h: seq<Member>, payload: Option<string>,
                       signed: Option<string>)
    requires Get(h, "idempotency_key") == Text(c.key) && Get(h, "confirmed") == Bool(c.confirmed)
    requires Get(h, "payload_hash") == Text(c.payloadHash) && Get(h, "signature") == Text(c.signature)
    requires payload == CanonicalOf(v)
    ensures VerifyingSigned(codec, h, v, payload, signed) == Decision(codec, v, c, signed)
  {
  }

  lemma DecisionOf(codec: Codec, v: Json, c: HostContext, unsigned: Json)
    requires Injective(codec.sha) && Injective(codec.mac)
    requires WellFormed(v) && Normalize(Go, v) == v && ValidV2(v) && c.payloadHash == Hash(codec, Print(Go, v))
    requires HexDecode(c.signature) == Some(codec.mac(Domain(2) + Print(Go, unsigned)))
    ensures Decision(codec, v, c, Some(Print(Jackson, unsigned))) ==
            if Utf8Length(Print(Go, v)) <= MAX_PAYLOAD && Portable(v) && PortableTexts(unsigned)
            then Some(Verified(v, c.key, c.confirmed, c.payloadHash)) else None
  {
    PayloadHashAgrees(codec, v);
    SignatureAgrees(codec, unsigned);
  }

  /**
   Java accepts an envelope that Go wrapped at second t exactly from t to t + 59 and when the identity matches
   Java's patterns, the key is not blank, the canonical payload has at most 16384 bytes, and neither payload
   nor context holds what the two libraries print differently. It then reads what Go wrapped.
   */
  lemma JavaAcceptsGo(codec: Codec, tool: string, payload: string, key: string, confirmed: bool,
                      identity: HostIdentity, t: int, u: int)
    requires Injective(codec.sha) && Injective(codec.mac)
    requires Wrap(codec, 2, tool, payload, key, confirmed, Some(identity), t).Some?
    ensures var v := CanonicalPayload(2, payload).value;
            var c := SignedContext(codec, 2, tool, Print(Go, v), key, confirmed, Some(identity), t);
            Verifying(codec, codec.audience, tool, EnvelopeTree(v, c), u) ==
            if t <= u <= t + 59 && JavaIdentity(identity) && !P.IsBlank(key)
               && Utf8Length(Print(Go, v)) <= MAX_PAYLOAD &&
               Portable(v) && PortableTexts(ContextTree(c.(signature := "")))
            then Some(Verified(v, key, confirmed, c.payloadHash)) else None
  {
    var v := CanonicalPayload(2, payload).value;
    var c := SignedContext(codec, 2, tool, Print(Go, v), key, confirmed, Some(identity), t);
    CanonicalPayloadIsStable(2, payload, v);
    CanonicalIsNormal(payload, v);
    SignedContextSigns(codec, 2, tool, Print(Go, v), key, confirmed, Some(identity), t);
    SignedTextIsContext(c);
    VerifyingContext(codec, v, c, u);
    AdmittedIff(c, codec.audience, tool, u);
    DecisionOf(codec, v, c, ContextTree(c.(signature := "")));
  }

  lemma CanonicalIsNormal(payload: string, v: Json)
    requires CanonicalPayload(2, payload) == Some(v)
    ensures Normalize(Go, v) == v && ValidV2(v)
  {
    NormalizeTwice(Go, Go, Parse(payload).value);
  }
}
