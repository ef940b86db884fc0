/** What a signature that the Java verifier accepts binds (apps/mcp-identity/.../Envelope.java). */
module JavaBinds {
  import opened Basics
  import opened JsonText
  import opened JsonRoundTrip
  import opened Canonical
  import opened CanonicalRules
  import opened Envelopes
  import opened EnvelopeRules
  import opened JavaEnvelopes

  function ContextOf(e: Json): seq<Member>
    requires e.Object? && Get(e.members, "host_context").Object?
  {
    Get(e.members, "host_context").members
  }

  function IdentityOf(h: seq<Member>): seq<Member>
    requires Get(h, "identity").Object?
  {
    Get(h, "identity").members
  }

  function PayloadOf(e: Json): Json
    requires e.Object?
  {
    Get(e.members, "payload")
  }

  function SignatureOf(h: seq<Member>): Option<seq<byte>> {
    HexDecode(AsText(Get(h, "signature")))
  }

  /** The shape of a tree that the verifier looks into. */
  predicate Shaped(e: Json) {
    && e.Object? && Get(e.members, "host_context").Object? && Get(ContextOf(e), "identity").Object?
  }

  /** Members with the same value, as Jackson reads it, under each of the names. */
  ghost predicate SameFields(a: seq<Member>, b: seq<Member>, names: seq<string>) {
    forall k | 0 <= k < |names| :: SameValue(Jackson, Get(a, names[k]), Get(b, names[k]))
  }

  // ----- what is signed is well formed, and its text determines it -----

  lemma FieldWellFormed(members: seq<Member>, name: string)
    requires WellFormed(Object(members))
    ensures WellFormed(Get(members, name)) && WellFormed(Normalize(Jackson, Get(members, name)))
  {
    var found := Lookup(members, name);
    if found.Some? {
      var i :| 0 <= i < |members| && members[i] == Member(name, found.value);
      assert WellFormed(members[i].value);
    }
    NormalizeKeepsWellFormed(Jackson, Get(members, name));
  }

  lemma SignedWellFormed(h: seq<Member>, i: seq<Member>)
    requires WellFormed(Object(h)) && WellFormed(Object(i))
    ensures WellFormed(Object(SignedMembers(h, i, CONTEXT)))
  {
    forall k | 0 <= k < |IDENTITY|
      ensures WellFormed(SignedIdentity(i, IDENTITY)[k].value)
    {
      FieldWellFormed(i, IDENTITY[k]);
    }
    forall k | 0 <= k < |CONTEXT|
      ensures WellFormed(SignedMembers(h, i, CONTEXT)[k].value)
    {
      FieldWellFormed(h, CONTEXT[k]);
    }
  }

  lemma PrintInjective(v: Json, w: Json)
    requires WellFormed(v) && WellFormed(w) && Print(Jackson, v) == Print(Jackson, w)
    ensures v == w
  {
    ParseInvertsPrint(Jackson, v);
    ParseInvertsPrint(Jackson, w);
  }

  lemma SignedTextBinds(h: seq<Member>, i: seq<Member>, h': seq<Member>, i': seq<Member>)
    requires WellFormed(Object(h)) && WellFormed(Object(i)) && WellFormed(Object(h')) && WellFormed(Object(i'))
    requires SignedText(h, i).Some? && SignedText(h, i) == SignedText(h', i')
    ensures SignedMembers(h, i, CONTEXT) == SignedMembers(h', i', CONTEXT)
  {
    SignedTextPrints(h, i, CONTEXT);
    SignedTextPrints(h', i', CONTEXT);
    SignedWellFormed(h, i);
    SignedWellFormed(h', i');
    PrintInjective(Object(SignedMembers(h, i, CONTEXT)), Object(SignedMembers(h', i', CONTEXT)));
  }

  /** The names of the context but for the identity and the signature. */
  const FIELDS: seq<string> := CONTEXT[..7]

  lemma MembersBind(h: seq<Member>, i: seq<Member>, h': seq<Member>, i': seq<Member>)
    requires SignedMembers(h, i, CONTEXT) == SignedMembers(h', i', CONTEXT)
    ensures SameFields(h, h', FIELDS) && SameFields(i, i', IDENTITY)
  {
    var m, m' := SignedMembers(h, i, CONTEXT), SignedMembers(h', i', CONTEXT);
    forall k | 0 <= k < |FIELDS|
      ensures SameValue(Jackson, Get(h, FIELDS[k]), Get(h', FIELDS[k]))
    {
      assert m[k].value == m'[k].value && CONTEXT[k] == FIELDS[k];
      SameValueIffNormal(Jackson, Get(h, FIELDS[k]), Get(h', FIELDS[k]));
    }
    assert CONTEXT[7] == "identity" && m[7].value == m'[7].value;
    var s, s' := SignedIdentity(i, IDENTITY), SignedIdentity(i', IDENTITY);
    forall k | 0 <= k < |IDENTITY|
      ensures SameValue(Jackson, Get(i, IDENTITY[k]), Get(i', IDENTITY[k]))
    {
      assert s[k].value == s'[k].value;
      SameValueIffNormal(Jackson, Get(i, IDENTITY[k]), Get(i', IDENTITY[k]));
    }
  }

  // ----- what was verified -----

  lemma PartsWellFormed(e: Json)
    requires WellFormed(e) && Shaped(e)
    ensures WellFormed(Object(ContextOf(e))) && WellFormed(Object(IdentityOf(ContextOf(e)))) && WellFormed(PayloadOf(e))
  {
    FieldWellFormed(e.members, "host_context");
    FieldWellFormed(e.members, "payload");
    FieldWellFormed(ContextOf(e), "identity");
  }

  lemma VerifiedParts(codec: Codec, audience: string, tool: string, e: Json, now: int)
    requires Verifying(codec, audience, tool, e, now).Some?
    ensures Shaped(e)
    ensures var h, p := ContextOf(e), PayloadOf(e);
            && ContextAdmitted(audience, tool, h, IdentityOf(h), now)
            && VerifyingSigned(codec, h, p, CanonicalOf(p), SignedText(h, IdentityOf(h))) ==
               Verifying(codec, audience, tool, e, now)
  {
  }

  lemma SameText(v: Json, w: Json)
    requires SameValue(Jackson, v, w)
    ensures AsText(v) == AsText(w)
  {
  }

  lemma PayloadBinds(codec: Codec, p: Json, p': Json)
    requires Injective(codec.sha) && WellFormed(p) && WellFormed(p') && CanonicalOf(p).Some? && CanonicalOf(p').Some?
    requires Hash(codec, CanonicalOf(p).value) == Hash(codec, CanonicalOf(p').value)
    ensures SameValue(Jackson, p, p')
  {
    HexInjective(codec.sha(CanonicalText(Jackson, p)), codec.sha(CanonicalText(Jackson, p')));
    CanonicalIdentifiesValues(Jackson, p, p');
  }

  /** What passed the last checks: the signature is that of the signed text, and the hash that of the payload. */
  lemma SignedIsChecked(codec: Codec, h: seq<Member>, p: Json, signed: Option<string>)
    requires VerifyingSigned(codec, h, p, CanonicalOf(p), signed).Some?
    ensures signed.Some? && SignatureOf(h) == Some(codec.mac(Domain(2) + signed.value))
    ensures CanonicalOf(p).Some? && Hash(codec, CanonicalOf(p).value) == AsText(Get(h, "payload_hash"))
  {
  }

  /** Equal signatures are over equal texts. */
  lemma SignatureIsOfText(codec: Codec, text: string, text': string)
    requires Injective(codec.mac) && codec.mac(Domain(2) + text) == codec.mac(Domain(2) + text')
    ensures text == text'
  {
    SamePrefix(Domain(2), text, text');
  }

  lemma SameTexts(h: seq<Member>, h': seq<Member>)
    requires SameFields(h, h', FIELDS)
    ensures AsText(Get(h, "audience")) == AsText(Get(h', "audience"))
    ensures AsText(Get(h, "tool")) == AsText(Get(h', "tool"))
    ensures AsText(Get(h, "payload_hash")) == AsText(Get(h', "payload_hash"))
  {
    assert FIELDS[1] == "audience" && FIELDS[2] == "tool" && FIELDS[3] == "payload_hash";
    SameText(Get(h, FIELDS[1]), Get(h', FIELDS[1]));
    SameText(Get(h, FIELDS[2]), Get(h', FIELDS[2]));
    SameText(Get(h, FIELDS[3]), Get(h', FIELDS[3]));
  }

  lemma PartsBind(codec: Codec, h: seq<Member>, i: seq<Member>, p: Json, h': seq<Member>, i': seq<Member>, p': Json)
    requires Injective(codec.sha) && Injective(codec.mac)
    requires WellFormed(Object(h)) && WellFormed(Object(i)) && WellFormed(p)
    requires WellFormed(Object(h')) && WellFormed(Object(i')) && WellFormed(p')
    requires VerifyingSigned(codec, h, p, CanonicalOf(p), SignedText(h, i)).Some?
    requires VerifyingSigned(codec, h', p', CanonicalOf(p'), SignedText(h', i')).Some?
    requires SignatureOf(h) == SignatureOf(h')
    ensures SameFields(h, h', FIELDS) && SameFields(i, i', IDENTITY) && SameValue(Jackson, p, p')
  {
    SignedIsChecked(codec, h, p, SignedText(h, i));
    SignedIsChecked(codec, h', p', SignedText(h', i'));
    SignatureIsOfText(codec, SignedText(h, i).value, SignedText(h', i').value);
    SignedTextBinds(h, i, h', i');
    MembersBind(h, i, h', i');
    SameTexts(h, h');
    PayloadBinds(codec, p, p');
  }

  /**
   If two trees pass with one signature, every field of the context and of the identity and the payload are the
   same, and they were verified for the same audience and tool: nothing of a tree that passed can be changed and
   pass with its signature.
   */
  lemma JavaSignatureBinds(codec: Codec, audience: string, tool: string, e: Json, now: int,
                           audience': string, tool': string, e': Json, now': int)
    requires Injective(codec.sha) && Injective(codec.mac) && WellFormed(e) && WellFormed(e')
    requires Verifying(codec, audience, tool, e, now).Some? && Verifying(codec, audience', tool', e', now').Some?
    requires Shaped(e) && Shaped(e') && SignatureOf(ContextOf(e)) == SignatureOf(ContextOf(e'))
    ensures audience == audience' && tool == tool'
    ensures SameFields(ContextOf(e), ContextOf(e'), FIELDS)
    ensures SameFields(IdentityOf(ContextOf(e)), IdentityOf(ContextOf(e')), IDENTITY)
    ensures SameValue(Jackson, PayloadOf(e), PayloadOf(e'))
  {
    var h, h' := ContextOf(e), ContextOf(e');
    VerifiedParts(codec, audience, tool, e, now);
    VerifiedParts(codec, audience', tool', e', now');
    PartsWellFormed(e);
    PartsWellFormed(e');
    PartsBind(codec, h, IdentityOf(h), PayloadOf(e), h', IdentityOf(h'), PayloadOf(e'));
    SameTexts(h, h');
  }
}
