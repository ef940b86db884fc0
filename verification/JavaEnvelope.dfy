/**
 The Java verifier of version 2 envelopes
 (apps/mcp-identity/src/main/java/local/sts/identity/Envelope.java).
 The argument tree is what Jackson decoded; a denial is an exception in the source.
 */
module JavaEnvelopes {
  import opened Basics
  import opened JsonText
  import opened Canonical
  import opened CanonicalRules
  import opened Envelopes
  import P = ProfileStore

  const CONTEXT: seq<string> :=
    ["version", "audience", "tool", "payload_hash", "idempotency_key", "confirmed", "expires_at", "identity",
     "signature"]
  const IDENTITY: seq<string> := ["subject", "client_code", "session_ref", "device_id", "scopes"]

  datatype Verified = Verified(payload: Json, key: string, confirmed: bool, hash: string)

  /** The object has exactly these member names. */
  predicate Exact(v: Json, names: seq<string>) {
    && v.Object?
    && (forall i | 0 <= i < |v.members| :: v.members[i].key in names)
    && (forall i | 0 <= i < |names| :: Lookup(v.members, names[i]).Some?)
  }

  function Get(members: seq<Member>, name: string): Json {
    var found := Lookup(members, name);
    if found.Some? then found.value else Null
  }

  function AsText(v: Json): string {
    match v
    case Text(text) => text
    case Number(literal) => Literal(Jackson, literal)
    case Bool(b) => if b then "true" else "false"
    case Null => "null"
    case _ => ""
  }

  predicate AlphaNumeric(c: char) { 'a' <= c <= 'z' || 'A' <= c <= 'Z' || '0' <= c <= '9' }

  predicate ReferenceChar(c: char) { AlphaNumeric(c) || c == '.' || c == '_' || c == ':' || c == '-' }

  predicate Reference(text: string) {
    |text| <= 128 && forall i | 0 <= i < |text| :: ReferenceChar(text[i])
  }

  predicate Named(text: string) {
    text != "" && AlphaNumeric(text[0]) && Reference(text)
  }

  predicate AllTexts(v: Json) {
    v.Array? && forall i | 0 <= i < |v.items| :: v.items[i].Text?
  }

  /** canonical refuses keys that are not ASCII and numbers that are not integers. */
  function CanonicalOf(v: Json): Option<string> {
    if ValidV2(Normalize(Jackson, v)) then Some(CanonicalText(Jackson, v)) else None
  }

  // ----- the signed text -----

  function SignedIdentity(i: seq<Member>, names: seq<string>): seq<Member> {
    seq(|names|, k requires 0 <= k < |names| => Member(names[k], Normalize(Jackson, Get(i, names[k]))))
  }

  function SignedValue(field: string, h: seq<Member>, i: seq<Member>): Json {
    if field == "signature" then Text("")
    else if field == "identity" then Object(SignedIdentity(i, IDENTITY))
    else Normalize(Jackson, Get(h, field))
  }

  function SignedMembers(h: seq<Member>, i: seq<Member>, names: seq<string>): seq<Member> {
    seq(|names|, k requires 0 <= k < |names| => Member(names[k], SignedValue(names[k], h, i)))
  }

  predicate AllPrintable(i: seq<Member>, names: seq<string>) {
    forall k | 0 <= k < |names| :: CanonicalOf(Get(i, names[k])).Some?
  }

  predicate FieldPrintable(field: string, h: seq<Member>, i: seq<Member>) {
    if field == "signature" then true
    else if field == "identity" then AllPrintable(i, IDENTITY)
    else CanonicalOf(Get(h, field)).Some?
  }

  predicate Printable(h: seq<Member>, i: seq<Member>, names: seq<string>) {
    forall k | 0 <= k < |names| :: FieldPrintable(names[k], h, i)
  }

  /** Pieces of text separated by commas. */
  function Joined(pieces: seq<string>): string {
    if |pieces| == 0 then "" else if |pieces| == 1 then pieces[0]
    else Joined(pieces[..|pieces| - 1]) + ([','] + pieces[|pieces| - 1])
  }

  lemma JoinedNext(pieces: seq<string>, k: nat)
    requires 0 < k < |pieces|
    ensures Joined(pieces[..k + 1]) == Joined(pieces[..k]) + ([','] + pieces[k])
  {
    assert pieces[..k + 1][..k] == pieces[..k];
  }

  lemma {:induction false} JoinedFront(pieces: seq<string>)
    requires |pieces| > 1
    ensures Joined(pieces) == pieces[0] + ([','] + Joined(pieces[1..]))
  {
    var n := |pieces| - 1;
    var before, last := pieces[..n], pieces[n];
    if n > 1 {
      JoinedFront(before);
      assert before[1..] == pieces[1..][..n - 1];
      assert pieces[0] + ([','] + Joined(before[1..])) + ([','] + last) ==
             pieces[0] + ([','] + (Joined(before[1..]) + ([','] + last)));
    } else {
      assert pieces[1..] == [last] && before == [pieces[0]];
    }
  }

  function Entry(m: Member): string {
    Quote(Jackson, m.key) + [':'] + Print(Jackson, m.value)
  }

  function Entries(members: seq<Member>): seq<string> {
    seq(|members|, k requires 0 <= k < |members| => Entry(members[k]))
  }

  lemma {:induction false} JoinedPrints(members: seq<Member>)
    requires members != []
    ensures PrintMembers(Jackson, members) == Joined(Entries(members)) + ['}']
  {
    var pieces := Entries(members);
    if |members| > 1 {
      assert pieces[1..] == Entries(members[1..]);
      JoinedPrints(members[1..]);
      JoinedFront(pieces);
      Closing(pieces[0], Joined(pieces[1..]));
    }
  }

  lemma Closing(first: string, rest: string)
    ensures first + ([','] + (rest + ['}'])) == (first + ([','] + rest)) + ['}']
  {
  }

  /** An object written from names and the texts of their values; no text when a value has none. */
  function Braced(names: seq<string>, values: seq<Option<string>>): Option<string>
    requires |names| == |values|
  {
    if None in values then None else Some(['{'] + Joined(Pieces(names, values)) + ['}'])
  }

  function Pieces(names: seq<string>, values: seq<Option<string>>): seq<string>
    requires |names| == |values|
  {
    seq(|names|, k requires 0 <= k < |names| => Piece(names[k], values[k]))
  }

  function Piece(name: string, value: Option<string>): string {
    Quote(Jackson, name) + [':'] + if value.Some? then value.value else ""
  }

  lemma BracedPrints(members: seq<Member>, names: seq<string>, values: seq<Option<string>>)
    requires 0 < |members| == |names| == |values|
    requires forall j | 0 <= j < |members| ::
             members[j].key == names[j] && values[j] == Some(Print(Jackson, members[j].value))
    ensures Braced(names, values) == Some(Print(Jackson, Object(members)))
  {
    forall k | 0 <= k < |names|
      ensures Piece(names[k], values[k]) == Entry(members[k])
    {
    }
    assert Pieces(names, values) == Entries(members);
    BracedEntries(members);
  }

  lemma BracedEntries(members: seq<Member>)
    requires members != []
    ensures ['{'] + Joined(Entries(members)) + ['}'] == Print(Jackson, Object(members))
  {
    JoinedPrints(members);
  }

  function IdentityTexts(i: seq<Member>, names: seq<string>): seq<Option<string>> {
    seq(|names|, k requires 0 <= k < |names| => CanonicalOf(Get(i, names[k])))
  }

  /** Writes one more piece behind the others. */
  method Append(built: string, first: bool, name: string, value: string, ghost pieces: seq<string>, ghost k: nat)
    returns (text: string)
    requires k < |pieces| && pieces[k] == Piece(name, Some(value)) && (first <==> k == 0)
    requires built == ['{'] + Joined(pieces[..k])
    ensures text == ['{'] + Joined(pieces[..k + 1]) && |text| > 1
  {
    ghost var before := Joined(pieces[..k]);
    if first {
      assert pieces[..1] == [pieces[0]] && before == "";
      text := built + (Quote(Jackson, name) + [':'] + value);
    } else {
      JoinedNext(pieces, k);
      text := built + ([','] + (Quote(Jackson, name) + [':'] + value));
      assert (['{'] + before) + ([','] + pieces[k]) == ['{'] + (before + ([','] + pieces[k]));
    }
  }

  /** Jackson's text for the named members of an object, in the order of the names. */
  method AppendIdentity(i: seq<Member>, names: seq<string>) returns (text: Option<string>)
    ensures text == Braced(names, IdentityTexts(i, names))
  {
    ghost var values := IdentityTexts(i, names);
    ghost var pieces := Pieces(names, values);
    var built := ['{'];
    var first := true;
    for k := 0 to |names|
      invariant first <==> k == 0
      invariant None !in values[..k]
      invariant built == ['{'] + Joined(pieces[..k])
    {
      var value := CanonicalOf(Get(i, names[k]));
      assert value == values[k];
      if value.None? {
        return None;
      }
      built := Append(built, first, names[k], value.value, pieces, k);
      first := false;
    }
    assert values[..|names|] == values && pieces[..|names|] == pieces;
    text := Some(built + ['}']);
  }

  /** What one field contributes to the signed text. */
  function FieldText(field: string, h: seq<Member>, i: seq<Member>): Option<string> {
    if field == "signature" then Some(['\"', '\"'])
    else if field == "identity" then Braced(IDENTITY, IdentityTexts(i, IDENTITY))
    else CanonicalOf(Get(h, field))
  }

  function FieldTexts(h: seq<Member>, i: seq<Member>, names: seq<string>): seq<Option<string>> {
    seq(|names|, k requires 0 <= k < |names| => FieldText(names[k], h, i))
  }

  method AppendField(field: string, h: seq<Member>, i: seq<Member>) returns (value: Option<string>)
    ensures value == FieldText(field, h, i)
  {
    if field == "signature" {
      value := Some(['\"', '\"']);
    } else if field == "identity" {
      value := AppendIdentity(i, IDENTITY);
    } else {
      value := CanonicalOf(Get(h, field));
    }
  }

  /** Builds the text that is signed, field by field. */
  method BuildSigned(h: seq<Member>, i: seq<Member>, names: seq<string>) returns (text: Option<string>)
    ensures text == Braced(names, FieldTexts(h, i, names))
  {
    ghost var values := FieldTexts(h, i, names);
    ghost var pieces := Pieces(names, values);
    var signed := ['{'];
    for k := 0 to |names|
      invariant |signed| > 1 <==> k > 0
      invariant None !in values[..k]
      invariant signed == ['{'] + Joined(pieces[..k])
    {
      var value := AppendField(names[k], h, i);
      assert value == values[k];
      if value.None? {
        return None;
      }
      signed := Append(signed, |signed| <= 1, names[k], value.value, pieces, k);
    }
    assert values[..|names|] == values && pieces[..|names|] == pieces;
    text := Some(signed + ['}']);
  }

  lemma IdentityTextPrints(i: seq<Member>, names: seq<string>)
    requires names != []
    ensures Braced(names, IdentityTexts(i, names)) ==
            if AllPrintable(i, names) then Some(Print(Jackson, Object(SignedIdentity(i, names)))) else None
  {
    var values := IdentityTexts(i, names);
    if AllPrintable(i, names) {
      BracedPrints(SignedIdentity(i, names), names, values);
    } else {
      var k :| 0 <= k < |names| && CanonicalOf(Get(i, names[k])).None?;
      assert values[k] == None;
    }
  }

  lemma FieldTextPrints(field: string, h: seq<Member>, i: seq<Member>)
    ensures FieldText(field, h, i) == if FieldPrintable(field, h, i) then Some(Print(Jackson, SignedValue(field, h, i)))
            else None
  {
    if field == "signature" {
      assert Quote(Jackson, "") == ['\"', '\"'];
    } else if field == "identity" {
      IdentityTextPrints(i, IDENTITY);
    }
  }

  /** The text built from strings is the printed tree with an empty signature. */
  lemma SignedTextPrints(h: seq<Member>, i: seq<Member>, names: seq<string>)
    requires names != []
    ensures Braced(names, FieldTexts(h, i, names)) ==
            if Printable(h, i, names) then Some(Print(Jackson, Object(SignedMembers(h, i, names)))) else None
  {
    var values := FieldTexts(h, i, names);
    forall k | 0 <= k < |names|
      ensures values[k] == if FieldPrintable(names[k], h, i) then Some(Print(Jackson, SignedValue(names[k], h, i)))
              else None
    {
      FieldTextPrints(names[k], h, i);
    }
    if Printable(h, i, names) {
      BracedPrints(SignedMembers(h, i, names), names, values);
    } else {
      var k :| 0 <= k < |names| && !FieldPrintable(names[k], h, i);
      assert values[k] == None;
    }
  }

  // ----- verification -----

  /** The checks on the context before anything is hashed. */
  predicate ContextAdmitted(audience: string, tool: string, h: seq<Member>, i: seq<Member>, now: int) {
    && Get(h, "version") == Number("2")
    && AsText(Get(h, "audience")) == audience && AsText(Get(h, "tool")) == tool
    && (var e := Get(h, "expires_at");
        e.Number? && IntegerLiteral(e.literal) && IntegerValue(e.literal) > now
        && IntegerValue(e.literal) <= now + LIFETIME)
    && Get(h, "confirmed").Bool?
    && Named(AsText(Get(i, "subject"))) && Named(AsText(Get(i, "device_id")))
    && Get(i, "client_code").Text? && Reference(Get(i, "client_code").text)
    && Get(i, "session_ref").Text? && Reference(Get(i, "session_ref").text)
    && AllTexts(Get(i, "scopes"))
    && !P.IsBlank(AsText(Get(h, "idempotency_key"))) && Utf8Length(AsText(Get(h, "idempotency_key"))) <= MAX_KEY
  }

  function SignedText(h: seq<Member>, i: seq<Member>): Option<string> {
    Braced(CONTEXT, FieldTexts(h, i, CONTEXT))
  }

  /** The decision on a context and a payload of the right shape. */
  function VerifyingParts(codec: Codec, audience: string, tool: string, h: seq<Member>, i: seq<Member>, p: Json,
                          now: int): Option<Verified> {
    if !p.Object? || !ContextAdmitted(audience, tool, h, i, now) then None
    else VerifyingSigned(codec, h, p, CanonicalOf(p), SignedText(h, i))
  }

  /** The hash of the canonical payload and the signature over the signed text. */
  function VerifyingSigned(codec: Codec, h: seq<Member>, p: Json, payload: Option<string>,
                           signed: Option<string>): Option<Verified> {
    if payload.None? || Utf8Length(payload.value) > MAX_PAYLOAD
       || Hash(codec, payload.value) != AsText(Get(h, "payload_hash")) ||
       signed.None? || HexDecode(AsText(Get(h, "signature"))) != Some(codec.mac(Domain(2) + signed.value))
    then None
    else Some(Verified(p, AsText(Get(h, "idempotency_key")), Get(h, "confirmed") == Bool(true),
                       Hash(codec, payload.value)))
  }

  function Verifying(codec: Codec, audience: string, tool: string, e: Json, now: int): Option<Verified> {
    if !Exact(e, ["payload", "host_context"]) then None
    else
      var h, p := Get(e.members, "host_context"), Get(e.members, "payload");
      if !Exact(h, CONTEXT) || !Exact(Get(h.members, "identity"), IDENTITY) then None
      else VerifyingParts(codec, audience, tool, h.members, Get(h.members, "identity").members, p, now)
  }

  method VerifyAt(codec: Codec, audience: string, tool: string, e: Json, now: int) returns (r: Option<Verified>)
    ensures r == Verifying(codec, audience, tool, e, now)
  {
    if !Exact(e, ["payload", "host_context"]) {
      return None;
    }
    var h, p := Get(e.members, "host_context"), Get(e.members, "payload");
    if !Exact(h, CONTEXT) || !Exact(Get(h.members, "identity"), IDENTITY) {
      return None;
    }
    r := VerifyParts(codec, audience, tool, h.members, Get(h.members, "identity").members, p, now);
  }

  method VerifyParts(codec: Codec, audience: string, tool: string, h: seq<Member>, i: seq<Member>, p: Json, now: int)
    returns (r: Option<Verified>)
    ensures r == VerifyingParts(codec, audience, tool, h, i, p, now)
  {
    if !p.Object? || !ContextAdmitted(audience, tool, h, i, now) {
      return None;
    }
    var payload := CanonicalOf(p);
    if payload.None? || Utf8Length(payload.value) > MAX_PAYLOAD {
      return None;
    }
    var hash := Hash(codec, payload.value);
    if hash != AsText(Get(h, "payload_hash")) {
      return None;
    }
    var signed := BuildSigned(h, i, CONTEXT);
    if signed.None? || HexDecode(AsText(Get(h, "signature"))) != Some(codec.mac(Domain(2) + signed.value)) {
      return None;
    }
    r := Some(Verified(p, AsText(Get(h, "idempotency_key")), Get(h, "confirmed") == Bool(true), hash));
  }
}
