/**
 Signed envelopes around tool payloads (packages/go/mcpwire/envelope.go, envelope_v2.go).
 Version 1 carries no identity; version 2 does, and restricts payloads to ASCII keys and integers.
 The digest and the message authentication code are functions of the codec.
 */
module Envelopes {
  import opened Basics
  import opened JsonText
  import opened JsonRoundTrip
  import opened Canonical
  import opened CanonicalRules

  datatype Codec = Codec(audience: string, sha: string -> seq<byte>, mac: string -> seq<byte>)

  datatype HostIdentity = HostIdentity(subject: string, clientCode: string, sessionRef: string, deviceId: string,
                                       scopes: Option<seq<string>>)

  datatype HostContext = HostContext(
    version: int,
    audience: string,
    tool: string,
    payloadHash: string,
    key: string,
    confirmed: bool,
    expiresAt: int,
    identity: Option<HostIdentity>,
    signature: string)

  datatype Opened = Opened(payload: string, key: string, confirmed: bool, identity: Option<HostIdentity>)

  const MAX_PAYLOAD: nat := 16384
  const MAX_ENVELOPE: nat := 32768
  const MAX_KEY: nat := 256
  const LIFETIME: int := 60

  predicate Int64(n: int) {
    -0x8000_0000_0000_0000 <= n < 0x8000_0000_0000_0000
  }

  // ----- hexadecimal text -----

  function HexEncode(bytes: seq<byte>): string {
    if bytes == [] then ""
    else [HexDigit(Go, bytes[0] / 16), HexDigit(Go, bytes[0] % 16)] + HexEncode(bytes[1..])
  }

  function HexDecode(s: string): Option<seq<byte>> {
    if s == "" then Some([])
    else if |s| == 1 || HexValue(s[0]).None? || HexValue(s[1]).None? then None
    else
      match HexDecode(s[2..])
      case None => None
      case Some(rest) => Some([(HexValue(s[0]).value * 16 + HexValue(s[1]).value) as byte] + rest)
  }

  lemma {:induction false} HexRoundTrip(bytes: seq<byte>)
    ensures HexDecode(HexEncode(bytes)) == Some(bytes)
  {
    if bytes != [] {
      HexRoundTrip(bytes[1..]);
      HexDigitValue(Go, bytes[0] / 16);
      HexDigitValue(Go, bytes[0] % 16);
      assert HexEncode(bytes)[2..] == HexEncode(bytes[1..]);
      assert [bytes[0]] + bytes[1..] == bytes;
    }
  }

  // ----- integer text -----

  function NatText(n: nat): (s: string)
    ensures Unsigned(s) && DigitsValue(s) == n && (n > 0 ==> s[0] != '0')
  {
    if n < 10 then
      (assert ['0' + n as char][..0] == "";
       ['0' + n as char])
    else
      var s := NatText(n / 10) + ['0' + (n % 10) as char];
      assert s[..|s| - 1] == NatText(n / 10);
      s
  }

  function IntText(n: int): (s: string)
    ensures IntegerLiteral(s) && IntegerValue(s) == n && NumberLiteral(s)
  {
    var s := if n < 0 then ['-'] + NatText(-n) else NatText(n);
    assert n < 0 ==> s[1..] == NatText(-n);
    IntegerIsNumber(s);
    s
  }

  lemma IntegerIsNumber(s: string)
    requires IntegerLiteral(s)
    ensures NumberLiteral(s)
  {
    assert s[..|s|] == s && Exponent(s[|s|..]) && FractionExponent(s[|s|..]);
  }

  // ----- the signed tree -----

  function Texts(items: seq<string>): seq<Json> {
    seq(|items|, i requires 0 <= i < |items| => Text(items[i]))
  }

  function ScopesTree(scopes: Option<seq<string>>): Json {
    if scopes.None? then Null else Array(Texts(scopes.value))
  }

  function IdentityTree(i: HostIdentity): Json {
    Object([Member("subject", Text(i.subject)), Member("client_code", Text(i.clientCode)),
            Member("session_ref", Text(i.sessionRef)),
            Member("device_id", Text(i.deviceId)), Member("scopes", ScopesTree(i.scopes))])
  }

  function ContextMembers(c: HostContext): seq<Member> {
    [Member("version", Number(IntText(c.version))), Member("audience", Text(c.audience)), Member("tool", Text(c.tool)),
     Member("payload_hash", Text(c.payloadHash)), Member("idempotency_key", Text(c.key)),
       Member("confirmed", Bool(c.confirmed)),
     Member("expires_at", Number(IntText(c.expiresAt)))] +
    (if c.identity.Some? then [Member("identity", IdentityTree(c.identity.value))] else []) +
    [Member("signature", Text(c.signature))]
  }

  function ContextTree(c: HostContext): Json {
    Object(ContextMembers(c))
  }

  function Domain(version: int): string {
    if version == 1 then "sts-mcp-envelope-v1\0" else "sts-mcp-envelope-v2\0"
  }

  function Sign(codec: Codec, c: HostContext): seq<byte> {
    codec.mac(Domain(c.version) + Print(Go, ContextTree(c.(signature := ""))))
  }

  /** The canonical payload, when the text is one object within the limits of the version. */
  function CanonicalPayload(version: int, raw: string): Option<Json> {
    if Utf8Length(raw) > MAX_PAYLOAD then None
    else
      match Parse(raw)
      case Some(Object(members)) =>
        var v := Normalize(Go, Object(members));
        if version == 2 && !ValidV2(v) then None else Some(v)
      case _ => None
  }

  function Hash(codec: Codec, payload: string): string {
    HexEncode(codec.sha(payload))
  }

  predicate ValidKey(key: string) {
    key != "" && Utf8Length(key) <= MAX_KEY
  }

  /** Version 2 needs an identity with a subject and a device; version 1 has none. */
  predicate ValidIdentity(version: int, identity: Option<HostIdentity>) {
    if version == 1 then identity.None?
    else identity.Some? && identity.value.subject != "" && identity.value.deviceId != ""
  }

  function WithScopes(identity: Option<HostIdentity>): Option<HostIdentity> {
    if identity.None? || identity.value.scopes.Some? then identity else Some(identity.value.(scopes := Some([])))
  }

  function SignedContext(codec: Codec, version: int, tool: string, payload: string, key: string, confirmed: bool,
                         identity: Option<HostIdentity>, now: int): HostContext
  {
    var c := HostContext(version, codec.audience, tool, Hash(codec, payload), key, confirmed, now + LIFETIME,
                         WithScopes(identity), "");
    c.(signature := HexEncode(Sign(codec, c)))
  }

  function EnvelopeTree(payload: Json, c: HostContext): Json {
    Object([Member("payload", payload), Member("host_context", ContextTree(c))])
  }

  function Wrap(codec: Codec, version: int, tool: string, payload: string, key: string, confirmed: bool,
                identity: Option<HostIdentity>, now: int): Option<string>
  {
    match CanonicalPayload(version, payload)
    case None => None
    case Some(v) =>
      if tool == "" || !ValidKey(key) || !ValidIdentity(version, identity) then None
      else Some(Print(Go, EnvelopeTree(v, SignedContext(codec, version, tool, Print(Go, v), key, confirmed, identity,
                                                        now))))
  }

  // ----- strict decoding -----

  function LowerChar(c: char): char {
    if 'A' <= c <= 'Z' then (c as int + 32) as char else c
  }

  /** Go matches member names without regard to ASCII case. */
  function Lower(name: string): string {
    seq(|name|, i requires 0 <= i < |name| => LowerChar(name[i]))
  }

  /** The value a field ends up with: the last one that is not null. */
  function Field(members: seq<Member>, name: string): Option<Json> {
    if members == [] then None
    else if Field(members[1..], name).Some? then Field(members[1..], name)
    else if Lower(members[0].key) == name && !members[0].value.Null? then Some(members[0].value)
    else None
  }

  predicate IsText(v: Json) { v.Text? }

  predicate IsBool(v: Json) { v.Bool? }

  predicate IsInt(v: Json) { v.Number? && IntegerLiteral(v.literal) && Int64(IntegerValue(v.literal)) }

  predicate IsTexts(v: Json) { v.Array? && forall i | 0 <= i < |v.items| :: v.items[i].Text? || v.items[i].Null? }

  function TextField(members: seq<Member>, name: string): string {
    match Field(members, name)
    case Some(Text(text)) => text
    case _ => ""
  }

  function BoolField(members: seq<Member>, name: string): bool {
    Field(members, name) == Some(Bool(true))
  }

  function IntField(members: seq<Member>, name: string): int {
    match Field(members, name)
    case Some(Number(literal)) => if IntegerLiteral(literal) then IntegerValue(literal) else 0
    case _ => 0
  }

  function TextOf(v: Json): string {
    if v.Text? then v.text else ""
  }

  function TextsOf(items: seq<Json>): seq<string> {
    seq(|items|, i requires 0 <= i < |items| => TextOf(items[i]))
  }

  function ScopesField(members: seq<Member>): Option<seq<string>> {
    match Field(members, "scopes")
    case Some(Array(items)) => Some(TextsOf(items))
    case _ => None
  }

  const IDENTITY_TEXTS: set<string> := {"subject", "client_code", "session_ref", "device_id"}
  const CONTEXT_TEXTS: set<string> := {"audience", "tool", "payload_hash", "idempotency_key", "signature"}
  const CONTEXT_INTS: set<string> := {"version", "expires_at"}

  /** A member of the identity has a known name and a value of its type, or null. */
  predicate IdentityMember(m: Member) {
    var name := Lower(m.key);
    if name == "scopes" then m.value.Null? || IsTexts(m.value)
    else name in IDENTITY_TEXTS && (m.value.Null? || IsText(m.value))
  }

  predicate IdentityTyped(v: Json) {
    v.Object? && forall i | 0 <= i < |v.members| :: IdentityMember(v.members[i])
  }

  function IdentityOf(v: Json): HostIdentity
    requires v.Object?
  {
    HostIdentity(TextField(v.members, "subject"), TextField(v.members, "client_code"),
                 TextField(v.members, "session_ref"),
                 TextField(v.members, "device_id"), ScopesField(v.members))
  }

  predicate ContextMember(version: int, m: Member) {
    var name := Lower(m.key);
    if name == "confirmed" then m.value.Null? || IsBool(m.value)
    else if name == "identity" then version == 2 && (m.value.Null? || IdentityTyped(m.value))
    else if name in CONTEXT_INTS then m.value.Null? || IsInt(m.value)
    else name in CONTEXT_TEXTS && (m.value.Null? || IsText(m.value))
  }

  predicate ContextTyped(version: int, members: seq<Member>) {
    forall i | 0 <= i < |members| :: ContextMember(version, members[i])
  }

  /** A missing identity is the zero identity. */
  function IdentityField(members: seq<Member>): HostIdentity {
    match Field(members, "identity")
    case Some(v) => if v.Object? then IdentityOf(v) else HostIdentity("", "", "", "", None)
    case None => HostIdentity("", "", "", "", None)
  }

  function DecodeContext(version: int, v: Json): Option<HostContext> {
    if v.Object? && ContextTyped(version, v.members) then
      var m := v.members;
      Some(HostContext(IntField(m, "version"), TextField(m, "audience"), TextField(m, "tool"),
                       TextField(m, "payload_hash"),
                       TextField(m, "idempotency_key"), BoolField(m, "confirmed"), IntField(m, "expires_at"),
                       if version == 1 then None else Some(IdentityField(m)), TextField(m, "signature")))
    else None
  }

  // ----- raw members: the payload is kept as it was written -----

  datatype RawMember = RawMember(key: string, raw: string)

  function RawMembers(s: string): (r: Parsed<seq<RawMember>>)
    ensures r.Done? ==> |r.rest| < |s|
    decreases |s|
  {
    match ParseKey(s)
    case Fail => Fail
    case Done(key, after) =>
      match ParseValue(after)
      case Fail => Fail
      case Done(value, rest) =>
        var member := RawMember(key, after[..|after| - |rest|]);
        var t := SkipSpace(rest);
        if t != "" && t[0] == '}' then Done([member], t[1..])
        else if t != "" && t[0] == ',' then
          match RawMembers(t[1..])
          case Fail => Fail
          case Done(members, rest') => Done([member] + members, rest')
        else Fail
  }

  /** The members of a document that is one non-empty object. */
  function RawObject(s: string): Option<seq<RawMember>> {
    var t := SkipSpace(s);
    if t == "" || t[0] != '{' then None
    else
      match RawMembers(t[1..])
      case Fail => None
      case Done(members, rest) => if SkipSpace(rest) == "" then Some(members) else None
  }

  /** The last text given for a raw member. */
  function RawField(members: seq<RawMember>, name: string): string {
    if members == [] then ""
    else if RawField(members[1..], name) != "" then RawField(members[1..], name)
    else if Lower(members[0].key) == name then members[0].raw
    else ""
  }

  predicate RawKnown(members: seq<RawMember>) {
    forall i | 0 <= i < |members| :: Lower(members[i].key) == "payload" || Lower(members[i].key) == "host_context"
  }

  predicate Admissible(codec: Codec, version: int, tool: string, c: HostContext, now: int) {
    && c.version == version && c.audience == codec.audience && c.tool == tool
    && c.expiresAt > now && c.expiresAt <= now + LIFETIME
    && ValidKey(c.key)
    && ValidIdentity(version, c.identity) && (version == 1 || c.identity.value.scopes.Some?)
  }

  function Unwrap(codec: Codec, version: int, tool: string, data: string, now: int): Option<Opened> {
    if Utf8Length(data) > MAX_ENVELOPE then None
    else
      match RawObject(data)
      case None => None
      case Some(members) =>
        if !RawKnown(members) then None
        else
          match Parse(RawField(members, "host_context"))
          case None => None
          case Some(tree) =>
            Checked(codec, version, tool, RawField(members, "payload"), DecodeContext(version, tree), now)
  }

  /** The checks on a decoded context and the raw payload. */
  function Checked(codec: Codec, version: int, tool: string, raw: string, decoded: Option<HostContext>,
                   now: int): Option<Opened> {
    if decoded.None? || !Admissible(codec, version, tool, decoded.value, now) then None
    else
      var c := decoded.value;
      match CanonicalPayload(version, raw)
      case None => None
      case Some(v) =>
        if Hash(codec, Print(Go, v)) != c.payloadHash || HexDecode(c.signature) != Some(Sign(codec, c)) then None
        else Some(Opened(Print(Go, v), c.key, c.confirmed, c.identity))
  }
}
