/**
 JSON values, the text that Go and Jackson print for them, and a reader for the grammar of
 RFC 8259 (values in section 3, objects in section 4, numbers in section 6, strings in section 7).
 Numbers are kept as the literal that was read.
 */
module JsonText {
  import opened Basics

  datatype Json =
    | Null
    | Bool(b: bool)
    | Number(literal: string)
    | Text(text: string)
    | Array(items: seq<Json>)
    | Object(members: seq<Member>)

  datatype Member = Member(key: string, value: Json)

  /** The two libraries: they differ in the case of hexadecimal escapes, and Jackson reads the number -0 as 0. */
  datatype Dialect = Go | Jackson

  // ----- printing -----

  function HexDigit(d: Dialect, n: int): char
    requires 0 <= n < 16
  {
    if n < 10 then '0' + n as char else (if d == Go then 'a' else 'A') + (n - 10) as char
  }

  function UnicodeEscape(d: Dialect, code: int): string
    requires 0 <= code < 0x10000
  {
    ['\\', 'u', HexDigit(d, code / 4096), HexDigit(d, code / 256 % 16), HexDigit(d, code / 16 % 16),
     HexDigit(d, code % 16)]
  }

  /** Characters that Go escapes for HTML, and Java by replacement, always with lower-case digits. */
  predicate HtmlEscaped(c: char) {
    c == '<' || c == '>' || c == '&' || c == '\U{2028}' || c == '\U{2029}'
  }

  function Escape(d: Dialect, c: char): string {
    if c == '\"' then ['\\', '\"']
    else if c == '\\' then ['\\', '\\']
    else if c == '\U{08}' then ['\\', 'b']
    else if c == '\U{0C}' then ['\\', 'f']
    else if c == '\n' then ['\\', 'n']
    else if c == '\r' then ['\\', 'r']
    else if c == '\t' then ['\\', 't']
    else if HtmlEscaped(c) then UnicodeEscape(Go, c as int)
    else if c < ' ' then UnicodeEscape(d, c as int)
    else [c]
  }

  /** The characters of a string and its closing quote. */
  function Quoted(d: Dialect, text: string): string {
    if text == "" then ['\"'] else Escape(d, text[0]) + Quoted(d, text[1..])
  }

  function Quote(d: Dialect, text: string): string {
    ['\"'] + Quoted(d, text)
  }

  function Print(d: Dialect, v: Json): string
    decreases v
  {
    match v
    case Null => "null"
    case Bool(b) => if b then "true" else "false"
    case Number(literal) => literal
    case Text(text) => Quote(d, text)
    case Array(items) => ['['] + if items == [] then [']'] else PrintItems(d, items)
    case Object(members) => ['{'] + if members == [] then ['}'] else PrintMembers(d, members)
  }

  function PrintItems(d: Dialect, items: seq<Json>): string
    requires items != []
    decreases items
  {
    Print(d, items[0]) + if |items| == 1 then [']'] else [','] + PrintItems(d, items[1..])
  }

  function PrintMembers(d: Dialect, members: seq<Member>): string
    requires members != []
    decreases members
  {
    Quote(d, members[0].key) + [':'] + Print(d, members[0].value) +
    if |members| == 1 then ['}'] else [','] + PrintMembers(d, members[1..])
  }

  // ----- reading -----

  datatype Parsed<+T> = Fail | Done(value: T, rest: string)

  predicate JsonSpace(c: char) {
    c == ' ' || c == '\t' || c == '\n' || c == '\r'
  }

  function SkipSpace(s: string): (r: string)
    ensures |r| <= |s|
  {
    if s != "" && JsonSpace(s[0]) then SkipSpace(s[1..]) else s
  }

  function HexValue(c: char): Option<int> {
    if '0' <= c <= '9' then Some(c as int - '0' as int)
    else if 'a' <= c <= 'f' then Some(c as int - 'a' as int + 10)
    else if 'A' <= c <= 'F' then Some(c as int - 'A' as int + 10)
    else None
  }

  /** Four hexadecimal digits at the start of s. */
  function HexCode(s: string): (r: Option<int>)
    ensures r.Some? ==> 0 <= r.value < 0x10000 && |s| >= 4
  {
    if |s| < 4 || HexValue(s[0]).None? || HexValue(s[1]).None? || HexValue(s[2]).None? || HexValue(s[3]).None? then None
    else Some(HexValue(s[0]).value * 4096 + HexValue(s[1]).value * 256 + HexValue(s[2]).value * 16
              + HexValue(s[3]).value)
  }

  /** A \u escape after the u: one code unit, or a surrogate pair; a lone surrogate reads as U+FFFD. */
  function ParseUnicode(s: string): (r: Parsed<char>)
    ensures r.Done? ==> |r.rest| < |s|
  {
    match HexCode(s)
    case None => Fail
    case Some(code) =>
      if code < 0xD800 || code > 0xDFFF then Done(code as char, s[4..])
      else if code < 0xDC00 && |s| >= 10 && s[4] == '\\' && s[5] == 'u' && HexCode(s[6..]).Some?
              && 0xDC00 <= HexCode(s[6..]).value <= 0xDFFF
      then Done((0x10000 + (code - 0xD800) * 1024 + (HexCode(s[6..]).value - 0xDC00)) as char, s[10..])
      else Done('\U{FFFD}', s[4..])
  }

  /** One character or escape of a string; s does not start with the closing quote. */
  function ParseChar(s: string): (r: Parsed<char>)
    requires s != ""
    ensures r.Done? ==> |r.rest| < |s|
  {
    if s[0] != '\\' then (if s[0] < ' ' then Fail else Done(s[0], s[1..]))
    else if |s| == 1 then Fail
    else if s[1] == '\"' || s[1] == '\\' || s[1] == '/' then Done(s[1], s[2..])
    else if s[1] == 'b' then Done('\U{08}', s[2..])
    else if s[1] == 'f' then Done('\U{0C}', s[2..])
    else if s[1] == 'n' then Done('\n', s[2..])
    else if s[1] == 'r' then Done('\r', s[2..])
    else if s[1] == 't' then Done('\t', s[2..])
    else if s[1] == 'u' then ParseUnicode(s[2..])
    else Fail
  }

  /** The rest of a string after its opening quote. */
  function ParseString(s: string): (r: Parsed<string>)
    ensures r.Done? ==> |r.rest| < |s|
    decreases |s|
  {
    if s == "" then Fail
    else if s[0] == '\"' then Done("", s[1..])
    else
      match ParseChar(s)
      case Fail => Fail
      case Done(c, rest) =>
        match ParseString(rest)
        case Fail => Fail
        case Done(text, rest') => Done([c] + text, rest')
  }

  predicate Digit(c: char) { '0' <= c <= '9' }

  predicate NumberChar(c: char) {
    Digit(c) || c == '-' || c == '+' || c == '.' || c == 'e' || c == 'E'
  }

  predicate Digits(s: string) {
    s != "" && forall i | 0 <= i < |s| :: Digit(s[i])
  }

  predicate Unsigned(s: string) {
    Digits(s) && (s[0] == '0' ==> |s| == 1)
  }

  /** An optional minus and an integer without superfluous zeros. */
  predicate IntegerLiteral(s: string) {
    Unsigned(s) || (s != "" && s[0] == '-' && Unsigned(s[1..]))
  }

  predicate Exponent(s: string) {
    s == "" || ((s[0] == 'e' || s[0] == 'E') && (Digits(s[1..])
                                                 || (|s| > 1 && (s[1] == '+' || s[1] == '-') && Digits(s[2..]))))
  }

  /** Everything after the integer part: a fraction and an exponent, both optional. */
  predicate FractionExponent(s: string) {
    Exponent(s) || (s != "" && s[0] == '.' && exists k :: 1 < k <= |s| && Digits(s[1..k]) && Exponent(s[k..]))
  }

  predicate NumberLiteral(s: string) {
    exists k :: 0 < k <= |s| && IntegerLiteral(s[..k]) && FractionExponent(s[k..])
  }

  /** The longest prefix made of number characters. */
  function NumberRun(s: string): (n: nat)
    ensures n <= |s|
  {
    if s != "" && NumberChar(s[0]) then 1 + NumberRun(s[1..]) else 0
  }

  function ParseValue(s: string): (r: Parsed<Json>)
    ensures r.Done? ==> |r.rest| < |s|
    decreases |s|, 1
  {
    var t := SkipSpace(s);
    if t == "" then Fail
    else if t[0] == '{' then
      (var u := SkipSpace(t[1..]);
       if u != "" && u[0] == '}' then Done(Object([]), u[1..])
       else
         match ParseMembers(t[1..])
         case Fail => Fail
         case Done(members, rest) => Done(Object(members), rest))
    else if t[0] == '[' then
      (var u := SkipSpace(t[1..]);
       if u != "" && u[0] == ']' then Done(Array([]), u[1..])
       else
         match ParseItems(t[1..])
         case Fail => Fail
         case Done(items, rest) => Done(Array(items), rest))
    else if t[0] == '\"' then
      (match ParseString(t[1..])
       case Fail => Fail
       case Done(text, rest) => Done(Text(text), rest))
    else if "null" <= t then Done(Null, t[4..])
    else if "true" <= t then Done(Bool(true), t[4..])
    else if "false" <= t then Done(Bool(false), t[5..])
    else
      var n := NumberRun(t);
      if n > 0 && NumberLiteral(t[..n]) then Done(Number(t[..n]), t[n..]) else Fail
  }

  /** Array elements and the closing bracket. */
  function ParseItems(s: string): (r: Parsed<seq<Json>>)
    ensures r.Done? ==> |r.rest| < |s|
    decreases |s|, 2
  {
    match ParseValue(s)
    case Fail => Fail
    case Done(item, rest) =>
      var t := SkipSpace(rest);
      if t != "" && t[0] == ']' then Done([item], t[1..])
      else if t != "" && t[0] == ',' then
        match ParseItems(t[1..])
        case Fail => Fail
        case Done(items, rest') => Done([item] + items, rest')
      else Fail
  }

  /** An object key and its colon. */
  function ParseKey(s: string): (r: Parsed<string>)
    ensures r.Done? ==> |r.rest| < |s|
  {
    var t := SkipSpace(s);
    if t == "" || t[0] != '\"' then Fail
    else
      match ParseString(t[1..])
      case Fail => Fail
      case Done(key, rest) =>
        var u := SkipSpace(rest);
        if u != "" && u[0] == ':' then Done(key, u[1..]) else Fail
  }

  /** Object members and the closing brace. */
  function ParseMembers(s: string): (r: Parsed<seq<Member>>)
    ensures r.Done? ==> |r.rest| < |s|
    decreases |s|, 2
  {
    match ParseKey(s)
    case Fail => Fail
    case Done(key, after) =>
      match ParseValue(after)
      case Fail => Fail
      case Done(value, rest) =>
        var t := SkipSpace(rest);
        if t != "" && t[0] == '}' then Done([Member(key, value)], t[1..])
        else if t != "" && t[0] == ',' then
          match ParseMembers(t[1..])
          case Fail => Fail
          case Done(members, rest') => Done([Member(key, value)] + members, rest')
        else Fail
  }

  /** A whole document: one value and nothing but white space after it. */
  function Parse(s: string): Option<Json> {
    match ParseValue(s)
    case Fail => None
    case Done(v, rest) => if SkipSpace(rest) == "" then Some(v) else None
  }
}
