/** Reading what was printed gives the value back, in both dialects. */
module JsonRoundTrip {
  import opened Basics
  import opened JsonText

  ghost predicate WellFormed(v: Json)
    decreases v
  {
    match v
    case Number(literal) => NumberLiteral(literal)
    case Array(items) => forall i | 0 <= i < |items| :: WellFormed(items[i])
    case Object(members) => forall i | 0 <= i < |members| :: WellFormed(members[i].value)
    case _ => true
  }

  // ----- strings -----

  lemma HexDigitValue(d: Dialect, n: int)
    requires 0 <= n < 16
    ensures HexValue(HexDigit(d, n)) == Some(n)
  {
  }

  lemma HexDigitsOf(code: int)
    requires 0 <= code < 0x10000
    ensures code / 4096 * 4096 + code / 256 % 16 * 256 + code / 16 % 16 * 16 + code % 16 == code
    ensures 0 <= code / 4096 < 16
  {
    assert code / 16 == code / 16 / 16 * 16 + code / 16 % 16;
    assert code / 256 == code / 256 / 16 * 16 + code / 256 % 16;
    assert code / 16 / 16 == code / 256 && code / 256 / 16 == code / 4096;
  }

  lemma HexCodeReads(d: Dialect, code: int, s: string)
    requires 0 <= code < 0x10000 && |s| >= 4
    requires s[0] == HexDigit(d, code / 4096) && s[1] == HexDigit(d, code / 256 % 16)
    requires s[2] == HexDigit(d, code / 16 % 16) && s[3] == HexDigit(d, code % 16)
    ensures HexCode(s) == Some(code)
  {
    HexDigitsOf(code);
    HexDigitValue(d, code / 4096);
    HexDigitValue(d, code / 256 % 16);
    HexDigitValue(d, code / 16 % 16);
    HexDigitValue(d, code % 16);
  }

  lemma UnicodeEscapeReads(d: Dialect, c: char, rest: string)
    requires c as int < 0xD800
    ensures ParseChar(UnicodeEscape(d, c as int) + rest) == Done(c, rest)
  {
    var escape := UnicodeEscape(d, c as int);
    var s := escape + rest;
    HexCodeReads(d, c as int, s[2..]);
    assert s[2..][4..] == rest;
    assert s[0] == '\\' && s[1] == 'u';
  }

  /** The letter that a short escape writes after the backslash. */
  predicate ShortEscape(c: char, letter: char) {
    (c == '\"' && letter == '\"') || (c == '\\' && letter == '\\') || (c == '\U{08}' && letter == 'b') ||
    (c == '\U{0C}' && letter == 'f') || (c == '\n' && letter == 'n') || (c == '\r' && letter == 'r')
    || (c == '\t' && letter == 't')
  }

  lemma ShortEscapeReads(c: char, letter: char, rest: string)
    requires ShortEscape(c, letter)
    ensures ParseChar(['\\', letter] + rest) == Done(c, rest)
  {
    var s := ['\\', letter] + rest;
    assert s[0] == '\\' && s[1] == letter && s[2..] == rest;
  }

  lemma PlainReads(c: char, rest: string)
    requires c != '\\' && c >= ' '
    ensures ParseChar([c] + rest) == Done(c, rest)
  {
    assert ([c] + rest)[1..] == rest;
  }

  lemma EscapeShape(d: Dialect, c: char)
    ensures var e := Escape(d, c);
            || (|e| == 2 && e[0] == '\\' && ShortEscape(c, e[1]) && e == ['\\', e[1]])
            || (c as int < 0xD800 && (e == UnicodeEscape(Go, c as int) || e == UnicodeEscape(Jackson, c as int)))
            || (e == [c] && c != '\\' && c != '\"' && c >= ' ')
  {
  }

  lemma EscapeReads(d: Dialect, c: char, rest: string)
    ensures Escape(d, c) != "" && Escape(d, c)[0] != '\"'
    ensures ParseChar(Escape(d, c) + rest) == Done(c, rest)
  {
    var e := Escape(d, c);
    EscapeShape(d, c);
    if |e| == 2 {
      ShortEscapeReads(c, e[1], rest);
    } else if |e| == 1 {
      PlainReads(c, rest);
    } else {
      UnicodeEscapeReads(Go, c, rest);
      UnicodeEscapeReads(Jackson, c, rest);
    }
  }

  lemma {:induction false} QuotedReads(d: Dialect, text: string, rest: string)
    ensures ParseString(Quoted(d, text) + rest) == Done(text, rest)
  {
    if text == "" {
      assert (Quoted(d, text) + rest)[1..] == rest;
    } else {
      var tail := Quoted(d, text[1..]) + rest;
      assert Quoted(d, text) + rest == Escape(d, text[0]) + tail;
      EscapeReads(d, text[0], tail);
      QuotedReads(d, text[1..], rest);
      assert [text[0]] + text[1..] == text;
    }
  }

  // ----- numbers -----

  predicate Delimited(rest: string) {
    rest == "" || !NumberChar(rest[0])
  }

  lemma LiteralCharacters(s: string)
    requires NumberLiteral(s)
    ensures s != "" && (Digit(s[0]) || s[0] == '-') && forall i | 0 <= i < |s| :: NumberChar(s[i])
  {
    var k :| 0 < k <= |s| && IntegerLiteral(s[..k]) && FractionExponent(s[k..]);
    IntegerCharacters(s[..k]);
    FractionCharacters(s[k..]);
    forall i | 0 <= i < |s|
      ensures NumberChar(s[i])
    {
      if i < k {
        assert s[i] == s[..k][i];
      } else {
        assert s[i] == s[k..][i - k];
      }
    }
  }

  lemma IntegerCharacters(s: string)
    requires IntegerLiteral(s)
    ensures s != "" && (Digit(s[0]) || s[0] == '-') && forall i | 0 <= i < |s| :: NumberChar(s[i])
  {
    if !Unsigned(s) {
      forall i | 0 < i < |s|
        ensures NumberChar(s[i])
      {
        assert s[i] == s[1..][i - 1];
      }
    }
  }

  lemma ExponentCharacters(s: string)
    requires Exponent(s)
    ensures forall i | 0 <= i < |s| :: NumberChar(s[i])
  {
    if s != "" {
      forall i | 0 < i < |s|
        ensures NumberChar(s[i])
      {
        assert s[i] == s[1..][i - 1];
        assert i > 1 ==> s[i] == s[2..][i - 2];
      }
    }
  }

  lemma FractionCharacters(s: string)
    requires FractionExponent(s)
    ensures forall i | 0 <= i < |s| :: NumberChar(s[i])
  {
    if Exponent(s) {
      ExponentCharacters(s);
    } else {
      var k :| 1 < k <= |s| && Digits(s[1..k]) && Exponent(s[k..]);
      ExponentCharacters(s[k..]);
      forall i | 0 < i < |s|
        ensures NumberChar(s[i])
      {
        if i < k {
          assert s[i] == s[1..k][i - 1];
        } else {
          assert s[i] == s[k..][i - k];
        }
      }
    }
  }

  lemma {:induction false} RunOfLiteral(s: string, rest: string)
    requires (forall i | 0 <= i < |s| :: NumberChar(s[i])) && Delimited(rest)
    ensures NumberRun(s + rest) == |s|
  {
    if s == "" {
      assert s + rest == rest;
    } else {
      assert (s + rest)[1..] == s[1..] + rest;
      RunOfLiteral(s[1..], rest);
    }
  }

  lemma NumberReads(literal: string, rest: string)
    requires NumberLiteral(literal) && Delimited(rest)
    ensures ParseValue(literal + rest) == Done(Number(literal), rest)
  {
    LiteralCharacters(literal);
    RunOfLiteral(literal, rest);
    var s := literal + rest;
    assert s[0] == literal[0];
    assert SkipSpace(s) == s;
    assert s[..|literal|] == literal && s[|literal|..] == rest;
    assert "null"[0] == 'n' && "true"[0] == 't' && "false"[0] == 'f';
  }

  // ----- values -----

  /** The first character of a printed value is neither white space nor a closing bracket. */
  lemma PrintedHead(d: Dialect, v: Json)
    requires WellFormed(v)
    ensures Print(d, v) != "" && !JsonSpace(Print(d, v)[0]) && Print(d, v)[0] != ']' && Print(d, v)[0] != '}'
  {
    if v.Number? {
      LiteralCharacters(v.literal);
    }
  }

  lemma WordReads(word: string, v: Json, rest: string)
    requires (word == "null" && v == Null) || (word == "true" && v == Bool(true))
             || (word == "false" && v == Bool(false))
    ensures ParseValue(word + rest) == Done(v, rest)
  {
    var s := word + rest;
    assert word <= s && s[|word|..] == rest && s[0] == word[0];
    assert SkipSpace(s) == s;
    assert "null"[0] == 'n' && "true"[0] == 't' && "false"[0] == 'f';
  }

  lemma ArrayReads(t: string, items: seq<Json>, rest: string)
    requires t != "" && t[0] != ']' && SkipSpace(t) == t && ParseItems(t) == Done(items, rest)
    ensures ParseValue(['['] + t) == Done(Array(items), rest)
  {
    assert SkipSpace(['['] + t) == ['['] + t && (['['] + t)[1..] == t;
  }

  lemma ObjectReads(t: string, members: seq<Member>, rest: string)
    requires t != "" && t[0] == '\"' && ParseMembers(t) == Done(members, rest)
    ensures ParseValue(['{'] + t) == Done(Object(members), rest)
  {
    assert SkipSpace(t) == t;
    assert SkipSpace(['{'] + t) == ['{'] + t && (['{'] + t)[1..] == t;
  }

  lemma EmptyReads(rest: string)
    ensures ParseValue(['[', ']'] + rest) == Done(Array([]), rest)
    ensures ParseValue(['{', '}'] + rest) == Done(Object([]), rest)
  {
    var s, t := ['[', ']'] + rest, ['{', '}'] + rest;
    assert s[1..] == [']'] + rest && t[1..] == ['}'] + rest;
    assert SkipSpace(s) == s && SkipSpace(t) == t;
    assert SkipSpace([']'] + rest) == [']'] + rest && SkipSpace(['}'] + rest) == ['}'] + rest;
    assert ([']'] + rest)[1..] == rest && (['}'] + rest)[1..] == rest;
  }

  lemma StringReads(d: Dialect, text: string, rest: string)
    ensures ParseValue(Quote(d, text) + rest) == Done(Text(text), rest)
  {
    var s := Quote(d, text) + rest;
    assert s[1..] == Quoted(d, text) + rest && s[0] == '\"' && SkipSpace(s) == s;
    QuotedReads(d, text, rest);
  }

  lemma PrintedReads(d: Dialect, v: Json, rest: string)
    requires WellFormed(v) && Delimited(rest)
    ensures ParseValue(Print(d, v) + rest) == Done(v, rest)
    decreases v, 1
  {
    match v
    case Null => WordReads("null", v, rest);
    case Bool(b) => WordReads(if b then "true" else "false", v, rest);
    case Number(literal) => NumberReads(literal, rest);
    case Text(text) => StringReads(d, text, rest);
    case Array(items) => ArrayValueReads(d, v, rest);
    case Object(members) => ObjectValueReads(d, v, rest);
  }

  lemma ArrayValueReads(d: Dialect, v: Json, rest: string)
    requires v.Array? && WellFormed(v)
    ensures ParseValue(Print(d, v) + rest) == Done(v, rest)
    decreases v, 0
  {
    if v.items == [] {
      EmptyReads(rest);
    } else {
      ItemsRead(d, v.items, rest);
      PrintedArrayReads(d, v.items, rest);
    }
  }

  lemma ObjectValueReads(d: Dialect, v: Json, rest: string)
    requires v.Object? && WellFormed(v)
    ensures ParseValue(Print(d, v) + rest) == Done(v, rest)
    decreases v, 0
  {
    if v.members == [] {
      EmptyReads(rest);
    } else {
      MembersRead(d, v.members, rest);
      PrintedObjectReads(d, v.members, rest);
    }
  }

  lemma PrintedArrayReads(d: Dialect, items: seq<Json>, rest: string)
    requires items != [] && WellFormed(items[0])
    requires ParseItems(PrintItems(d, items) + rest) == Done(items, rest)
    ensures ParseValue(Print(d, Array(items)) + rest) == Done(Array(items), rest)
  {
    var text := PrintItems(d, items);
    ItemsHead(d, items, rest);
    ArrayTextReads(text, items, rest);
  }

  lemma ArrayTextReads(text: string, items: seq<Json>, rest: string)
    requires var t := text + rest; t != "" && t[0] != ']' && SkipSpace(t) == t && ParseItems(t) == Done(items, rest)
    ensures ParseValue((['['] + text) + rest) == Done(Array(items), rest)
  {
    var t := text + rest;
    ArrayReads(t, items, rest);
    Bracketed('[', text, rest);
  }

  lemma Bracketed(c: char, text: string, rest: string)
    ensures ([c] + text) + rest == [c] + (text + rest)
  {
  }

  lemma ObjectTextReads(text: string, members: seq<Member>, rest: string)
    requires text != "" && text[0] == '\"' && ParseMembers(text + rest) == Done(members, rest)
    ensures ParseValue((['{'] + text) + rest) == Done(Object(members), rest)
  {
    var t := text + rest;
    ObjectReads(t, members, rest);
    Bracketed('{', text, rest);
  }

  lemma PrintedObjectReads(d: Dialect, members: seq<Member>, rest: string)
    requires members != []
    requires ParseMembers(PrintMembers(d, members) + rest) == Done(members, rest)
    ensures ParseValue(Print(d, Object(members)) + rest) == Done(Object(members), rest)
  {
    ObjectTextReads(PrintMembers(d, members), members, rest);
  }

  lemma ItemsHead(d: Dialect, items: seq<Json>, rest: string)
    requires items != [] && WellFormed(items[0])
    ensures var t := PrintItems(d, items) + rest; t != "" && t[0] != ']' && SkipSpace(t) == t
  {
    PrintedHead(d, items[0]);
  }

  lemma LastItemReads(s: string, item: Json, rest: string)
    requires ParseValue(s) == Done(item, [']'] + rest)
    ensures ParseItems(s) == Done([item], rest)
  {
    var t := [']'] + rest;
    assert SkipSpace(t) == t && t[1..] == rest;
  }

  lemma NextItemReads(s: string, item: Json, next: string, items: seq<Json>, rest: string)
    requires ParseValue(s) == Done(item, [','] + next) && ParseItems(next) == Done(items, rest)
    ensures ParseItems(s) == Done([item] + items, rest)
  {
    var t := [','] + next;
    assert SkipSpace(t) == t && t[1..] == next;
  }

  lemma ItemsRead(d: Dialect, items: seq<Json>, rest: string)
    requires items != [] && (forall i | 0 <= i < |items| :: WellFormed(items[i]))
    ensures ParseItems(PrintItems(d, items) + rest) == Done(items, rest)
    decreases items, 0
  {
    var s, after := PrintItems(d, items) + rest, AfterItem(d, items, rest);
    ItemsSplit(d, items, rest);
    PrintedReads(d, items[0], after);
    if |items| == 1 {
      LastItemReads(s, items[0], rest);
      assert [items[0]] == items;
    } else {
      ItemsRead(d, items[1..], rest);
      NextItemReads(s, items[0], PrintItems(d, items[1..]) + rest, items[1..], rest);
      assert [items[0]] + items[1..] == items;
    }
  }

  /** What follows the first of printed items. */
  function AfterItem(d: Dialect, items: seq<Json>, rest: string): string
    requires items != []
  {
    if |items| == 1 then [']'] + rest else [','] + (PrintItems(d, items[1..]) + rest)
  }

  lemma ItemsSplit(d: Dialect, items: seq<Json>, rest: string)
    requires items != []
    ensures PrintItems(d, items) + rest == Print(d, items[0]) + AfterItem(d, items, rest)
  {
  }

  lemma KeyReads(d: Dialect, key: string, rest: string)
    ensures ParseKey(Quote(d, key) + [':'] + rest) == Done(key, rest)
  {
    var s := Quote(d, key) + [':'] + rest;
    assert SkipSpace(s) == s && s[1..] == Quoted(d, key) + ([':'] + rest);
    QuotedReads(d, key, [':'] + rest);
    assert SkipSpace([':'] + rest) == [':'] + rest && ([':'] + rest)[1..] == rest;
  }

  lemma LastMemberReads(s: string, key: string, after: string, value: Json, rest: string)
    requires ParseKey(s) == Done(key, after) && ParseValue(after) == Done(value, ['}'] + rest)
    ensures ParseMembers(s) == Done([Member(key, value)], rest)
  {
    var t := ['}'] + rest;
    assert SkipSpace(t) == t && t[1..] == rest;
  }

  lemma NextMemberReads(s: string, key: string, after: string, value: Json, next: string, members: seq<Member>,
                        rest: string)
    requires ParseKey(s) == Done(key, after) && ParseValue(after) == Done(value, [','] + next)
    requires ParseMembers(next) == Done(members, rest)
    ensures ParseMembers(s) == Done([Member(key, value)] + members, rest)
  {
    var t := [','] + next;
    assert SkipSpace(t) == t && t[1..] == next;
  }

  /** What follows the first key and colon of printed members. */
  function AfterKey(d: Dialect, members: seq<Member>, rest: string): string
    requires members != []
  {
    Print(d, members[0].value) + AfterValue(d, members, rest)
  }

  function AfterValue(d: Dialect, members: seq<Member>, rest: string): string
    requires members != []
  {
    if |members| == 1 then ['}'] + rest else [','] + (PrintMembers(d, members[1..]) + rest)
  }

  lemma MembersSplit(d: Dialect, members: seq<Member>, rest: string)
    requires members != []
    ensures PrintMembers(d, members) + rest == Quote(d, members[0].key) + [':'] + AfterKey(d, members, rest)
  {
  }

  lemma MembersRead(d: Dialect, members: seq<Member>, rest: string)
    requires members != [] && (forall i | 0 <= i < |members| :: WellFormed(members[i].value))
    ensures ParseMembers(PrintMembers(d, members) + rest) == Done(members, rest)
    decreases members, 0
  {
    var m := members[0];
    MembersSplit(d, members, rest);
    KeyReads(d, m.key, AfterKey(d, members, rest));
    PrintedReads(d, m.value, AfterValue(d, members, rest));
    if |members| > 1 {
      MembersRead(d, members[1..], rest);
    }
    MembersReadFrom(d, members, PrintMembers(d, members) + rest, AfterKey(d, members, rest), rest);
  }

  lemma MembersReadFrom(d: Dialect, members: seq<Member>, s: string, after: string, rest: string)
    requires members != [] && ParseKey(s) == Done(members[0].key, after)
    requires ParseValue(after) == Done(members[0].value, AfterValue(d, members, rest))
    requires |members| > 1 ==> ParseMembers(PrintMembers(d, members[1..]) + rest) == Done(members[1..], rest)
    ensures ParseMembers(s) == Done(members, rest)
  {
    var m := members[0];
    assert m == Member(m.key, m.value);
    if |members| == 1 {
      LastMemberReads(s, m.key, after, m.value, rest);
      assert [m] == members;
    } else {
      NextMemberReads(s, m.key, after, m.value, PrintMembers(d, members[1..]) + rest, members[1..], rest);
      assert [m] + members[1..] == members;
    }
  }

  /** Parsing inverts printing. */
  lemma ParseInvertsPrint(d: Dialect, v: Json)
    requires WellFormed(v)
    ensures Parse(Print(d, v)) == Some(v)
  {
    PrintedReads(d, v, "");
    assert Print(d, v) + "" == Print(d, v);
  }
}
