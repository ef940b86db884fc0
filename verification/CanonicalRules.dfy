/** Canonical text identifies JSON values, and when Go and Java agree on it. */
module CanonicalRules {
  import opened Basics
  import opened JsonText
  import opened JsonRoundTrip
  import opened Canonical

  lemma {:induction false} PutMembers(sorted: seq<Member>, m: Member, i: nat)
    requires i < |Put(sorted, m)|
    ensures Put(sorted, m)[i] == m || Put(sorted, m)[i] in sorted
  {
    if sorted != [] && m.key != sorted[0].key && !Less(m.key, sorted[0].key) && i > 0 {
      PutMembers(sorted[1..], m, i - 1);
    }
  }

  lemma {:induction false} SortIntoMembers(d: Dialect, sorted: seq<Member>, members: seq<Member>, i: nat)
    requires i < |SortInto(d, sorted, members)|
    ensures var m := SortInto(d, sorted, members)[i];
            m in sorted || exists k :: 0 <= k < |members| && m == Member(members[k].key, Normalize(d, members[k].value))
    decreases |members|
  {
    if members != [] {
      var m0 := Member(members[0].key, Normalize(d, members[0].value));
      var next := Put(sorted, m0);
      SortIntoMembers(d, next, members[1..], i);
      var m := SortInto(d, sorted, members)[i];
      if m in next {
        var k :| 0 <= k < |next| && next[k] == m;
        PutMembers(sorted, m0, k);
      } else {
        var k :| 0 <= k < |members[1..]| && m == Member(members[1..][k].key, Normalize(d, members[1..][k].value));
        assert m == Member(members[k + 1].key, Normalize(d, members[k + 1].value));
      }
    }
  }

  lemma ZeroIsLiteral()
    ensures NumberLiteral("0")
  {
    var s := "0";
    assert s[..1] == s && s[1..] == "";
    assert Unsigned(s[..1]) && Exponent(s[1..]);
  }

  lemma {:induction false} NormalizeKeepsWellFormed(d: Dialect, v: Json)
    requires WellFormed(v)
    ensures WellFormed(Normalize(d, v))
    decreases v
  {
    match v
    case Number(literal) => ZeroIsLiteral();
    case Array(items) =>
      forall i | 0 <= i < |items|
        ensures WellFormed(NormalizeItems(d, items)[i])
      {
        NormalizeItemsAt(d, items, i);
        NormalizeKeepsWellFormed(d, items[i]);
      }
    case Object(members) =>
      var sorted := SortInto(d, [], members);
      forall i | 0 <= i < |sorted|
        ensures WellFormed(sorted[i].value)
      {
        SortIntoMembers(d, [], members, i);
        var k :| 0 <= k < |members| && sorted[i] == Member(members[k].key, Normalize(d, members[k].value));
        NormalizeKeepsWellFormed(d, members[k].value);
      }
    case _ =>
  }

  /** Two values have the same canonical text exactly when they are the same JSON value. */
  lemma CanonicalIdentifiesValues(d: Dialect, v: Json, w: Json)
    requires WellFormed(v) && WellFormed(w)
    ensures CanonicalText(d, v) == CanonicalText(d, w) <==> SameValue(d, v, w)
  {
    NormalizeKeepsWellFormed(d, v);
    NormalizeKeepsWellFormed(d, w);
    ParseInvertsPrint(d, Normalize(d, v));
    ParseInvertsPrint(d, Normalize(d, w));
    SameValueIffNormal(d, v, w);
  }

  // ----- normal forms are stable -----

  /** Sorting what Go has sorted, or what the same library has sorted, changes nothing more. */
  lemma {:induction false} NormalizeTwice(e: Dialect, d: Dialect, v: Json)
    requires d == Go || d == e
    ensures Normalize(e, Normalize(d, v)) == Normalize(e, v)
    decreases v
  {
    match v
    case Array(items) =>
      var once := NormalizeItems(d, items);
      forall i | 0 <= i < |items|
        ensures NormalizeItems(e, once)[i] == NormalizeItems(e, items)[i]
      {
        NormalizeItemsAt(d, items, i);
        NormalizeItemsAt(e, once, i);
        NormalizeItemsAt(e, items, i);
        NormalizeTwice(e, d, items[i]);
      }
    case Object(members) =>
      var once := SortInto(d, [], members);
      SortIntoSorted(e, [], once);
      SortIntoSorted(e, [], members);
      forall key
        ensures Lookup(SortInto(e, [], once), key) == Lookup(SortInto(e, [], members), key)
      {
        SortIntoLookup(e, [], once, key);
        SortIntoLookup(e, [], members, key);
        SortIntoLookup(d, [], members, key);
        if Lookup(members, key).Some? {
          var i :| 0 <= i < |members| && members[i] == Member(key, Lookup(members, key).value);
          NormalizeTwice(e, d, members[i].value);
        }
      }
      SortedExtensional(SortInto(e, [], once), SortInto(e, [], members));
    case _ =>
  }

  /** Canonical text is a document of the grammar, and making it canonical again changes nothing. */
  lemma CanonicalIsIdempotent(d: Dialect, v: Json)
    requires WellFormed(v)
    ensures Parse(CanonicalText(d, v)).Some?
    ensures CanonicalText(d, Parse(CanonicalText(d, v)).value) == CanonicalText(d, v)
  {
    NormalizeKeepsWellFormed(d, v);
    ParseInvertsPrint(d, Normalize(d, v));
    NormalizeTwice(d, d, v);
  }

  // ----- the order of members does not matter -----

  predicate DistinctKeys(members: seq<Member>) {
    forall i, k | 0 <= i < k < |members| :: members[i].key != members[k].key
  }

  lemma {:induction false} SameValueReflexive(d: Dialect, v: Json)
    ensures SameValue(d, v, v)
  {
    SameValueIffNormal(d, v, v);
  }

  /** Members in any order print the same canonical object. */
  lemma OrderIsInsensitive(d: Dialect, a: seq<Member>, b: seq<Member>)
    requires DistinctKeys(a) && DistinctKeys(b) && forall m :: m in a <==> m in b
    ensures CanonicalText(d, Object(a)) == CanonicalText(d, Object(b))
  {
    var v, w := Object(a), Object(b);
    forall key
      ensures SameUnder(d, a, b, key)
    {
      if Lookup(b, key).Some? {
        var k :| 0 <= k < |b| && b[k] == Member(key, Lookup(b, key).value);
        assert b[k] in a;
      }
      if Lookup(a, key).Some? {
        var i :| 0 <= i < |a| && a[i] == Member(key, Lookup(a, key).value);
        assert a[i] in b;
        var k :| 0 <= k < |b| && b[k] == a[i];
        assert Lookup(b, key).Some?;
        assert Lookup(b, key).value == a[i].value;
        SameValueReflexive(d, a[i].value);
      }
    }
    assert SameValue(d, v, w);
    SameValueIffNormal(d, v, w);
  }

  // ----- integers -----

  /** Version 2 accepts ASCII keys and integer numbers only. */
  predicate ValidV2(v: Json)
    decreases v
  {
    match v
    case Number(literal) => IntegerLiteral(literal)
    case Array(items) => forall i | 0 <= i < |items| :: ValidV2(items[i])
    case Object(members) =>
      forall i | 0 <= i < |members| ::
        (forall k | 0 <= k < |members[i].key| :: members[i].key[k] <= '\U{7F}') && ValidV2(members[i].value)
    case _ => true
  }

  function DigitsValue(s: string): (n: int)
    requires forall i | 0 <= i < |s| :: Digit(s[i])
    ensures n >= 0
  {
    if s == "" then 0
    else
      var last := s[|s| - 1];
      assert Digit(last);
      DigitsValue(s[..|s| - 1]) * 10 + (last as int - '0' as int)
  }

  function IntegerValue(literal: string): int
    requires IntegerLiteral(literal)
  {
    if literal[0] == '-' then -DigitsValue(literal[1..]) else DigitsValue(literal)
  }

  lemma {:induction false} LeadingDigit(s: string)
    requires Digits(s) && s[0] != '0'
    ensures DigitsValue(s) >= 1
  {
    if |s| > 1 {
      LeadingDigit(s[..|s| - 1]);
    } else {
      assert s[..0] == "";
    }
  }

  lemma {:induction false} DigitsDetermined(a: string, b: string)
    requires Unsigned(a) && Unsigned(b) && DigitsValue(a) == DigitsValue(b)
    ensures a == b
    decreases |a|
  {
    var a', b' := a[..|a| - 1], b[..|b| - 1];
    if |a| > 1 {
      LeadingDigit(a');
    } else {
      assert a' == "";
    }
    if |b| > 1 {
      LeadingDigit(b');
    } else {
      assert b' == "";
    }
    assert DigitsValue(a') == DigitsValue(b');
    if |a| > 1 {
      DigitsDetermined(a', b');
    }
    assert a == a' + [a[|a| - 1]] && b == b' + [b[|b| - 1]];
  }

  /** Jackson tells integer literals apart exactly by their value; Go also tells -0 from 0. */
  lemma IntegersIdentified(a: string, b: string)
    requires IntegerLiteral(a) && IntegerLiteral(b)
    ensures IntegerValue(a) == IntegerValue(b) <==> Literal(Jackson, a) == Literal(Jackson, b)
    ensures Literal(Go, a) == Literal(Go, b) <==> a == b
  {
    if IntegerValue(a) == IntegerValue(b) {
      Magnitude(a);
      Magnitude(b);
      if a[0] == '-' && b[0] == '-' {
        DigitsDetermined(a[1..], b[1..]);
        assert a == ['-'] + a[1..] && b == ['-'] + b[1..];
      } else if a[0] != '-' && b[0] != '-' {
        DigitsDetermined(a, b);
      }
    } else if a == "-0" || b == "-0" {
      assert "-0"[1..] == "0" && "0"[..0] == "";
      assert DigitsValue("0") == 0;
    }
  }

  /** The sign shows in the value, except that both zeros have value 0. */
  lemma Magnitude(s: string)
    requires IntegerLiteral(s)
    ensures s[0] != '-' ==> Unsigned(s)
    ensures s[0] == '-' ==> Unsigned(s[1..]) && (s == "-0" || IntegerValue(s) < 0)
    ensures s[0] != '-' ==> (s == "0" || IntegerValue(s) > 0)
  {
    var digits := if s[0] == '-' then s[1..] else s;
    assert s[0] == '-' ==> s == ['-'] + digits;
    if digits[0] != '0' {
      LeadingDigit(digits);
    } else {
      assert digits == "0";
    }
  }

  // ----- Go and Java -----

  /** Control characters whose escape has a hexadecimal letter. */
  predicate LetterControl(c: char) {
    c == '\U{0B}' || c == '\U{0E}' || c == '\U{0F}' || '\U{1A}' <= c <= '\U{1F}'
  }

  predicate PortableText(text: string) {
    forall i | 0 <= i < |text| :: !LetterControl(text[i])
  }

  /** Values that both libraries print alike. */
  predicate Portable(v: Json)
    decreases v
  {
    match v
    case Number(literal) => literal != "-0"
    case Text(text) => PortableText(text)
    case Array(items) => forall i | 0 <= i < |items| :: Portable(items[i])
    case Object(members) => forall i | 0 <= i < |members| :: PortableText(members[i].key) && Portable(members[i].value)
    case _ => true
  }

  /** Portable as far as texts go. */
  predicate PortableTexts(v: Json)
    decreases v
  {
    match v
    case Text(text) => PortableText(text)
    case Array(items) => forall i | 0 <= i < |items| :: PortableTexts(items[i])
    case Object(members) =>
      forall i | 0 <= i < |members| :: PortableText(members[i].key) && PortableTexts(members[i].value)
    case _ => true
  }

  predicate NoMinusZero(v: Json)
    decreases v
  {
    match v
    case Number(literal) => literal != "-0"
    case Array(items) => forall i | 0 <= i < |items| :: NoMinusZero(items[i])
    case Object(members) => forall i | 0 <= i < |members| :: NoMinusZero(members[i].value)
    case _ => true
  }

  lemma PortableSplits(v: Json)
    ensures Portable(v) <==> PortableTexts(v) && NoMinusZero(v)
    decreases v
  {
    match v
    case Array(items) =>
      forall i | 0 <= i < |items| { PortableSplits(items[i]); }
    case Object(members) =>
      forall i | 0 <= i < |members| { PortableSplits(members[i].value); }
    case _ =>
  }

  lemma EscapeAgrees(c: char)
    ensures |Escape(Go, c)| == |Escape(Jackson, c)|
    ensures Escape(Go, c) == Escape(Jackson, c) <==> !LetterControl(c)
  {
    if c < ' ' && |Escape(Go, c)| == 6 {
      var code := c as int;
      assert code / 4096 == 0 && code / 256 % 16 == 0;
      assert Escape(Go, c)[5] == HexDigit(Go, code % 16) && Escape(Jackson, c)[5] == HexDigit(Jackson, code % 16);
    }
  }

  /** Concatenations of equally long parts are equal part by part. */
  lemma SplitEqual(a: string, x: string, b: string, y: string)
    requires |a| == |b|
    ensures a + x == b + y <==> a == b && x == y
  {
    if a + x == b + y {
      assert a == (a + x)[..|a|] && b == (b + y)[..|b|];
      assert x == (a + x)[|a|..] && y == (b + y)[|b|..];
    }
  }

  lemma {:induction false} QuotedAgrees(text: string)
    ensures |Quoted(Go, text)| == |Quoted(Jackson, text)|
    ensures Quoted(Go, text) == Quoted(Jackson, text) <==> PortableText(text)
  {
    if text != "" {
      EscapeAgrees(text[0]);
      QuotedAgrees(text[1..]);
      SplitEqual(Escape(Go, text[0]), Quoted(Go, text[1..]), Escape(Jackson, text[0]), Quoted(Jackson, text[1..]));
      assert PortableText(text) <==> !LetterControl(text[0]) && PortableText(text[1..]) by {
        assert text == [text[0]] + text[1..];
      }
    }
  }

  lemma {:induction false} PrintAgrees(v: Json)
    ensures |Print(Go, v)| == |Print(Jackson, v)|
    ensures Print(Go, v) == Print(Jackson, v) <==> PortableTexts(v)
    decreases v, 1
  {
    match v
    case Text(text) =>
      QuotedAgrees(text);
      SplitEqual(['\"'], Quoted(Go, text), ['\"'], Quoted(Jackson, text));
    case Array(items) =>
      if items != [] {
        ItemsAgree(items);
        SplitEqual(['['], PrintItems(Go, items), ['['], PrintItems(Jackson, items));
      }
    case Object(members) =>
      if members != [] {
        MembersAgree(members);
        SplitEqual(['{'], PrintMembers(Go, members), ['{'], PrintMembers(Jackson, members));
      }
    case _ =>
  }

  lemma {:induction false} ItemsAgree(items: seq<Json>)
    requires items != []
    ensures |PrintItems(Go, items)| == |PrintItems(Jackson, items)|
    ensures PrintItems(Go, items) == PrintItems(Jackson, items) <==>
            forall i | 0 <= i < |items| :: PortableTexts(items[i])
    decreases items, 0
  {
    PrintAgrees(items[0]);
    if |items| == 1 {
      SplitEqual(Print(Go, items[0]), [']'], Print(Jackson, items[0]), [']']);
    } else {
      var rest := items[1..];
      ItemsAgree(rest);
      SplitEqual([','], PrintItems(Go, rest), [','], PrintItems(Jackson, rest));
      SplitEqual(Print(Go, items[0]), [','] + PrintItems(Go, rest), Print(Jackson, items[0]),
                 [','] + PrintItems(Jackson, rest));
      assert (forall i | 0 <= i < |items| :: PortableTexts(items[i])) <==>
             PortableTexts(items[0]) && (forall i | 0 <= i < |rest| :: PortableTexts(rest[i])) by {
        assert items == [items[0]] + rest;
      }
    }
  }

  lemma {:induction false} MembersAgree(members: seq<Member>)
    requires members != []
    ensures |PrintMembers(Go, members)| == |PrintMembers(Jackson, members)|
    ensures PrintMembers(Go, members) == PrintMembers(Jackson, members) <==>
            forall i | 0 <= i < |members| :: PortableText(members[i].key) && PortableTexts(members[i].value)
    decreases members, 0
  {
    var m := members[0];
    QuotedAgrees(m.key);
    PrintAgrees(m.value);
    var key, key' := Quote(Go, m.key) + [':'], Quote(Jackson, m.key) + [':'];
    SplitEqual(['\"'], Quoted(Go, m.key), ['\"'], Quoted(Jackson, m.key));
    SplitEqual(Quote(Go, m.key), [':'], Quote(Jackson, m.key), [':']);
    var first, first' := key + Print(Go, m.value), key' + Print(Jackson, m.value);
    SplitEqual(key, Print(Go, m.value), key', Print(Jackson, m.value));
    if |members| == 1 {
      SplitEqual(first, ['}'], first', ['}']);
    } else {
      var rest := members[1..];
      MembersAgree(rest);
      SplitEqual([','], PrintMembers(Go, rest), [','], PrintMembers(Jackson, rest));
      SplitEqual(first, [','] + PrintMembers(Go, rest), first', [','] + PrintMembers(Jackson, rest));
      assert (forall i | 0 <= i < |members| :: PortableText(members[i].key) && PortableTexts(members[i].value)) <==>
             (PortableText(m.key) && PortableTexts(m.value)) &&
             (forall i | 0 <= i < |rest| :: PortableText(rest[i].key) && PortableTexts(rest[i].value)) by {
        assert members == [m] + rest;
      }
    }
  }

  lemma {:induction false} JacksonHasNoMinusZero(v: Json)
    ensures NoMinusZero(Normalize(Jackson, v))
    decreases v
  {
    match v
    case Array(items) =>
      forall i | 0 <= i < |items|
        ensures NoMinusZero(NormalizeItems(Jackson, items)[i])
      {
        NormalizeItemsAt(Jackson, items, i);
        JacksonHasNoMinusZero(items[i]);
      }
    case Object(members) =>
      var sorted := SortInto(Jackson, [], members);
      forall i | 0 <= i < |sorted|
        ensures NoMinusZero(sorted[i].value)
      {
        SortIntoMembers(Jackson, [], members, i);
        var k :| 0 <= k < |members| && sorted[i] == Member(members[k].key, Normalize(Jackson, members[k].value));
        JacksonHasNoMinusZero(members[k].value);
      }
    case _ =>
  }

  lemma {:induction false} WithoutMinusZeroAgree(v: Json)
    requires NoMinusZero(v)
    ensures Normalize(Jackson, v) == Normalize(Go, v)
    decreases v, 1
  {
    match v
    case Array(items) =>
      forall i | 0 <= i < |items|
        ensures NormalizeItems(Jackson, items)[i] == NormalizeItems(Go, items)[i]
      {
        NormalizeItemsAt(Jackson, items, i);
        NormalizeItemsAt(Go, items, i);
        WithoutMinusZeroAgree(items[i]);
      }
    case Object(members) => SortIntoAgrees([], members);
    case _ =>
  }

  lemma {:induction false} SortIntoAgrees(sorted: seq<Member>, members: seq<Member>)
    requires forall i | 0 <= i < |members| :: NoMinusZero(members[i].value)
    ensures SortInto(Jackson, sorted, members) == SortInto(Go, sorted, members)
    decreases members, 0
  {
    if members != [] {
      WithoutMinusZeroAgree(members[0].value);
      SortIntoAgrees(Put(sorted, Member(members[0].key, Normalize(Go, members[0].value))), members[1..]);
    }
  }

  /**
   Go and Java print the same canonical text for a decoded value exactly when it holds no control
   character whose escape has a letter (U+000B, U+000E, U+000F, U+001A to U+001F) and no number -0.
   */
  lemma LibrariesAgreeIff(v: Json)
    requires WellFormed(v)
    ensures CanonicalText(Go, v) == CanonicalText(Jackson, v) <==> Portable(Normalize(Go, v))
  {
    var g, j := Normalize(Go, v), Normalize(Jackson, v);
    NormalizeKeepsWellFormed(Go, v);
    NormalizeKeepsWellFormed(Jackson, v);
    ParseInvertsPrint(Go, g);
    ParseInvertsPrint(Jackson, j);
    PortableSplits(g);
    JacksonHasNoMinusZero(v);
    NormalizeTwice(Jackson, Go, v);
    NormalizeTwice(Go, Go, v);
    if NoMinusZero(g) {
      WithoutMinusZeroAgree(g);
    }
    PrintAgrees(g);
  }
}
