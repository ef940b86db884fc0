/**
 Canonical JSON: objects with sorted members, printed without spaces
 (packages/go/mcpwire/envelope.go, envelope_v2.go; apps/mcp-identity/.../Envelope.java).
 Go sorts keys bytewise; the keys that Java accepts are ASCII, where both orders are that of the characters.
 */
module Canonical {
  import opened Basics
  import opened JsonText
  import opened JsonRoundTrip

  // ----- the order of keys -----

  predicate Less(a: string, b: string) {
    b != "" && (a == "" || a[0] < b[0] || (a[0] == b[0] && Less(a[1..], b[1..])))
  }

  lemma LessIsStrict(a: string, b: string)
    ensures Less(a, b) ==> !Less(b, a) && a != b
    ensures Less(a, b) || Less(b, a) || a == b
  {
    if a != "" && b != "" && a[0] == b[0] {
      LessIsStrict(a[1..], b[1..]);
      assert a == [a[0]] + a[1..] && b == [b[0]] + b[1..];
    }
  }

  lemma {:induction false} LessIsTransitive(a: string, b: string, c: string)
    requires Less(a, b) && Less(b, c)
    ensures Less(a, c)
  {
    if a != "" && a[0] == b[0] == c[0] {
      LessIsTransitive(a[1..], b[1..], c[1..]);
    }
  }

  // ----- sorted members -----

  /** The last value under a key, as a decoded object keeps it. */
  function Lookup(members: seq<Member>, key: string): (r: Option<Json>)
    ensures r.Some? ==> exists i :: 0 <= i < |members| && members[i] == Member(key, r.value)
    ensures r.None? ==> forall i | 0 <= i < |members| :: members[i].key != key
  {
    if members == [] then None
    else if Lookup(members[1..], key).Some? then
      (var i :| 0 <= i < |members[1..]| && members[1..][i] == Member(key, Lookup(members[1..], key).value);
       assert members[i + 1] == Member(key, Lookup(members[1..], key).value);
       Lookup(members[1..], key))
    else if members[0].key == key then Some(members[0].value)
    else None
  }

  predicate Sorted(members: seq<Member>) {
    forall i, k | 0 <= i < k < |members| :: Less(members[i].key, members[k].key)
  }

  /** Puts a member into a sorted map, replacing the value under its key. */
  function Put(sorted: seq<Member>, m: Member): seq<Member> {
    if sorted == [] then [m]
    else if m.key == sorted[0].key then [m] + sorted[1..]
    else if Less(m.key, sorted[0].key) then [m] + sorted
    else [sorted[0]] + Put(sorted[1..], m)
  }

  lemma {:induction false} PutKeepsBound(sorted: seq<Member>, m: Member, low: string)
    requires forall i | 0 <= i < |sorted| :: Less(low, sorted[i].key)
    requires Less(low, m.key)
    ensures forall i | 0 <= i < |Put(sorted, m)| :: Less(low, Put(sorted, m)[i].key)
  {
    if sorted != [] && m.key != sorted[0].key && !Less(m.key, sorted[0].key) {
      PutKeepsBound(sorted[1..], m, low);
    }
  }

  lemma {:induction false} PutKeepsSorted(sorted: seq<Member>, m: Member)
    requires Sorted(sorted)
    ensures Sorted(Put(sorted, m))
  {
    if sorted != [] {
      LessIsStrict(m.key, sorted[0].key);
      if Less(m.key, sorted[0].key) {
        forall i | 0 < i < |sorted|
          ensures Less(m.key, sorted[i].key)
        {
          LessIsTransitive(m.key, sorted[0].key, sorted[i].key);
        }
      } else if m.key != sorted[0].key {
        PutKeepsSorted(sorted[1..], m);
        PutKeepsBound(sorted[1..], m, sorted[0].key);
      }
    }
  }

  lemma {:induction false} PutLookup(sorted: seq<Member>, m: Member, key: string)
    requires Sorted(sorted)
    ensures Lookup(Put(sorted, m), key) == if key == m.key then Some(m.value) else Lookup(sorted, key)
  {
    LookupSorted(sorted, key);
    if sorted == [] {
      LookupOne(m, key);
    } else {
      LessIsStrict(m.key, sorted[0].key);
      if m.key == sorted[0].key {
        LookupCons(m, sorted[1..], key);
        LookupCons(sorted[0], sorted[1..], key);
        assert sorted == [sorted[0]] + sorted[1..];
        BelowAll(sorted[0].key, sorted[1..]);
      } else if Less(m.key, sorted[0].key) {
        LookupCons(m, sorted, key);
        forall i | 0 <= i < |sorted|
          ensures Less(m.key, sorted[i].key)
        {
          if i > 0 {
            LessIsTransitive(m.key, sorted[0].key, sorted[i].key);
          }
        }
        BelowAll(m.key, sorted);
      } else {
        PutLookup(sorted[1..], m, key);
        LookupCons(sorted[0], Put(sorted[1..], m), key);
        LookupCons(sorted[0], sorted[1..], key);
        assert sorted == [sorted[0]] + sorted[1..];
        BelowAll(sorted[0].key, sorted[1..]);
      }
    }
  }

  lemma LookupOne(m: Member, key: string)
    ensures Lookup([m], key) == if m.key == key then Some(m.value) else None
  {
    assert [m][1..] == [];
  }

  lemma LookupCons(m: Member, rest: seq<Member>, key: string)
    ensures Lookup([m] + rest, key) ==
            if Lookup(rest, key).Some? then Lookup(rest, key) else if m.key == key then Some(m.value) else None
  {
    assert ([m] + rest)[1..] == rest;
  }

  lemma BelowAll(key: string, members: seq<Member>)
    requires forall i | 0 <= i < |members| :: Less(key, members[i].key)
    ensures Lookup(members, key).None?
  {
    if Lookup(members, key).Some? {
      var i :| 0 <= i < |members| && members[i] == Member(key, Lookup(members, key).value);
      LessIsStrict(key, members[i].key);
    }
  }

  lemma LookupSorted(members: seq<Member>, key: string)
    requires Sorted(members)
    ensures forall i | 0 <= i < |members| && members[i].key == key :: Lookup(members, key) == Some(members[i].value)
  {
    forall i | 0 <= i < |members| && members[i].key == key
      ensures Lookup(members, key) == Some(members[i].value)
    {
      if Lookup(members, key).Some? {
        var k :| 0 <= k < |members| && members[k] == Member(key, Lookup(members, key).value);
        LessIsStrict(members[i].key, members[k].key);
      }
    }
  }

  /** Sorted maps are determined by what they hold. */
  lemma {:induction false} SortedExtensional(a: seq<Member>, b: seq<Member>)
    requires Sorted(a) && Sorted(b) && forall key :: Lookup(a, key) == Lookup(b, key)
    ensures a == b
  {
    if b != [] {
      LookupSorted(b, b[0].key);
      assert Lookup(a, b[0].key) == Some(b[0].value);
    }
    if a != [] {
      LookupSorted(a, a[0].key);
      assert Lookup(a, a[0].key) == Lookup(b, a[0].key) == Some(a[0].value);
      var k :| 0 <= k < |b| && b[k] == Member(a[0].key, a[0].value);
      var i :| 0 <= i < |a| && a[i] == Member(b[0].key, b[0].value);
      LessIsStrict(a[0].key, b[0].key);
      assert a[0] == b[0];
      BelowAll(a[0].key, a[1..]);
      BelowAll(b[0].key, b[1..]);
      forall key
        ensures Lookup(a[1..], key) == Lookup(b[1..], key)
      {
        LookupCons(a[0], a[1..], key);
        LookupCons(b[0], b[1..], key);
        assert a == [a[0]] + a[1..] && b == [b[0]] + b[1..];
        assert Lookup(a, key) == Lookup(b, key);
      }
      SortedExtensional(a[1..], b[1..]);
      assert a == [a[0]] + a[1..] && b == [b[0]] + b[1..];
    }
  }

  // ----- canonical values -----

  function Literal(d: Dialect, literal: string): string {
    if d == Jackson && literal == "-0" then "0" else literal
  }

  /** A decoded value with its objects in key order, as a library holds it. */
  function Normalize(d: Dialect, v: Json): Json
    decreases v, 1
  {
    match v
    case Number(literal) => Number(Literal(d, literal))
    case Array(items) => Array(NormalizeItems(d, items))
    case Object(members) => Object(SortInto(d, [], members))
    case _ => v
  }

  function NormalizeItems(d: Dialect, items: seq<Json>): (r: seq<Json>)
    ensures |r| == |items|
    decreases items, 0
  {
    if items == [] then [] else [Normalize(d, items[0])] + NormalizeItems(d, items[1..])
  }

  function SortInto(d: Dialect, sorted: seq<Member>, members: seq<Member>): seq<Member>
    decreases members, 0
  {
    if members == [] then sorted
    else SortInto(d, Put(sorted, Member(members[0].key, Normalize(d, members[0].value))), members[1..])
  }

  function CanonicalText(d: Dialect, v: Json): string {
    Print(d, Normalize(d, v))
  }

  lemma {:induction false} SortIntoSorted(d: Dialect, sorted: seq<Member>, members: seq<Member>)
    requires Sorted(sorted)
    ensures Sorted(SortInto(d, sorted, members))
    decreases |members|
  {
    if members != [] {
      var m := Member(members[0].key, Normalize(d, members[0].value));
      PutKeepsSorted(sorted, m);
      SortIntoSorted(d, Put(sorted, m), members[1..]);
    }
  }

  function NormalizeOption(d: Dialect, v: Option<Json>): Option<Json> {
    if v.None? then None else Some(Normalize(d, v.value))
  }

  lemma {:induction false} SortIntoLookup(d: Dialect, sorted: seq<Member>, members: seq<Member>, key: string)
    requires Sorted(sorted)
    ensures Lookup(SortInto(d, sorted, members), key) ==
            if Lookup(members, key).Some? then NormalizeOption(d, Lookup(members, key)) else Lookup(sorted, key)
    decreases |members|
  {
    if members != [] {
      var m := Member(members[0].key, Normalize(d, members[0].value));
      PutKeepsSorted(sorted, m);
      SortIntoLookup(d, Put(sorted, m), members[1..], key);
      PutLookup(sorted, m, key);
      LookupCons(members[0], members[1..], key);
      assert members == [members[0]] + members[1..];
    }
  }

  lemma NormalizeItemsAt(d: Dialect, items: seq<Json>, i: nat)
    requires i < |items|
    ensures NormalizeItems(d, items)[i] == Normalize(d, items[i])
  {
    if i > 0 {
      NormalizeItemsAt(d, items[1..], i - 1);
    }
  }

  // ----- the same value -----

  /** Equality of JSON values: objects as maps, array elements in order, numbers as the library reads them. */
  ghost predicate SameValue(d: Dialect, v: Json, w: Json)
    decreases v
  {
    match v
    case Number(a) => w.Number? && Literal(d, a) == Literal(d, w.literal)
    case Array(items) =>
      w.Array? && |items| == |w.items| && forall i | 0 <= i < |items| :: SameValue(d, items[i], w.items[i])
    case Object(members) =>
      w.Object? && forall key :: SameUnder(d, members, w.members, key)
    case _ => v == w
  }

  ghost predicate SameUnder(d: Dialect, a: seq<Member>, b: seq<Member>, key: string)
    decreases a
  {
    && (Lookup(a, key).Some? <==> Lookup(b, key).Some?)
    && (Lookup(a, key).Some? ==>
          (var i :| 0 <= i < |a| && a[i] == Member(key, Lookup(a, key).value);
           SameValue(d, a[i].value, Lookup(b, key).value)))
  }

  /** Two values are the same exactly when they normalize alike. */
  lemma {:induction false} SameValueIffNormal(d: Dialect, v: Json, w: Json)
    ensures SameValue(d, v, w) <==> Normalize(d, v) == Normalize(d, w)
    decreases v
  {
    if v.Array? && w.Array? && |v.items| == |w.items| {
      var a, b := NormalizeItems(d, v.items), NormalizeItems(d, w.items);
      forall i | 0 <= i < |v.items|
        ensures SameValue(d, v.items[i], w.items[i]) <==> a[i] == b[i]
      {
        SameValueIffNormal(d, v.items[i], w.items[i]);
        NormalizeItemsAt(d, v.items, i);
        NormalizeItemsAt(d, w.items, i);
      }
    } else if v.Object? && w.Object? {
      var a, b := SortInto(d, [], v.members), SortInto(d, [], w.members);
      forall key
        ensures SameUnder(d, v.members, w.members, key) <==> Lookup(a, key) == Lookup(b, key)
      {
        SortIntoLookup(d, [], v.members, key);
        SortIntoLookup(d, [], w.members, key);
        if Lookup(v.members, key).Some? && Lookup(w.members, key).Some? {
          var i :| 0 <= i < |v.members| && v.members[i] == Member(key, Lookup(v.members, key).value);
          SameValueIffNormal(d, v.members[i].value, Lookup(w.members, key).value);
        }
      }
      SortIntoSorted(d, [], v.members);
      SortIntoSorted(d, [], w.members);
      if SameValue(d, v, w) {
        SortedExtensional(a, b);
      }
    }
  }
}
