/** The words of a text, and what is left of a text without its outer white space. */
module Words {
  import opened Basics
  import opened AgentParts

  // ----- trimming -----

  /** All but text[a..b] is outer white space. */
  predicate TrimmedAt(text: string, a: nat, b: nat) {
    && a <= b <= |text| && (forall k | 0 <= k < a :: IsSpace(text[k]))
       && (forall k | b <= k < |text| :: IsSpace(text[k]))
    && (a < b ==> !IsSpace(text[a]) && !IsSpace(text[b - 1]))
  }

  /** What is left of a text without its outer white space. */
  ghost predicate IsTrimmed(text: string, kept: string) {
    exists a: nat, b: nat :: TrimmedAt(text, a, b) && kept == text[a..b]
  }

  lemma {:induction false} LeftIsBlank(s: string)
    ensures |TrimLeft(s)| <= |s| && Blank(s[..|s| - |TrimLeft(s)|]) && s[|s| - |TrimLeft(s)|..] == TrimLeft(s)
    ensures TrimLeft(s) == "" || !IsSpace(TrimLeft(s)[0])
  {
    if s != "" && IsSpace(s[0]) {
      LeftIsBlank(s[1..]);
      var n := |s| - |TrimLeft(s)|;
      assert s[..n] == [s[0]] + s[1..][..n - 1];
    } else {
      assert s[..0] == "" && s[0..] == s;
    }
  }

  lemma {:induction false} RightIsBlank(s: string)
    ensures |TrimRight(s)| <= |s| && Blank(s[|TrimRight(s)|..]) && s[..|TrimRight(s)|] == TrimRight(s)
    ensures TrimRight(s) == "" || !IsSpace(TrimRight(s)[|TrimRight(s)| - 1])
  {
    if s != "" && IsSpace(s[|s| - 1]) {
      var front := s[..|s| - 1];
      RightIsBlank(front);
      var n := |TrimRight(s)|;
      assert s[n..] == front[n..] + [s[|s| - 1]] && s[..n] == front[..n];
    } else {
      assert s[|s|..] == "" && s[..|s|] == s;
    }
  }

  lemma LeftTrimmedAt(text: string, a: nat, left: string, n: nat)
    requires a <= |text| && text[a..] == left && Blank(text[..a]) && n <= |left| && Blank(left[n..])
    requires n > 0 ==> !IsSpace(left[0]) && !IsSpace(left[n - 1])
    ensures TrimmedAt(text, a, a + n) && text[a..a + n] == left[..n]
  {
    assert forall k | 0 <= k < |left| :: left[k] == text[a + k];
    assert forall k | n <= k < |left| :: left[n..][k - n] == left[k];
    forall k | a + n <= k < |text|
      ensures IsSpace(text[k])
    {
      assert left[n..][k - a - n] == text[k];
    }
  }

  lemma TrimTrims(text: string)
    ensures IsTrimmed(text, Trim(text))
  {
    LeftIsBlank(text);
    var left := TrimLeft(text);
    RightIsBlank(left);
    LeftTrimmedAt(text, |text| - |left|, left, |TrimRight(left)|);
  }

  lemma CoreIsIn(text: string, a: nat, b: nat, c: nat, d: nat)
    requires TrimmedAt(text, a, b) && TrimmedAt(text, c, d) && c < d
    ensures a <= c && d <= b
  {
  }

  /** A text is trimmed in one way only. */
  lemma TrimmedIsUnique(text: string, x: string, y: string)
    requires IsTrimmed(text, x) && IsTrimmed(text, y)
    ensures x == y
  {
    var a: nat, b: nat :| TrimmedAt(text, a, b) && x == text[a..b];
    var c: nat, d: nat :| TrimmedAt(text, c, d) && y == text[c..d];
    if a < b {
      CoreIsIn(text, c, d, a, b);
    }
    if c < d {
      CoreIsIn(text, a, b, c, d);
    }
  }

  // ----- words -----

  predicate IsWord(word: string) {
    word != "" && forall i | 0 <= i < |word| :: !IsSpace(word[i])
  }

  predicate AllWords(ws: seq<string>) {
    forall i | 0 <= i < |ws| :: IsWord(ws[i])
  }

  /** The first word of the text is text[i..j]. */
  predicate FirstWordAt(text: string, i: nat, j: nat, word: string) {
    && i < j <= |text| && (forall k | 0 <= k < i :: IsSpace(text[k])) && (forall k | i <= k < j :: !IsSpace(text[k]))
    && (j == |text| || IsSpace(text[j])) && text[i..j] == word
  }

  /** The words of a text in order, with white space around them. */
  ghost predicate WordsOf(text: string, ws: seq<string>)
    decreases |ws|
  {
    if ws == [] then Blank(text)
    else exists i: nat, j: nat :: FirstWordAt(text, i, j, ws[0]) && WordsOf(text[j..], ws[1..])
  }

  lemma FirstWordIsUnique(text: string, i: nat, j: nat, word: string, m: nat, n: nat, other: string)
    requires FirstWordAt(text, i, j, word) && FirstWordAt(text, m, n, other)
    ensures i == m && j == n
  {
    assert !IsSpace(text[i]) && !IsSpace(text[m]);
    assert i == m;
    assert j < |text| ==> IsSpace(text[j]);
    assert n < |text| ==> IsSpace(text[n]);
  }

  lemma WordIsNotBlank(text: string, i: nat, j: nat, word: string)
    requires FirstWordAt(text, i, j, word)
    ensures !Blank(text)
  {
    assert !IsSpace(text[i]);
  }

  lemma WordsOfNone(text: string, ws: seq<string>)
    requires WordsOf(text, ws) && Blank(text)
    ensures ws == []
  {
    if ws != [] {
      var i: nat, j: nat :| FirstWordAt(text, i, j, ws[0]) && WordsOf(text[j..], ws[1..]);
      WordIsNotBlank(text, i, j, ws[0]);
    }
  }

  /** A text has one list of words only. */
  lemma {:induction false} WordsAreUnique(text: string, ws: seq<string>, vs: seq<string>)
    requires WordsOf(text, ws) && WordsOf(text, vs)
    ensures ws == vs
    decreases |ws|
  {
    if ws == [] {
      WordsOfNone(text, vs);
    } else if vs == [] {
      WordsOfNone(text, ws);
    } else {
      var i: nat, j: nat :| FirstWordAt(text, i, j, ws[0]) && WordsOf(text[j..], ws[1..]);
      var m: nat, n: nat :| FirstWordAt(text, m, n, vs[0]) && WordsOf(text[n..], vs[1..]);
      FirstWordIsUnique(text, i, j, ws[0], m, n, vs[0]);
      WordsAreUnique(text[j..], ws[1..], vs[1..]);
      assert ws == [ws[0]] + ws[1..] && vs == [vs[0]] + vs[1..];
    }
  }

  // ----- putting words together -----

  lemma WordEnds(text: string, i: nat) returns (j: nat)
    requires i < |text| && !IsSpace(text[i]) && Blank(text[..i])
    ensures i < j <= |text| && FirstWordAt(text, i, j, text[i..j])
  {
    assert forall k | 0 <= k < i :: text[..i][k] == text[k];
    j := i + 1;
    while j < |text| && !IsSpace(text[j])
      invariant i < j <= |text| && forall k | i <= k < j :: !IsSpace(text[k])
    {
      j := j + 1;
    }
  }

  lemma {:induction false} HasWords(text: string) returns (ws: seq<string>)
    ensures WordsOf(text, ws)
    decreases |text|
  {
    LeftIsBlank(text);
    var i := |text| - |TrimLeft(text)|;
    if i == |text| {
      ws := [];
      assert text[..i] == text;
    } else {
      assert text[i..][0] == text[i];
      var j := WordEnds(text, i);
      var rest := HasWords(text[j..]);
      ws := [text[i..j]] + rest;
      assert FirstWordAt(text, i, j, ws[0]) && ws[1..] == rest;
    }
  }

  lemma WordFirst(word: string, rest: string, ws: seq<string>)
    requires IsWord(word) && (rest == "" || IsSpace(rest[0])) && WordsOf(rest, ws)
    ensures WordsOf(word + rest, [word] + ws)
  {
    var text, all := word + rest, [word] + ws;
    assert text[..|word|] == word && text[|word|..] == rest;
    assert rest != "" ==> text[|word|] == rest[0];
    assert FirstWordAt(text, 0, |word|, all[0]);
    assert all[1..] == ws;
  }

  lemma WordAfter(gap: string, text: string, i: nat, j: nat, word: string)
    requires Blank(gap) && FirstWordAt(text, i, j, word)
    ensures FirstWordAt(gap + text, |gap| + i, |gap| + j, word) && (gap + text)[|gap| + j..] == text[j..]
  {
    var more := gap + text;
    assert forall k | 0 <= k < |gap| :: more[k] == gap[k];
    assert forall k | |gap| <= k < |more| :: more[k] == text[k - |gap|];
    assert more[|gap| + i..|gap| + j] == text[i..j];
  }

  /** White space before the first word does not matter. */
  lemma BlankFirst(gap: string, text: string, ws: seq<string>)
    requires Blank(gap) && WordsOf(text, ws)
    ensures WordsOf(gap + text, ws)
  {
    if ws != [] {
      var i: nat, j: nat :| FirstWordAt(text, i, j, ws[0]) && WordsOf(text[j..], ws[1..]);
      WordAfter(gap, text, i, j, ws[0]);
    }
  }

  lemma WordBefore(text: string, i: nat, j: nat, word: string, tail: string)
    requires FirstWordAt(text, i, j, word) && (tail == "" || IsSpace(tail[0]))
    ensures FirstWordAt(text + tail, i, j, word) && (text + tail)[j..] == text[j..] + tail
  {
    var more := text + tail;
    assert forall k | 0 <= k < |text| :: more[k] == text[k];
    assert tail != "" ==> more[|text|] == tail[0];
    assert more[i..j] == text[i..j];
  }

  /** The words of two texts, with white space in front of the second, are those of the first and then the second's. */
  lemma {:induction false} WordsAppend(x: string, xs: seq<string>, y: string, ys: seq<string>)
    requires WordsOf(x, xs) && WordsOf(y, ys) && (y == "" || IsSpace(y[0]))
    ensures WordsOf(x + y, xs + ys)
    decreases |xs|
  {
    if xs == [] {
      BlankFirst(x, y, ys);
      assert [] + ys == ys;
    } else {
      var i: nat, j: nat :| FirstWordAt(x, i, j, xs[0]) && WordsOf(x[j..], xs[1..]);
      WordsAppend(x[j..], xs[1..], y, ys);
      WordInFront(x, i, j, xs[0], y, xs[1..] + ys);
      Associate([xs[0]], xs[1..], ys);
      assert [xs[0]] + xs[1..] == xs;
    }
  }

  lemma WordInFront(text: string, i: nat, j: nat, word: string, tail: string, ws: seq<string>)
    requires FirstWordAt(text, i, j, word) && (tail == "" || IsSpace(tail[0])) && WordsOf(text[j..] + tail, ws)
    ensures WordsOf(text + tail, [word] + ws)
  {
    WordBefore(text, i, j, word, tail);
    assert ([word] + ws)[0] == word && ([word] + ws)[1..] == ws;
  }

  /** The words of a text followed by a space and another text. */
  lemma WordsSpaced(x: string, xs: seq<string>, y: string, ys: seq<string>)
    requires WordsOf(x, xs) && WordsOf(y, ys)
    ensures WordsOf(x + " " + y, xs + ys)
  {
    BlankFirst(" ", y, ys);
    WordsAppend(x, xs, " " + y, ys);
    Associate(x, " ", y);
  }

  // ----- words in a row -----

  /** The words with one space between them. */
  function Joined(ws: seq<string>): string {
    if ws == [] then "" else if |ws| == 1 then ws[0] else ws[0] + " " + Joined(ws[1..])
  }

  lemma JoinedMore(word: string, ws: seq<string>)
    requires IsWord(word) && ws != [] && WordsOf(Joined(ws), ws)
    ensures WordsOf(Joined([word] + ws), [word] + ws)
  {
    BlankFirst(" ", Joined(ws), ws);
    WordFirst(word, " " + Joined(ws), ws);
    Associate(word, " ", Joined(ws));
    assert ([word] + ws)[1..] == ws;
  }

  lemma {:induction false} JoinedSpells(ws: seq<string>)
    requires AllWords(ws)
    ensures WordsOf(Joined(ws), ws)
  {
    if |ws| == 1 {
      WordFirst(ws[0], "", []);
      assert ws[0] + "" == ws[0] && [ws[0]] + [] == ws;
    } else if ws != [] {
      JoinedSpells(ws[1..]);
      JoinedMore(ws[0], ws[1..]);
      assert [ws[0]] + ws[1..] == ws;
    }
  }

  lemma JoinedIsInjective(ws: seq<string>, vs: seq<string>)
    requires AllWords(ws) && AllWords(vs) && Joined(ws) == Joined(vs)
    ensures ws == vs
  {
    JoinedSpells(ws);
    JoinedSpells(vs);
    WordsAreUnique(Joined(ws), ws, vs);
  }

  lemma {:induction false} WordsAreWords(text: string, ws: seq<string>)
    requires WordsOf(text, ws)
    ensures AllWords(ws)
    decreases |ws|
  {
    if ws != [] {
      var i: nat, j: nat :| FirstWordAt(text, i, j, ws[0]) && WordsOf(text[j..], ws[1..]);
      WordsAreWords(text[j..], ws[1..]);
      assert forall k | 0 <= k < |ws[0]| :: ws[0][k] == text[i + k];
      assert forall k | 1 <= k < |ws| :: ws[k] == ws[1..][k - 1];
    }
  }

  /** Trimming a text leaves its words. */
  lemma TrimmedKeepsWords(text: string, kept: string, ws: seq<string>)
    requires IsTrimmed(text, kept) && WordsOf(kept, ws)
    ensures WordsOf(text, ws)
  {
    var a: nat, b: nat :| TrimmedAt(text, a, b) && kept == text[a..b];
    Framed(text, a, b);
    BlankAround(text[..a], kept, text[b..], ws);
  }

  lemma TrimmedHasWords(text: string, kept: string, ws: seq<string>)
    requires IsTrimmed(text, kept) && WordsOf(text, ws)
    ensures WordsOf(kept, ws)
  {
    var vs := HasWords(kept);
    TrimmedKeepsWords(text, kept, vs);
    WordsAreUnique(text, ws, vs);
  }

  lemma Framed(text: string, a: nat, b: nat)
    requires TrimmedAt(text, a, b)
    ensures Blank(text[..a]) && Blank(text[b..]) && text == text[..a] + text[a..b] + text[b..]
  {
    assert forall k | b <= k < |text| :: text[b..][k - b] == text[k];
  }

  lemma BlankAround(gap: string, text: string, tail: string, ws: seq<string>)
    requires Blank(gap) && Blank(tail) && WordsOf(text, ws)
    ensures WordsOf(gap + text + tail, ws)
  {
    BlankFirst(gap, text, ws);
    WordsAppend(gap + text, ws, tail, []);
    assert ws + [] == ws;
  }
}
