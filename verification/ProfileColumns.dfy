/**
 What an update does to each column of a profile, and what the columns hold after any run
 (apps/mcp-profile/src/main/java/local/sts/profile/ProfileService.java).
 */
module ProfileColumns {
  import opened Basics
  import opened ProfileStore

  /** What is left of a text without its outer white space. */
  ghost predicate IsStripped(text: string, kept: string) {
    exists a, b :: 0 <= a <= b <= |text| && IsBlank(text[..a]) && IsBlank(text[b..]) && IsCore(text[a..b]) &&
                   kept == text[a..b]
  }

  predicate IsCore(text: string) {
    text == "" || (!JavaSpace(text[0]) && !JavaSpace(text[|text| - 1]))
  }

  /** A given text is stored without its outer white space, anything else as it is. */
  ghost predicate StoredAs(given: FieldValue, stored: FieldValue) {
    if given.Text? then stored.Text? && IsStripped(given.text, stored.text) else stored == given
  }

  predicate Unnamed(changes: seq<Change>, field: string) {
    forall k | 0 <= k < |changes| :: changes[k].field != field
  }

  /** The i-th change is the last one that names the field. */
  predicate LastNamed(changes: seq<Change>, field: string, i: nat) {
    i < |changes| && changes[i].field == field && forall k | i < k < |changes| :: changes[k].field != field
  }

  /** A column holds the last value given to it, and is as before when none is. */
  ghost predicate HoldsLast(before: map<string, FieldValue>, changes: seq<Change>, after: map<string, FieldValue>,
                            field: string) {
    && (Unnamed(changes, field) ==>
          (field in after <==> field in before) && (field in before ==> after[field] == before[field]))
    && (forall i: nat | LastNamed(changes, field, i) :: field in after && StoredAs(changes[i].value, after[field]))
  }

  lemma StripStrips(text: string)
    ensures IsStripped(text, Strip(text))
  {
    var left := StripLeft(text);
    var kept := StripRight(left);
    var a := |text| - |left|;
    var b := a + |kept|;
    assert text[a..] == left && text[a..b] == left[..|kept|] == kept;
    assert text[b..] == left[|kept|..];
    assert IsCore(text[a..b]) by {
      if kept != "" {
        assert kept[0] == left[0];
      }
    }
  }

  /** Stripping leaves one text only. */
  lemma StrippedIsUnique(text: string, x: string, y: string)
    requires IsStripped(text, x) && IsStripped(text, y)
    ensures x == y
  {
    var a, b :| 0 <= a <= b <= |text| && IsBlank(text[..a]) && IsBlank(text[b..]) && IsCore(text[a..b])
    && x == text[a..b];
    var c, d :| 0 <= c <= d <= |text| && IsBlank(text[..c]) && IsBlank(text[d..]) && IsCore(text[c..d])
    && y == text[c..d];
    CoresCover(text, a, b, c, d);
    CoresCover(text, c, d, a, b);
  }

  /** A core that is not empty lies within every other stretch around which all is blank. */
  lemma CoresCover(text: string, a: nat, b: nat, c: nat, d: nat)
    requires a <= b <= |text| && c <= d <= |text| && IsCore(text[a..b]) && IsBlank(text[..c]) && IsBlank(text[d..])
    ensures a < b ==> c <= a && b <= d
  {
    BlankBefore(text, c);
    BlankAfter(text, d);
    assert a < b ==> text[a] == text[a..b][0] && text[b - 1] == text[a..b][b - a - 1];
  }

  lemma BlankBefore(text: string, c: nat)
    requires c <= |text| && IsBlank(text[..c])
    ensures forall k | 0 <= k < c :: JavaSpace(text[k])
  {
    assert forall k | 0 <= k < c :: text[..c][k] == text[k];
  }

  lemma BlankAfter(text: string, d: nat)
    requires d <= |text| && IsBlank(text[d..])
    ensures forall k | d <= k < |text| :: JavaSpace(text[k])
  {
    forall k | d <= k < |text|
      ensures JavaSpace(text[k])
    {
      assert text[d..][k - d] == text[k];
    }
  }

  lemma StoredIsStored(v: FieldValue)
    ensures StoredAs(v, Stored(v))
  {
    if v.Text? {
      StripStrips(v.text);
    }
  }

  lemma {:induction false} UnnamedIsKept(columns: map<string, FieldValue>, changes: seq<Change>, field: string)
    requires Unnamed(changes, field)
    ensures field in Patched(columns, changes) <==> field in columns
    ensures field in columns ==> Patched(columns, changes)[field] == columns[field]
    decreases |changes|
  {
    if changes != [] {
      UnnamedIsKept(columns[changes[0].field := Stored(changes[0].value)], changes[1..], field);
    }
  }

  lemma {:induction false} LastIsStored(columns: map<string, FieldValue>, changes: seq<Change>, field: string, i: nat)
    requires LastNamed(changes, field, i)
    ensures field in Patched(columns, changes) && Patched(columns, changes)[field] == Stored(changes[i].value)
    decreases |changes|
  {
    var next := columns[changes[0].field := Stored(changes[0].value)];
    if i == 0 {
      UnnamedIsKept(next, changes[1..], field);
    } else {
      LastIsStored(next, changes[1..], field, i - 1);
    }
  }

  /** After the changes of an update every column holds the last value given to it, or what it held before. */
  lemma PatchedByColumn(columns: map<string, FieldValue>, changes: seq<Change>, field: string)
    ensures HoldsLast(columns, changes, Patched(columns, changes), field)
  {
    if Unnamed(changes, field) {
      UnnamedIsKept(columns, changes, field);
    }
    forall i: nat | LastNamed(changes, field, i)
      ensures field in Patched(columns, changes) && StoredAs(changes[i].value, Patched(columns, changes)[field])
    {
      LastIsStored(columns, changes, field, i);
      StoredIsStored(changes[i].value);
    }
  }

  /** An update commits exactly when its caller may write and has confirmed, and request, key and version fit. */
  predicate Fits(db: Db, r: Request) {
    && r.owner.Some? && r.canWrite && r.confirmed && r.wellFormed && ValidChanges(r.changes)
    && r.owner.value in db.profiles && LedgerKey(r.owner.value, r.key) !in db.operations
    && r.expected == Some(db.profiles[r.owner.value].version) && r.expected.value >= 1
  }

  /**
   An update commits exactly when it fits; then each column of the profile holds the last value given to it or what it
   held, the version is the next one, and no other profile changes. Otherwise nothing changes.
   */
  lemma UpdateCommitsIff(db: Db, r: Request, field: string)
    ensures var (db', answer) := Updating(db, r);
            && (answer.Committed? <==> Fits(db, r))
            && (answer.Committed? ==>
                  && db'.profiles == db.profiles[r.owner.value := answer.profile]
                  && answer.profile.version == db.profiles[r.owner.value].version + 1
                  && HoldsLast(db.profiles[r.owner.value].columns, r.changes, answer.profile.columns, field))
            && (!answer.Committed? ==> db' == db)
  {
    UpdatingEffect(db, r);
    if Fits(db, r) {
      PatchedByColumn(db.profiles[r.owner.value].columns, r.changes, field);
    }
  }

  /** A change is allowed exactly when the table takes its value as it is given and it has no control characters. */
  lemma ValidChangeIff(c: Change)
    ensures ValidChange(c) <==>
            c.field in FIELDS && ValidColumn(c.field, c.value) && (c.value.Text? ==> !HasControl(c.value.text))
  {
  }

  // ----- whole runs -----

  /** The changes of all commits, in order. */
  function AllChanges(commits: seq<Request>): seq<Change> {
    if commits == [] then [] else commits[0].changes + AllChanges(commits[1..])
  }

  lemma {:induction false} PatchedParts(columns: map<string, FieldValue>, x: seq<Change>, y: seq<Change>)
    ensures Patched(columns, x + y) == Patched(Patched(columns, x), y)
    decreases |x|
  {
    if x == [] {
      assert x + y == y;
    } else {
      assert (x + y)[0] == x[0] && (x + y)[1..] == x[1..] + y;
      PatchedParts(columns[x[0].field := Stored(x[0].value)], x[1..], y);
    }
  }

  lemma {:induction false} FoldedColumns(p: Profile, commits: seq<Request>)
    ensures Folded(p, commits).columns == Patched(p.columns, AllChanges(commits))
    decreases |commits|
  {
    if commits != [] {
      FoldedColumns(Updated(p, commits[0].changes), commits[1..]);
      PatchedParts(p.columns, commits[0].changes, AllChanges(commits[1..]));
    }
  }

  /**
   Over every run, each stored column holds the value of the last committed change that names it, without outer white
   space, and its initial value when none does.
   */
  lemma ColumnsHoldLastChange(db: Db, requests: seq<Request>, code: string, field: string)
    requires code in db.profiles
    ensures code in After(db, requests).profiles
    ensures HoldsLast(db.profiles[code].columns, AllChanges(Of(Commits(db, requests), code)),
                      After(db, requests).profiles[code].columns, field)
  {
    var mine := Of(Commits(db, requests), code);
    ProfileIsFold(db, requests, code);
    FoldedColumns(db.profiles[code], mine);
    PatchedByColumn(db.profiles[code].columns, AllChanges(mine), field);
  }

  /** What a commit answered, and every replay of it later answers, holds the last changes up to that commit. */
  lemma ReplaysHoldColumns(db: Db, requests: seq<Request>, code: string, i: nat, more: seq<Request>, field: string)
    requires code in db.profiles && i < |Of(Commits(db, requests), code)|
    ensures var mine := Of(Commits(db, requests), code);
            var answer := Updating(After(After(db, requests), more), mine[i]).1;
            answer.Replayed? &&
            HoldsLast(db.profiles[code].columns, AllChanges(Through(mine, i)), answer.profile.columns, field)
  {
    var mine := Of(Commits(db, requests), code);
    ReplaysReturnHistory(db, requests, code, i, more);
    FoldedColumns(db.profiles[code], Through(mine, i));
    PatchedByColumn(db.profiles[code].columns, AllChanges(Through(mine, i)), field);
  }
}
