/**
 Customer profiles with optimistic versions and a replay ledger
 (apps/mcp-profile/src/main/java/local/sts/profile/ProfileService.java).
 */
module ProfileStore {
  import opened Basics

  datatype FieldValue = Null | Number(n: int) | Text(text: string) | OtherValue

  datatype Change = Change(field: string, value: FieldValue)

  /** A row of profiles: the five columns and the version. */
  datatype Profile = Profile(columns: map<string, FieldValue>, version: int)

  datatype LedgerRow = LedgerRow(payloadHash: string, result: Profile)

  datatype LedgerKey = LedgerKey(clientCode: string, operation: string)

  datatype Db = Db(profiles: map<string, Profile>, operations: map<LedgerKey, LedgerRow>)

  /**
   A verified envelope as update reads it. owner is the client code once the identity service has
   confirmed it; wellFormed says that the payload has exactly the two expected members.
   */
  datatype Request = Request(
    owner: Option<string>,
    canWrite: bool,
    confirmed: bool,
    wellFormed: bool,
    expected: Option<int>,
    changes: seq<Change>,
    key: string,
    hash: string)

  const FIELDS: set<string> := {"name", "age", "city", "gender", "profession"}

  predicate JavaSpace(c: char) {
    c in {' ', '\U{1680}', '\U{2028}', '\U{2029}', '\U{205F}', '\U{3000}'} || '\U{09}' <= c <= '\U{0D}' ||
    '\U{1C}' <= c <= '\U{1F}' || '\U{2000}' <= c <= '\U{2006}' || '\U{2008}' <= c <= '\U{200A}'
  }

  predicate IsBlank(text: string) {
    forall i | 0 <= i < |text| :: JavaSpace(text[i])
  }

  predicate HasControl(text: string) {
    exists i :: 0 <= i < |text| && (text[i] <= '\U{1F}' || '\U{7F}' <= text[i] <= '\U{9F}')
  }

  function StripLeft(text: string): (r: string)
    ensures |r| <= |text|
    ensures r == text[|text| - |r|..] && IsBlank(text[..|text| - |r|])
    ensures r == "" || !JavaSpace(r[0])
  {
    if text != "" && JavaSpace(text[0]) then
      var r := StripLeft(text[1..]);
      assert text[..|text| - |r|] == [text[0]] + text[1..][..|text| - 1 - |r|];
      r
    else text
  }

  function StripRight(text: string): (r: string)
    ensures |r| <= |text| && r == text[..|r|] && IsBlank(text[|r|..])
    ensures r == "" || !JavaSpace(r[|r| - 1])
  {
    if text != "" && JavaSpace(text[|text| - 1]) then
      var r := StripRight(text[..|text| - 1]);
      assert text[|r|..] == text[..|text| - 1][|r|..] + [text[|text| - 1]];
      r
    else text
  }

  function Strip(text: string): string { StripRight(StripLeft(text)) }

  function MaxLength(field: string): nat { if field == "gender" then 80 else 120 }

  predicate ValidChange(c: Change) {
    && c.field in FIELDS
    && (if c.value.Null? && c.field != "name" then true
        else if c.field == "age" then c.value.Number? && 0 <= c.value.n <= 130
        else c.value.Text? && |c.value.text| <= MaxLength(c.field) && (c.field == "name" ==> !IsBlank(c.value.text)) &&
             !HasControl(c.value.text))
  }

  predicate ValidChanges(changes: seq<Change>) {
    changes != [] && forall i | 0 <= i < |changes| :: ValidChange(changes[i])
  }

  function Stored(v: FieldValue): FieldValue {
    if v.Text? then Text(Strip(v.text)) else v
  }

  function Patched(columns: map<string, FieldValue>, changes: seq<Change>): map<string, FieldValue>
    decreases |changes|
  {
    if changes == [] then columns else Patched(columns[changes[0].field := Stored(changes[0].value)], changes[1..])
  }

  function Updated(p: Profile, changes: seq<Change>): Profile {
    Profile(Patched(p.columns, changes), p.version + 1)
  }

  datatype Answer = Committed(profile: Profile) | Replayed(profile: Profile) | Refused(code: string)

  function Updating(db: Db, r: Request): (Db, Answer) {
    if r.owner.None? then (db, Refused("authentication_required"))
    else if !r.canWrite || !r.confirmed then (db, Refused("confirmation_required"))
    else if !r.wellFormed || r.expected.None? || r.expected.value < 1
            || !ValidChanges(r.changes) then (db, Refused("operation_rejected"))
    else
      var code, key := r.owner.value, LedgerKey(r.owner.value, r.key);
      if code !in db.profiles then (db, Refused("profile_not_found"))
      else if key in db.operations then
        if db.operations[key].payloadHash != r.hash then (db, Refused("idempotency_conflict"))
        else (db, Replayed(db.operations[key].result))
      else if db.profiles[code].version != r.expected.value then (db, Refused("version_conflict"))
      else
        var p := Updated(db.profiles[code], r.changes);
        (Db(db.profiles[code := p], db.operations[key := LedgerRow(r.hash, p)]), Committed(p))
  }

  class ProfileService {
    var profiles: map<string, Profile>
    var operations: map<LedgerKey, LedgerRow>

    ghost function Value(): Db
      reads this
    {
      Db(profiles, operations)
    }

    method Validate(changes: seq<Change>) returns (valid: bool)
      ensures valid == ValidChanges(changes)
    {
      if changes == [] {
        return false;
      }
      for i := 0 to |changes|
        invariant forall k | 0 <= k < i :: ValidChange(changes[k])
      {
        if !ValidChange(changes[i]) {
          return false;
        }
      }
      valid := true;
    }

    method Apply(columns: map<string, FieldValue>, changes: seq<Change>) returns (current: map<string, FieldValue>)
      ensures current == Patched(columns, changes)
    {
      current := columns;
      var i := 0;
      while i < |changes|
        invariant 0 <= i <= |changes|
        invariant Patched(current, changes[i..]) == Patched(columns, changes)
      {
        var v := changes[i].value;
        assert changes[i..][1..] == changes[i + 1..];
        current := current[changes[i].field := if v.Text? then Text(Strip(v.text)) else v];
        i := i + 1;
      }
    }

    method Update(r: Request) returns (answer: Answer)
      modifies this
      ensures (Value(), answer) == Updating(old(Value()), r)
    {
      if r.owner.None? {
        return Refused("authentication_required");
      }
      if !r.canWrite || !r.confirmed {
        return Refused("confirmation_required");
      }
      var valid := Validate(r.changes);
      if !r.wellFormed || r.expected.None? || r.expected.value < 1 || !valid {
        return Refused("operation_rejected");
      }
      var code := r.owner.value;
      if code !in profiles {
        return Refused("profile_not_found");
      }
      var current := profiles[code];
      var key := LedgerKey(code, r.key);
      if key in operations {
        if r.hash != operations[key].payloadHash {
          return Refused("idempotency_conflict");
        }
        return Replayed(operations[key].result);
      }
      if current.version != r.expected.value {
        return Refused("version_conflict");
      }
      var columns := Apply(current.columns, r.changes);
      current := Profile(columns, current.version + 1);
      profiles := profiles[code := current];
      operations := operations[key := LedgerRow(r.hash, current)];
      answer := Committed(current);
    }
  }

  // ----- whole runs -----

  /** The updates that committed, in commit order. */
  function Commits(db: Db, requests: seq<Request>): seq<Request>
    decreases |requests|
  {
    if requests == [] then []
    else
      var (db', answer) := Updating(db, requests[0]);
      (if answer.Committed? then [requests[0]] else []) + Commits(db', requests[1..])
  }

  function After(db: Db, requests: seq<Request>): Db
    decreases |requests|
  {
    if requests == [] then db else After(Updating(db, requests[0]).0, requests[1..])
  }

  /** The commits of one client. */
  function Of(commits: seq<Request>, code: string): seq<Request> {
    if commits == [] then []
    else (if commits[0].owner == Some(code) then [commits[0]] else []) + Of(commits[1..], code)
  }

  /** All changes of the commits applied one after the other. */
  function Folded(p: Profile, commits: seq<Request>): Profile
    decreases |commits|
  {
    if commits == [] then p else Folded(Updated(p, commits[0].changes), commits[1..])
  }

  lemma {:induction false} OfConcat(first: seq<Request>, rest: seq<Request>, code: string)
    ensures Of(first + rest, code) == Of(first, code) + Of(rest, code)
  {
    if first == [] {
      assert first + rest == rest;
    } else {
      OfConcat(first[1..], rest, code);
      assert (first + rest)[1..] == first[1..] + rest;
    }
  }

  lemma UpdatingEffect(db: Db, r: Request)
    ensures var (db', answer) := Updating(db, r);
            && (!answer.Committed? ==> db' == db)
            && (answer.Committed? ==>
                  && r.owner.Some? && r.owner.value in db.profiles
                  && r.expected == Some(db.profiles[r.owner.value].version)
                  && LedgerKey(r.owner.value, r.key) !in db.operations
                  && answer.profile == Updated(db.profiles[r.owner.value], r.changes)
                  && db'.profiles == db.profiles[r.owner.value := answer.profile]
                  && db'.operations == db.operations[LedgerKey(r.owner.value, r.key) :=
                                                     LedgerRow(r.hash, answer.profile)])
  {
  }

  lemma OfOne(r: Request, code: string)
    ensures Of([r], code) == if r.owner == Some(code) then [r] else []
  {
    assert [r][1..] == [];
  }

  /** The commits of a client, one request further on. */
  lemma CommitsUnfold(db: Db, requests: seq<Request>, code: string)
    requires requests != []
    ensures var r := requests[0];
            var (db', answer) := Updating(db, r);
            var rest := Of(Commits(db', requests[1..]), code);
            Of(Commits(db, requests), code) == if answer.Committed? && r.owner == Some(code) then [r] + rest else rest
  {
    var r := requests[0];
    var (db', answer) := Updating(db, r);
    var rest := Commits(db', requests[1..]);
    if answer.Committed? {
      assert Commits(db, requests) == [r] + rest;
      OfConcat([r], rest, code);
      OfOne(r, code);
    } else {
      assert Commits(db, requests) == [] + rest == rest;
    }
  }

  /** The stored profile is the initial one with every committed change applied in commit order. */
  lemma {:induction false} ProfileIsFold(db: Db, requests: seq<Request>, code: string)
    requires code in db.profiles
    ensures code in After(db, requests).profiles
    ensures After(db, requests).profiles[code] == Folded(db.profiles[code], Of(Commits(db, requests), code))
    decreases |requests|
  {
    if requests != [] {
      var r := requests[0];
      var (db', answer) := Updating(db, r);
      UpdatingEffect(db, r);
      ProfileIsFold(db', requests[1..], code);
      CommitsUnfold(db, requests, code);
    }
  }

  lemma {:induction false} FoldedVersion(p: Profile, commits: seq<Request>)
    ensures Folded(p, commits).version == p.version + |commits|
    decreases |commits|
  {
    if commits != [] {
      FoldedVersion(Updated(p, commits[0].changes), commits[1..]);
    }
  }

  /** The i-th commit of a client was made against version initial + i, so versions have no gap and no repeat. */
  lemma {:induction false} CommitsAreConsecutive(db: Db, requests: seq<Request>, code: string, i: nat)
    requires code in db.profiles && i < |Of(Commits(db, requests), code)|
    ensures Of(Commits(db, requests), code)[i].expected == Some(db.profiles[code].version + i)
    ensures Of(Commits(db, requests), code)[i].owner == Some(code)
    decreases |requests|
  {
    var db' := Updating(db, requests[0]).0;
    var mine, rest := Of(Commits(db, requests), code), Of(Commits(db', requests[1..]), code);
    if CommitsFirst(db, requests[0], code) {
      FirstCommits(db, requests, code);
      if i > 0 {
        CommitsAreConsecutive(db', requests[1..], code, i - 1);
        assert mine[i] == rest[i - 1];
      }
    } else {
      FirstIsOther(db, requests, code);
      CommitsAreConsecutive(db', requests[1..], code, i);
    }
  }

  /** The request commits a change of this client's profile. */
  predicate CommitsFirst(db: Db, r: Request, code: string) {
    Updating(db, r).1.Committed? && r.owner == Some(code)
  }

  lemma FirstCommits(db: Db, requests: seq<Request>, code: string)
    requires requests != [] && code in db.profiles && CommitsFirst(db, requests[0], code)
    ensures var db' := Updating(db, requests[0]).0;
            && Of(Commits(db, requests), code) == [requests[0]] + Of(Commits(db', requests[1..]), code)
            && requests[0].expected == Some(db.profiles[code].version)
            && code in db'.profiles && db'.profiles[code].version == db.profiles[code].version + 1
  {
    UpdatingEffect(db, requests[0]);
    CommitsUnfold(db, requests, code);
  }

  lemma FirstIsOther(db: Db, requests: seq<Request>, code: string)
    requires requests != [] && code in db.profiles && !CommitsFirst(db, requests[0], code)
    ensures var db' := Updating(db, requests[0]).0;
            && Of(Commits(db, requests), code) == Of(Commits(db', requests[1..]), code)
            && code in db'.profiles && db'.profiles[code] == db.profiles[code]
  {
    UpdatingEffect(db, requests[0]);
    CommitsUnfold(db, requests, code);
  }

  /** A client's commits up to and including the i-th. */
  function Through(commits: seq<Request>, i: nat): seq<Request>
    requires i < |commits|
  {
    commits[..i + 1]
  }

  /** The ledger holds, under each committed key, the profile as it was just after that commit; no key commits twice. */
  lemma {:induction false} LedgerHoldsHistory(db: Db, requests: seq<Request>, code: string, i: nat)
    requires code in db.profiles && i < |Of(Commits(db, requests), code)|
    ensures var mine := Of(Commits(db, requests), code);
            var key := LedgerKey(code, mine[i].key);
            && key !in db.operations && key in After(db, requests).operations
            && After(db, requests).operations[key] ==
               LedgerRow(mine[i].hash, Folded(db.profiles[code], Through(mine, i)))
            && (forall k | i < k < |mine| :: mine[k].key != mine[i].key)
    decreases |requests|
  {
    var r := requests[0];
    var (db', answer) := Updating(db, r);
    UpdatingEffect(db, r);
    var rest := Of(Commits(db', requests[1..]), code);
    var mine := Of(Commits(db, requests), code);
    CommitsUnfold(db, requests, code);
    if !answer.Committed? || r.owner != Some(code) {
      LedgerHoldsHistory(db', requests[1..], code, i);
    } else if i > 0 {
      LedgerHoldsHistory(db', requests[1..], code, i - 1);
      assert Through(mine, i) == [r] + Through(rest, i - 1);
    } else {
      assert Through(mine, 0) == [r] && [r][1..] == [];
      KeptOperation(db', requests[1..], LedgerKey(code, r.key));
      forall k | 0 < k < |mine|
        ensures mine[k].key != r.key
      {
        LedgerHoldsHistory(db', requests[1..], code, k - 1);
        assert mine[k] == rest[k - 1];
      }
    }
  }

  lemma {:induction false} KeptOperation(db: Db, requests: seq<Request>, key: LedgerKey)
    requires key in db.operations
    ensures key in After(db, requests).operations && After(db, requests).operations[key] == db.operations[key]
    ensures key.clientCode in db.profiles ==> key.clientCode in After(db, requests).profiles
    decreases |requests|
  {
    if requests != [] {
      UpdatingEffect(db, requests[0]);
      KeptOperation(Updating(db, requests[0]).0, requests[1..], key);
    }
  }

  /**
   The n-th result in the ledger has version initial + n and equals the fold of the first n commits.
   Repeating that request after any further updates returns it unchanged and changes nothing.
   */
  lemma ReplaysReturnHistory(db: Db, requests: seq<Request>, code: string, i: nat, more: seq<Request>)
    requires code in db.profiles && i < |Of(Commits(db, requests), code)|
    ensures var mine := Of(Commits(db, requests), code);
            var later := After(After(db, requests), more);
            var result := Folded(db.profiles[code], Through(mine, i));
            && result.version == db.profiles[code].version + i + 1
            && Updating(later, mine[i]) == (later, Replayed(result))
  {
    var mine := Of(Commits(db, requests), code);
    LedgerHoldsHistory(db, requests, code, i);
    ProfileIsFold(db, requests, code);
    KeptOperation(After(db, requests), more, LedgerKey(code, mine[i].key));
    FoldedVersion(db.profiles[code], Through(mine, i));
    CommittedWasValid(db, requests, code, i);
  }

  lemma {:induction false} CommittedWasValid(db: Db, requests: seq<Request>, code: string, i: nat)
    requires i < |Of(Commits(db, requests), code)|
    ensures var r := Of(Commits(db, requests), code)[i];
            r.owner == Some(code) && r.canWrite && r.confirmed && r.wellFormed && r.expected.Some?
            && r.expected.value >= 1 &&
            ValidChanges(r.changes)
    decreases |requests|
  {
    var r := requests[0];
    var (db', answer) := Updating(db, r);
    CommitsUnfold(db, requests, code);
    if !answer.Committed? || r.owner != Some(code) {
      CommittedWasValid(db', requests[1..], code, i);
    } else if i > 0 {
      CommittedWasValid(db', requests[1..], code, i - 1);
    }
  }

  // ----- stored profiles stay valid -----

  predicate ValidColumns(columns: map<string, FieldValue>) {
    forall f | f in columns :: ValidColumn(f, columns[f])
  }

  /** What the columns of the table allow, and that a name is never blank. */
  predicate ValidColumn(field: string, v: FieldValue) {
    if v.Null? then field != "name"
    else if field == "age" then v.Number? && 0 <= v.n <= 130
    else v.Text? && |v.text| <= MaxLength(field) && (field == "name" ==> !IsBlank(v.text))
  }

  lemma StripKeepsContent(text: string)
    ensures |Strip(text)| <= |text|
    ensures IsBlank(Strip(text)) ==> IsBlank(text)
  {
    var left := StripLeft(text);
    var kept := StripRight(left);
    if IsBlank(kept) {
      assert left == kept + left[|kept|..];
      assert IsBlank(left);
      assert text == text[..|text| - |left|] + left;
    }
  }

  lemma {:induction false} PatchedKeepsValid(columns: map<string, FieldValue>, changes: seq<Change>)
    requires ValidColumns(columns) && forall i | 0 <= i < |changes| :: ValidChange(changes[i])
    ensures ValidColumns(Patched(columns, changes))
    decreases |changes|
  {
    if changes != [] {
      StoredKeepsValid(columns, changes[0]);
      PatchedKeepsValid(columns[changes[0].field := Stored(changes[0].value)], changes[1..]);
    }
  }

  lemma StoredKeepsValid(columns: map<string, FieldValue>, c: Change)
    requires ValidColumns(columns) && ValidChange(c)
    ensures ValidColumns(columns[c.field := Stored(c.value)])
  {
    if c.value.Text? {
      StripKeepsContent(c.value.text);
    }
  }

  /** Stored profiles always satisfy the table's column limits. */
  lemma {:induction false} ProfilesStayValid(db: Db, requests: seq<Request>)
    requires forall c | c in db.profiles :: ValidColumns(db.profiles[c].columns)
    ensures forall c | c in After(db, requests).profiles :: ValidColumns(After(db, requests).profiles[c].columns)
    decreases |requests|
  {
    if requests != [] {
      var r := requests[0];
      var db' := Updating(db, r).0;
      UpdatingEffect(db, r);
      if db' != db {
        PatchedKeepsValid(db.profiles[r.owner.value].columns, r.changes);
      }
      ProfilesStayValid(db', requests[1..]);
    }
  }
}
