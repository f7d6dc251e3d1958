/**
 * The declarative credential bootstrap (packages/database/src/bootstrap-connect.ts).
 *
 * Scope lists are compared and stored sorted in the source; here they are multisets. Identifiers are
 * uuid columns: the queries compare them by value, the code compares what they return as text.
 */
module BootstrapConnect {
  import opened Common
  import opened CredentialBatch

  // ----- One record -----------------------------------------------------------

  datatype Credential = Credential(
    id: Uuid, propertyId: Uuid, labelText: string, keyHash: string, scopes: multiset<string>,
    isActive: bool, revokedAt: Option<int>)

  datatype AuditAction = Create | Revoke

  datatype Audit = Audit(
    propertyId: Uuid, entityId: Uuid, action: AuditAction, labelText: string, scopes: multiset<string>)

  datatype Db = Db(properties: set<Uuid>, credentials: seq<Credential>, audit: seq<Audit>)

  datatype BootstrapError = PropertyNotFound | Conflict | Revoked | RevocationNotFound

  function ScopesOf(r: Record): multiset<string> {
    multiset(r.scopes) + multiset{"pms:scoped:v1", "environment:" + r.environment}
  }

  predicate Touches(c: Credential, r: Record, sha: Hash) {
    c.id == Stored(r.id) || c.keyHash == sha(r.key)
  }

  /** Indices of the rows with the record's identifier or key hash, in table order. */
  function Matches(credentials: seq<Credential>, r: Record, sha: Hash): (m: seq<nat>)
    ensures forall k: nat :: k in m <==> k < |credentials| && Touches(credentials[k], r, sha)
    ensures forall i :: 0 <= i < |m| ==> m[i] < |credentials|
    ensures Distinct(m)
  {
    if credentials == [] then []
    else
      var n := |credentials| - 1;
      Matches(credentials[..n], r, sha) + if Touches(credentials[n], r, sha) then [n] else []
  }

  /** The row holds what the record declares, whatever the spelling of the identifiers. */
  predicate Describes(c: Credential, r: Record, sha: Hash) {
    c.id == Stored(r.id) && c.propertyId == Stored(r.propertyId) && c.keyHash == sha(r.key)
    && c.labelText == r.labelText && c.scopes == ScopesOf(r)
  }

  /** The comparison the source makes, identifiers as text. */
  predicate Agrees(c: Credential, r: Record, sha: Hash) {
    c.id == r.id && c.propertyId == r.propertyId && c.keyHash == sha(r.key)
    && c.labelText == r.labelText && c.scopes == ScopesOf(r)
  }

  lemma AgreesExactly(c: Credential, r: Record, sha: Hash)
    ensures Agrees(c, r, sha) <==> Describes(c, r, sha) && Spelled(r)
  {}

  /** `update ... set isActive = false, revokedAt = now where id and propertyId match` */
  function RevokeRows(credentials: seq<Credential>, r: Record, now: int): (s: seq<Credential>)
    ensures |s| == |credentials|
  {
    seq(|credentials|, i requires 0 <= i < |credentials| =>
      if credentials[i].id == Stored(r.id) && credentials[i].propertyId == Stored(r.propertyId)
      then credentials[i].(isActive := false, revokedAt := Some(now)) else credentials[i])
  }

  function AuditOf(r: Record, action: AuditAction): Audit {
    Audit(Stored(r.propertyId), Stored(r.id), action, r.labelText, ScopesOf(r))
  }

  function Process(db: Db, r: Record, sha: Hash, now: int): Result<Db, BootstrapError> {
    if Stored(r.propertyId) !in db.properties then Err(PropertyNotFound)
    else
      var m := Matches(db.credentials, r, sha);
      if m != [] then
        var existing := db.credentials[m[0]];
        if |m| != 1 || !Agrees(existing, r, sha) then Err(Conflict)
        else if (existing.revokedAt.Some? || !existing.isActive) && !r.revoked then Err(Revoked)
        else if !r.revoked || existing.revokedAt.Some? then Ok(db)
        else Ok(db.(credentials := RevokeRows(db.credentials, r, now), audit := db.audit + [AuditOf(r, Revoke)]))
      else if r.revoked then Err(RevocationNotFound)
      else
        var row := Credential(Stored(r.id), Stored(r.propertyId), r.labelText, sha(r.key), ScopesOf(r), true, None);
        Ok(db.(credentials := db.credentials + [row], audit := db.audit + [AuditOf(r, Create)]))
  }

  // ----- A batch is one transaction -------------------------------------------

  function ProcessAll(db: Db, records: seq<Record>, sha: Hash, now: int): Result<Db, BootstrapError> {
    if records == [] then Ok(db)
    else
      var n := |records| - 1;
      var before := ProcessAll(db, records[..n], sha, now);
      if before.Err? then before else Process(before.value, records[n], sha, now)
  }

  /** The tables after a batch: a failing batch leaves them as they were. */
  function After(db: Db, records: seq<Record>, sha: Hash, now: int): Db {
    var r := ProcessAll(db, records, sha, now);
    if r.Ok? then r.value else db
  }

  class Database {
    var properties: set<Uuid>
    var credentials: seq<Credential>
    var audit: seq<Audit>

    ghost function Snapshot(): Db
      reads this
    {
      Db(properties, credentials, audit)
    }

    constructor (db: Db)
      ensures Snapshot() == db
    {
      properties, credentials, audit := db.properties, db.credentials, db.audit;
    }

    method BootstrapConnect(records: seq<Record>, sha: Hash, now: int) returns (error: Option<BootstrapError>)
      modifies this
      ensures Snapshot() == After(old(Snapshot()), records, sha, now)
      ensures error.None? <==> ProcessAll(old(Snapshot()), records, sha, now).Ok?
    {
      hide Process;
      var tx := Db(properties, credentials, audit);
      ghost var start := tx;
      for n := 0 to |records|
        invariant ProcessAll(start, records[..n], sha, now) == Ok(tx)
      {
        assert records[..n + 1][..n] == records[..n];
        var step := Process(tx, records[n], sha, now);
        if step.Err? {
          StaysFailed(start, records, sha, now, n + 1);
          return Some(step.error);
        }
        tx := step.value;
      }
      assert records[..|records|] == records;
      properties, credentials, audit := tx.properties, tx.credentials, tx.audit;
      error := None;
    }
  }

  lemma {:induction false} StaysFailed(db: Db, records: seq<Record>, sha: Hash, now: int, n: nat)
    requires n <= |records| && ProcessAll(db, records[..n], sha, now).Err?
    ensures ProcessAll(db, records, sha, now).Err?
    decreases |records| - n
  {
    hide Process;
    if n < |records| {
      assert records[..n + 1][..n] == records[..n];
      StaysFailed(db, records, sha, now, n + 1);
    } else {
      assert records[..n] == records;
    }
  }

  // ----- Invariants of every history ------------------------------------------

  /** Identifiers and key hashes are unique. */
  ghost predicate Unique(db: Db) {
    forall i, j :: 0 <= i < j < |db.credentials| ==>
      db.credentials[i].id != db.credentials[j].id && db.credentials[i].keyHash != db.credentials[j].keyHash
  }

  /** What never changes about a credential, and that a revocation or deactivation is final. */
  ghost predicate SameBinding(a: Credential, b: Credential) {
    && a.id == b.id && a.propertyId == b.propertyId && a.keyHash == b.keyHash
    && a.labelText == b.labelText && a.scopes == b.scopes
    && (a.revokedAt.Some? ==> b == a) && (!a.isActive ==> !b.isActive)
  }

  ghost predicate Keeps(a: Db, b: Db) {
    && a.properties == b.properties && |a.credentials| <= |b.credentials| && a.audit <= b.audit
    && forall i :: 0 <= i < |a.credentials| ==> SameBinding(a.credentials[i], b.credentials[i])
  }

  /** How often the audit log records this action on this credential. */
  function AuditCount(audit: seq<Audit>, id: string, action: AuditAction): nat {
    if audit == [] then 0
    else
      var e := audit[|audit| - 1];
      AuditCount(audit[..|audit| - 1], id, action) + if e.entityId == id && e.action == action then 1 else 0
  }

  ghost predicate Present(db: Db, id: string) {
    exists i :: 0 <= i < |db.credentials| && db.credentials[i].id == id
  }

  ghost predicate IsRevoked(db: Db, id: string) {
    exists i :: 0 <= i < |db.credentials| && db.credentials[i].id == id && db.credentials[i].revokedAt.Some?
  }

  function Bit(b: bool): int {
    if b then 1 else 0
  }

  /** For every credential: one creation entry per insertion and one revocation entry per revocation between a and b. */
  ghost predicate Audited(a: Db, b: Db) {
    forall id ::
      && AuditCount(b.audit, id, Create) - AuditCount(a.audit, id, Create)
         == Bit(Present(b, id)) - Bit(Present(a, id))
      && AuditCount(b.audit, id, Revoke) - AuditCount(a.audit, id, Revoke)
         == Bit(IsRevoked(b, id)) - Bit(IsRevoked(a, id))
  }

  lemma AuditSnoc(audit: seq<Audit>, e: Audit, id: string, action: AuditAction)
    ensures AuditCount(audit + [e], id, action)
      == AuditCount(audit, id, action) + Bit(e.entityId == id && e.action == action)
  {
    assert (audit + [e])[..|audit|] == audit;
  }

  lemma RevokesOneRow(db: Db, r: Record, sha: Hash, now: int, k: nat)
    requires Unique(db) && k < |db.credentials| && Describes(db.credentials[k], r, sha)
    ensures RevokeRows(db.credentials, r, now)
      == db.credentials[k := db.credentials[k].(isActive := false, revokedAt := Some(now))]
  {
    forall i | 0 <= i < |db.credentials| && i != k ensures db.credentials[i].id != Stored(r.id) {
      assert db.credentials[i].id != db.credentials[k].id;
    }
  }

  /**
   * An accepted record writes nothing, inserts one row, or revokes one row; the last two with one
   * audit entry. A record that is not spelled as stored can only insert.
   */
  lemma ProcessCases(db: Db, r: Record, sha: Hash, now: int)
    requires Unique(db) && Process(db, r, sha, now).Ok?
    ensures var after := Process(db, r, sha, now).value;
      || (Spelled(r) && after == db && exists k: nat :: InPlace(db, r, sha, k))
      || (!r.revoked && Inserted(db, after, r, sha))
      || (Spelled(r) && r.revoked && exists k: nat :: Revoking(db, after, r, sha, now, k))
  {
    hide Agrees, Describes, RevokeRows, ScopesOf, Stored, Spelled;
    var m := Matches(db.credentials, r, sha);
    if m != [] {
      var k := m[0];
      assert k in m;
      AgreesExactly(db.credentials[k], r, sha);
      var after := Process(db, r, sha, now).value;
      if r.revoked && db.credentials[k].revokedAt.None? {
        RevokesOneRow(db, r, sha, now, k);
        assert Revoking(db, after, r, sha, now, k);
      } else {
        assert InPlace(db, r, sha, k);
      }
    } else {
      forall i | 0 <= i < |db.credentials| ensures !Touches(db.credentials[i], r, sha) {
        assert i !in m;
      }
    }
  }

  /** Row k is the only one with the record's identifier or key. */
  ghost predicate OnlyTouched(db: Db, r: Record, sha: Hash, k: nat) {
    && k < |db.credentials| && Touches(db.credentials[k], r, sha)
    && forall i :: 0 <= i < |db.credentials| && i != k ==> !Touches(db.credentials[i], r, sha)
  }

  /**
   * What one record does, in every case. Without its property it is refused. A new identifier and key are
   * inserted, unless the record revokes. One matching row with the same text everywhere is revoked, left
   * or refused as revoked; any other match is a conflict.
   */
  lemma ProcessExactly(db: Db, r: Record, sha: Hash, now: int)
    requires Unique(db)
    ensures
      var out, known := Process(db, r, sha, now), Stored(r.propertyId) in db.properties;
      var untouched := forall i :: 0 <= i < |db.credentials| ==> !Touches(db.credentials[i], r, sha);
      && (!known ==> out == Err(PropertyNotFound))
      && (known && untouched && r.revoked ==> out == Err(RevocationNotFound))
      && (known && untouched && !r.revoked ==> out.Ok? && Inserted(db, out.value, r, sha))
      && (known && !untouched && (forall k: nat :: k < |db.credentials| ==> !OnlyAgreeing(db, r, sha, k)) ==>
          out == Err(Conflict))
      && forall k: nat :: known && k < |db.credentials| && OnlyAgreeing(db, r, sha, k) ==>
           Settled(db, r, sha, now, k, out)
  {
    hide OnlyAgreeing, Settled, Touches, Inserted, Process, Stored, ScopesOf;
    MatchedExactly(db, r, sha);
    if Stored(r.propertyId) !in db.properties {
      NoProperty(db, r, sha, now);
    } else if k: nat :| k < |db.credentials| && OnlyAgreeing(db, r, sha, k) {
      AgreeingExactly(db, r, sha, k);
      forall j: nat | j < |db.credentials| && OnlyAgreeing(db, r, sha, j)
        ensures Settled(db, r, sha, now, j, Process(db, r, sha, now))
      {
        AgreeingExactly(db, r, sha, j);
        ProcessOne(db, r, sha, now, j);
      }
    } else {
      var m := Matches(db.credentials, r, sha);
      if |m| == 1 {
        assert m == [m[0]];
        AgreeingExactly(db, r, sha, m[0]);
      }
      ProcessOther(db, r, sha, now);
    }
  }

  /** The one row the record touches agrees with it in every text. */
  ghost predicate OnlyAgreeing(db: Db, r: Record, sha: Hash, k: nat) {
    OnlyTouched(db, r, sha, k) && Agrees(db.credentials[k], r, sha)
  }

  /** The outcome of a record that agrees with row k. */
  ghost predicate Settled(db: Db, r: Record, sha: Hash, now: int, k: nat, out: Result<Db, BootstrapError>)
    requires k < |db.credentials|
  {
    var c := db.credentials[k];
    if !r.revoked then out == if c.isActive && c.revokedAt.None? then Ok(db) else Err(Revoked)
    else if c.revokedAt.Some? then out == Ok(db)
    else out.Ok? && Revoking(db, out.value, r, sha, now, k)
  }

  lemma AgreeingExactly(db: Db, r: Record, sha: Hash, k: nat)
    requires k < |db.credentials|
    ensures OnlyAgreeing(db, r, sha, k) <==>
      Matches(db.credentials, r, sha) == [k] && Agrees(db.credentials[k], r, sha)
  {
    hide Agrees, Touches;
    MatchedExactly(db, r, sha);
  }

  lemma MatchedExactly(db: Db, r: Record, sha: Hash)
    ensures var m := Matches(db.credentials, r, sha);
      && (m == [] <==> forall i :: 0 <= i < |db.credentials| ==> !Touches(db.credentials[i], r, sha))
      && forall k: nat :: OnlyTouched(db, r, sha, k) <==> m == [k]
  {
    hide Touches;
    var m := Matches(db.credentials, r, sha);
    forall i: nat | i < |db.credentials| ensures Touches(db.credentials[i], r, sha) <==> i in m {}
    assert m != [] ==> m[0] in m;
    forall k: nat ensures OnlyTouched(db, r, sha, k) <==> m == [k] {
      if OnlyTouched(db, r, sha, k) {
        OnlyTouchedIsMatch(db, r, sha, k);
      }
      if m == [k] {
        assert m[0] == k && m[0] in m;
        assert forall i: nat :: i in m ==> i == k;
      }
    }
  }

  lemma NoProperty(db: Db, r: Record, sha: Hash, now: int)
    requires Stored(r.propertyId) !in db.properties
    ensures Process(db, r, sha, now) == Err(PropertyNotFound)
  {}

  lemma ProcessOne(db: Db, r: Record, sha: Hash, now: int, k: nat)
    requires Unique(db) && k < |db.credentials| && Matches(db.credentials, r, sha) == [k]
    requires Agrees(db.credentials[k], r, sha) && Stored(r.propertyId) in db.properties
    ensures Settled(db, r, sha, now, k, Process(db, r, sha, now))
  {
    AgreesExactly(db.credentials[k], r, sha);
    hide Agrees, Stored, Touches, Matches, ScopesOf, RevokeRows;
    RevokesOneRow(db, r, sha, now, k);
  }

  lemma ProcessOther(db: Db, r: Record, sha: Hash, now: int)
    requires Stored(r.propertyId) in db.properties
    requires var m := Matches(db.credentials, r, sha); |m| == 1 ==> !Agrees(db.credentials[m[0]], r, sha)
    ensures
      var m, out := Matches(db.credentials, r, sha), Process(db, r, sha, now);
      if m != [] then out == Err(Conflict)
      else if r.revoked then out == Err(RevocationNotFound)
      else out.Ok? && Inserted(db, out.value, r, sha)
  {
    MatchedExactly(db, r, sha);
    hide Agrees, Stored, Touches, Matches, ScopesOf, RevokeRows;
  }

  lemma OnlyTouchedIsMatch(db: Db, r: Record, sha: Hash, k: nat)
    requires OnlyTouched(db, r, sha, k)
    ensures Matches(db.credentials, r, sha) == [k]
  {
    hide Touches;
    var m := Matches(db.credentials, r, sha);
    assert k in m;
    assert |m| <= 1 || m[0] != m[1];
    forall i | 0 <= i < |m| ensures m[i] == k {
      assert m[i] in m;
    }
  }

  /** The row and the audit entry of an insertion, written out. */
  lemma InsertedExactly(db: Db, after: Db, r: Record, sha: Hash)
    requires Inserted(db, after, r, sha)
    ensures
      var scopes := multiset(r.scopes) + multiset{"pms:scoped:v1", "environment:" + r.environment};
      var id, property := Stored(r.id), Stored(r.propertyId);
      && after.credentials == db.credentials + [Credential(id, property, r.labelText, sha(r.key), scopes, true, None)]
      && after.audit == db.audit + [Audit(property, id, Create, r.labelText, scopes)]
      && after.properties == db.properties
  {}

  /** Row k already is what the record asks for. */
  ghost predicate InPlace(db: Db, r: Record, sha: Hash, k: nat) {
    && k < |db.credentials| && Describes(db.credentials[k], r, sha)
    && (if r.revoked then db.credentials[k].revokedAt.Some?
        else db.credentials[k].isActive && db.credentials[k].revokedAt.None?)
  }

  ghost predicate Inserted(db: Db, after: Db, r: Record, sha: Hash) {
    var row := Credential(Stored(r.id), Stored(r.propertyId), r.labelText, sha(r.key), ScopesOf(r), true, None);
    && (forall i :: 0 <= i < |db.credentials| ==> !Touches(db.credentials[i], r, sha))
    && after == db.(credentials := db.credentials + [row], audit := db.audit + [AuditOf(r, Create)])
  }

  ghost predicate Revoking(db: Db, after: Db, r: Record, sha: Hash, now: int, k: nat) {
    && k < |db.credentials| && Describes(db.credentials[k], r, sha) && db.credentials[k].revokedAt.None?
    && after == db.(credentials := db.credentials[k := db.credentials[k].(isActive := false, revokedAt := Some(now))],
                    audit := db.audit + [AuditOf(r, Revoke)])
  }

  lemma KeepsReflexive(db: Db)
    ensures Keeps(db, db) && Audited(db, db)
  {}

  lemma KeepsTransitive(a: Db, b: Db, c: Db)
    requires Keeps(a, b) && Keeps(b, c) && Audited(a, b) && Audited(b, c)
    ensures Keeps(a, c) && Audited(a, c)
  {
    forall i | 0 <= i < |a.credentials| ensures SameBinding(a.credentials[i], c.credentials[i]) {
      assert SameBinding(a.credentials[i], b.credentials[i]) && SameBinding(b.credentials[i], c.credentials[i]);
    }
  }

  lemma InsertIsSafe(db: Db, after: Db, r: Record, sha: Hash)
    requires Unique(db) && Inserted(db, after, r, sha)
    ensures Unique(after) && Keeps(db, after) && Audited(db, after)
  {
    hide Stored, ScopesOf;
    var n := |db.credentials|;
    assert !Present(db, Stored(r.id)) && !IsRevoked(db, Stored(r.id));
    forall id
      ensures Present(after, id) <==> Present(db, id) || id == Stored(r.id)
      ensures IsRevoked(after, id) <==> IsRevoked(db, id)
    {
      assert after.credentials[n].id == Stored(r.id);
      if Present(db, id) {
        var i :| 0 <= i < n && db.credentials[i].id == id;
        assert after.credentials[i].id == id;
      }
      if IsRevoked(db, id) {
        var i :| 0 <= i < n && db.credentials[i].id == id && db.credentials[i].revokedAt.Some?;
        assert after.credentials[i].id == id && after.credentials[i].revokedAt.Some?;
      }
    }
    forall id, action
      ensures AuditCount(after.audit, id, action)
        == AuditCount(db.audit, id, action) + Bit(id == Stored(r.id) && action == Create)
    {
      AuditSnoc(db.audit, AuditOf(r, Create), id, action);
    }
  }

  lemma RevokeIsSafe(db: Db, after: Db, r: Record, sha: Hash, now: int, k: nat)
    requires Unique(db) && Revoking(db, after, r, sha, now, k)
    ensures Unique(after) && Keeps(db, after) && Audited(db, after)
  {
    forall id
      ensures Present(after, id) <==> Present(db, id)
      ensures IsRevoked(after, id) <==> IsRevoked(db, id) || id == Stored(r.id)
    {
      RevokedFlags(db, after, r, sha, now, k, id);
    }
    hide Present, IsRevoked;
    forall id, action
      ensures AuditCount(after.audit, id, action)
        == AuditCount(db.audit, id, action) + Bit(id == Stored(r.id) && action == Revoke)
    {
      AuditSnoc(db.audit, AuditOf(r, Revoke), id, action);
    }
    RevokedFlags(db, after, r, sha, now, k, Stored(r.id));
  }

  lemma RevokedFlags(db: Db, after: Db, r: Record, sha: Hash, now: int, k: nat, id: string)
    requires Unique(db) && Revoking(db, after, r, sha, now, k)
    ensures Present(after, id) <==> Present(db, id)
    ensures IsRevoked(after, id) <==> IsRevoked(db, id) || id == Stored(r.id)
    ensures !IsRevoked(db, Stored(r.id))
  {
    var n := |db.credentials|;
    assert forall i :: 0 <= i < n ==> after.credentials[i].id == db.credentials[i].id;
    assert forall i :: 0 <= i < n && i != k ==>
      after.credentials[i] == db.credentials[i] && db.credentials[i].id != Stored(r.id);
    assert after.credentials[k].id == Stored(r.id) && after.credentials[k].revokedAt.Some?;
    if IsRevoked(db, id) {
      var i :| 0 <= i < n && db.credentials[i].id == id && db.credentials[i].revokedAt.Some?;
      assert after.credentials[i] == db.credentials[i];
    }
  }

  lemma ProcessIsSafe(db: Db, r: Record, sha: Hash, now: int)
    requires Unique(db) && Process(db, r, sha, now).Ok?
    ensures var after := Process(db, r, sha, now).value; Unique(after) && Keeps(db, after) && Audited(db, after)
  {
    hide Process, Unique, Keeps, Audited, Inserted, Revoking, InPlace;
    ProcessCases(db, r, sha, now);
    var after := Process(db, r, sha, now).value;
    if after == db {
      KeepsReflexive(db);
    } else if !r.revoked {
      InsertIsSafe(db, after, r, sha);
    } else {
      var k: nat :| Revoking(db, after, r, sha, now, k);
      RevokeIsSafe(db, after, r, sha, now, k);
    }
  }

  lemma {:induction false} ProcessAllIsSafe(db: Db, records: seq<Record>, sha: Hash, now: int)
    requires Unique(db) && ProcessAll(db, records, sha, now).Ok?
    ensures var after := ProcessAll(db, records, sha, now).value;
      Unique(after) && Keeps(db, after) && Audited(db, after)
  {
    hide Process, Unique, Keeps, Audited;
    if records == [] {
      KeepsReflexive(db);
    } else {
      var n := |records| - 1;
      ProcessAllIsSafe(db, records[..n], sha, now);
      var before := ProcessAll(db, records[..n], sha, now).value;
      ProcessIsSafe(before, records[n], sha, now);
      KeepsTransitive(db, before, ProcessAll(db, records, sha, now).value);
    }
  }

  datatype Batch = Batch(records: seq<Record>, now: int)

  ghost predicate History(states: seq<Db>, batches: seq<Batch>, sha: Hash) {
    && |states| == |batches| + 1
    && forall i :: 0 <= i < |batches| ==> states[i + 1] == After(states[i], batches[i].records, sha, batches[i].now)
  }

  /**
   * Over any history of batches: identifiers and key hashes stay unique, a credential's property,
   * hash, label and scopes never change, a revoked or inactive credential never becomes active,
   * and between any two points every insertion and every revocation has exactly one audit entry.
   */
  lemma {:induction false} HistoryIsSafe(states: seq<Db>, batches: seq<Batch>, sha: Hash, i: nat, j: nat)
    requires History(states, batches, sha) && Unique(states[0]) && i <= j < |states|
    ensures Unique(states[i]) && Unique(states[j]) && Keeps(states[i], states[j]) && Audited(states[i], states[j])
    decreases j, i
  {
    hide Unique, Keeps, Audited, ProcessAll;
    if j == 0 {
      KeepsReflexive(states[0]);
    } else {
      HistoryIsSafe(states, batches, sha, if i < j then i else 0, j - 1);
      var b := batches[j - 1];
      if ProcessAll(states[j - 1], b.records, sha, b.now).Ok? {
        ProcessAllIsSafe(states[j - 1], b.records, sha, b.now);
      } else {
        KeepsReflexive(states[j - 1]);
      }
      if i < j {
        KeepsTransitive(states[i], states[j - 1], states[j]);
      } else {
        KeepsReflexive(states[j]);
      }
    }
  }

  // ----- Repeating a batch ----------------------------------------------------

  /** The record's credential exists as described, revoked if the record asks for it, and its property exists. */
  ghost predicate Bound(db: Db, r: Record, sha: Hash) {
    Stored(r.propertyId) in db.properties && exists k: nat :: BoundAt(db, r, sha, k)
  }

  ghost predicate BoundAt(db: Db, r: Record, sha: Hash, k: nat) {
    k < |db.credentials| && Describes(db.credentials[k], r, sha) && (r.revoked ==> db.credentials[k].revokedAt.Some?)
  }

  /** The record asks for what already is. */
  ghost predicate Satisfied(db: Db, r: Record, sha: Hash) {
    exists k: nat :: InPlace(db, r, sha, k)
  }

  lemma ProcessedIsBound(db: Db, r: Record, sha: Hash, now: int)
    requires Unique(db) && Process(db, r, sha, now).Ok?
    ensures Bound(Process(db, r, sha, now).value, r, sha) && Satisfied(Process(db, r, sha, now).value, r, sha)
  {
    ProcessCases(db, r, sha, now);
    var after := Process(db, r, sha, now).value;
    if after == db {
      var k: nat :| InPlace(db, r, sha, k);
      assert BoundAt(after, r, sha, k);
    } else if !r.revoked {
      assert InPlace(after, r, sha, |db.credentials|) && BoundAt(after, r, sha, |db.credentials|);
    } else {
      var k: nat :| Revoking(db, after, r, sha, now, k);
      assert InPlace(after, r, sha, k) && BoundAt(after, r, sha, k);
    }
  }

  lemma BoundStays(a: Db, b: Db, r: Record, sha: Hash)
    requires Keeps(a, b) && Bound(a, r, sha)
    ensures Bound(b, r, sha)
  {
    var k: nat :| BoundAt(a, r, sha, k);
    assert SameBinding(a.credentials[k], b.credentials[k]);
    assert BoundAt(b, r, sha, k);
  }

  lemma {:induction false} BatchIsBound(db: Db, records: seq<Record>, sha: Hash, now: int, i: nat)
    requires Unique(db) && ProcessAll(db, records, sha, now).Ok? && i < |records|
    ensures Bound(ProcessAll(db, records, sha, now).value, records[i], sha)
  {
    hide Process, Unique, Keeps, Audited, Bound, Satisfied;
    var n := |records| - 1;
    ProcessAllIsSafe(db, records[..n], sha, now);
    var before := ProcessAll(db, records[..n], sha, now).value;
    ProcessIsSafe(before, records[n], sha, now);
    if i == n {
      ProcessedIsBound(before, records[n], sha, now);
    } else {
      BatchIsBound(db, records[..n], sha, now, i);
      BoundStays(before, ProcessAll(db, records, sha, now).value, records[i], sha);
    }
  }

  /** A bound record never writes: it is accepted as satisfied or refused as misspelled or revoked. */
  lemma BoundWritesNothing(db: Db, r: Record, sha: Hash, now: int)
    requires Unique(db) && Bound(db, r, sha)
    ensures Process(db, r, sha, now) ==
      if !Spelled(r) then Err(Conflict) else if Satisfied(db, r, sha) then Ok(db) else Err(Revoked)
  {
    var k: nat :| BoundAt(db, r, sha, k);
    OnlyMatch(db, r, sha, k);
    AgreesExactly(db.credentials[k], r, sha);
    assert InPlace(db, r, sha, k) <==> Satisfied(db, r, sha) by {
      forall j: nat | InPlace(db, r, sha, j) ensures j == k {
        assert db.credentials[j].id == db.credentials[k].id;
      }
    }
    hide Agrees, Describes, Stored, Spelled, Satisfied, Matches;
  }

  lemma OnlyMatch(db: Db, r: Record, sha: Hash, k: nat)
    requires Unique(db) && k < |db.credentials| && Describes(db.credentials[k], r, sha)
    ensures Matches(db.credentials, r, sha) == [k]
  {
    var m := Matches(db.credentials, r, sha);
    assert k in m;
    assert |m| <= 1 || m[0] != m[1];
    forall i | 0 <= i < |m| ensures m[i] == k {
      assert m[i] in m;
      assert Touches(db.credentials[m[i]], r, sha);
    }
  }

  /** Only a record that revokes the same credential can undo what a record asks for. */
  lemma SatisfiedStays(db: Db, r: Record, other: Record, sha: Hash, now: int)
    requires Unique(db) && Satisfied(db, r, sha) && Process(db, other, sha, now).Ok?
    requires Stored(other.id) != Stored(r.id) || !other.revoked || r.revoked
    ensures Satisfied(Process(db, other, sha, now).value, r, sha)
  {
    hide Stored, Spelled, ScopesOf, Process;
    ProcessCases(db, other, sha, now);
    var after := Process(db, other, sha, now).value;
    var k: nat :| InPlace(db, r, sha, k);
    assert InPlace(after, r, sha, k);
  }

  /** The record asks for an active credential that some record of the batch revokes. */
  predicate Undone(records: seq<Record>, r: Record) {
    !r.revoked && exists j :: 0 <= j < |records| && records[j].revoked && Stored(records[j].id) == Stored(r.id)
  }

  /** The batch asks for an active credential and revokes it. */
  predicate SelfRevoking(records: seq<Record>) {
    exists i :: 0 <= i < |records| && Undone(records, records[i])
  }

  lemma {:induction false} SatisfiedUnlessUndone(db: Db, records: seq<Record>, sha: Hash, now: int, i: nat)
    requires Unique(db) && ProcessAll(db, records, sha, now).Ok? && i < |records| && !Undone(records, records[i])
    ensures Satisfied(ProcessAll(db, records, sha, now).value, records[i], sha)
  {
    hide Process, Unique, Satisfied, Keeps, Audited, Bound, Stored;
    var n := |records| - 1;
    ProcessAllIsSafe(db, records[..n], sha, now);
    var before := ProcessAll(db, records[..n], sha, now).value;
    if i == n {
      ProcessedIsBound(before, records[n], sha, now);
    } else {
      assert forall j :: 0 <= j < n ==> records[..n][j] == records[j];
      SatisfiedUnlessUndone(db, records[..n], sha, now, i);
      SatisfiedStays(before, records[i], records[n], sha, now);
    }
  }

  /** A bound record that revokes a credential leaves no record satisfied that wants it active. */
  lemma RevokedIsUnsatisfied(db: Db, r: Record, other: Record, sha: Hash)
    requires Unique(db) && Bound(db, other, sha) && other.revoked && !r.revoked && Stored(r.id) == Stored(other.id)
    ensures !Satisfied(db, r, sha)
  {
    hide Stored, ScopesOf;
    var k: nat :| BoundAt(db, other, sha, k);
    forall j: nat ensures !InPlace(db, r, sha, j) {
      if j < |db.credentials| && j != k {
        assert db.credentials[j].id != db.credentials[k].id;
      }
    }
  }

  lemma SatisfiedExactly(db: Db, records: seq<Record>, sha: Hash, now: int, i: nat)
    requires Unique(db) && ProcessAll(db, records, sha, now).Ok? && i < |records|
    ensures Satisfied(ProcessAll(db, records, sha, now).value, records[i], sha) <==> !Undone(records, records[i])
  {
    hide Process, ProcessAll, Unique, Bound, Satisfied, Stored;
    if Undone(records, records[i]) {
      var j :| 0 <= j < |records| && records[j].revoked && Stored(records[j].id) == Stored(records[i].id);
      ProcessAllIsSafe(db, records, sha, now);
      BatchIsBound(db, records, sha, now, j);
      RevokedIsUnsatisfied(ProcessAll(db, records, sha, now).value, records[i], records[j], sha);
    } else {
      SatisfiedUnlessUndone(db, records, sha, now, i);
    }
  }

  /** Why the first of the leading n records that a repetition refuses is refused, read off the batch alone. */
  function FirstRefusal(records: seq<Record>, n: nat): Option<BootstrapError>
    requires n <= |records|
  {
    if n == 0 then None
    else
      var before := FirstRefusal(records, n - 1);
      if before.Some? then before
      else if !Spelled(records[n - 1]) then Some(Conflict)
      else if Undone(records, records[n - 1]) then Some(Revoked)
      else None
  }

  lemma {:induction false} NoRefusalExactly(records: seq<Record>, n: nat)
    requires n <= |records|
    ensures FirstRefusal(records, n).None? <==>
      forall i :: 0 <= i < n ==> Spelled(records[i]) && !Undone(records, records[i])
  {
    hide Spelled, Undone;
    if n > 0 {
      NoRefusalExactly(records, n - 1);
    }
  }

  function Answer(db: Db, refusal: Option<BootstrapError>): Result<Db, BootstrapError> {
    if refusal.Some? then Err(refusal.value) else Ok(db)
  }

  lemma {:induction false} BoundBatch(db: Db, records: seq<Record>, n: nat, sha: Hash, now: int)
    requires Unique(db) && n <= |records| && forall i :: 0 <= i < |records| ==> Bound(db, records[i], sha)
    requires forall i :: 0 <= i < |records| ==> (Satisfied(db, records[i], sha) <==> !Undone(records, records[i]))
    ensures ProcessAll(db, records[..n], sha, now) == Answer(db, FirstRefusal(records, n))
  {
    hide Process, Unique, Bound, Satisfied, Spelled, Undone;
    if n > 0 {
      BoundBatch(db, records, n - 1, sha, now);
      assert records[..n][..n - 1] == records[..n - 1];
      BoundWritesNothing(db, records[n - 1], sha, now);
    }
  }

  /**
   * Repeating a batch that has succeeded writes nothing, whenever it is repeated. It is accepted if and
   * only if every identifier is spelled as it is stored and the batch does not ask for an active
   * credential that it also revokes; otherwise the first record at fault decides the error.
   */
  lemma RepeatWritesNothing(db: Db, records: seq<Record>, sha: Hash, now: int, later: int)
    requires Unique(db) && ProcessAll(db, records, sha, now).Ok?
    ensures var after := ProcessAll(db, records, sha, now).value;
      && After(after, records, sha, later) == after
      && ProcessAll(after, records, sha, later) == Answer(after, FirstRefusal(records, |records|))
      && (ProcessAll(after, records, sha, later).Ok? <==>
          !SelfRevoking(records) && forall i :: 0 <= i < |records| ==> Spelled(records[i]))
  {
    hide Process, ProcessAll, Unique, Bound, Satisfied, Keeps, Audited, Spelled, Undone;
    ProcessAllIsSafe(db, records, sha, now);
    var after := ProcessAll(db, records, sha, now).value;
    forall i | 0 <= i < |records|
      ensures Bound(after, records[i], sha)
      ensures Satisfied(after, records[i], sha) <==> !Undone(records, records[i])
    {
      BatchIsBound(db, records, sha, now, i);
      SatisfiedExactly(db, records, sha, now, i);
    }
    BoundBatch(after, records, |records|, sha, later);
    assert records[..|records|] == records;
    NoRefusalExactly(records, |records|);
  }

  /** Two bound records of one credential carry the same key. */
  lemma BoundKeysAgree(db: Db, r: Record, other: Record, sha: Hash)
    requires Unique(db) && Bound(db, r, sha) && Bound(db, other, sha) && Stored(r.id) == Stored(other.id)
    ensures sha(r.key) == sha(other.key)
  {
    hide Stored, ScopesOf;
    var k: nat, j: nat :| BoundAt(db, r, sha, k) && BoundAt(db, other, sha, j);
    assert db.credentials[k].id == db.credentials[j].id;
  }

  /** A batch without duplicates, as the parser guarantees, never revokes what it asks for. */
  lemma DistinctIsNotSelfRevoking(db: Db, records: seq<Record>, sha: Hash, now: int)
    requires Unique(db) && DistinctBatch(records, sha) && ProcessAll(db, records, sha, now).Ok?
    ensures !SelfRevoking(records)
  {
    hide Process, ProcessAll, Unique, Bound, Stored;
    ProcessAllIsSafe(db, records, sha, now);
    var after := ProcessAll(db, records, sha, now).value;
    forall i, j | 0 <= i < |records| && 0 <= j < |records| && Stored(records[j].id) == Stored(records[i].id)
      ensures records[i].revoked == records[j].revoked
    {
      BatchIsBound(db, records, sha, now, i);
      BatchIsBound(db, records, sha, now, j);
      BoundKeysAgree(after, records[i], records[j], sha);
    }
  }

  /**
   * A batch without duplicates, as the parser guarantees for string identifiers (AcceptedIsDistinct),
   * leaves every record satisfied. Repeated, it is accepted when all identifiers are in lower case and
   * refused as a conflict otherwise.
   */
  lemma ParsedBatchRepeats(db: Db, records: seq<Record>, sha: Hash, now: int, later: int)
    requires Unique(db) && DistinctBatch(records, sha) && ProcessAll(db, records, sha, now).Ok?
    ensures var after := ProcessAll(db, records, sha, now).value;
      && (forall i :: 0 <= i < |records| ==> Satisfied(after, records[i], sha))
      && ProcessAll(after, records, sha, later)
        == if forall i :: 0 <= i < |records| ==> Spelled(records[i]) then Ok(after) else Err(Conflict)
  {
    hide Process, ProcessAll, Unique, Satisfied, Undone, Spelled, DistinctBatch;
    DistinctIsNotSelfRevoking(db, records, sha, now);
    forall i | 0 <= i < |records| ensures Satisfied(ProcessAll(db, records, sha, now).value, records[i], sha) {
      SatisfiedExactly(db, records, sha, now, i);
    }
    RepeatWritesNothing(db, records, sha, now, later);
    OnlyConflicts(records, |records|);
  }

  lemma {:induction false} OnlyConflicts(records: seq<Record>, n: nat)
    requires n <= |records| && !SelfRevoking(records)
    ensures FirstRefusal(records, n) in {None, Some(Conflict)}
  {
    hide Spelled, Undone;
    if n > 0 {
      OnlyConflicts(records, n - 1);
    }
  }

  // ----- Both refusals are real -----------------------------------------------

  /** On empty tables a credential is created and then revoked by one batch. */
  lemma CreatedAndRevoked(active: Record, sha: Hash, now: int)
    requires !active.revoked && Spelled(active)
    ensures
      var first := ProcessAll(Db({active.propertyId}, [], []), [active, active.(revoked := true)], sha, now);
      first.Ok? && |first.value.credentials| == 1 && first.value.credentials[0].revokedAt == Some(now)
  {
    var db := Db({active.propertyId}, [], []);
    var revoking := active.(revoked := true);
    var created := Process(db, active, sha, now).value;
    OnlyMatch(created, revoking, sha, 0);
    var revoked := Process(created, revoking, sha, now);
    assert revoked.Ok? && |revoked.value.credentials| == 1 && revoked.value.credentials[0].revokedAt == Some(now);
    hide Process, Matches, Touches, Agrees, RevokeRows;
    var records := [active, revoking];
    assert records[..1] == [active] && records[..1][..0] == [];
    assert ProcessAll(db, [active], sha, now) == Process(db, active, sha, now);
  }

  /** A batch that creates a credential and revokes it succeeds once. */
  lemma SelfRevokingIsRefused(active: Record, sha: Hash, now: int, later: int)
    requires !active.revoked && Spelled(active)
    ensures
      var db := Db({active.propertyId}, [], []);
      var records := [active, active.(revoked := true)];
      var first := ProcessAll(db, records, sha, now);
      && first.Ok? && |first.value.credentials| == 1 && first.value.credentials[0].revokedAt == Some(now)
      && ProcessAll(first.value, records, sha, later) == Err(Revoked)
  {
    hide Process, ProcessAll, Satisfied;
    var records := [active, active.(revoked := true)];
    assert records[1].revoked && Stored(records[1].id) == Stored(records[0].id);
    assert Undone(records, records[0]);
    assert FirstRefusal(records, 0).None? && FirstRefusal(records, 1) == Some(Revoked);
    CreatedAndRevoked(active, sha, now);
    RepeatWritesNothing(Db({active.propertyId}, [], []), records, sha, now, later);
  }

  /** A record whose identifiers are not in lower case is accepted once, by creating the credential. */
  lemma MisspelledIsRefused(r: Record, sha: Hash, now: int, later: int)
    requires !r.revoked && !Spelled(r)
    ensures
      var first := ProcessAll(Db({Stored(r.propertyId)}, [], []), [r], sha, now);
      && first.Ok? && |first.value.credentials| == 1 && first.value.credentials[0].id == Stored(r.id)
      && ProcessAll(first.value, [r], sha, later) == Err(Conflict)
      && ProcessAll(first.value, [r.(revoked := true)], sha, later).Err?
  {
    var records, revoking := [r], r.(revoked := true);
    assert !Spelled(revoking);
    hide Stored, Spelled;
    var db := Db({Stored(r.propertyId)}, [], []);
    assert records[..0] == [] && [revoking][..0] == [];
    assert ProcessAll(db, records, sha, now) == Process(db, r, sha, now);
    var after := Process(db, r, sha, now).value;
    assert FirstRefusal(records, 0).None? && FirstRefusal(records, 1) == Some(Conflict);
    RepeatWritesNothing(db, records, sha, now, later);
    MisspelledNeverRevokes(after, revoking, sha, later);
  }

  /** A misspelled identifier cannot revoke anything, whatever the tables hold. */
  lemma MisspelledNeverRevokes(db: Db, r: Record, sha: Hash, now: int)
    requires r.revoked && !Spelled(r)
    ensures Process(db, r, sha, now).Err?
  {
    var m := Matches(db.credentials, r, sha);
    if m != [] {
      AgreesExactly(db.credentials[m[0]], r, sha);
    }
  }

  /** Such identifiers pass the parser: this one has an upper-case digit. */
  lemma UpperCaseUuid()
    ensures var id := "B0000001-0000-4000-8000-000000000001"; IsUuid(id) && Stored(id) != id
  {
    var id := "B0000001-0000-4000-8000-000000000001";
    assert Stored(id)[0] == 'b';
  }
}
