/**
 * The declared credentials and their parser (packages/database/src/bootstrap-connect.ts).
 *
 * A batch starts as arbitrary JSON. The SHA-256 digest and the test for a non-blank label are
 * parameters. Two arrays are never the same object, so the duplicate check only compares strings.
 */
module CredentialBatch {
  import opened Common
  import opened JsonValues

  type Hash = string -> string

  // ----- Identifiers ----------------------------------------------------------

  predicate IsHex(c: char) {
    '0' <= c <= '9' || 'a' <= c <= 'f' || 'A' <= c <= 'F'
  }

  /** What the pattern admits at each position; it ignores case. */
  predicate UuidChar(i: int, c: char) {
    if i in {8, 13, 18, 23} then c == '-'
    else if i == 14 then '1' <= c <= '5'
    else if i == 19 then c in {'8', '9', 'a', 'b', 'A', 'B'}
    else IsHex(c)
  }

  predicate IsUuid(s: string) {
    |s| == 36 && forall i :: 0 <= i < 36 ==> UuidChar(i, s[i])
  }

  function LowerChar(c: char): char {
    if 'A' <= c <= 'Z' then (c as int + 32) as char else c
  }

  function Lower(s: string): (r: string)
    ensures |r| == |s|
  {
    seq(|s|, i requires 0 <= i < |s| => LowerChar(s[i]))
  }

  /** A text of a uuid column: the database compares such columns by value and returns them in lower case. */
  type Uuid = s: string | Lower(s) == s

  /** The stored form of an identifier. */
  function Stored(s: string): (r: Uuid)
    ensures Lower(s) == r
  {
    assert Lower(Lower(s)) == Lower(s);
    Lower(s)
  }

  // ----- Records --------------------------------------------------------------

  datatype Record = Record(
    id: string, propertyId: string, labelText: string, key: string,
    environment: string, scopes: seq<string>, revoked: bool)

  /** Both identifiers are written as the database returns them. */
  predicate Spelled(r: Record) {
    Stored(r.id) == r.id && Stored(r.propertyId) == r.propertyId
  }

  /** No identifier and no key hash occurs twice in the batch. */
  predicate DistinctBatch(records: seq<Record>, sha: Hash) {
    forall i, j :: 0 <= i < j < |records| ==>
      records[i].id != records[j].id && sha(records[i].key) != sha(records[j].key)
  }

  // ----- Parsing --------------------------------------------------------------

  const ALLOWED_SCOPES := [
    "integration.read", "integration.write", "events.read", "services.read", "services.write", "sandbox.setup"]

  predicate NamesUuid(v: Json) {
    Spelling(v).Some? && IsUuid(Spelling(v).value)
  }

  predicate ScopesOk(v: Json, environment: string) {
    && v.Arr? && v.items != [] && (forall i :: 0 <= i < |v.items| ==> Among(v.items[i], ALLOWED_SCOPES))
    && Distinct(v.items) && !(environment == "production" && Str("sandbox.setup") in v.items)
  }

  /** The checks on one record. */
  predicate RecordOk(v: Json, environment: string, named: string -> bool) {
    && NamesUuid(Get(v, "id")) && NamesUuid(Get(v, "propertyId"))
    && Get(v, "label").Str? && named(Get(v, "label").s) && |Get(v, "label").s| <= 200
    && Get(v, "key").Str? && 32 <= |Get(v, "key").s| <= 256
    && Get(v, "environment") == Str(environment) && ScopesOk(Get(v, "scopes"), environment)
    && (Get(v, "revoked").Undefined? || Get(v, "revoked").Bool?)
  }

  /** `ids.has(record.id)` finds equal strings only. */
  predicate SameIdentifier(a: Json, b: Json) {
    a.Str? && a == b
  }

  function HashOf(v: Json, sha: Hash): string {
    if Get(v, "key").Str? then sha(Get(v, "key").s) else ""
  }

  predicate NoDuplicates(items: seq<Json>, sha: Hash) {
    forall i, j :: 0 <= i < j < |items| ==>
      !SameIdentifier(Get(items[i], "id"), Get(items[j], "id")) && HashOf(items[i], sha) != HashOf(items[j], sha)
  }

  predicate Accepted(items: seq<Json>, environment: string, sha: Hash, named: string -> bool) {
    && environment in {"test", "sandbox", "production"} && |items| <= 100
    && (forall i :: 0 <= i < |items| ==> RecordOk(items[i], environment, named)) && NoDuplicates(items, sha)
  }

  datatype ParseError = InvalidEnvironment | InvalidJson | InvalidCredentials | InvalidRecord | DuplicateCredential

  /** `raw` is None for a text that is not JSON. */
  method ParseBootstrapCredentials(raw: Option<Json>, environment: string, sha: Hash, named: string -> bool)
    returns (r: Result<seq<Json>, ParseError>)
    ensures r.Ok? <==> raw.Some? && raw.value.Arr? && Accepted(raw.value.items, environment, sha, named)
    ensures r.Ok? ==> r.value == raw.value.items
  {
    hide RecordOk, NoDuplicates, IdsOf, HashesOf, HashOf, Get;
    if environment !in {"test", "sandbox", "production"} {
      return Err(InvalidEnvironment);
    }
    if raw.None? {
      return Err(InvalidJson);
    }
    if !raw.value.Arr? || |raw.value.items| > 100 {
      return Err(InvalidCredentials);
    }
    var items := raw.value.items;
    var ids: set<Json>, hashes: set<string> := {}, {};
    NothingSeen(items, sha);
    for n := 0 to |items|
      invariant forall i :: 0 <= i < n ==> RecordOk(items[i], environment, named)
      invariant NoDuplicates(items[..n], sha)
      invariant ids == IdsOf(items[..n]) && hashes == HashesOf(items[..n], sha)
    {
      var record := items[n];
      SetsStep(items, n, sha);
      if !RecordOk(record, environment, named) {
        return Err(InvalidRecord);
      }
      var id, hash := Get(record, "id"), HashOf(record, sha);
      if (id.Str? && id in ids) || hash in hashes {
        RepeatIsDuplicate(items, n, sha);
        return Err(DuplicateCredential);
      }
      FreshKeepsDistinct(items, n, sha);
      ids := ids + {id};
      hashes := hashes + {hash};
    }
    assert items[..|items|] == items;
    r := Ok(items);
  }

  ghost function IdsOf(items: seq<Json>): set<Json> {
    set i | 0 <= i < |items| :: Get(items[i], "id")
  }

  ghost function HashesOf(items: seq<Json>, sha: Hash): set<string> {
    set i | 0 <= i < |items| :: HashOf(items[i], sha)
  }

  lemma NothingSeen(items: seq<Json>, sha: Hash)
    ensures IdsOf(items[..0]) == {} && HashesOf(items[..0], sha) == {} && NoDuplicates(items[..0], sha)
  {}

  lemma SetsStep(items: seq<Json>, n: nat, sha: Hash)
    requires n < |items|
    ensures IdsOf(items[..n + 1]) == IdsOf(items[..n]) + {Get(items[n], "id")}
    ensures HashesOf(items[..n + 1], sha) == HashesOf(items[..n], sha) + {HashOf(items[n], sha)}
  {
    hide Get, HashOf;
    var a, b := items[..n], items[..n + 1];
    assert b == a + [items[n]];
    assert forall i :: 0 <= i < n ==> b[i] == a[i];
    assert b[n] == items[n];
  }

  /** The two sets decide whether one more record keeps the batch free of duplicates. */
  lemma FreshKeepsDistinct(items: seq<Json>, n: nat, sha: Hash)
    requires n < |items| && NoDuplicates(items[..n], sha)
    requires !(Get(items[n], "id").Str? && Get(items[n], "id") in IdsOf(items[..n]))
    requires HashOf(items[n], sha) !in HashesOf(items[..n], sha)
    ensures NoDuplicates(items[..n + 1], sha)
  {
    hide Get, HashOf;
    var a, b := items[..n], items[..n + 1];
    forall i, j | 0 <= i < j < |b|
      ensures !SameIdentifier(Get(b[i], "id"), Get(b[j], "id")) && HashOf(b[i], sha) != HashOf(b[j], sha)
    {
      assert b[i] == a[i] && Get(a[i], "id") in IdsOf(a) && HashOf(a[i], sha) in HashesOf(a, sha);
      if j < n {
        assert b[j] == a[j];
      }
    }
  }

  lemma RepeatIsDuplicate(items: seq<Json>, n: nat, sha: Hash)
    requires n < |items|
    requires
      || (Get(items[n], "id").Str? && Get(items[n], "id") in IdsOf(items[..n]))
      || HashOf(items[n], sha) in HashesOf(items[..n], sha)
    ensures !NoDuplicates(items, sha)
  {
    hide Get, HashOf;
    var a := items[..n];
    if Get(items[n], "id").Str? && Get(items[n], "id") in IdsOf(a) {
      var i :| 0 <= i < n && Get(a[i], "id") == Get(items[n], "id");
      assert a[i] == items[i];
    } else {
      var i :| 0 <= i < n && HashOf(a[i], sha) == HashOf(items[n], sha);
      assert a[i] == items[i];
    }
  }

  // ----- What the parser guarantees -------------------------------------------

  /** No two records name the same identifier. */
  predicate DistinctNames(items: seq<Json>) {
    forall i, j :: 0 <= i < j < |items| ==> Spelling(Get(items[i], "id")) != Spelling(Get(items[j], "id"))
  }

  /** Some identifier inside an array is named by another record as well. */
  predicate RepeatsInArray(items: seq<Json>) {
    exists i, j :: 0 <= i < |items| && 0 <= j < |items| && i != j
      && Get(items[i], "id").Arr? && Spelling(Get(items[i], "id")) == Spelling(Get(items[j], "id"))
  }

  lemma SharedNameIsInArray(items: seq<Json>, environment: string, sha: Hash, named: string -> bool, i: nat, j: nat)
    requires Accepted(items, environment, sha, named) && i < j < |items|
    requires Spelling(Get(items[i], "id")) == Spelling(Get(items[j], "id"))
    ensures Get(items[i], "id").Arr? || Get(items[j], "id").Arr?
  {
    hide ScopesOk, IsUuid, HashOf, Get;
    assert RecordOk(items[i], environment, named) && RecordOk(items[j], environment, named);
    assert !SameIdentifier(Get(items[i], "id"), Get(items[j], "id"));
  }

  /** The duplicate check keeps identifiers apart exactly when no repeated one hides inside an array. */
  lemma AcceptedNamesDiffer(items: seq<Json>, environment: string, sha: Hash, named: string -> bool)
    requires Accepted(items, environment, sha, named)
    ensures DistinctNames(items) <==> !RepeatsInArray(items)
  {
    hide Accepted, Spelling, Get;
    forall i: nat, j: nat | i < j < |items| && Spelling(Get(items[i], "id")) == Spelling(Get(items[j], "id"))
      ensures RepeatsInArray(items)
    {
      SharedNameIsInArray(items, environment, sha, named, i, j);
    }
    if RepeatsInArray(items) {
      var i, j :| 0 <= i < |items| && 0 <= j < |items| && i != j
        && Get(items[i], "id").Arr? && Spelling(Get(items[i], "id")) == Spelling(Get(items[j], "id"));
      var first, second := if i < j then i else j, if i < j then j else i;
      assert Spelling(Get(items[first], "id")) == Spelling(Get(items[second], "id"));
    }
  }

  function Declaration(id: Json, property: string, name: string, key: string, environment: string): Json {
    Obj(map["id" := id, "propertyId" := Str(property), "label" := Str(name), "key" := Str(key),
            "environment" := Str(environment), "scopes" := Arr([Str("events.read")])])
  }

  lemma DeclarationIsOk(id: Json, property: string, name: string, key: string, named: string -> bool)
    requires NamesUuid(id) && IsUuid(property) && named(name) && |name| <= 200 && 32 <= |key| <= 256
    ensures RecordOk(Declaration(id, property, name, key, "test"), "test", named)
  {
    hide IsUuid;
    var v := Declaration(id, property, name, key, "test");
    assert Get(v, "id") == id && Get(v, "propertyId") == Str(property) && Get(v, "label") == Str(name);
    assert Get(v, "scopes") == Arr([Str("events.read")]) && ALLOWED_SCOPES[2] == "events.read";
  }

  /** The gap is real: two records that put one identifier in an array each are accepted together. */
  lemma ArrayIdentifierSlipsThrough(id: string, property: string, name: string, key: string, other: string,
                                    sha: Hash, named: string -> bool)
    requires IsUuid(id) && IsUuid(property) && named(name) && |name| <= 200
    requires 32 <= |key| <= 256 && 32 <= |other| <= 256 && sha(key) != sha(other)
    ensures
      var items := [Declaration(Arr([Str(id)]), property, name, key, "test"),
                    Declaration(Arr([Str(id)]), property, name, other, "test")];
      Accepted(items, "test", sha, named) && RepeatsInArray(items) && !DistinctNames(items)
  {
    hide IsUuid, RecordOk;
    var listed := Arr([Str(id)]);
    assert Spelling(listed) == Some(id) by { assert Spelling(Str(id)) == Some(id); }
    DeclarationIsOk(listed, property, name, key, named);
    DeclarationIsOk(listed, property, name, other, named);
    var a, b := Declaration(listed, property, name, key, "test"), Declaration(listed, property, name, other, "test");
    assert Get(a, "id") == listed && Get(b, "id") == listed;
    assert HashOf(a, sha) == sha(key) && HashOf(b, sha) == sha(other);
    hide Get, HashOf, Declaration, Spelling;
    var items := [a, b];
    assert items[0] == a && items[1] == b;
    assert NoDuplicates(items, sha);
    assert RepeatsInArray(items);
  }

  // ----- From JSON to records -------------------------------------------------

  /** Both identifiers are strings, as the declared type of a record promises. */
  predicate Typed(v: Json) {
    Get(v, "id").Str? && Get(v, "propertyId").Str?
  }

  function TextOf(v: Json): string {
    if v.Str? then v.s else ""
  }

  function TextsOf(v: Json): seq<string> {
    if v.Arr? then seq(|v.items|, i requires 0 <= i < |v.items| => TextOf(v.items[i])) else []
  }

  function RecordOf(v: Json): Record {
    Record(TextOf(Get(v, "id")), TextOf(Get(v, "propertyId")), TextOf(Get(v, "label")), TextOf(Get(v, "key")),
           TextOf(Get(v, "environment")), TextsOf(Get(v, "scopes")), Get(v, "revoked") == Bool(true))
  }

  function RecordsOf(items: seq<Json>): (r: seq<Record>)
    ensures |r| == |items|
  {
    seq(|items|, i requires 0 <= i < |items| => RecordOf(items[i]))
  }

  /** Accepted records with string identifiers form a batch without duplicates. */
  lemma AcceptedIsDistinct(items: seq<Json>, environment: string, sha: Hash, named: string -> bool)
    requires Accepted(items, environment, sha, named) && forall i :: 0 <= i < |items| ==> Typed(items[i])
    ensures DistinctBatch(RecordsOf(items), sha)
  {
    var records := RecordsOf(items);
    forall i, j | 0 <= i < j < |records|
      ensures records[i].id != records[j].id && sha(records[i].key) != sha(records[j].key)
    {
      assert RecordOk(items[i], environment, named) && RecordOk(items[j], environment, named);
      assert Typed(items[i]) && Typed(items[j]);
      assert !SameIdentifier(Get(items[i], "id"), Get(items[j], "id"));
      assert HashOf(items[i], sha) != HashOf(items[j], sha);
    }
  }
}
