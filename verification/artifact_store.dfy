/** Artifacts kept under the digest of their canonical text. The digest is any function of the text. */
module ArtifactStore {
  import opened Prelude
  import opened Utf16
  import opened CanonicalJson
  import opened CanonicalTheorems

  type Digest = nat
  type Hash = Text -> Digest
  type Table = map<Digest, Text>
  /** The field checks of an artifact; they see a JSON value without its key order. */
  type Checks = Meaning -> bool

  datatype Error = Invalid | DigestMismatch | Immutable

  function ArtifactDigest(hash: Hash, v: Value): Option<Digest> {
    match CanonicalStringify(v)
    case None => None
    case Some(text) => Some(hash(text))
  }

  /** The digest a payload is stored under, if it can be printed, is the expected one and passes the checks. */
  function Validate(hash: Hash, checks: Checks, v: Value, expected: Option<Digest>): Result<Digest, Error> {
    match ArtifactDigest(hash, v)
    case None => Failure(Invalid)
    case Some(d) =>
      if expected.Some? && expected.value != d then Failure(DigestMismatch)
      else if Means(v) == None || !checks(Means(v).value) then Failure(Invalid)
      else Success(d)
  }

  function Persist(table: Table, hash: Hash, checks: Checks, v: Value, expected: Option<Digest>): Result<Table, Error> {
    match Validate(hash, checks, v, expected)
    case Failure(e) => Failure(e)
    case Success(d) =>
      var text := CanonicalStringify(v).value;
      if d !in table then Success(table[d := text])
      else if table[d] != text then Failure(Immutable)
      else Success(table)
  }

  class Artifacts {
    const hash: Hash
    const checks: Checks
    var table: Table

    constructor (digest: Hash, fieldChecks: Checks)
      ensures hash == digest && checks == fieldChecks && table == map[]
    {
      hash, checks := digest, fieldChecks;
      table := map[];
    }

    method PersistHandoffArtifact(v: Value, expected: Option<Digest>) returns (error: Option<Error>)
      modifies this`table
      ensures match Persist(old(table), hash, checks, v, expected)
              case Success(t) => error == None && table == t
              case Failure(e) => error == Some(e) && table == old(table)
    {
      var text := CanonicalStringify(v);
      if text.None? { return Some(Invalid); }
      var d := hash(text.value);
      if expected.Some? && expected.value != d { return Some(DigestMismatch); }
      var meaning := Means(v);
      if meaning == None || !checks(meaning.value) { return Some(Invalid); }
      if d in table {
        if table[d] != text.value { return Some(Immutable); }
      } else {
        table := table[d := text.value];
      }
      return None;
    }
  }

  // -- What the table keeps ---------------------------------

  /** A text is canonical, says a value that passes the checks, and stands under its own digest. */
  ghost predicate EntryOk(hash: Hash, checks: Checks, d: Digest, text: Text) {
    && hash(text) == d
    && exists v :: Proper(v) && CanonicalStringify(v) == Some(text) && Validate(hash, checks, v, None) == Success(d)
  }

  ghost predicate TableOk(table: Table, hash: Hash, checks: Checks) {
    forall d :: d in table ==> EntryOk(hash, checks, d, table[d])
  }

  lemma PersistKeeps(table: Table, hash: Hash, checks: Checks, v: Value, expected: Option<Digest>)
    requires TableOk(table, hash, checks) && Proper(v) && Persist(table, hash, checks, v, expected).Success?
    ensures var t := Persist(table, hash, checks, v, expected).value;
      && TableOk(t, hash, checks)
      && (forall d :: d in table ==> d in t && t[d] == table[d])
      && hash(CanonicalStringify(v).value) in t
      && t[hash(CanonicalStringify(v).value)] == CanonicalStringify(v).value
  {
    var text := CanonicalStringify(v).value;
    assert Validate(hash, checks, v, None) == Success(hash(text));
    assert EntryOk(hash, checks, hash(text), text);
    hide EntryOk;
  }

  /** A history of attempts to store something, failed ones included. */
  function PersistAll(table: Table, hash: Hash, checks: Checks, vs: seq<(Value, Option<Digest>)>): Table
    decreases |vs|
  {
    if vs == [] then table
    else
      var r := Persist(table, hash, checks, vs[0].0, vs[0].1);
      PersistAll(if r.Success? then r.value else table, hash, checks, vs[1..])
  }

  lemma {:induction false} HistoryKeeps(table: Table, hash: Hash, checks: Checks, vs: seq<(Value, Option<Digest>)>)
    requires TableOk(table, hash, checks) && forall v <- vs :: Proper(v.0)
    ensures var t := PersistAll(table, hash, checks, vs);
      TableOk(t, hash, checks) && forall d :: d in table ==> d in t && t[d] == table[d]
    decreases |vs|
  {
    hide EntryOk, Persist;
    if vs != [] {
      var r := Persist(table, hash, checks, vs[0].0, vs[0].1);
      assert vs[0] in vs;
      if r.Success? { PersistKeeps(table, hash, checks, vs[0].0, vs[0].1); }
      HistoryKeeps(if r.Success? then r.value else table, hash, checks, vs[1..]);
    }
  }

  /**
   Whatever was stored, an artifact read back under its digest parses, passes
   the field checks and the digest check again, and prints to the stored text.
   */
  lemma ReloadValidates(hash: Hash, checks: Checks, vs: seq<(Value, Option<Digest>)>, d: Digest)
    requires (forall v <- vs :: Proper(v.0)) && d in PersistAll(map[], hash, checks, vs)
    ensures var text := PersistAll(map[], hash, checks, vs)[d];
      && Parse(text).Some?
      && Validate(hash, checks, Lift(Parse(text).value), Some(d)) == Success(d)
      && CanonicalStringify(Lift(Parse(text).value)) == Some(text)
  {
    HistoryKeeps(map[], hash, checks, vs);
    var text := PersistAll(map[], hash, checks, vs)[d];
    assert EntryOk(hash, checks, d, text);
    var v :| Proper(v) && CanonicalStringify(v) == Some(text) && Validate(hash, checks, v, None) == Success(d);
    hide PersistAll;
    ReloadIsStable(v);
    LiftMeans(Parse(text).value);
  }

  /** A parsed value means what its JSON means. */
  lemma {:induction false} LiftMeans(j: Json)
    ensures Means(Lift(j)) == Some(JMeans(j))
    decreases j
  {
    match j
    case JArr(items) => LiftItemsMean(items);
    case JObj(fields) => LiftFieldsMean(fields);
    case _ =>
  }

  lemma {:induction false} LiftItemsMean(items: Jsons)
    ensures ItemsMean(LiftItems(items)) == Some(JItemsMean(items))
    decreases items
  {
    if items.MoreJsons? {
      LiftMeans(items.head);
      LiftItemsMean(items.tail);
    }
  }

  lemma {:induction false} LiftFieldsMean(fields: JFields)
    ensures FieldsMean(LiftFields(fields)) == Some(JFieldsMean(fields))
    decreases fields
  {
    if fields.MoreJFields? {
      LiftMeans(fields.value);
      LiftFieldsMean(fields.rest);
    }
  }

  /**
   Storing what means the same as a stored artifact changes nothing; the
   immutability error needs two meanings whose texts share a digest.
   */
  lemma ImmutableOnlyOnCollision(table: Table, hash: Hash, checks: Checks, v: Value, w: Value, expected: Option<Digest>)
    requires Proper(v) && Proper(w) && CanonicalStringify(w).Some?
    requires ArtifactDigest(hash, w).value in table
    requires table[ArtifactDigest(hash, w).value] == CanonicalStringify(w).value
    requires Validate(hash, checks, v, expected).Success?
    ensures Means(v) == Means(w) ==> Persist(table, hash, checks, v, expected) == Success(table)
    ensures ArtifactDigest(hash, v) == ArtifactDigest(hash, w) ==>
      (Persist(table, hash, checks, v, expected) == Failure(Immutable) <==> Means(v) != Means(w))
  {
    SameTextIffSameMeaning(v, w);
    hide CanonicalStringify;
  }
}
