/**
 * The document-store vocabulary shared by both repositories: timestamps as BSON
 * stores them, the entries of a `$set` update document, the results the driver
 * reports for writes, and the failures a store call can meet.
 */
module Bson {
  import opened Wrappers

  /** A BSON datetime: milliseconds since the Unix epoch (BSON keeps no finer precision). */
  type Time = int

  /** A store-internal `_id` (primitive.ObjectID), drawn fresh by the caller. */
  type ObjectId = string

  const MillisPerSecond: int := 1000

  /**
   * `time.Parse(time.RFC3339, t.Format(time.RFC3339))`: the format of section 5.6 of
   * RFC 3339 without a fractional part keeps whole seconds only, so the round trip
   * truncates `t` to the second at or below it.
   */
  function Rfc3339RoundTrip(t: Time): (r: Time)
    ensures r <= t < r + MillisPerSecond
    ensures r % MillisPerSecond == 0
  {
    t - t % MillisPerSecond
  }

  /** One element of the `primitive.D` given to `$set`; the key is fixed by the variant. */
  datatype SetField =
    | SetFirstName(firstName: string)
    | SetLastName(lastName: string)
    | SetUpdatedAt(updatedAt: Time)

  function Key(f: SetField): string
  {
    match f
    case SetFirstName(_) => "first_name"
    case SetLastName(_) => "last_name"
    case SetUpdatedAt(_) => "updated_at"
  }

  /** The keys of an update document, in order. */
  function Keys(doc: seq<SetField>): (ks: seq<string>)
    ensures |ks| == |doc|
    ensures forall i :: 0 <= i < |doc| ==> ks[i] == Key(doc[i])
  {
    if doc == [] then [] else [Key(doc[0])] + Keys(doc[1..])
  }

  /**
   * A failure of one store call (a timeout of the 100-second context, a lost
   * connection, or an error the server reported).
   *  - Unreachable: no reply; nothing changes.
   *  - WriteRejected: the server refused the write; nothing changes.
   *  - WriteConcernFailed: the write took effect but its acknowledgement failed.
   * A read call meeting any of them returns the error. The single-document
   * writes (InsertOne, UpdateOne, DeleteOne) hand back a nil result together
   * with any error; DeleteMany hands back a nil result only when no reply came,
   * and otherwise the count of what it removed.
   */
  datatype Fault = Unreachable(msg: string) | WriteRejected(msg: string) | WriteConcernFailed(msg: string)

  /** True iff a write meeting `fault` still takes effect. */
  predicate WriteApplies(fault: Option<Fault>)
  {
    fault.None? || fault.value.WriteConcernFailed?
  }

  /** The error a call meeting `fault` returns. */
  function ErrorOf(fault: Option<Fault>): (err: Option<string>)
    ensures err.None? <==> fault.None?
  {
    if fault.None? then None else Some(fault.value.msg)
  }

  /** `*mongo.UpdateResult`; `upserted` stays 0 since no caller asks for an upsert. */
  datatype UpdateResult = UpdateResult(matched: nat, modified: nat, upserted: nat)

  /** `*mongo.DeleteResult`. */
  datatype DeleteResult = DeleteResult(deleted: nat)

  /** The text of mongo.ErrNoDocuments, returned by FindOne when nothing matches. */
  const ErrNoDocuments: string := "mongo: no documents in result"

  /** The text of a duplicate `_id` rejection by InsertOne (abbreviated). */
  const ErrDuplicateId: string := "E11000 duplicate key error: _id"

  /**
   * The `$set` document both services build for a partial update: first_name if
   * the body supplies one, then last_name if supplied, then updated_at always.
   */
  function UpdateDocument(firstName: Option<string>, lastName: Option<string>, at: Time): (doc: seq<SetField>)
    ensures Keys(doc) == (if firstName.Some? then ["first_name"] else [])
                         + (if lastName.Some? then ["last_name"] else [])
                         + ["updated_at"]
    ensures doc[|doc| - 1] == SetUpdatedAt(at)
    ensures forall i :: 0 <= i < |doc| ==> Key(doc[i]) in {"first_name", "last_name", "updated_at"}
  {
    (if firstName.Some? then [SetFirstName(firstName.value)] else [])
    + (if lastName.Some? then [SetLastName(lastName.value)] else [])
    + [SetUpdatedAt(at)]
  }

  /**
   * The values a service draws for a new document: `primitive.NewObjectID()`, a
   * random UUID string, and the two readings of `time.Now()` for the timestamps.
   */
  datatype Fresh = Fresh(objectId: ObjectId, uuid: string, createdAt: Time, updatedAt: Time)
}
