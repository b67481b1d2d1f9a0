/** Values exchanged by connectors, the collection runner and persistence. */
module IngestionModels {
  import opened Wrappers

  type Id = string

  const SCHEMA_VERSION := "1.0.0"

  /**
   * What the ingestion code calls but does not define: SHA-256 as a hexadecimal string,
   * Unicode NFC, and the ISO-8601 check of `_validate_timestamp`.
   */
  datatype Env = Env(hash: string -> string, nfc: string -> string, isTimestamp: string -> bool) {
    /** A timestamp is required: the empty text is none. */
    predicate Timestamp(text: string) {
      text != "" && isTimestamp(text)
    }
  }

  /** The assumption on SHA-256: two payloads never share a digest. */
  ghost predicate CollisionFree(env: Env) {
    forall x: string, y: string {:trigger env.hash(x), env.hash(y)} ::
      env.hash(x) == env.hash(y) ==> x == y
  }

  datatype RawDocument = RawDocument(
    id: Id, sourceId: Id, externalId: string, canonicalUri: string,
    publishedAt: string, retrievedAt: string, mediaType: string, contentHash: string,
    content: Option<string>, title: Option<string>, rawPayloadRef: Option<string>,
    connectorName: string, connectorVersion: string,
    providerMetadata: seq<(string, string)>, schemaVersion: string)

  /** What the RawDocument constructor accepts, apart from the digest's hexadecimal shape. */
  predicate ValidDocument(env: Env, d: RawDocument) {
    && d.id != "" && d.sourceId != "" && d.externalId != "" && d.canonicalUri != ""
    && d.mediaType != "" && d.contentHash != "" && d.connectorName != ""
    && d.connectorVersion != "" && d.schemaVersion != ""
    && env.Timestamp(d.publishedAt) && env.Timestamp(d.retrievedAt)
    && (d.content.Some? || d.rawPayloadRef.Some?)
  }

  datatype CollectionBatch = CollectionBatch(
    records: seq<RawDocument>, collectedAt: string, nextCursor: Option<string>, providerRunId: Option<string>,
    isPartial: bool)

  predicate DistinctIds(records: seq<RawDocument>) {
    forall i, j :: 0 <= i < j < |records| ==> records[i].id != records[j].id
  }

  predicate ValidBatch(env: Env, batch: CollectionBatch) {
    env.Timestamp(batch.collectedAt) && DistinctIds(batch.records)
  }

  datatype IngestionCheckpoint = IngestionCheckpoint(
    sourceId: Id, cursor: Option<string>, watermark: Option<string>,
    lastSuccessAt: Option<string>, connectorVersion: string, revision: int, schemaVersion: string)

  predicate ValidCheckpoint(env: Env, c: IngestionCheckpoint) {
    && c.sourceId != "" && c.connectorVersion != "" && c.revision >= 0
    && (c.watermark.Some? ==> env.Timestamp(c.watermark.value))
    && (c.lastSuccessAt.Some? ==> env.Timestamp(c.lastSuccessAt.value))
  }

  function CursorOf(checkpoint: Option<IngestionCheckpoint>): Option<string> {
    if checkpoint.Some? then checkpoint.value.cursor else None
  }

  function WatermarkOf(checkpoint: Option<IngestionCheckpoint>): Option<string> {
    if checkpoint.Some? then checkpoint.value.watermark else None
  }

  /** The kinds of ConnectorError, and `InvalidArgument` for a constructor's ValueError. */
  datatype ConnectorFailure =
    | InvalidArgument
    | Configuration
    | MalformedResponse
    | RateLimited(retryAfter: Option<real>)
    | Authentication
    | Unavailable
    | Permanent

  /** The checks every connector makes before it fetches anything. */
  function CheckRequest(sourceId: Id, version: string, checkpoint: Option<IngestionCheckpoint>, limit: int)
    : (r: Result<(), ConnectorFailure>)
  {
    if limit <= 0 then Err(InvalidArgument)
    else if checkpoint.Some? && checkpoint.value.sourceId != sourceId then Err(Configuration)
    else if checkpoint.Some? && checkpoint.value.connectorVersion != version then Err(Configuration)
    else Ok(())
  }

  /**
   * A request is refused for a limit that is not positive, and else exactly for a checkpoint of
   * another source or of another version of the connector.
   */
  lemma RequestRefusedIff(sourceId: Id, version: string, checkpoint: Option<IngestionCheckpoint>, limit: int)
    ensures CheckRequest(sourceId, version, checkpoint, limit) == Err(InvalidArgument) <==> limit <= 0
    ensures CheckRequest(sourceId, version, checkpoint, limit) == Err(Configuration)
       <==> limit > 0 && checkpoint.Some?
            && (checkpoint.value.sourceId, checkpoint.value.connectorVersion) != (sourceId, version)
    ensures CheckRequest(sourceId, version, checkpoint, limit).Ok?
       <==> limit > 0 && (checkpoint.Some? ==>
              checkpoint.value.sourceId == sourceId && checkpoint.value.connectorVersion == version)
  {
  }

  /** Python slicing `s[a:b]` for non-negative bounds. */
  function Slice<T>(s: seq<T>, a: nat, b: nat): seq<T> {
    var hi := if b < |s| then b else |s|;
    if a < hi then s[a..hi] else []
  }
}

/** Deterministic identities of collected documents. */
module Deduplication {
  import opened Wrappers
  import opened IngestionModels
  import opened Text

  const NORMALIZATION_VERSION := "text-v1"
  const IDENTITY_VERSION := "collection-v1"
  const HANDOFF_VERSION := "handoff-v1"
  const NUL: string := [0 as char]

  /** `collection_identity`; `None` stands for the ValueError of a blank part. */
  function CollectionIdentity(env: Env, sourceId: Id, externalId: string): Option<string> {
    if sourceId == "" || IsBlank(externalId) then None
    else Some(env.hash(IDENTITY_VERSION + NUL + (sourceId + NUL + Strip(externalId))))
  }

  function RawDocumentId(env: Env, sourceId: Id, externalId: string): Option<Id> {
    match CollectionIdentity(env, sourceId, externalId)
    case None => None
    case Some(key) => Some("raw_" + key)
  }

  /** `_stable_key("document", id)`. */
  function DocumentKey(env: Env, documentId: Id): string {
    env.hash(HANDOFF_VERSION + NUL + "document" + NUL + documentId)
  }

  predicate NoNul(s: string) {
    0 as char !in s
  }

  /** The first NUL ends the source id, so both parts can be read back from the payload. */
  lemma PairInjective(a: string, b: string, x: string, y: string)
    requires NoNul(a) && NoNul(x) && a + NUL + b == x + NUL + y
    ensures a == x && b == y
  {
    var s, t := a + NUL + b, x + NUL + y;
    assert forall i :: 0 <= i < |a| ==> s[i] == a[i];
    assert forall i :: 0 <= i < |x| ==> t[i] == x[i];
    assert s[|a|] == 0 as char && t[|x|] == 0 as char;
    assert |a| == |x|;
    assert s[..|a|] == a && t[..|x|] == x;
    assert s[|a| + 1..] == b && t[|x| + 1..] == y;
  }

  lemma PrefixInjective(prefix: string, a: string, b: string)
    requires prefix + a == prefix + b
    ensures a == b
  {
    assert (prefix + a)[|prefix|..] == a && (prefix + b)[|prefix|..] == b;
  }

  /**
   * Without digest collisions, and with NUL-free source ids, two records get the same
   * document id exactly when they name the same source and the same stripped external id.
   */
  lemma RawDocumentIdInjective(env: Env, s1: Id, e1: string, s2: Id, e2: string)
    requires CollisionFree(env) && NoNul(s1) && NoNul(s2)
    requires RawDocumentId(env, s1, e1).Some? && RawDocumentId(env, s2, e2).Some?
    ensures RawDocumentId(env, s1, e1) == RawDocumentId(env, s2, e2)
       <==> s1 == s2 && Strip(e1) == Strip(e2)
  {
    var k1 := CollectionIdentity(env, s1, e1).value;
    var k2 := CollectionIdentity(env, s2, e2).value;
    if RawDocumentId(env, s1, e1) == RawDocumentId(env, s2, e2) {
      PrefixInjective("raw_", k1, k2);
      PrefixInjective(IDENTITY_VERSION + NUL, s1 + NUL + Strip(e1), s2 + NUL + Strip(e2));
      PairInjective(s1, Strip(e1), s2, Strip(e2));
    }
  }

  lemma DocumentKeyInjective(env: Env, a: Id, b: Id)
    requires CollisionFree(env) && DocumentKey(env, a) == DocumentKey(env, b)
    ensures a == b
  {
    PrefixInjective(HANDOFF_VERSION + NUL + "document" + NUL, a, b);
  }

  datatype DeduplicationResult = DeduplicationResult(accepted: seq<RawDocument>, duplicateIds: seq<Id>)

  /** Ids seen before record `i`: known ones and those of earlier records. */
  predicate SeenBefore(documents: seq<RawDocument>, known: set<Id>, i: nat)
    requires i < |documents|
  {
    documents[i].id in known || exists j :: 0 <= j < i && documents[j].id == documents[i].id
  }

  /** The records whose id is new, in order. */
  function FirstOccurrences(documents: seq<RawDocument>, known: set<Id>): seq<RawDocument> {
    if documents == [] then []
    else
      var last := |documents| - 1;
      FirstOccurrences(documents[..last], known)
      + if SeenBefore(documents, known, last) then [] else [documents[last]]
  }

  function RepeatedIds(documents: seq<RawDocument>, known: set<Id>): seq<Id> {
    if documents == [] then []
    else
      var last := |documents| - 1;
      RepeatedIds(documents[..last], known)
      + if SeenBefore(documents, known, last) then [documents[last].id] else []
  }

  method DeduplicateDocuments(documents: seq<RawDocument>, known: set<Id>)
    returns (r: DeduplicationResult)
    ensures r.accepted == FirstOccurrences(documents, known)
    ensures r.duplicateIds == RepeatedIds(documents, known)
  {
    var seen := known;
    var accepted: seq<RawDocument> := [];
    var duplicates: seq<Id> := [];
    for i := 0 to |documents|
      invariant seen == known + set j | 0 <= j < i :: documents[j].id
      invariant accepted == FirstOccurrences(documents[..i], known)
      invariant duplicates == RepeatedIds(documents[..i], known)
    {
      var d := documents[i];
      assert documents[..i + 1][..i] == documents[..i];
      assert SeenBefore(documents[..i + 1], known, i) <==> d.id in seen;
      if d.id in seen {
        duplicates := duplicates + [d.id];
      } else {
        seen := seen + {d.id};
        accepted := accepted + [d];
      }
    }
    assert documents[..|documents|] == documents;
    return DeduplicationResult(accepted, duplicates);
  }

  /** Accepted records are records of the batch, new, and pairwise different in their ids. */
  lemma {:induction false} AcceptedAreNew(documents: seq<RawDocument>, known: set<Id>)
    ensures DistinctIds(FirstOccurrences(documents, known))
    ensures forall d :: d in FirstOccurrences(documents, known) ==> d in documents && d.id !in known
    ensures |FirstOccurrences(documents, known)| + |RepeatedIds(documents, known)| == |documents|
  {
    if documents != [] {
      var last := |documents| - 1;
      var front := documents[..last];
      AcceptedAreNew(front, known);
      if !SeenBefore(documents, known, last) {
        forall a | a in FirstOccurrences(front, known)
          ensures a.id != documents[last].id
        {
          var j :| 0 <= j < last && front[j] == a;
          assert documents[j] == a;
        }
      }
    }
  }

  /** Every record's id is known already or belongs to an accepted record. */
  lemma {:induction false} EveryIdAccounted(documents: seq<RawDocument>, known: set<Id>, i: nat)
    requires i < |documents| && documents[i].id !in known
    ensures exists a :: a in FirstOccurrences(documents, known) && a.id == documents[i].id
  {
    var last := |documents| - 1;
    var front := documents[..last];
    var before := FirstOccurrences(front, known);
    var all := FirstOccurrences(documents, known);
    assert forall a :: a in before ==> a in all;
    if i < last {
      EveryIdAccounted(front, known, i);
    } else if SeenBefore(documents, known, last) {
      var j :| 0 <= j < last && documents[j].id == documents[last].id;
      EveryIdAccounted(front, known, j);
    } else {
      assert documents[last] in all;
    }
  }

  function Ids(documents: seq<RawDocument>): seq<Id> {
    seq(|documents|, i requires 0 <= i < |documents| => documents[i].id)
  }

  /** Each record's id is accepted or repeated, as often as it occurs in the batch. */
  lemma {:induction false} IdsAddUp(documents: seq<RawDocument>, known: set<Id>)
    ensures multiset(Ids(documents))
         == multiset(Ids(FirstOccurrences(documents, known))) + multiset(RepeatedIds(documents, known))
  {
    if documents != [] {
      hide Ids, SeenBefore;
      var last := |documents| - 1;
      IdsAddUp(documents[..last], known);
      assert documents == documents[..last] + [documents[last]];
      IdsAppend(documents[..last], documents[last]);
      IdsAppend(FirstOccurrences(documents[..last], known), documents[last]);
    }
  }

  lemma IdsAppend(documents: seq<RawDocument>, d: RawDocument)
    ensures Ids(documents + [d]) == Ids(documents) + [d.id]
    ensures documents + [] == documents
  {
  }

  /** A batch without repeated ids is accepted whole. */
  lemma {:induction false} DistinctBatchAccepted(documents: seq<RawDocument>)
    requires DistinctIds(documents)
    ensures FirstOccurrences(documents, {}) == documents
  {
    if documents != [] {
      var last := |documents| - 1;
      DistinctBatchAccepted(documents[..last]);
      assert documents == documents[..last] + [documents[last]];
    }
  }
}
