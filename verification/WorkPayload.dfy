/** The three typed work items. */
module IngestionWork {
  import opened Wrappers
  import opened IngestionModels

  datatype WorkItemKind = Collection | DocumentProcessing | Research

  datatype WorkPayload =
    | CollectionPayload(sourceId: Id, connectorName: string, connectorVersion: string,
                        checkpoint: Option<IngestionCheckpoint>, limit: int)
    | DocumentPayload(rawDocumentId: Id)
    | ResearchPayload(entityId: Id, signalIds: seq<Id>, topicKey: string)
  {
    function Kind(): WorkItemKind {
      match this
      case CollectionPayload(_, _, _, _, _) => Collection
      case DocumentPayload(_) => DocumentProcessing
      case ResearchPayload(_, _, _) => Research
    }
  }

  datatype WorkItem = WorkItem(
    payload: WorkPayload, id: Id, idempotencyKey: string, createdAt: string, schemaVersion: string)

  predicate Distinct<T(==)>(s: seq<T>) {
    forall i, j :: 0 <= i < j < |s| ==> s[i] != s[j]
  }

  /** What the constructors of the payload types accept. */
  predicate ValidPayload(env: Env, p: WorkPayload) {
    match p
    case CollectionPayload(sourceId, connectorName, connectorVersion, checkpoint, limit) =>
      && sourceId != "" && connectorName != "" && connectorVersion != "" && limit > 0
      && (checkpoint.Some? ==>
            && ValidCheckpoint(env, checkpoint.value)
            && checkpoint.value.sourceId == sourceId
            && checkpoint.value.connectorVersion == connectorVersion)
    case DocumentPayload(rawDocumentId) => rawDocumentId != ""
    case ResearchPayload(entityId, signalIds, topicKey) =>
      entityId != "" && signalIds != [] && Distinct(signalIds) && topicKey != ""
  }

  predicate ValidWorkItem(env: Env, w: WorkItem) {
    && w.id != "" && w.idempotencyKey != "" && w.schemaVersion != ""
    && ValidPayload(env, w.payload)
  }
}

/** How typed work is written to and read from a `work_items` row. */
module WorkPayloadCodec {
  import opened Wrappers
  import opened IngestionModels
  import opened IngestionWork
  import opened Sorting
  import opened TextSorting
  import Json

  type Members = seq<(string, Json.Value)>

  datatype PersistenceError =
    | DocumentConflict
    | IdentityConflict
    | CheckpointConflict
    | WorkItemConflict
    | PayloadIncompatible
    | OperationalFailure
    | InvalidValue

  /** The columns that vary; a row's status, priority and revision are always pending, 50 and 0. */
  datatype WorkRow = WorkRow(
    kind: WorkItemKind, payloadJson: string, payloadSchemaVersion: string,
    idempotencyKey: string, availableAt: string, createdAt: string)

  // ---- encoding ----

  function OptionalString(s: Option<string>): Json.Value {
    if s.None? then Json.Null else Json.Str(s.value)
  }

  /** Keys are listed in the order `sort_keys=True` puts them in. */
  function CheckpointJson(c: IngestionCheckpoint): Json.Value {
    Json.Obj([
      ("connector_version", Json.Str(c.connectorVersion)),
      ("cursor", OptionalString(c.cursor)),
      ("last_success_at", OptionalString(c.lastSuccessAt)),
      ("revision", Json.Int(c.revision)),
      ("schema_version", Json.Str(c.schemaVersion)),
      ("source_id", Json.Str(c.sourceId)),
      ("watermark", OptionalString(c.watermark))])
  }

  function Strings(s: seq<string>): seq<Json.Value> {
    seq(|s|, i requires 0 <= i < |s| => Json.Str(s[i]))
  }

  function PayloadJson(p: WorkPayload): Json.Value {
    match p
    case CollectionPayload(sourceId, connectorName, connectorVersion, checkpoint, limit) =>
      Json.Obj([
        ("checkpoint", if checkpoint.None? then Json.Null else CheckpointJson(checkpoint.value)),
        ("connector_name", Json.Str(connectorName)),
        ("connector_version", Json.Str(connectorVersion)),
        ("limit", Json.Int(limit)),
        ("source_id", Json.Str(sourceId))])
    case DocumentPayload(rawDocumentId) =>
      Json.Obj([("document_id", Json.Str(rawDocumentId))])
    case ResearchPayload(entityId, signalIds, topicKey) =>
      Json.Obj([
        ("entity_id", Json.Str(entityId)),
        ("signal_ids", Json.Arr(Strings(SortBy(BY_TEXT, signalIds)))),
        ("topic_key", Json.Str(topicKey))])
  }

  function EncodePayload(p: WorkPayload): string {
    Json.Write(PayloadJson(p))
  }

  /** The row that inserting a work item writes. */
  function RowOf(w: WorkItem): WorkRow {
    WorkRow(w.payload.Kind(), EncodePayload(w.payload), SCHEMA_VERSION,
            w.idempotencyKey, w.createdAt, w.createdAt)
  }

  // ---- decoding ----

  function KeySet(members: Members): set<string> {
    set i | 0 <= i < |members| :: members[i].0
  }

  /** Dictionary lookup: the last member with the key. */
  function Field(members: Members, key: string): Option<Json.Value> {
    if members == [] then None
    else
      var (k, v) := members[|members| - 1];
      if k == key then Some(v) else Field(members[..|members| - 1], key)
  }

  function StringField(members: Members, key: string): Option<string> {
    match Field(members, key)
    case Some(Str(s)) => Some(s)
    case _ => None
  }

  function OptionalStringField(members: Members, key: string): Option<Option<string>> {
    match Field(members, key)
    case Some(Str(s)) => Some(Some(s))
    case Some(Null) => Some(None)
    case _ => None
  }

  function IntField(members: Members, key: string): Option<int> {
    match Field(members, key)
    case Some(Int(n)) => Some(n)
    case _ => None
  }

  function StringItems(items: seq<Json.Value>): Option<seq<string>> {
    if forall i :: 0 <= i < |items| ==> items[i].Str? then
      Some(seq(|items|, i requires 0 <= i < |items| => if items[i].Str? then items[i].s else ""))
    else None
  }

  const CHECKPOINT_KEYS := {"source_id", "cursor", "watermark", "last_success_at",
                            "connector_version", "revision", "schema_version"}
  const COLLECTION_KEYS := {"source_id", "connector_name", "connector_version", "checkpoint", "limit"}
  const RESEARCH_KEYS := {"entity_id", "signal_ids", "topic_key"}

  function DecodeCheckpoint(env: Env, v: Json.Value): Option<IngestionCheckpoint> {
    if !v.Obj? || KeySet(v.members) != CHECKPOINT_KEYS then None
    else
      match (StringField(v.members, "source_id"), OptionalStringField(v.members, "cursor"),
             OptionalStringField(v.members, "watermark"),
             OptionalStringField(v.members, "last_success_at"),
             StringField(v.members, "connector_version"), IntField(v.members, "revision"),
             StringField(v.members, "schema_version"))
      case (Some(sourceId), Some(cursor), Some(watermark), Some(last), Some(version),
            Some(revision), Some(schema)) =>
        var c := IngestionCheckpoint(sourceId, cursor, watermark, last, version, revision, schema);
        if ValidCheckpoint(env, c) then Some(c) else None
      case _ => None
  }

  function DecodePayload(env: Env, kind: WorkItemKind, v: Json.Value): Option<WorkPayload> {
    if !v.Obj? then None
    else
      var m := v.members;
      match kind
      case Collection =>
        if KeySet(m) != COLLECTION_KEYS then None
        else
          var field := Field(m, "checkpoint");
          var decoded :=
            if field.Some? && field.value != Json.Null then DecodeCheckpoint(env, field.value) else None;
          if field.None? || (field.value != Json.Null && decoded.None?) then None
          else
            (match (StringField(m, "source_id"), StringField(m, "connector_name"),
                    StringField(m, "connector_version"), IntField(m, "limit"))
             case (Some(sourceId), Some(name), Some(version), Some(limit)) =>
               Some(CollectionPayload(sourceId, name, version, decoded, limit))
             case _ => None)
      case DocumentProcessing =>
        if KeySet(m) != {"document_id"} then None
        else
          (match StringField(m, "document_id")
           case Some(id) => Some(DocumentPayload(id))
           case None => None)
      case Research =>
        if KeySet(m) != RESEARCH_KEYS then None
        else
          (match (Field(m, "signal_ids"), StringField(m, "entity_id"), StringField(m, "topic_key"))
           case (Some(Arr(items)), Some(entityId), Some(topicKey)) =>
             (match StringItems(items)
              case Some(signalIds) => Some(ResearchPayload(entityId, signalIds, topicKey))
              case None => None)
           case _ => None)
  }

  function RowToWorkItem(env: Env, id: Id, row: WorkRow): Result<WorkItem, PersistenceError> {
    if row.payloadSchemaVersion != SCHEMA_VERSION then Err(PayloadIncompatible)
    else
      match Json.Loads(row.payloadJson)
      case None => Err(PayloadIncompatible)
      case Some(v) =>
        match DecodePayload(env, row.kind, v)
        case None => Err(PayloadIncompatible)
        case Some(payload) =>
          var w := WorkItem(payload, id, row.idempotencyKey, row.createdAt, row.payloadSchemaVersion);
          if ValidWorkItem(env, w) then Ok(w) else Err(PayloadIncompatible)
  }

  // ---- properties ----

  /** A payload as it comes back from storage: its signal ids are in order. */
  function CanonicalPayload(p: WorkPayload): WorkPayload {
    if p.ResearchPayload? then p.(signalIds := SortBy(BY_TEXT, p.signalIds)) else p
  }

  function Canonical(w: WorkItem): WorkItem {
    w.(payload := CanonicalPayload(w.payload))
  }

  /** Same kind and same fields, the signals in any order. */
  predicate SamePayload(a: WorkPayload, b: WorkPayload) {
    match (a, b)
    case (ResearchPayload(e1, s1, t1), ResearchPayload(e2, s2, t2)) =>
      e1 == e2 && multiset(s1) == multiset(s2) && t1 == t2
    case _ => a == b
  }

  predicate DistinctKeys(members: Members) {
    forall i, j :: 0 <= i < j < |members| ==> members[i].0 != members[j].0
  }

  // ---- what is read ----

  /** The object has exactly these keys. */
  predicate HasKeys(v: Json.Value, keys: set<string>) {
    v.Obj? && KeySet(v.members) == keys
  }

  /** The last member with the key has this value. */
  predicate Says(v: Json.Value, key: string, value: Json.Value)
    requires v.Obj?
  {
    Field(v.members, key) == Some(value)
  }

  lemma StringsRead(items: seq<Json.Value>, texts: seq<string>)
    ensures StringItems(items) == Some(texts) <==> items == Strings(texts)
  {
    if items == Strings(texts) {
      assert StringItems(items).value == texts;
    }
  }

  /** A checkpoint is read from exactly its fields, no more and no less, if it is well formed. */
  lemma CheckpointReadIff(env: Env, v: Json.Value, c: IngestionCheckpoint)
    ensures DecodeCheckpoint(env, v) == Some(c)
       <==> && HasKeys(v, {"source_id", "cursor", "watermark", "last_success_at", "connector_version", "revision",
                           "schema_version"})
            && Says(v, "source_id", Json.Str(c.sourceId)) && Says(v, "cursor", OptionalString(c.cursor))
            && Says(v, "watermark", OptionalString(c.watermark))
            && Says(v, "last_success_at", OptionalString(c.lastSuccessAt))
            && Says(v, "connector_version", Json.Str(c.connectorVersion))
            && Says(v, "revision", Json.Int(c.revision)) && Says(v, "schema_version", Json.Str(c.schemaVersion))
            && ValidCheckpoint(env, c)
  {
    hide KeySet, Field, ValidCheckpoint;
  }

  /** Work is read from exactly the fields of its kind, no more and no less. */
  lemma PayloadReadIff(env: Env, v: Json.Value, p: WorkPayload)
    ensures p.DocumentPayload? ==>
              (DecodePayload(env, DocumentProcessing, v) == Some(p)
               <==> HasKeys(v, {"document_id"}) && Says(v, "document_id", Json.Str(p.rawDocumentId)))
    ensures p.ResearchPayload? ==>
              (DecodePayload(env, Research, v) == Some(p)
               <==> && HasKeys(v, {"entity_id", "signal_ids", "topic_key"})
                    && Says(v, "entity_id", Json.Str(p.entityId)) && Says(v, "topic_key", Json.Str(p.topicKey))
                    && Says(v, "signal_ids", Json.Arr(Strings(p.signalIds))))
  {
    hide KeySet, Field, Strings, StringItems;
    if p.ResearchPayload? && v.Obj? && Field(v.members, "signal_ids").Some? {
      var field := Field(v.members, "signal_ids").value;
      if field.Arr? {
        StringsRead(field.items, p.signalIds);
        var read := StringItems(field.items);
        if read.Some? {
          StringsRead(field.items, read.value);
        }
      }
    }
  }

  /** The same for the work of a collection, whose checkpoint may be null. */
  lemma CollectionReadIff(env: Env, v: Json.Value, p: WorkPayload)
    requires p.CollectionPayload?
    ensures DecodePayload(env, Collection, v) == Some(p)
       <==> && HasKeys(v, {"source_id", "connector_name", "connector_version", "checkpoint", "limit"})
            && Says(v, "source_id", Json.Str(p.sourceId)) && Says(v, "connector_name", Json.Str(p.connectorName))
            && Says(v, "connector_version", Json.Str(p.connectorVersion)) && Says(v, "limit", Json.Int(p.limit))
            && Field(v.members, "checkpoint").Some?
            && var field := Field(v.members, "checkpoint").value;
            if p.checkpoint.None? then field == Json.Null
            else field != Json.Null && DecodeCheckpoint(env, field) == p.checkpoint
  {
    hide KeySet, Field, DecodeCheckpoint;
  }

  /** A row is work exactly for the known schema version and a JSON object of its kind that makes valid work. */
  lemma RowReadIff(env: Env, id: Id, row: WorkRow, w: WorkItem)
    ensures RowToWorkItem(env, id, row) == Ok(w)
       <==> && row.payloadSchemaVersion == "1.0.0" && Json.Loads(row.payloadJson).Some?
            && DecodePayload(env, row.kind, Json.Loads(row.payloadJson).value) == Some(w.payload)
            && w == WorkItem(w.payload, id, row.idempotencyKey, row.createdAt, "1.0.0") && ValidWorkItem(env, w)
    ensures RowToWorkItem(env, id, row).Err? ==> RowToWorkItem(env, id, row) == Err(PayloadIncompatible)
  {
    hide DecodePayload, ValidWorkItem, Json.Loads;
  }

  lemma {:induction false} FieldAt(members: Members, i: nat)
    requires i < |members| && DistinctKeys(members)
    ensures Field(members, members[i].0) == Some(members[i].1)
    ensures members[i].0 in KeySet(members)
  {
    if i < |members| - 1 {
      FieldAt(members[..|members| - 1], i);
    }
  }

  lemma KeysOf(m: Members)
    ensures forall i :: 0 <= i < |m| ==> m[i].0 in KeySet(m)
    ensures forall k :: k in KeySet(m) ==> exists i :: 0 <= i < |m| && m[i].0 == k
  {
  }

  lemma CheckpointJsonExact(c: IngestionCheckpoint)
    ensures Json.Exact(CheckpointJson(c))
  {
  }

  lemma PayloadJsonExact(p: WorkPayload)
    ensures Json.Exact(PayloadJson(p))
  {
    if p.CollectionPayload? && p.checkpoint.Some? {
      CheckpointJsonExact(p.checkpoint.value);
    }
  }

  lemma StringAt(m: Members, i: nat, text: string)
    requires i < |m| && DistinctKeys(m) && m[i].1 == Json.Str(text)
    ensures StringField(m, m[i].0) == Some(text)
  {
    FieldAt(m, i);
  }

  lemma OptionalStringAt(m: Members, i: nat, text: Option<string>)
    requires i < |m| && DistinctKeys(m) && m[i].1 == OptionalString(text)
    ensures OptionalStringField(m, m[i].0) == Some(text)
  {
    FieldAt(m, i);
  }

  lemma IntAt(m: Members, i: nat, n: int)
    requires i < |m| && DistinctKeys(m) && m[i].1 == Json.Int(n)
    ensures IntField(m, m[i].0) == Some(n)
  {
    FieldAt(m, i);
  }

  lemma CheckpointRoundTrip(env: Env, c: IngestionCheckpoint)
    requires ValidCheckpoint(env, c)
    ensures DecodeCheckpoint(env, CheckpointJson(c)) == Some(c)
  {
    hide CheckpointJson, StringField, OptionalStringField, IntField, KeySet, ValidCheckpoint;
    CheckpointKeys(c);
    CheckpointFields(c);
  }

  lemma CheckpointFields(c: IngestionCheckpoint)
    ensures var m := CheckpointJson(c).members;
      && StringField(m, "connector_version") == Some(c.connectorVersion)
      && OptionalStringField(m, "cursor") == Some(c.cursor)
      && OptionalStringField(m, "last_success_at") == Some(c.lastSuccessAt)
      && IntField(m, "revision") == Some(c.revision)
      && StringField(m, "schema_version") == Some(c.schemaVersion)
      && StringField(m, "source_id") == Some(c.sourceId)
      && OptionalStringField(m, "watermark") == Some(c.watermark)
  {
    var m := CheckpointJson(c).members;
    hide StringField, OptionalStringField, IntField, KeySet, OptionalString;
    CheckpointKeys(c);
    StringAt(m, 0, c.connectorVersion);
    OptionalStringAt(m, 1, c.cursor);
    OptionalStringAt(m, 2, c.lastSuccessAt);
    IntAt(m, 3, c.revision);
    StringAt(m, 4, c.schemaVersion);
    StringAt(m, 5, c.sourceId);
    OptionalStringAt(m, 6, c.watermark);
  }

  lemma CheckpointKeys(c: IngestionCheckpoint)
    ensures CheckpointJson(c).Obj?
    ensures DistinctKeys(CheckpointJson(c).members) && KeySet(CheckpointJson(c).members) == CHECKPOINT_KEYS
  {
    hide KeySet, OptionalString;
    var m := CheckpointJson(c).members;
    assert m[0].0 == "connector_version" && m[1].0 == "cursor" && m[2].0 == "last_success_at"
        && m[3].0 == "revision" && m[4].0 == "schema_version" && m[5].0 == "source_id" && m[6].0 == "watermark";
    KeysOfSeven(m);
  }

  lemma KeysOfSeven(m: Members)
    requires |m| == 7
    ensures KeySet(m) == {m[0].0, m[1].0, m[2].0, m[3].0, m[4].0, m[5].0, m[6].0}
  {
  }

  lemma CollectionRoundTrip(env: Env, p: WorkPayload)
    requires ValidPayload(env, p) && p.CollectionPayload?
    ensures DecodePayload(env, Collection, PayloadJson(p)) == Some(p)
  {
    hide PayloadJson, StringField, IntField, Field, KeySet, DecodeCheckpoint, CheckpointJson, ValidCheckpoint;
    CollectionKeys(p);
    CollectionFields(p);
    if p.checkpoint.Some? {
      CheckpointKeys(p.checkpoint.value);
      CheckpointRoundTrip(env, p.checkpoint.value);
    }
  }

  lemma CollectionFields(p: WorkPayload)
    requires p.CollectionPayload?
    ensures var m := PayloadJson(p).members;
      && Field(m, "checkpoint") == Some(if p.checkpoint.None? then Json.Null else CheckpointJson(p.checkpoint.value))
      && StringField(m, "connector_name") == Some(p.connectorName)
      && StringField(m, "connector_version") == Some(p.connectorVersion)
      && IntField(m, "limit") == Some(p.limit)
      && StringField(m, "source_id") == Some(p.sourceId)
  {
    var m := PayloadJson(p).members;
    hide StringField, IntField, Field, KeySet, CheckpointJson;
    CollectionKeys(p);
    FieldAt(m, 0);
    StringAt(m, 1, p.connectorName);
    StringAt(m, 2, p.connectorVersion);
    IntAt(m, 3, p.limit);
    StringAt(m, 4, p.sourceId);
  }

  lemma CollectionKeys(p: WorkPayload)
    requires p.CollectionPayload?
    ensures PayloadJson(p).Obj?
    ensures DistinctKeys(PayloadJson(p).members) && KeySet(PayloadJson(p).members) == COLLECTION_KEYS
  {
    hide KeySet, CheckpointJson;
    var m := PayloadJson(p).members;
    KeysOf(m);
    assert m[0].0 == "checkpoint" && m[1].0 == "connector_name" && m[2].0 == "connector_version"
        && m[3].0 == "limit" && m[4].0 == "source_id";
    assert KeySet(m) == {m[0].0, m[1].0, m[2].0, m[3].0, m[4].0};
  }

  lemma ResearchRoundTrip(env: Env, p: WorkPayload)
    requires ValidPayload(env, p) && p.ResearchPayload?
    ensures DecodePayload(env, Research, PayloadJson(p)) == Some(CanonicalPayload(p))
  {
    var m := PayloadJson(p).members;
    hide Field, KeySet;
    assert DistinctKeys(m);
    FieldAt(m, 0);
    FieldAt(m, 1);
    FieldAt(m, 2);
    KeysOf(m);
    var sorted := SortBy(BY_TEXT, p.signalIds);
    assert StringItems(Strings(sorted)).value == sorted;
  }

  lemma PayloadRoundTrip(env: Env, p: WorkPayload)
    requires ValidPayload(env, p)
    ensures DecodePayload(env, p.Kind(), PayloadJson(p)) == Some(CanonicalPayload(p))
  {
    match p
    case CollectionPayload(_, _, _, _, _) => CollectionRoundTrip(env, p);
    case DocumentPayload(_) => FieldAt(PayloadJson(p).members, 0);
    case ResearchPayload(_, _, _) => ResearchRoundTrip(env, p);
  }

  lemma SortedStaysValid(env: Env, p: WorkPayload)
    requires ValidPayload(env, p)
    ensures ValidPayload(env, CanonicalPayload(p))
  {
    if p.ResearchPayload? {
      SortKeepsElements(BY_TEXT, p.signalIds);
      DistinctByCount(p.signalIds);
      DistinctByCount(SortBy(BY_TEXT, p.signalIds));
    }
  }

  lemma {:induction false} DistinctByCount<T>(s: seq<T>)
    ensures Distinct(s) <==> forall x :: multiset(s)[x] <= 1
  {
    if s != [] {
      var rest := s[1..];
      DistinctByCount(rest);
      assert s == [s[0]] + rest;
      if Distinct(s) {
        assert s[0] !in rest;
        assert Distinct(rest);
      } else {
        var i, j :| 0 <= i < j < |s| && s[i] == s[j];
        if i == 0 {
          assert rest[j - 1] == s[0];
          assert multiset(s)[s[0]] >= 2;
        } else {
          assert rest[i - 1] == rest[j - 1];
          var x :| multiset(rest)[x] > 1;
          assert multiset(s)[x] > 1;
        }
      }
    }
  }

  /**
   * A stored row reads back as the item that was inserted, with research signals in order.
   */
  lemma RowRoundTrip(env: Env, w: WorkItem)
    requires ValidWorkItem(env, w) && w.schemaVersion == SCHEMA_VERSION
    ensures RowToWorkItem(env, w.id, RowOf(w)) == Ok(Canonical(w))
  {
    PayloadJsonExact(w.payload);
    Json.LoadsWrite(PayloadJson(w.payload));
    PayloadRoundTrip(env, w.payload);
    SortedStaysValid(env, w.payload);
  }

  lemma WriteInjective(a: Json.Value, b: Json.Value)
    requires Json.Exact(a) && Json.Exact(b) && Json.Write(a) == Json.Write(b)
    ensures a == b
  {
    Json.LoadsWrite(a);
    Json.LoadsWrite(b);
  }

  lemma StringsInjective(a: seq<string>, b: seq<string>)
    requires Strings(a) == Strings(b)
    ensures a == b
  {
    assert |Strings(a)| == |a| && |Strings(b)| == |b|;
    forall i | 0 <= i < |a|
      ensures a[i] == b[i]
    {
      assert Strings(a)[i] == Strings(b)[i];
    }
  }

  lemma CheckpointJsonEqual(c: IngestionCheckpoint, d: IngestionCheckpoint)
    requires CheckpointJson(c) == CheckpointJson(d)
    ensures c == d
  {
    var x, y := CheckpointJson(c).members, CheckpointJson(d).members;
    assert x[0] == y[0] && x[1] == y[1] && x[2] == y[2] && x[3] == y[3]
        && x[4] == y[4] && x[5] == y[5] && x[6] == y[6];
  }

  lemma PayloadJsonEqual(a: WorkPayload, b: WorkPayload)
    requires PayloadJson(a) == PayloadJson(b)
    ensures SamePayload(a, b)
  {
    var m, n := PayloadJson(a).members, PayloadJson(b).members;
    assert m[0] == n[0];
    match (a, b)
    case (CollectionPayload(_, _, _, c, _), CollectionPayload(_, _, _, d, _)) =>
      assert m[1] == n[1] && m[2] == n[2] && m[3] == n[3] && m[4] == n[4];
      if c.Some? && d.Some? {
        CheckpointJsonEqual(c.value, d.value);
      }
    case (DocumentPayload(_), DocumentPayload(_)) =>
    case (ResearchPayload(_, s, _), ResearchPayload(_, t, _)) =>
      assert m[1] == n[1] && m[2] == n[2];
      StringsInjective(SortBy(BY_TEXT, s), SortBy(BY_TEXT, t));
      TextOrderFacts();
      SortDependsOnElements(BY_TEXT, s, t);
    case _ =>
  }

  /**
   * Comparing encoded payloads, as conflict resolution does, compares kinds and fields: no two
   * different payloads share an encoding, and the order of signals never matters.
   */
  lemma SameEncodingIff(a: WorkPayload, b: WorkPayload)
    ensures EncodePayload(a) == EncodePayload(b) <==> SamePayload(a, b)
  {
    PayloadJsonExact(a);
    PayloadJsonExact(b);
    if EncodePayload(a) == EncodePayload(b) {
      WriteInjective(PayloadJson(a), PayloadJson(b));
      PayloadJsonEqual(a, b);
    }
    if SamePayload(a, b) && a.ResearchPayload? {
      TextOrderFacts();
      SortDependsOnElements(BY_TEXT, a.signalIds, b.signalIds);
    }
  }

  lemma CanonicalEncodesSame(p: WorkPayload)
    ensures EncodePayload(CanonicalPayload(p)) == EncodePayload(p)
  {
    if p.ResearchPayload? {
      SortKeepsElements(BY_TEXT, p.signalIds);
    }
    SameEncodingIff(CanonicalPayload(p), p);
  }
}
