/** The cursor of the RSS connector: a JSON array, then UTF-8, then unpadded base64url. */
module RssCursor {
  import opened Wrappers
  import opened IngestionModels
  import opened Text
  import Json
  import Utf8
  import Base64Url

  /** Publication time and external id of the last delivered entry. */
  type Position = (string, string)

  const PREFIX := "rss-v1:"

  function PositionJson(p: Position): Json.Value {
    Json.Arr([Json.Str(p.0), Json.Str(p.1)])
  }

  function EncodeCursor(p: Position): string {
    PREFIX + Base64Url.Unpad(Base64Url.Encode(Utf8.Encode(Json.Write(PositionJson(p)))))
  }

  /** The JSON text that a cursor carries; `None` stands for a payload that cannot be decoded. */
  function CursorText(encoded: string): Option<string> {
    match Base64Url.Decode(Base64Url.Repad(encoded))
    case None => None
    case Some(bytes) => Utf8.Decode(bytes)
  }

  /** Two non-empty strings. */
  function PositionOf(v: Json.Value): Option<Position> {
    match v
    case Arr(items) =>
      if |items| == 2 && items[0].Str? && items[1].Str? && items[0].s != "" && items[1].s != "" then
        Some((items[0].s, items[1].s))
      else None
    case _ => None
  }

  function DecodeCursor(cursor: Option<string>): Result<Option<Position>, ConnectorFailure> {
    match cursor
    case None => Ok(None)
    case Some(text) =>
      if !StartsWith(text, PREFIX) then Err(Configuration)
      else
        match CursorText(text[|PREFIX|..])
        case None => Err(Configuration)
        case Some(json) =>
          match Json.Loads(json)
          case None => Err(Configuration)
          case Some(v) =>
            match PositionOf(v)
            case None => Err(Configuration)
            case Some(p) => Ok(Some(p))
  }

  /**
   * Decoding an encoded cursor gives back exactly its two strings, whatever characters they
   * hold, unless one is empty: such a cursor is refused.
   */
  lemma CursorRoundTrip(p: Position)
    ensures DecodeCursor(Some(EncodeCursor(p)))
         == if p.0 != "" && p.1 != "" then Ok(Some(p)) else Err(Configuration)
  {
    hide EncodeCursor, CursorText, Json.Loads, Json.Write;
    CarriedText(p);
    Json.LoadsWrite(PositionJson(p));
  }

  /** A cursor carries the JSON text of its position behind the prefix. */
  lemma CarriedText(p: Position)
    ensures StartsWith(EncodeCursor(p), PREFIX)
    ensures CursorText(EncodeCursor(p)[|PREFIX|..]) == Some(Json.Write(PositionJson(p)))
  {
    hide Json.Write, Utf8.Encode, Utf8.Decode, Base64Url.Encode, Base64Url.Decode, Base64Url.Unpad, Base64Url.Repad;
    var bytes := Utf8.Encode(Json.Write(PositionJson(p)));
    Utf8.RoundTrip(Json.Write(PositionJson(p)));
    Base64Url.RoundTrip(bytes);
    assert EncodeCursor(p)[|PREFIX|..] == Base64Url.Unpad(Base64Url.Encode(bytes));
  }

  /** Different positions have different cursors. */
  lemma CursorInjective(p: Position, q: Position)
    requires EncodeCursor(p) == EncodeCursor(q)
    ensures p == q
  {
    hide EncodeCursor, CursorText, Json.Loads, Json.Write;
    CarriedText(p);
    CarriedText(q);
    Json.LoadsWrite(PositionJson(p));
    Json.LoadsWrite(PositionJson(q));
    assert PositionJson(p).items[0] == PositionJson(q).items[0];
    assert PositionJson(p).items[1] == PositionJson(q).items[1];
  }
}

/** The RSS connector from the parsed response on: filter, sort, page, map. */
module RssConnector {
  import opened Wrappers
  import opened IngestionModels
  import opened Deduplication
  import opened ContentText
  import opened RssCursor
  import opened Filtering
  import opened Sorting
  import opened TextOrder
  import CollectionRunner

  datatype FeedEntry = FeedEntry(
    externalId: string, uri: string, publishedAt: string, title: Option<string>, content: string)

  /**
   * The HTTP status, the Retry-After header as a number if it is one, the X-Request-ID header, and
   * the entries of the body or the failure to parse it.
   */
  datatype Response = Response(
    status: int, retryAfter: Option<real>, requestId: Option<string>,
    entries: Result<seq<FeedEntry>, ConnectorFailure>)

  const CONNECTOR := CollectionRunner.Connector("rss", "1.0.0")

  function KeyOf(e: FeedEntry): Position {
    (e.publishedAt, e.externalId)
  }

  const BY_KEY: (FeedEntry, FeedEntry) -> bool := (a, b) => PairAtMost(KeyOf(a), KeyOf(b))

  lemma KeyOrder()
    ensures Preorder(BY_KEY)
  {
    forall x, y
      ensures BY_KEY(x, y) || BY_KEY(y, x)
    {
      PairAtMostTotal(KeyOf(x), KeyOf(y));
    }
    forall x, y, z | BY_KEY(x, y) && BY_KEY(y, z)
      ensures BY_KEY(x, z)
    {
      PairAtMostTransitive(KeyOf(x), KeyOf(y), KeyOf(z));
    }
  }

  predicate Newer(e: FeedEntry, watermark: Option<string>) {
    watermark.Some? ==> Before(watermark.value, e.publishedAt)
  }

  /** Strictly after the position in the order of (published_at, external_id). */
  predicate Beyond(e: FeedEntry, position: Option<Position>) {
    position.Some? ==> !PairAtMost(KeyOf(e), position.value)
  }

  function NewerThan(watermark: Option<string>): FeedEntry -> bool {
    (e: FeedEntry) => Newer(e, watermark)
  }

  function BeyondPosition(position: Option<Position>): FeedEntry -> bool {
    (e: FeedEntry) => Beyond(e, position)
  }

  /** The entries of one page. */
  function Page(entries: seq<FeedEntry>, watermark: Option<string>, position: Option<Position>, limit: nat)
    : seq<FeedEntry>
  {
    var newer := Filter(NewerThan(watermark), entries);
    var beyond := Filter(BeyondPosition(position), newer);
    Slice(SortBy(BY_KEY, beyond), 0, limit)
  }

  function ToDocument(env: Env, sourceId: Id, e: FeedEntry, now: string): Result<RawDocument, ConnectorFailure> {
    match RawDocumentId(env, sourceId, e.externalId)
    case None => Err(InvalidArgument)
    case Some(id) =>
      var d := RawDocument(
        id, sourceId, e.externalId, e.uri, e.publishedAt, now, "application/xml+rss", ContentHash(env, e.content),
        Some(e.content), e.title, None, CONNECTOR.name, CONNECTOR.version, [], SCHEMA_VERSION);
      if ValidDocument(env, d) then Ok(d) else Err(InvalidArgument)
  }

  function ToDocuments(env: Env, sourceId: Id, entries: seq<FeedEntry>, now: string)
    : Result<seq<RawDocument>, ConnectorFailure>
  {
    if entries == [] then Ok([])
    else
      var last := |entries| - 1;
      var front :- ToDocuments(env, sourceId, entries[..last], now);
      var d :- ToDocument(env, sourceId, entries[last], now);
      Ok(front + [d])
  }

  /** `max(0.0, seconds)` */
  function Waiting(seconds: Option<real>): Option<real> {
    if seconds.Some? && seconds.value < 0.0 then Some(0.0) else seconds
  }

  /**
   * The failure that a status stands for: none for success, a retryable one for throttling, with
   * the time to wait, and for server errors.
   */
  function StatusFailure(status: int, retryAfter: Option<real>): (r: Option<ConnectorFailure>)
    ensures r.None? <==> 200 <= status < 300
    ensures r.Some? && r.value.RateLimited? <==> status == 429
    ensures r.Some? && r.value.RateLimited? ==>
              && (r.value.retryAfter.Some? <==> retryAfter.Some?)
              && (retryAfter.Some? && retryAfter.value >= 0.0 ==> r.value.retryAfter == retryAfter)
              && (retryAfter.Some? && retryAfter.value < 0.0 ==> r.value.retryAfter == Some(0.0))
    ensures r == Some(Unavailable) <==> status >= 500
    ensures r == Some(Authentication) <==> status in {401, 403}
    ensures r == Some(Permanent) <==> status < 200 || (300 <= status < 500 && status !in {401, 403, 429})
  {
    if status == 429 then Some(RateLimited(Waiting(retryAfter)))
    else if status == 401 || status == 403 then Some(Authentication)
    else if status >= 500 then Some(Unavailable)
    else if status < 200 || status >= 300 then Some(Permanent)
    else None
  }

  // ---- what a page is ----

  /** The text comes strictly after the other one. */
  ghost predicate Past(a: string, b: string) {
    a != b && Lexicographic(a, b)
  }

  /**
   * Published after the watermark, and behind the position: published after it, or at its time
   * with an id that comes after its id.
   */
  ghost predicate IsDue(e: FeedEntry, watermark: Option<string>, position: Option<Position>) {
    && (watermark.Some? ==> Past(watermark.value, e.publishedAt))
    && (position.Some? ==>
          || Past(position.value.0, e.publishedAt)
          || (position.value.0 == e.publishedAt && Past(position.value.1, e.externalId)))
  }

  lemma DueIff(e: FeedEntry, watermark: Option<string>, position: Option<Position>)
    ensures Newer(e, watermark) && Beyond(e, position) <==> IsDue(e, watermark, position)
  {
    hide AtMost, Lexicographic;
    if watermark.Some? {
      BeforeIff(watermark.value, e.publishedAt);
    }
    if position.Some? {
      BeforeIff(position.value.0, e.publishedAt);
      BeforeIff(position.value.1, e.externalId);
      AtMostTotal(e.publishedAt, e.publishedAt);
    }
  }

  lemma BeforeIff(a: string, b: string)
    ensures !AtMost(b, a) <==> Past(a, b)
  {
    AtMostIff(a, b);
    AtMostTotal(a, b);
    if AtMost(a, b) && AtMost(b, a) {
      AtMostAntisymmetric(a, b);
    }
  }

  /**
   * An entry of the page is due: newer than the watermark and beyond the position. A due entry is
   * missing from the page only when the page is full and nothing in it comes later.
   */
  ghost predicate Placed(entries: seq<FeedEntry>, watermark: Option<string>, position: Option<Position>,
                         limit: nat, page: seq<FeedEntry>, e: FeedEntry)
  {
    var (taken, given) := (multiset(page)[e], multiset(entries)[e]);
    && taken <= given
    && (taken > 0 ==> IsDue(e, watermark, position))
    && (taken < given && IsDue(e, watermark, position) ==>
          |page| == limit && forall i :: 0 <= i < |page| ==> PairAtMost(KeyOf(page[i]), KeyOf(e)))
  }

  /** The first entries that are due, in order, as many as the limit allows. */
  ghost predicate IsFirstDue(entries: seq<FeedEntry>, watermark: Option<string>, position: Option<Position>,
                             limit: nat, page: seq<FeedEntry>)
  {
    |page| <= limit && Sorted(BY_KEY, page) && forall e :: Placed(entries, watermark, position, limit, page, e)
  }

  lemma PageIsFirstDue(entries: seq<FeedEntry>, watermark: Option<string>, position: Option<Position>, limit: nat)
    ensures IsFirstDue(entries, watermark, position, limit, Page(entries, watermark, position, limit))
  {
    hide SortBy, Filter, Newer, Beyond, PairAtMost, IsFirstDue;
    var newer := Filter(NewerThan(watermark), entries);
    var due := Filter(BeyondPosition(position), newer);
    KeyOrder();
    SortSorted(BY_KEY, due);
    SortKeepsElements(BY_KEY, due);
    forall e
      ensures multiset(SortBy(BY_KEY, due))[e]
           == if Newer(e, watermark) && Beyond(e, position) then multiset(entries)[e] else 0
    {
      FilterCounts(BeyondPosition(position), newer, e);
      FilterCounts(NewerThan(watermark), entries, e);
    }
    FirstOfSorted(entries, watermark, position, limit, SortBy(BY_KEY, due));
  }

  lemma FirstOfSorted(entries: seq<FeedEntry>, watermark: Option<string>, position: Option<Position>, limit: nat,
                      due: seq<FeedEntry>)
    requires Sorted(BY_KEY, due)
    requires forall e :: multiset(due)[e]
                         == if Newer(e, watermark) && Beyond(e, position) then multiset(entries)[e] else 0
    ensures IsFirstDue(entries, watermark, position, limit, Slice(due, 0, limit))
  {
    hide Newer, Beyond, PairAtMost, IsDue;
    var page := Slice(due, 0, limit);
    var n := |page|;
    assert page == due[..n];
    assert Sorted(BY_KEY, page);
    forall e
      ensures Placed(entries, watermark, position, limit, page, e)
    {
      RestComesLater(due, n, e);
      DueIff(e, watermark, position);
    }
  }

  /** In a sorted sequence, what is missing from a beginning comes no earlier than what is in it. */
  lemma RestComesLater(due: seq<FeedEntry>, n: nat, e: FeedEntry)
    requires Sorted(BY_KEY, due) && n <= |due|
    ensures multiset(due[..n])[e] <= multiset(due)[e]
    ensures multiset(due[..n])[e] < multiset(due)[e] ==>
              n < |due| && forall i :: 0 <= i < n ==> PairAtMost(KeyOf(due[i]), KeyOf(e))
  {
    hide PairAtMost;
    assert due == due[..n] + due[n..];
    if multiset(due[..n])[e] < multiset(due)[e] {
      assert e in multiset(due[n..]);
      var j :| 0 <= j < |due[n..]| && due[n..][j] == e;
      assert due[n + j] == e;
      forall i | 0 <= i < n
        ensures PairAtMost(KeyOf(due[i]), KeyOf(e))
      {
        assert BY_KEY(due[i], due[n + j]);
      }
    }
  }

  /**
   * A batch of a successful collection: nothing for an unchanged feed; otherwise the documents of
   * the first entries that are due, and a cursor behind the last of them.
   */
  ghost predicate Delivered(env: Env, sourceId: Id, response: Response, checkpoint: Option<IngestionCheckpoint>,
                            limit: int, now: string, batch: CollectionBatch)
  {
    && batch.collectedAt == now && !batch.isPartial && DistinctIds(batch.records)
    && if response.status == 304 then batch.records == [] && batch.nextCursor == None && batch.providerRunId == None
       else
         && batch.providerRunId == response.requestId
         && 200 <= response.status < 300 && response.entries.Ok? && limit > 0
         && DecodeCursor(CursorOf(checkpoint)).Ok?
         && exists page ::
              && IsFirstDue(response.entries.value, WatermarkOf(checkpoint), DecodeCursor(CursorOf(checkpoint)).value,
                            limit, page)
              && ToDocuments(env, sourceId, page, now) == Ok(batch.records)
              && batch.nextCursor == CursorAfter(page, CursorOf(checkpoint))
  }

  lemma SpecDelivers(env: Env, sourceId: Id, response: Response, checkpoint: Option<IngestionCheckpoint>, limit: int,
                     now: string)
    requires CollectSpec(env, sourceId, response, checkpoint, limit, now).Ok?
    ensures Delivered(env, sourceId, response, checkpoint, limit, now,
                      CollectSpec(env, sourceId, response, checkpoint, limit, now).value)
  {
    hide EncodeCursor, DecodeCursor, ToDocuments, IsFirstDue, Page;
    if response.status != 304 {
      PageIsFirstDue(response.entries.value, WatermarkOf(checkpoint), DecodeCursor(CursorOf(checkpoint)).value, limit);
    }
  }

  /**
   * When a collection fails before any entry is read: for the limit, for a checkpoint of another
   * source or version, for the status unless the feed is unchanged, for the body, and for a cursor
   * that has no position.
   */
  lemma CollectRefuses(env: Env, sourceId: Id, response: Response, checkpoint: Option<IngestionCheckpoint>, limit: int,
                       now: string)
    ensures var r := CollectSpec(env, sourceId, response, checkpoint, limit, now);
      if limit <= 0 then r == Err(InvalidArgument)
      else if checkpoint.Some? && (checkpoint.value.sourceId, checkpoint.value.connectorVersion) != (sourceId, "1.0.0")
      then r == Err(Configuration)
      else if response.status == 304 then r.Ok? <==> env.Timestamp(now)
      else if !(200 <= response.status < 300)
      then r.Err? && Some(r.error) == StatusFailure(response.status, response.retryAfter)
      else if response.entries.Err? then r == Err(response.entries.error)
      else DecodeCursor(CursorOf(checkpoint)).Err? ==> r == Err(Configuration)
  {
    hide DecodeCursor, ToDocuments, Page;
    RequestRefusedIff(sourceId, CONNECTOR.version, checkpoint, limit);
    CursorRefused(CursorOf(checkpoint));
  }

  lemma CursorRefused(cursor: Option<string>)
    ensures DecodeCursor(cursor).Err? ==> DecodeCursor(cursor) == Err(Configuration)
  {
    hide CursorText, Json.Loads, PositionOf;
  }

  function CursorAfter(page: seq<FeedEntry>, cursor: Option<string>): Option<string> {
    if page != [] then Some(EncodeCursor(KeyOf(page[|page| - 1]))) else cursor
  }

  method Collect(env: Env, sourceId: Id, response: Response, checkpoint: Option<IngestionCheckpoint>, limit: int,
                 now: string)
    returns (r: Result<CollectionBatch, ConnectorFailure>)
    ensures r == CollectSpec(env, sourceId, response, checkpoint, limit, now)
    ensures r.Ok? ==> Delivered(env, sourceId, response, checkpoint, limit, now, r.value)
  {
    hide EncodeCursor, DecodeCursor, ToDocuments, ValidBatch, Delivered, IsFirstDue, SortBy, Filter;
    ghost var spec := CollectSpec(env, sourceId, response, checkpoint, limit, now);
    if spec.Ok? {
      SpecDelivers(env, sourceId, response, checkpoint, limit, now);
    }
    var checked := CheckRequest(sourceId, CONNECTOR.version, checkpoint, limit);
    if checked.Err? {
      return Err(checked.error);
    }
    if response.status == 304 {
      var empty := CollectionBatch([], now, None, None, false);
      return if ValidBatch(env, empty) then Ok(empty) else Err(InvalidArgument);
    }
    var failure := StatusFailure(response.status, response.retryAfter);
    if failure.Some? {
      return Err(failure.value);
    }
    var entries :- response.entries;
    entries := Keep(NewerThan(WatermarkOf(checkpoint)), entries);
    var position :- DecodeCursor(CursorOf(checkpoint));
    entries := Keep(BeyondPosition(position), entries);
    entries := SortInPlace(entries);
    var selected := Slice(entries, 0, limit);
    var documents :- ToDocuments(env, sourceId, selected, now);
    var batch := CollectionBatch(documents, now, CursorAfter(selected, CursorOf(checkpoint)), response.requestId, false);
    return if ValidBatch(env, batch) then Ok(batch) else Err(InvalidArgument);
  }

  /** The comprehension that keeps some of the entries. */
  method Keep(p: FeedEntry -> bool, entries: seq<FeedEntry>) returns (kept: seq<FeedEntry>)
    ensures kept == Filter(p, entries)
  {
    kept := [];
    for i := 0 to |entries|
      invariant kept + Filter(p, entries[i..]) == Filter(p, entries)
    {
      var rest := entries[i..];
      assert rest[1..] == entries[i + 1..];
      if p(entries[i]) {
        kept := kept + [entries[i]];
      }
    }
    assert entries[|entries|..] == [];
  }

  function WithKey(key: Position): FeedEntry -> bool {
    (e: FeedEntry) => KeyOf(e) == key
  }

  /**
   * `entries.sort(key=...)`: the same entries, in the order of their keys, and those with one
   * key in the order they had.
   */
  method SortInPlace(entries: seq<FeedEntry>) returns (sorted: seq<FeedEntry>)
    ensures sorted == SortBy(BY_KEY, entries)
    ensures Sorted(BY_KEY, sorted) && multiset(sorted) == multiset(entries)
    ensures forall key :: Filter(WithKey(key), sorted) == Filter(WithKey(key), entries)
  {
    sorted := [];
    for i := |entries| downto 0
      invariant sorted == SortBy(BY_KEY, entries[i..])
    {
      assert entries[i..][1..] == entries[i + 1..];
      sorted := Insert(BY_KEY, entries[i], sorted);
    }
    assert entries[0..] == entries;
    SortFacts(entries);
  }

  lemma SortFacts(entries: seq<FeedEntry>)
    ensures Sorted(BY_KEY, SortBy(BY_KEY, entries)) && multiset(SortBy(BY_KEY, entries)) == multiset(entries)
    ensures forall key :: Filter(WithKey(key), SortBy(BY_KEY, entries)) == Filter(WithKey(key), entries)
  {
    hide SortBy, Filter;
    KeyOrder();
    SortSorted(BY_KEY, entries);
    SortKeepsElements(BY_KEY, entries);
    forall key
      ensures Filter(WithKey(key), SortBy(BY_KEY, entries)) == Filter(WithKey(key), entries)
    {
      PairAtMostTotal(key, key);
      SortStable(BY_KEY, WithKey(key), entries);
    }
  }

  /** What one collection returns. */
  function CollectSpec(env: Env, sourceId: Id, response: Response, checkpoint: Option<IngestionCheckpoint>,
                       limit: int, now: string): Result<CollectionBatch, ConnectorFailure>
  {
    var _ :- CheckRequest(sourceId, CONNECTOR.version, checkpoint, limit);
    if response.status == 304 then
      var empty := CollectionBatch([], now, None, None, false);
      if ValidBatch(env, empty) then Ok(empty) else Err(InvalidArgument)
    else if StatusFailure(response.status, response.retryAfter).Some? then
      Err(StatusFailure(response.status, response.retryAfter).value)
    else
      var entries :- response.entries;
      var position :- DecodeCursor(CursorOf(checkpoint));
      var selected := Page(entries, WatermarkOf(checkpoint), position, limit);
      var documents :- ToDocuments(env, sourceId, selected, now);
      var batch := CollectionBatch(documents, now, CursorAfter(selected, CursorOf(checkpoint)), response.requestId, false);
      if ValidBatch(env, batch) then Ok(batch) else Err(InvalidArgument)
  }
}
