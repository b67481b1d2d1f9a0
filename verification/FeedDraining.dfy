/** Collecting a feed page by page: nothing is repeated and nothing is left out. */
module FeedDraining {
  import opened Wrappers
  import opened ContentText
  import opened Deduplication
  import opened IngestionModels
  import opened RssCursor
  import opened RssConnector
  import opened Filtering
  import opened Sorting
  import opened TextOrder

  // ---- one page ----

  function DeliveredBy(position: Option<Position>): FeedEntry -> bool {
    (e: FeedEntry) => !Beyond(e, position)
  }

  function Ordered(feed: seq<FeedEntry>): seq<FeedEntry> {
    SortBy(BY_KEY, feed)
  }

  /** The entries at or before a position, in order. */
  function UpTo(feed: seq<FeedEntry>, position: Option<Position>): seq<FeedEntry> {
    Ordered(Filter(DeliveredBy(position), feed))
  }

  /** The entries after a position, in order. */
  function After(feed: seq<FeedEntry>, position: Option<Position>): seq<FeedEntry> {
    Ordered(Filter(BeyondPosition(position), feed))
  }

  lemma OrderedSorted(feed: seq<FeedEntry>)
    ensures forall i, j :: 0 <= i <= j < |Ordered(feed)| ==> PairAtMost(KeyOf(Ordered(feed)[i]), KeyOf(Ordered(feed)[j]))
  {
    KeyOrder();
    SortSorted(BY_KEY, feed);
    var s := Ordered(feed);
    forall i, j | 0 <= i <= j < |s|
      ensures PairAtMost(KeyOf(s[i]), KeyOf(s[j]))
    {
      if i < j {
        assert BY_KEY(s[i], s[j]);
      } else {
        PairAtMostTotal(KeyOf(s[i]), KeyOf(s[i]));
      }
    }
  }

  /** A position cuts the ordered feed in two. */
  lemma CutAt(feed: seq<FeedEntry>, position: Option<Position>, k: nat)
    requires k <= |Ordered(feed)|
    requires forall i :: 0 <= i < k ==> !Beyond(Ordered(feed)[i], position)
    requires forall i :: k <= i < |Ordered(feed)| ==> Beyond(Ordered(feed)[i], position)
    ensures UpTo(feed, position) == Ordered(feed)[..k] && After(feed, position) == Ordered(feed)[k..]
  {
    hide Filter, SortBy, Beyond;
    KeyOrder();
    FilterOfSort(BY_KEY, BeyondPosition(position), feed);
    FilterOfSort(BY_KEY, DeliveredBy(position), feed);
    FilterAtCut(BeyondPosition(position), Ordered(feed), k);
    FilterBeforeCut(DeliveredBy(position), Ordered(feed), k);
  }

  /** Where the position cuts the ordered feed. */
  lemma {:induction false} CutExists(feed: seq<FeedEntry>, position: Option<Position>) returns (k: nat)
    ensures k <= |Ordered(feed)|
    ensures forall i :: 0 <= i < k ==> !Beyond(Ordered(feed)[i], position)
    ensures forall i :: k <= i < |Ordered(feed)| ==> Beyond(Ordered(feed)[i], position)
  {
    var s := Ordered(feed);
    OrderedSorted(feed);
    k := 0;
    while k < |s| && !Beyond(s[k], position)
      invariant k <= |s|
      invariant forall i :: 0 <= i < k ==> !Beyond(s[i], position)
    {
      k := k + 1;
    }
    forall i | k <= i < |s|
      ensures Beyond(s[i], position)
    {
      if position.Some? && PairAtMost(KeyOf(s[i]), position.value) {
        PairAtMostTransitive(KeyOf(s[k]), KeyOf(s[i]), position.value);
      }
    }
  }

  /** Where the next collection starts. */
  function NextPosition(page: seq<FeedEntry>, position: Option<Position>): Option<Position> {
    if page == [] then position else Some(KeyOf(page[|page| - 1]))
  }

  lemma PageIsSlice(feed: seq<FeedEntry>, position: Option<Position>, limit: nat)
    ensures Page(feed, None, position, limit) == Slice(After(feed, position), 0, limit)
  {
    FilterAll(NewerThan(None), feed);
  }

  /**
   * Nothing is skipped at the end of a page exactly when the page does not end between two
   * entries with one key: then the rest is what the next position leaves. For any feed.
   */
  lemma NothingSkippedIff(feed: seq<FeedEntry>, position: Option<Position>, limit: nat)
    requires limit > 0
    ensures var (all, page) := (After(feed, position), Page(feed, None, position, limit));
      all == page + After(feed, NextPosition(page, position))
      <==> (|all| > limit ==> KeyOf(all[limit - 1]) != KeyOf(all[limit]))
  {
    hide Page, UpTo, After, Ordered, PairAtMost;
    PageIsSlice(feed, position, limit);
    var k := CutExists(feed, position);
    CutAt(feed, position, k);
    var s, all, page := Ordered(feed), After(feed, position), Page(feed, None, position, limit);
    if all == [] {
      assert page == [];
    } else {
      var n := |page|;
      assert all == s[k..] && page == all[..n] && n > 0;
      assert page == s[k..k + n];
      assert page[n - 1] == s[k + n - 1];
      var next := NextPosition(page, position);
      OrderedSorted(feed);
      var m := CutExists(feed, next);
      CutAt(feed, next, m);
      assert !Beyond(s[k + n - 1], next);
      assert m >= k + n;
      assert all == page + s[k + n..];
      if m == k + n {
        if |all| > limit {
          assert Beyond(s[k + n], next) && all[limit] == s[k + n];
          PairAtMostTotal(KeyOf(s[k + n]), KeyOf(s[k + n]));
        }
      } else {
        assert |page + s[m..]| < |all|;
        assert !Beyond(s[k + n], next) && |all| > limit && all[limit] == s[k + n];
        PairAtMostAntisymmetric(KeyOf(s[k + n - 1]), KeyOf(s[k + n]));
      }
    }
  }

  // ---- distinct keys ----

  predicate DistinctKeys(feed: seq<FeedEntry>) {
    forall i, j :: 0 <= i < j < |feed| ==> KeyOf(feed[i]) != KeyOf(feed[j])
  }

  lemma {:induction false} DistinctByKeyCount(feed: seq<FeedEntry>, other: seq<FeedEntry>)
    requires DistinctKeys(feed) && multiset(feed) == multiset(other)
    ensures DistinctKeys(other)
  {
    forall i, j | 0 <= i < j < |other|
      ensures KeyOf(other[i]) != KeyOf(other[j])
    {
      var x, y := other[i], other[j];
      assert x in multiset(feed) && y in multiset(feed);
      var a :| 0 <= a < |feed| && feed[a] == x;
      if x == y {
        TwiceCounted(other, i, j);
        OnceCounted(feed, a);
      } else {
        var b :| 0 <= b < |feed| && feed[b] == y;
      }
    }
  }

  lemma TwiceCounted<T>(s: seq<T>, i: nat, j: nat)
    requires i < j < |s| && s[i] == s[j]
    ensures multiset(s)[s[i]] >= 2
  {
    assert s == s[..i] + [s[i]] + s[i + 1..j] + [s[j]] + s[j + 1..];
  }

  lemma OnceCounted(feed: seq<FeedEntry>, a: nat)
    requires DistinctKeys(feed) && a < |feed|
    ensures multiset(feed)[feed[a]] == 1
  {
    assert feed == feed[..a] + [feed[a]] + feed[a + 1..];
    assert feed[a] !in feed[..a] && feed[a] !in feed[a + 1..];
  }

  lemma OrderedDistinct(feed: seq<FeedEntry>)
    requires DistinctKeys(feed)
    ensures DistinctKeys(Ordered(feed))
  {
    SortKeepsElements(BY_KEY, feed);
    DistinctByKeyCount(feed, Ordered(feed));
  }

  /** With distinct keys, a page is appended to what was delivered before. */
  lemma PageAppends(feed: seq<FeedEntry>, position: Option<Position>, limit: nat)
    requires DistinctKeys(feed)
    ensures var page := Page(feed, None, position, limit);
      && UpTo(feed, NextPosition(page, position)) == UpTo(feed, position) + page
      && After(feed, position) == page + After(feed, NextPosition(page, position))
      && |page| == if limit < |After(feed, position)| then limit else |After(feed, position)|
  {
    hide Page, UpTo, After, Ordered, PairAtMost;
    PageIsSlice(feed, position, limit);
    var k := CutExists(feed, position);
    CutAt(feed, position, k);
    var s, page := Ordered(feed), Page(feed, None, position, limit);
    var n := |page|;
    assert page == s[k..k + n];
    if n > 0 {
      var next := NextPosition(page, position);
      assert page[n - 1] == s[k + n - 1];
      OrderedSorted(feed);
      OrderedDistinct(feed);
      forall i | k + n <= i < |s|
        ensures Beyond(s[i], next)
      {
        if PairAtMost(KeyOf(s[i]), KeyOf(s[k + n - 1])) {
          PairAtMostAntisymmetric(KeyOf(s[i]), KeyOf(s[k + n - 1]));
        }
      }
      CutAt(feed, next, k + n);
      assert s[..k + n] == s[..k] + s[k..k + n];
      assert s[k..] == s[k..k + n] + s[k + n..];
    }
  }

  // ---- many pages ----

  /** What a sequence of collections delivered, and where it stands. */
  datatype Progress = Progress(entries: seq<FeedEntry>, position: Option<Position>)

  /** Collection `i` sees `feeds[i]` and asks for `limits[i]` entries, starting where the last one stopped. */
  function Collected(feeds: seq<seq<FeedEntry>>, limits: seq<nat>): Progress
    requires |feeds| == |limits|
  {
    if feeds == [] then Progress([], None)
    else
      var last := |feeds| - 1;
      var before := Collected(feeds[..last], limits[..last]);
      var page := Page(feeds[last], None, before.position, limits[last]);
      Progress(before.entries + page, NextPosition(page, before.position))
  }

  lemma NothingCollected(feeds: seq<seq<FeedEntry>>, limits: seq<nat>)
    requires feeds == [] && limits == []
    ensures Collected(feeds, limits) == Progress([], None)
  {
  }

  lemma CollectedStep(feeds: seq<seq<FeedEntry>>, limits: seq<nat>)
    requires |feeds| == |limits| > 0
    ensures var last := |feeds| - 1;
      var before := Collected(feeds[..last], limits[..last]);
      var page := Page(feeds[last], None, before.position, limits[last]);
      Collected(feeds, limits) == Progress(before.entries + page, NextPosition(page, before.position))
  {
    hide Page, NextPosition;
  }

  /** Between two collections the feed changed only beyond the position reached. */
  ghost predicate GrowsBeyond(feeds: seq<seq<FeedEntry>>, limits: seq<nat>)
    requires |feeds| == |limits|
  {
    forall i :: 0 < i < |feeds| ==>
      UpTo(feeds[i], Collected(feeds[..i], limits[..i]).position)
      == UpTo(feeds[i - 1], Collected(feeds[..i], limits[..i]).position)
  }

  lemma NothingUpToNone(feed: seq<FeedEntry>)
    ensures UpTo(feed, None) == [] && After(feed, None) == Ordered(feed)
  {
    FilterAll(DeliveredBy(None), feed);
    FilterAll(BeyondPosition(None), feed);
  }

  /**
   * However the feed grows beyond the cursor, the pages put together are always exactly the
   * entries up to the cursor, in order: no repeat and no omission.
   */
  lemma {:induction false} GrowingFeedDelivered(feeds: seq<seq<FeedEntry>>, limits: seq<nat>)
    requires |feeds| == |limits| > 0 && GrowsBeyond(feeds, limits)
    requires forall i :: 0 <= i < |feeds| ==> DistinctKeys(feeds[i])
    ensures var p := Collected(feeds, limits);
            p.entries == UpTo(feeds[|feeds| - 1], p.position)
  {
    var last := |feeds| - 1;
    var before := Collected(feeds[..last], limits[..last]);
    PageAppends(feeds[last], before.position, limits[last]);
    if last == 0 {
      NothingUpToNone(feeds[0]);
    } else {
      GrowsBefore(feeds, limits);
      GrowingFeedDelivered(feeds[..last], limits[..last]);
    }
  }

  lemma GrowsBefore(feeds: seq<seq<FeedEntry>>, limits: seq<nat>)
    requires |feeds| == |limits| > 0 && GrowsBeyond(feeds, limits)
    ensures GrowsBeyond(feeds[..|feeds| - 1], limits[..|feeds| - 1])
  {
    var last := |feeds| - 1;
    forall i | 0 < i < last
      ensures feeds[..last][..i] == feeds[..i] && limits[..last][..i] == limits[..i]
    {
    }
    forall i | 0 < i < last
      ensures UpTo(feeds[..last][i], Collected(feeds[..last][..i], limits[..last][..i]).position)
           == UpTo(feeds[..last][i - 1], Collected(feeds[..last][..i], limits[..last][..i]).position)
    {
      assert UpTo(feeds[i], Collected(feeds[..i], limits[..i]).position)
          == UpTo(feeds[i - 1], Collected(feeds[..i], limits[..i]).position);
    }
  }

  /** An empty page of a positive limit means that everything was delivered; the cursor then stays. */
  lemma EmptyPageMeansDrained(feed: seq<FeedEntry>, position: Option<Position>, limit: nat)
    requires DistinctKeys(feed) && limit > 0
    ensures var page := Page(feed, None, position, limit);
      && (page == [] <==> UpTo(feed, position) == Ordered(feed))
      && (page == [] ==> NextPosition(page, position) == position)
  {
    hide Page, UpTo, After, Ordered, PairAtMost;
    PageAppends(feed, position, limit);
    var k := CutExists(feed, position);
    CutAt(feed, position, k);
    assert Ordered(feed) == Ordered(feed)[..k] + Ordered(feed)[k..];
  }

  function Total(limits: seq<nat>): nat {
    if limits == [] then 0 else Total(limits[..|limits| - 1]) + limits[|limits| - 1]
  }

  /** Every collection sees the same feed. */
  function Repeated(feed: seq<FeedEntry>, n: nat): seq<seq<FeedEntry>> {
    seq(n, i => feed)
  }

  /**
   * A feed that stays as it is, is delivered in order: after any limits, the pages put together
   * are the first entries of the ordered feed, as many as were asked for in all.
   */
  lemma {:induction false} FixedFeedDrained(feed: seq<FeedEntry>, limits: seq<nat>)
    requires DistinctKeys(feed)
    ensures var p := Collected(Repeated(feed, |limits|), limits);
      && p.entries == Slice(Ordered(feed), 0, Total(limits))
      && Ordered(feed) == p.entries + After(feed, p.position)
  {
    hide Page, UpTo, After, Ordered, Collected, NextPosition, DistinctKeys;
    var n := |limits|;
    NothingUpToNone(feed);
    if n == 0 {
      NothingCollected(Repeated(feed, 0), limits);
    } else {
      FixedFeedDrained(feed, limits[..n - 1]);
      assert Repeated(feed, n)[..n - 1] == Repeated(feed, n - 1) && Repeated(feed, n)[n - 1] == feed;
      CollectedStep(Repeated(feed, n), limits);
      var before := Collected(Repeated(feed, n - 1), limits[..n - 1]);
      PageAppends(feed, before.position, limits[n - 1]);
      var page := Page(feed, None, before.position, limits[n - 1]);
      var all := Ordered(feed);
      assert all == before.entries + page + After(feed, NextPosition(page, before.position));
      assert before.entries + page == all[..|before.entries| + |page|];
    }
  }

  // ---- the connector's own collections ----

  lemma {:induction false} MappedEntries(env: Env, sourceId: Id, entries: seq<FeedEntry>, now: string)
    requires ToDocuments(env, sourceId, entries, now).Ok?
    ensures var documents := ToDocuments(env, sourceId, entries, now).value;
      && |documents| == |entries|
      && forall i :: 0 <= i < |entries| ==> Ok(documents[i]) == ToDocument(env, sourceId, entries[i], now)
  {
    hide ToDocument;
    if entries != [] {
      MappedEntries(env, sourceId, entries[..|entries| - 1], now);
    }
  }

  lemma KeyOfDocument(env: Env, sourceId: Id, e: FeedEntry, now: string)
    requires ToDocument(env, sourceId, e, now).Ok?
    ensures e.publishedAt != "" && e.externalId != ""
  {
    hide RawDocumentId, ContentHash;
  }

  /** A cursor made of a page of documents stands for the position after the page. */
  lemma CursorOfPage(env: Env, sourceId: Id, page: seq<FeedEntry>, now: string, cursor: Option<string>)
    requires ToDocuments(env, sourceId, page, now).Ok? && DecodeCursor(cursor).Ok?
    ensures DecodeCursor(CursorAfter(page, cursor)) == Ok(NextPosition(page, DecodeCursor(cursor).value))
  {
    hide DecodeCursor, EncodeCursor, ToDocuments, ToDocument;
    if page != [] {
      MappedEntries(env, sourceId, page, now);
      KeyOfDocument(env, sourceId, page[|page| - 1], now);
      CursorRoundTrip(KeyOf(page[|page| - 1]));
    }
  }

  /**
   * What a successful collection returns, whatever the checkpoint: nothing and no cursor when the
   * feed is unchanged; otherwise the documents of the page behind its cursor and watermark, and a
   * cursor that stands for the position after them. Without a watermark these are the steps of
   * `Collected`.
   */
  lemma CollectionIsOnePage(env: Env, sourceId: Id, response: Response, checkpoint: Option<IngestionCheckpoint>,
                            limit: int, now: string)
    requires CollectSpec(env, sourceId, response, checkpoint, limit, now).Ok?
    ensures var batch := CollectSpec(env, sourceId, response, checkpoint, limit, now).value;
      && limit > 0
      && if response.status == 304 then batch.records == [] && batch.nextCursor == None
         else
           && response.entries.Ok? && DecodeCursor(CursorOf(checkpoint)).Ok?
           && var position := DecodeCursor(CursorOf(checkpoint)).value;
              var page := Page(response.entries.value, WatermarkOf(checkpoint), position, limit);
           && ToDocuments(env, sourceId, page, now) == Ok(batch.records)
           && DecodeCursor(batch.nextCursor) == Ok(NextPosition(page, position))
  {
    hide DecodeCursor, EncodeCursor, ToDocuments, Page;
    if response.status != 304 {
      var position := DecodeCursor(CursorOf(checkpoint)).value;
      CursorOfPage(env, sourceId, Page(response.entries.value, WatermarkOf(checkpoint), position, limit), now,
                   CursorOf(checkpoint));
    }
  }
}

/** The documents that the entries of a feed become. */
module FeedDocuments {
  import opened Wrappers
  import opened IngestionModels
  import opened Deduplication
  import opened IngestionTables
  import opened CollectionReplay
  import opened ContentText
  import opened RssCursor
  import opened RssConnector
  import opened FeedDraining
  import opened Text
  import FilingFixture

  /** The entry that a document was made of. */
  function EntryOf(d: RawDocument): FeedEntry {
    FeedEntry(d.externalId, d.canonicalUri, d.publishedAt, d.title, if d.content.Some? then d.content.value else "")
  }

  function EntriesOf(records: seq<RawDocument>): seq<FeedEntry> {
    seq(|records|, i requires 0 <= i < |records| => EntryOf(records[i]))
  }

  lemma DocumentOfEntry(env: Env, sourceId: Id, e: FeedEntry, now: string)
    requires ToDocument(env, sourceId, e, now).Ok?
    ensures var d := ToDocument(env, sourceId, e, now).value;
      && DerivedId(env, d) && DocumentKeyOf(d) == (sourceId, e.externalId) && d.retrievedAt == now
      && EntryOf(d) == e && Stored(d) == d && d.sourceId == sourceId
      && ValidDocument(env, d) && d.connectorName == CONNECTOR.name && d.connectorVersion == CONNECTOR.version
  {
    hide RawDocumentId, ContentHash;
  }

  /** The document says what the entry says: each field comes from the one it belongs to. */
  ghost predicate TellsEntry(env: Env, sourceId: Id, e: FeedEntry, d: RawDocument) {
    && d.sourceId == sourceId && d.externalId == e.externalId && d.canonicalUri == e.uri
    && d.publishedAt == e.publishedAt && d.title == e.title
    && d.content == Some(e.content) && d.contentHash == ContentHash(env, e.content)
    && d.mediaType == "application/xml+rss" && d.rawPayloadRef == None && d.providerMetadata == []
    && d.connectorName == "rss" && d.connectorVersion == "1.0.0" && d.schemaVersion == "1.0.0"
    && RawDocumentId(env, sourceId, d.externalId) == Some(d.id)
  }

  lemma DocumentTellsEntry(env: Env, sourceId: Id, e: FeedEntry, now: string)
    requires ToDocument(env, sourceId, e, now).Ok?
    ensures TellsEntry(env, sourceId, e, ToDocument(env, sourceId, e, now).value)
    ensures ToDocument(env, sourceId, e, now).value.retrievedAt == now
  {
    hide RawDocumentId, ContentHash;
  }

  /**
   * An entry becomes a document exactly when its source and external id are given, it has an
   * address, and it was published and is retrieved at times that are timestamps.
   */
  lemma EntryDocumentIff(env: Env, sourceId: Id, e: FeedEntry, now: string)
    ensures ToDocument(env, sourceId, e, now).Ok?
       <==> && sourceId != "" && !IsBlank(e.externalId) && e.uri != ""
            && env.Timestamp(e.publishedAt) && env.Timestamp(now)
  {
    hide RawDocumentId, ContentHash, IsBlank;
    FilingFixture.IdGiven(env, sourceId, e.externalId);
    FilingFixture.HashGiven(env, e.content);
    FilingFixture.NoText();
  }

  /** The page can be read back from its documents. */
  lemma EntriesOfPage(env: Env, sourceId: Id, page: seq<FeedEntry>, now: string)
    requires ToDocuments(env, sourceId, page, now).Ok?
    ensures var records := ToDocuments(env, sourceId, page, now).value;
      && EntriesOf(records) == page
      && forall d :: d in records ==>
           && DerivedId(env, d) && d.sourceId == sourceId && d.retrievedAt == now && Stored(d) == d
           && ToDocument(env, sourceId, EntryOf(d), now) == Ok(d) && DocumentKeyOf(d) == (sourceId, EntryOf(d).externalId)
  {
    hide ToDocuments, ToDocument, DerivedId, EntryOf, Stored;
    MappedEntries(env, sourceId, page, now);
    var records := ToDocuments(env, sourceId, page, now).value;
    forall i | 0 <= i < |page|
      ensures && EntryOf(records[i]) == page[i] && DerivedId(env, records[i]) && records[i].sourceId == sourceId
              && records[i].retrievedAt == now && Stored(records[i]) == records[i]
              && DocumentKeyOf(records[i]) == (sourceId, page[i].externalId)
    {
      DocumentOfEntry(env, sourceId, page[i], now);
    }
  }

  lemma BatchDerived(env: Env, sourceId: Id, response: Response, checkpoint: Option<IngestionCheckpoint>, limit: int,
                     now: string)
    requires CollectSpec(env, sourceId, response, checkpoint, limit, now).Ok?
    ensures var batch := CollectSpec(env, sourceId, response, checkpoint, limit, now).value;
            batch.collectedAt == now && forall d :: d in batch.records ==> DerivedId(env, d)
  {
    hide ToDocuments, DerivedId, DecodeCursor, Page, ValidBatch, EncodeCursor, ToDocument;
    if response.status != 304 {
      var page := Page(response.entries.value, WatermarkOf(checkpoint), DecodeCursor(CursorOf(checkpoint)).value, limit);
      EntriesOfPage(env, sourceId, page, now);
    }
  }
}
