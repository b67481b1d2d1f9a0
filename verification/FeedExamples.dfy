/** Concrete feeds: entries that are lost, and an entry that is published again and refused. */
module FeedExamples {
  import opened Wrappers
  import opened IngestionModels
  import opened IngestionTables
  import opened CollectionRunner
  import opened CheckpointHistory
  import opened IngestionSystem
  import opened IngestionExamples
  import opened RssConnector
  import opened FeedDraining
  import opened FeedDocuments
  import opened FeedIngestion
  import opened FeedLosses
  import opened GrowingFeeds
  import opened FeedProgress
  import opened Filtering
  import opened Sorting
  import opened Text
  import opened TextOrder
  import ExactlyOnce
  import WorkPayloadCodec

  /** Two small texts in order, decided by their first characters. */
  lemma FirstCharacterDecides(a: char, b: char)
    ensures AtMost([a], [b]) <==> a <= b
  {
    assert [a][1..] == [] && [b][1..] == [];
  }

  // ---- a page that ends between two entries with one key ----

  const TIED := [Entry("x", "1", "one"), Entry("x", "1", "two")]

  lemma TiedPages(limit: nat)
    ensures Page(TIED, None, None, 1) == TIED[..1]
    ensures Page(TIED, None, Some(("1", "x")), limit) == []
  {
    hide SortBy, Filter;
    FirstCharacterDecides('1', '1');
    FirstCharacterDecides('x', 'x');
    var position := Some(("1", "x"));
    SortOfSorted(BY_KEY, TIED);
    PageIsSlice(TIED, None, 1);
    NothingUpToNone(TIED);
    PageIsSlice(TIED, position, limit);
    CutAt(TIED, position, 2);
  }

  /**
   * The feed has two entries with one publication time and external id. Collected one entry at
   * first and with any limits afterwards, its second entry is never delivered.
   */
  lemma {:induction false} TiedEntryIsLost(limits: seq<nat>)
    requires |limits| > 0 && limits[0] == 1
    ensures Collected(Repeated(TIED, |limits|), limits) == FeedDraining.Progress(TIED[..1], Some(("1", "x")))
  {
    hide Page, Collected;
    var n := |limits|;
    assert Repeated(TIED, n)[..n - 1] == Repeated(TIED, n - 1) && Repeated(TIED, n)[n - 1] == TIED;
    CollectedStep(Repeated(TIED, n), limits);
    TiedPages(limits[n - 1]);
    if n == 1 {
      NothingCollected(Repeated(TIED, 0), limits[..0]);
      assert [] + TIED[..1] == TIED[..1];
    } else {
      TiedEntryIsLost(limits[..n - 1]);
      assert TIED[..1] + [] == TIED[..1];
    }
  }

  // ---- a manifest and a feed in one database ----

  const AGAIN := [Entry("a", "1", "old"), Entry("b", "2", "other"), Entry("a", "3", "new")]
  const END := Some(("2", "b"))

  lemma EntryReadable(externalId: string, publishedAt: string, content: string, now: string)
    requires externalId in {"a", "b"} && publishedAt != "" && now != ""
    ensures ToDocument(ENV, "s", Entry(externalId, publishedAt, content), now).Ok?
  {
    StripOfTrimmed(externalId);
  }

  lemma InOrder()
    ensures Ordered(FEED) == FEED && Ordered(AGAIN) == AGAIN
    ensures FeedDraining.DistinctKeys(FEED) && FeedDraining.DistinctKeys(AGAIN)
    ensures UpTo(FEED, None) == [] && After(FEED, None) == FEED
    ensures UpTo(FEED, END) == FEED && UpTo(AGAIN, END) == FEED && After(AGAIN, END) == [Entry("a", "3", "new")]
  {
    hide SortBy, Filter, UpTo, After, PairAtMost;
    KeysInOrder();
    SortOfSorted(BY_KEY, FEED);
    SortOfSorted(BY_KEY, AGAIN);
    NothingUpToNone(FEED);
    CutAt(FEED, END, 2);
    CutAt(AGAIN, END, 2);
  }

  lemma KeysInOrder()
    ensures PairAtMost(("1", "a"), ("2", "b")) && PairAtMost(("1", "a"), ("3", "a"))
    ensures PairAtMost(("2", "b"), ("3", "a")) && PairAtMost(("2", "b"), ("2", "b"))
    ensures !PairAtMost(("3", "a"), ("2", "b"))
  {
    FirstCharacterDecides('1', '2');
    FirstCharacterDecides('1', '3');
    FirstCharacterDecides('2', '3');
    FirstCharacterDecides('3', '2');
    FirstCharacterDecides('b', 'b');
  }

  const COLLECTED := MANIFEST_COLLECTED + Collection(0, "s", 5, FETCHED, "t")

  /** The two documents of the manifest and the two of the feed are stored, and the feed's cursor is at its end. */
  ghost predicate BothStored(s: State, feed: seq<FeedEntry>) {
    && FeedOf(s, "s") == feed && DeliveredOf(s, "s") == FEED && PositionIn(s.base.db, "s") == END
    && |s.base.db.documents.rows| == 4 && forall j :: PhaseOf(s.base, j) == Idle
  }

  /** The feed is as it was at the start, and nothing of it was collected. */
  ghost predicate FeedUntouched(s: State) {
    && FeedOf(s, "s") == FEED && DeliveredOf(s, "s") == [] && PositionIn(s.base.db, "s") == None
    && NoneStored(s.base.db.documents, "s", FEED)
  }

  lemma ManifestOnly(s: State)
    requires BaseInv(WORLD, s) && FeedInv(WORLD, s) && ManifestStored(s)
    ensures FeedUntouched(s)
  {
    hide BaseInv, FeedInv, DeliveredIn, PositionIn, Ascending, NamedWorld, NoneStored, ExactlyOnce.Position;
    WorldIsNamed();
    SourceInv(WORLD, s, "s");
    assert "m"[0] != "s"[0];
    NotDelivered(s.base.log, s.committed, "s");
    assert WORLD.InitialFeeds()["s"] == FEED;
    NoRowOfFeed(s);
  }

  lemma NotDelivered(log: seq<Committed>, sights: seq<Sight>, sourceId: Id)
    requires |log| == |sights| == 1 && log[0].sourceId != sourceId
    ensures DeliveredIn(log, sights, sourceId) == []
  {
    assert log[..0] == [] && sights[..0] == [];
  }

  lemma NoRowOfFeed(s: State)
    requires BaseInv(WORLD, s) && FeedInv(WORLD, s) && WORLD.HasFeed("s") && DeliveredOf(s, "s") == []
    ensures NoneStored(s.base.db.documents, "s", FEED)
  {
    hide BaseInv, FeedInv, DeliveredOf, EntryOf, Strip;
    forall id | id in s.base.db.documents.rows
      ensures s.base.db.documents.rows[id].sourceId != "s"
    {
      if s.base.db.documents.rows[id].sourceId == "s" {
        RowIsEntry(WORLD, s, id);
      }
    }
  }

  lemma WholeFeedIsNext(s: State)
    requires FeedUntouched(s)
    ensures CurrentPage(s, "s", 5, FETCHED) == FEED && Acceptable(ENV, s, "s", 5, FETCHED, "t")
  {
    hide UpTo, After, Ordered, Page, NoneStored, ToDocument, PositionIn, DeliveredOf, FeedDraining.DistinctKeys, Strip,
      FeedOf;
    InOrder();
    PageIsSlice(FEED, None, 5);
    EntryReadable("a", "1", "old", "t");
    EntryReadable("b", "2", "other", "t");
    StripsDiffer();
  }

  /** After the manifest, one collection of the feed in the same database delivers the whole feed. */
  lemma BothAreCollected()
    ensures BothStored(Run(WORLD, COLLECTED), FEED)
  {
    hide Run, Take, CurrentPage, Acceptable, NamedWorld, PositionIn, DeliveredOf, BaseInv, FeedInv, FeedOf,
      ExactlyOnce.Position;
    ExampleIsIngested();
    WorldIsNamed();
    var s := Run(WORLD, MANIFEST_COLLECTED);
    FeedIngestion.RunsKeepInv(WORLD, MANIFEST_COLLECTED);
    ManifestOnly(s);
    WholeFeedIsNext(s);
    UndisturbedFeedCollection(WORLD, MANIFEST_COLLECTED, 0, "s", 5, FETCHED, "t");
    SameFeed(s, Run(WORLD, COLLECTED));
    assert [] + FEED == FEED;
  }

  lemma SameFeed(s: State, t: State)
    requires t.feeds == s.feeds
    ensures FeedOf(t, "s") == FeedOf(s, "s")
  {
  }

  lemma StripsDiffer()
    ensures Strip("a") != Strip("b")
  {
    StripOfTrimmed("a");
    StripOfTrimmed("b");
  }

  /** Publishing changes the feed and nothing else. */
  lemma Publishing(feed: seq<FeedEntry>)
    ensures BothStored(Run(WORLD, COLLECTED + [Publish("s", feed)]), feed)
  {
    hide Run, Take, PositionIn, DeliveredIn, BaseInv, FeedInv;
    BothAreCollected();
    WorldIsNamed();
    RunStep(WORLD, COLLECTED, Publish("s", feed));
    FeedIngestion.RunsKeepInv(WORLD, COLLECTED);
    FeedPublished(WORLD, Run(WORLD, COLLECTED), "s", feed, "s");
  }

  // ---- an entry that is published again ----

  const PUBLISHED := COLLECTED + [Publish("s", AGAIN)]
  const TRIED := PUBLISHED + Collection(0, "s", 5, FETCHED, "u")

  ghost predicate Refused(s: State, t: State, made: Result<CollectionCommitCommand, CollectionFailure>) {
    && BothStored(s, AGAIN) && t.base.db == s.base.db
    && made.Ok? && Commit(ENV, s.base.db, made.value) == Err(WorkPayloadCodec.DocumentConflict)
  }

  /**
   * The first entry is published again with a later time and other content. The next collection
   * is refused as a document conflict and changes nothing, although the feed was fetched and
   * read.
   */
  lemma RepublishedEntryIsRefused()
    ensures Refused(Run(WORLD, PUBLISHED), Run(WORLD, TRIED), CurrentRun(ENV, Run(WORLD, PUBLISHED), "s", 5, FETCHED, "u"))
  {
    hide Run, Take, Commit, UpTo, After, Ordered, Page, NoneStored, NamedWorld, ToDocument, PositionIn, DeliveredOf, BaseInv,
      FeedInv, FeedDraining.DistinctKeys, Strip, CurrentRun, FeedOf;
    WorldIsNamed();
    InOrder();
    Publishing(AGAIN);
    var s := Run(WORLD, PUBLISHED);
    PageIsSlice(AGAIN, END, 5);
    var page := CurrentPage(s, "s", 5, FETCHED);
    assert page == [Entry("a", "3", "new")];
    EntryReadable("a", "3", "new", "u");
    RepublishedEntryConflicts(WORLD, PUBLISHED, "s", 5, FETCHED, "u", FEED[0], 0);
    FeedIngestion.RunsKeepInv(WORLD, PUBLISHED);
    DeliveredIsStored(WORLD, s, "s", page, FEED[0], 0);
    UndisturbedFeedCollection(WORLD, PUBLISHED, 0, "s", 5, FETCHED, "u");
  }

  // ---- a feed whose window rolls on ----

  const LATE := Entry("c", "1", "late")
  const ROLLED := [Entry("b", "2", "other"), LATE]

  /**
   * The feed drops its first entry and adds one with an earlier time than the last. What was
   * delivered stays stored; the late entry is lost for ever, whatever follows.
   */
  lemma LateEntryIsLost(more: seq<Step>)
    ensures LATE in FeedOf(Run(WORLD, COLLECTED + [Publish("s", ROLLED)]), "s")
    ensures BothStored(Run(WORLD, COLLECTED + [Publish("s", ROLLED)]), ROLLED)
    ensures Lost(Run(WORLD, COLLECTED + [Publish("s", ROLLED)] + more), "s", LATE)
  {
    hide Run, PositionIn, DeliveredOf, FeedOf, NamedWorld;
    WorldIsNamed();
    Publishing(ROLLED);
    FirstCharacterDecides('1', '2');
    assert LATE == ROLLED[1] && LATE.externalId != "a" && LATE.externalId != "b";
    LostForEver(WORLD, COLLECTED + [Publish("s", ROLLED)], more, "s", LATE);
  }
}
