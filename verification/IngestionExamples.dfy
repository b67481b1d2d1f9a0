/** A concrete manifest and a concrete feed beside it: the assumptions of the progress theorems can be met. */
module IngestionExamples {
  import opened Wrappers
  import opened IngestionModels
  import opened IngestionTables
  import opened Deduplication
  import opened CheckpointHistory
  import opened FreshCommits
  import opened IngestionSystem
  import opened ExactlyOnce
  import opened ContentText
  import opened FilingFixture
  import opened IngestionProgress
  import opened Sorting
  import opened Text
  import opened TextOrder
  import RssConnector

  const ENV := Env(x => "h" + x, x => x, x => x != "")

  function Filing(externalId: string): FilingRecord {
    FilingRecord(Some(externalId), Some("u"), Some("t"), Some("f"), None, None, None, None, None)
  }

  /** Two records, stored in the wrong order. */
  const FIXTURE := Fixture("manifest.json", [Filing("b"), Filing("a")], map["f" := ContentFile("p", "text")])

  function Entry(externalId: string, publishedAt: string, content: string): RssConnector.FeedEntry {
    RssConnector.FeedEntry(externalId, "u", publishedAt, None, content)
  }

  const FEED := [Entry("a", "1", "old"), Entry("b", "2", "other")]

  /** A manifest "m" and a feed "s" share the database. */
  const WORLD := World(ENV, map["m" := Manifest(FIXTURE), "s" := Feed(FEED)])

  lemma SortedManifest()
    ensures Filings(FIXTURE) == [Filing("a"), Filing("b")]
  {
    var a, b := Filing("a"), Filing("b");
    assert !AtMost("b", "a");
    assert [b, a][1..] == [a] && [a][1..] == [];
    assert SortBy(BY_EXTERNAL_ID, []) == [];
    assert SortBy(BY_EXTERNAL_ID, [a]) == Insert(BY_EXTERNAL_ID, a, []) == [a];
    assert SortBy(BY_EXTERNAL_ID, [b, a]) == Insert(BY_EXTERNAL_ID, b, [a]);
    assert Insert(BY_EXTERNAL_ID, b, [a]) == [a] + Insert(BY_EXTERNAL_ID, b, [a][1..]);
  }

  lemma FilingReadable(externalId: string, now: string)
    requires externalId in {"a", "b"} && now != ""
    ensures ToDocument(ENV, FIXTURE.files, "m", Filing(externalId), now).Ok?
    ensures Strip(externalId) == externalId
  {
    hide Strip, NormalForm, IsSpace;
    PartsAreTrimmed(externalId);
  }

  lemma PartsAreTrimmed(externalId: string)
    requires externalId in {"a", "b"}
    ensures Strip(externalId) == externalId && Strip("u") == "u" && Strip("t") == "t" && Strip("f") == "f"
  {
    hide Strip;
    StripOfTrimmed(externalId);
    StripOfTrimmed("u");
    StripOfTrimmed("t");
    StripOfTrimmed("f");
  }

  /** Putting a letter before the text keeps texts apart. */
  lemma PrefixIsGoodHash(env: Env)
    requires forall x :: env.hash(x) == "h" + x
    ensures GoodHash(env)
  {
    forall x: string, y: string | env.hash(x) == env.hash(y)
      ensures x == y
    {
      PrefixInjective("h", x, y);
    }
  }

  lemma WorldIsNamed()
    ensures NamedWorld(WORLD) && WORLD.HasManifest("m") && WORLD.FixtureOf("m") == FIXTURE && WORLD.HasFeed("s")
  {
    hide GoodHash;
    PrefixIsGoodHash(ENV);
    assert "m"[0] == 'm' && "s"[0] == 's';
  }

  lemma ExampleIsIngestible()
    ensures Ingestible(ENV, FIXTURE, "m")
  {
    hide ToDocument, Strip, SortBy;
    SortedManifest();
    forall i, now: string | 0 <= i < |Filings(FIXTURE)| && ENV.Timestamp(now)
      ensures ToDocument(ENV, FIXTURE.files, "m", Filings(FIXTURE)[i], now).Ok?
    {
      FilingReadable(if i == 0 then "a" else "b", now);
    }
    FilingReadable("a", "t");
    FilingReadable("b", "t");
    assert ExternalId(Filings(FIXTURE)[0]) == "a" && ExternalId(Filings(FIXTURE)[1]) == "b";
    assert "a"[0] != "b"[0];
  }

  /** Nothing is fetched for a manifest. */
  const NO_FETCH := Fetch(304, None, None, None)

  const MANIFEST_COLLECTED := Collection(0, "m", 5, NO_FETCH, "t")

  /** Both records and their work are stored by one commit; the feed is as it was. */
  ghost predicate ManifestStored(s: State) {
    && Position(s.base.db, "m") == 2 && |s.base.db.documents.rows| == 2 && |s.base.db.work.rows| == 2
    && |s.base.log| == 1 && s.base.log[0].sourceId == "m"
    && s.feeds == WORLD.InitialFeeds() && forall j :: PhaseOf(s.base, j) == Idle
  }

  /** One undisturbed collection by the first coordinator. */
  lemma ExampleIsIngested()
    ensures ManifestStored(Run(WORLD, MANIFEST_COLLECTED))
  {
    hide Take, NamedWorld, Ingestible, Position;
    ExampleIsIngestible();
    WorldIsNamed();
    SortedManifest();
    assert [] + MANIFEST_COLLECTED == MANIFEST_COLLECTED;
    NothingYet();
    UndisturbedCollection(WORLD, [], 0, "m", 5, NO_FETCH, "t");
  }

  lemma NothingYet()
    ensures Position(EMPTY, "m") == 0
  {
  }

  /** The row of the first record, whatever the time of its retrieval. */
  ghost predicate RecordStored(t: DocumentTable) {
    && ("m", "a") in t.index && t.index[("m", "a")] in t.rows
    && var row := t.rows[t.index[("m", "a")]];
    && row.id == "raw_" + ("h" + ("collection-v1" + NUL + ("m" + NUL + "a")))
    && row.sourceId == "m" && row.externalId == "a" && row.canonicalUri == "u" && row.publishedAt == "t"
    && row.content == Some("text") && row.rawPayloadRef == Some("p") && row.title == None
    && row.mediaType == "text/plain" && row.contentHash == "sha256:" + ("h" + ("text-v1" + NUL + "text"))
    && row.providerMetadata == [] && row.connectorName == "filing_fixture" && row.connectorVersion == "1.0.0"
  }

  lemma RecordIsStored()
    ensures RecordStored(Run(WORLD, MANIFEST_COLLECTED).base.db.documents)
  {
    hide Run, Position, ContentHash, Strip, SortBy;
    ExampleIsIngested();
    StoredAsRecorded(WORLD, MANIFEST_COLLECTED);
    WorldIsNamed();
    SortedManifest();
    PartsAreTrimmed("a");
    TextIsNormal();
    var t := Run(WORLD, MANIFEST_COLLECTED).base.db.documents;
    assert RowTells(WORLD, t, "m", Filings(WORLD.FixtureOf("m"))[0]);
  }

  lemma TextIsNormal()
    ensures ContentHash(ENV, "text") == "sha256:" + ("h" + ("text-v1" + NUL + "text"))
  {
    hide NormalForm;
    FixpointIffNormal("text");
  }
}
