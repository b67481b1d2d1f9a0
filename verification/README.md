# Durable ingestion and runtime queue: a verified model

This project models the durable ingestion subsystem and the in-process runtime of the repository, and proves what
its documentation and tests promise.

- **Collection.** A coordinator reads a checkpoint, a connector returns a bounded page, and one transaction stores
  documents, two identity claims per document, document work and a checkpoint compare-and-set. The tables are maps
  with their uniqueness indexes (`IngestionTables.dfy`); the adapters change them in place (`SqliteStore`) and are
  proved against functions on the tables. On these rest the invariant over every run of commits
  (`AtomicCommit.dfy`, `CollectionCommits.dfy`), replay (`CollectionReplay.dfy`, with counterexamples in
  `ReplayExamples.dfy`), and exactly-once ingestion for any number of interleaved coordinators and sources.
  `CheckpointHistory.dfy` holds what all connectors share and `FreshCommits.dfy` when commits succeed.
  `IngestionSystem.dfy` is the one system in which filing manifests and feeds share a database, while the feeds are
  published at any time. `ExactlyOnce.dfy`, `IngestionProgress.dfy` and `IngestionExamples.dfy` are safety, progress
  and a concrete world for its manifests, `FeedIngestion.dfy`, `FeedProgress.dfy` and `FeedExamples.dfy` the same for
  its feeds. `FeedLosses.dfy` decides which entries of a feed are delivered and which are lost, whatever is published,
  and `GrowingFeeds.dfy` shows that nothing is lost when feeds change only where no collection has come.
- **Codecs and text.** JSON, UTF-8 and base64url are modelled down to characters and bytes (`Json.dfy`, `Bytes.dfy`)
  under the RSS cursor, the work payloads (`WorkPayload.dfy`) and the document metadata (`DocumentCodec.dfy`).
  `CodecExamples.dfy` fixes their formats, `ContentText.dfy` and `ErrorText.dfy` hold the two text normal forms, and
  `RefusalExamples.dfy` shows what constructors refuse.
- **Feeds.** `RssConnector.dfy` and `FeedDraining.dfy`: filtering, sorting and paging a feed, also while it grows.
  `FeedIngestion.dfy` and the files beside it thread the connector, with its encoded cursors and unchanged responses,
  through the coordinators and the commit while feeds are published.
- **Work lifecycle.** `Lifecycle.dfy` holds records, validators, commands, the five port operations as steps, and an
  adapter class over a map of records; `LifecycleRuns.dfy` and `LifecycleFencing.dfy` prove what steps and whole runs
  keep, `ClaimOrder.dfy` the order of claims in a row; `LifecycleExamples.dfy` holds concrete claims, renewals and
  waits; `RetryTiming.dfy` is the retry decision.
- **Runtime and schema.** `RuntimeQueue.dfy`, `RuntimeRetry.dfy` with `RuntimeExamples.dfy`, and `Migration.dfy`.
  `Floats.dfy` says which integers have a finite double (IEEE 754, binary64), for the conversions that overflow.

Times are integers in microseconds in the work lifecycle and texts elsewhere. SHA-256, Unicode NFC and the timestamp
check are parameters (`IngestionModels.Env`). Where distinctness of digests matters, the lemma says so
(`CollisionFree`); source ids are then assumed to hold no NUL character.

Where properties one might expect of the code do not hold, the exact condition is proved beside a concrete input:

- Replay of a committed batch is refused when one of its ids has meanwhile been bound to another identity
  (`CollectionReplay.ReplayIff`, `ReplayExamples.RebindingBreaksReplay`); with derived ids this cannot happen
  (`CollectionReplay.DerivedReplay`).
- A batch record may resolve to a row with another id, and work for it then names no stored document
  (`CollectionCommits.WorkNamesStoredDocument`); with derived ids it always does
  (`CollectionReplay.RunsStayDerived`).
- A page of a feed that ends between two entries with one key loses the second (`FeedDraining.NothingSkippedIff`,
  `FeedExamples.TiedEntryIsLost`).
- An entry that is published at or before the cursor, or within a page that was fetched before and is committed
  later, is never collected. An entry is lost exactly when the one commit that passes its key had not seen it
  (`FeedLosses.DeliveredOrLostIff`, `FeedLosses.LostIff`, `FeedExamples.LateEntryIsLost`); published in time and kept
  in the feed, it never is (`FeedLosses.PublishedInTime`).
- A feed entry that is published again under its external id, with a later time, is refused as a document conflict:
  a collection succeeds exactly when no entry of its page repeats an id in the page or has that of a stored document
  (`FeedProgress.UndisturbedFeedCollection`, `FeedExamples.RepublishedEntryIsRefused`). While a feed changes only
  beyond its cursor, the cursor never passes the entry (`GrowingFeeds.CursorStopsAtRepeat`).
- Sanitizing an error message once may leave a trailing space that `WorkError` refuses (`ErrorText.FixpointIff`,
  `ErrorText.OneApplicationMayNotBeEnough`).
- Cancelling an item that is not queued logs it all the same (`RuntimeQueue.WorkQueue.Cancel`,
  `RuntimeExamples.CancelUnqueued`), and replaying a dead letter into a full queue loses it
  (`RetryOrchestration.RetryOrchestrator.HandleReplay`, `RuntimeExamples.ReplayIntoFullQueue`).
- An exponential runtime policy that allows more than 1025 attempts has no decision from attempt 1025 on, because its
  delay overflows: the failed item is neither retried nor dead-lettered (`RetryManagement.DecisionIsOneOfTwo`,
  `RetryManagement.RetriesPerCycle`, `RuntimeExamples.LongBudgetEndsUndecided`,
  `RuntimeExamples.OverflowLeavesItemUnhandled`).
- Evaluating the retry of ingestion work raises an overflow for an integer hint without a float, and for a retry past
  the last moment of the calendar; a caller can rule both out beforehand (`RetryTiming.DecisionAccepted`,
  `LifecycleExamples.EvaluationOverflows`).
- A lease renewal dated before its claim would break the record invariant (`LifecycleRuns.InvariantBrokenIff`,
  `LifecycleExamples.BackdatedRenewalBreaksInvariant`). It needs a lease shorter than the policy grants: under one
  policy it cannot happen, whatever the clock does (`LifecycleRuns.InvariantBrokenByTokensOnly`).

- The text of a migration that is checked is its statements joined by a separator line: statements that hold the
  separator can be split differently under one checksum (`Migrations.ChecksumIff`,
  `MigrationExamples.SeparatorInStatement`).
- A collection from a checkpoint without a cursor has the key of one from the cursor "None"
  (`CollectionRunner.CollectionKeyInjective`).

One disagreement in the documentation: a paragraph of ADR-010 on terminal immutability has a repeated terminal
operation raise `WorkClaimLostError`, while its error section and the contract tests have it raise
`WorkInvalidTransitionError`. The model follows the tests.

`dafny verify dfyconfig.toml` checks the whole project.

## Model

| member | source | states |
|---|---|---|
| Deduplication.RawDocumentIdInjective | src/ingestion/deduplication.py:31-49 | two records share a document id exactly when source and stripped external id agree |
| Deduplication.DocumentKeyInjective | src/ingestion/service.py:22-24 | document work keys tell documents apart |
| Deduplication.DeduplicateDocuments | src/ingestion/deduplication.py:60-82 | the loop accepts the first occurrences of new ids in order and lists the repeated ids |
| Deduplication.AcceptedAreNew | src/ingestion/deduplication.py:60-82 | accepted records are new, from the batch and pairwise distinct; accepted and repeated add up to the batch |
| Deduplication.IdsAddUp | src/ingestion/deduplication.py:60-82 | accepted and repeated ids together are the ids of the batch, counted with repetitions |
| Deduplication.EveryIdAccounted | src/ingestion/deduplication.py:60-82 | every id of the batch is known or belongs to an accepted record |
| Deduplication.DistinctBatchAccepted | src/ingestion/models.py:99-108 | a batch without repeated ids is accepted whole |
| Json.StringRoundTrip | src/persistence/sqlite/work_items.py:372-378 | a written string reads back exactly, with the text behind it left over (RFC 8259, section 7) |
| Json.NumberRoundTrip | src/persistence/sqlite/work_items.py:372-378 | a written integer reads back exactly |
| Json.LoadsWrite | src/persistence/sqlite/work_items.py:358-378 | reading undoes writing for every nested value without floating-point numerals |
| Json.LoadsPadded | src/persistence/sqlite/work_items.py:358-378 | the same with any space around the text |
| Json.FractionIsFloat | src/persistence/sqlite/work_items.py:358-378 | a numeral with a fraction is read as no integer |
| Json.ZeroStandsAlone | src/persistence/sqlite/work_items.py:358-370 | a leading zero ends a numeral |
| CodecExamples.JsonEscapes | src/persistence/sqlite/work_items.py:372-378 | the written form of each kind of character |
| CodecExamples.JsonSeparators | src/persistence/sqlite/work_items.py:372-378 | lists and objects are written without space between their parts |
| CodecExamples.SurrogatePair | src/persistence/sqlite/work_items.py:358-370 | two escapes are read as one character past the first plane, half a pair is refused |
| Utf8.RoundTrip | src/ingestion/connectors/rss.py:308-335 | decoding UTF-8 undoes encoding for every text (RFC 3629, section 3) |
| Utf8.DecodeInjective | src/ingestion/connectors/rss.py:325-335 | only encoder output decodes: no two byte strings decode to one text |
| Base64Url.RoundTrip | src/ingestion/connectors/rss.py:308-335 | unpadded base64url with padding recomputed from the length decodes to the same bytes (RFC 4648, section 5) |
| CodecExamples.Base64Alphabet | src/ingestion/connectors/rss.py:308-335 | the url-safe alphabet, and the plain symbols that are read as well (RFC 4648, section 5) |
| CodecExamples.Base64Groups | src/ingestion/connectors/rss.py:308-335 | concrete groups with and without padding (RFC 4648, section 10) |
| CodecExamples.Utf8Widths | src/ingestion/connectors/rss.py:308-315 | the bytes of one character of each width |
| CodecExamples.Utf8Refused | src/ingestion/connectors/rss.py:325-335 | overlong, surrogate, cut and too large forms are refused |
| CodecExamples.CursorFormats | src/ingestion/connectors/rss.py:308-315 | the text of a cursor behind any entry, and a concrete cursor of a manifest |
| RssCursor.CursorRoundTrip | src/ingestion/connectors/rss.py:308-350 | a decoded cursor is exactly the encoded position, and is refused exactly when a part is empty |
| RssCursor.CursorInjective | src/ingestion/connectors/rss.py:308-315 | different positions have different cursors |
| WorkPayloadCodec.RowRoundTrip | src/persistence/sqlite/work_items.py:209-316 | an inserted work item reads back from its row with signal ids in order and nothing else changed |
| WorkPayloadCodec.PayloadRoundTrip | src/persistence/sqlite/work_items.py:209-356 | each payload kind decodes from its own encoding to its canonical form |
| WorkPayloadCodec.CheckpointRoundTrip | src/persistence/sqlite/work_items.py:318-356 | an embedded checkpoint reads back exactly |
| WorkPayloadCodec.SameEncodingIff | src/persistence/sqlite/work_items.py:133-174 | encodings are equal exactly for the same kind and fields up to signal order: comparing encodings compares work |
| WorkPayloadCodec.PayloadReadIff | src/persistence/sqlite/work_items.py:209-316 | document and research work is read from exactly the fields of its kind, no more and no less |
| WorkPayloadCodec.CollectionReadIff | src/persistence/sqlite/work_items.py:209-316 | the same for collection work, whose checkpoint may be null |
| WorkPayloadCodec.RowReadIff | src/persistence/sqlite/work_items.py:209-288 | a row is work exactly for the known schema version and an object of its kind that makes valid work, and is else incompatible |
| WorkPayloadCodec.CheckpointReadIff | src/persistence/sqlite/work_items.py:330-356 | a checkpoint is read from exactly its fields if it is well formed |
| CodecExamples.PayloadFormats | src/persistence/sqlite/work_items.py:290-316 | the text of each payload, with its keys in order |
| CodecExamples.CheckpointFormat | src/persistence/sqlite/work_items.py:318-328 | the text of an embedded checkpoint |
| MetadataCodec.MetadataRoundTrip | src/persistence/sqlite/documents.py:260-295 | provider metadata reads back from its row in pair order |
| MetadataCodec.SameMetadataIff | src/persistence/sqlite/documents.py:283-325 | metadata texts are equal exactly for the same pairs, counted with repetitions |
| CodecExamples.MetadataFormat | src/persistence/sqlite/documents.py:260-265 | metadata is written as a list of pairs |
| ContentText.UnifyIsReplace | src/ingestion/deduplication.py:17-21 | the two replacements are one sweep in which a return before a line feed vanishes |
| ContentText.SweepIsStripEach | src/ingestion/deduplication.py:17-21 | splitting, stripping and joining lines is one sweep from the right |
| ContentText.FixpointIffNormal | src/ingestion/deduplication.py:17-21 | the normalizer is idempotent, and leaves alone exactly the texts without returns, blanks at line ends or outer space |
| ContentText.OuterSpaceIgnored | src/ingestion/deduplication.py:17-21 | outer blank space of any kind does not matter |
| ContentText.LayoutIgnored | src/ingestion/deduplication.py:17-21 | texts that differ in line-ending style, trailing blanks or outer space have one normal form |
| ContentText.SameHashIff | src/ingestion/deduplication.py:24-28 | without digest collisions, content hashes are equal exactly for equal normal forms |
| ErrorText.SanitizedForm | src/persistence/ingestion/lifecycle.py:480-492 | bounded by 1024, printable, single-spaced, no leading space; when exactly a trailing space is left |
| ErrorText.PartsKept | src/persistence/ingestion/lifecycle.py:480-492 | breaks and spaces between two parts of a message become one space, and nothing else of the parts is lost |
| CodecExamples.SpaceCharacters | src/persistence/ingestion/lifecycle.py:480-492 | which characters count as space |
| ErrorText.WordsKept | src/persistence/ingestion/lifecycle.py:480-492 | a word stays as it is and other control characters go without a trace |
| ErrorText.SanitizeAgain | src/persistence/ingestion/lifecycle.py:480-492 | a second application only drops a trailing space |
| ErrorText.FixpointIff | src/persistence/ingestion/lifecycle.py:480-492 | once is a fixpoint exactly when the cut does not fall behind a space; twice always is |
| ErrorText.OneApplicationMayNotBeEnough | src/persistence/ingestion/lifecycle.py:106-121 | a concrete message for which one application is no fixpoint |
| WorkPolicy.SanitizedTwiceAccepted | src/persistence/ingestion/lifecycle.py:106-121 | a message sanitized twice is accepted by a work error exactly when something is left of it |
| SqliteStore.SqliteStore.InsertOrResolveDocument | src/persistence/sqlite/documents.py:99-194 | in place: insert, or resolve by id and by identity to an equivalent row, or the conflict |
| SqliteStore.SqliteStore.InsertOrResolveIdentity | src/persistence/sqlite/deduplication.py:77-158 | in place: a new claim or the same claim again, with the holders of the identity in order, or the conflict with the table unchanged |
| SqliteStore.SqliteStore.HoldersInOrder | src/persistence/sqlite/deduplication.py:161-179 | the holders of an identity, each once, ordered by document id |
| SqliteStore.SqliteStore.InsertOrResolveWorkItem | src/persistence/sqlite/work_items.py:83-174 | in place: insert, or resolve by id and by kind and key to work with the same encoding |
| SqliteStore.SqliteStore.CompareAndSetCheckpoint | src/persistence/sqlite/checkpoints.py:77-188 | in place: create at revision 0 or advance from the expected revision under the same binding, else unchanged |
| SqliteStore.SqliteStore.ClaimIdentities | src/persistence/sqlite/atomic.py:78-100 | both identities of a stored document are claimed, or the failure of one |
| SqliteStore.SqliteStore.StoreBatch | src/persistence/sqlite/atomic.py:66-100 | the document loop with its two counters, against the fold over the batch |
| SqliteStore.SqliteStore.StoreItems | src/persistence/sqlite/atomic.py:102-110 | the work loop with its two counters, against the fold over the items |
| SqliteStore.SqliteStore.CommitCollection | src/persistence/sqlite/atomic.py:43-131 | all or nothing: the whole command is stored, or every table is as before although rows had been written |
| IngestionTables.CommitRefused | src/persistence/sqlite/atomic.py:43-60 | commands refused before the transaction begins, and with which error |
| AtomicCommit.BoundResolves | src/persistence/sqlite/documents.py:161-194 | a record with an equivalent row under its identity resolves unless its id belongs to another identity |
| IngestionTables.EquivalentIff | src/persistence/sqlite/documents.py:298-325 | documents are equivalent exactly when all fields but the id agree, with the same metadata pairs in any order |
| IngestionTables.DocumentInsertedIff | src/persistence/sqlite/documents.py:99-158 | when a document is new, and that resolving one changes nothing |
| IngestionTables.ClaimIff | src/persistence/sqlite/deduplication.py:77-158 | when a claim is new, there already or a conflict, and what a new one changes |
| AtomicCommit.WorkBoundResolves | src/persistence/sqlite/work_items.py:133-174 | stored work resolves again unless its id belongs to other work |
| AtomicCommit.StoreRecordShape | src/persistence/sqlite/atomic.py:66-100 | a record changes nothing, or adds exactly one document and its two claims |
| AtomicCommit.StoreRecordsKeep | src/persistence/sqlite/atomic.py:66-100 | the batch keeps the invariant, its counters add up to the batch and match the growth of the tables |
| AtomicCommit.StoreWorkKeeps | src/persistence/sqlite/atomic.py:102-110 | the work loop keeps the invariant, with counters that match the growth of the table |
| CollectionCommits.CommitMovesCheckpoint | src/persistence/sqlite/checkpoints.py:77-188 | a commit changes only its own checkpoint row, from the expected revision and under the same binding |
| CollectionCommits.CommitStoresAll | src/persistence/sqlite/atomic.py:43-131 | a successful commit keeps the invariant, binds every record and work item, and grows each table by exactly the counts |
| CollectionCommits.RunsStayConsistent | src/persistence/sqlite/atomic.py:60-131 | over every run: ids and identities unique, claims exactly those of stored documents, no row ever changed or removed |
| CollectionCommits.CommitFrom | src/persistence/sqlite/atomic.py:60-110 | every new row is a batch record or a work item of the command |
| CollectionCommits.IdentitiesResolve | src/persistence/sqlite/deduplication.py:161-179 | a content key resolves to all documents with the hash, each once and in order; a collection key to at most one |
| CollectionCommits.WorkNamesStoredDocument | src/persistence/sqlite/documents.py:161-194 | a batch id is a stored document after the commit exactly when its record was not resolved to another id |
| CollectionReplay.BoundCommit | src/persistence/sqlite/atomic.py:60-131 | a command whose parts are all stored succeeds exactly when nothing was rebound and the checkpoint accepts it |
| CollectionReplay.ReplayIff | src/persistence/sqlite/atomic.py:60-125 | a committed batch replays exactly then, inserting and creating nothing and raising the revision by one |
| CollectionReplay.CommitStaysDerived | src/persistence/ingestion/models.py:195-212 | with derived ids, records are stored under their own ids and work rows name stored documents |
| CollectionReplay.RunsStayDerived | src/ingestion/service.py:69-102 | over every run from the empty tables with derived ids, every work row names a stored document |
| CollectionReplay.DerivedReplay | src/ingestion/deduplication.py:43-49 | with derived ids a committed batch replays exactly when the checkpoint accepts it |
| CollectionReplay.NamedWorkReads | src/persistence/sqlite/work_items.py:209-288 | a work row of a derived run decodes to exactly the runner's work for one of the documents |
| ReplayExamples.RebindingBreaksReplay | src/persistence/sqlite/documents.py:161-194 | a concrete run in which work dangles and a replay is refused |
| CollectionRunner.CollectionCoordinator.Collect | src/application/collection.py:29-97 | reads, runs the connector and commits, against the function of one collection; failures change nothing |
| CollectionRunner.CollectionKeyInjective | src/ingestion/service.py:22-62 | collections share their key exactly for the same source, connector, start and limit; a missing cursor counts as the text None |
| CollectionRunner.CollectionWorkIff | src/ingestion/service.py:40-66 | when collection work exists, and all of its fields |
| IngestionModels.RequestRefusedIff | src/ingestion/connectors/filing_fixture.py:29-44 | a request is refused exactly for a limit that is not positive, or for a checkpoint of another source or version |
| FilingFixture.CursorRoundTrip | src/ingestion/connectors/filing_fixture.py:95-118 | the position written to a cursor is read back |
| FilingFixture.CursorPositionIff | src/ingestion/connectors/filing_fixture.py:95-118 | a cursor has a position exactly when it is the prefix and a numeral that is not negative, and is else refused |
| FilingFixture.CollectRefuses | src/ingestion/connectors/filing_fixture.py:23-44 | when a collection is refused before any record is read, and with which error |
| FilingFixture.DocumentIff | src/ingestion/connectors/filing_fixture.py:120-174 | a record becomes a document exactly when its fields are given, its file can be read and has the expected hash, and the times are timestamps; a record that is not usable is a malformed response |
| FilingFixture.DocumentTells | src/ingestion/connectors/filing_fixture.py:120-174 | each field of the document as the record or its file has it: text as content, path as reference, hash of the text, media type with its default, versions as metadata |
| FilingFixture.CollectedPage | src/ingestion/connectors/filing_fixture.py:23-63 | a page is the manifest records from the cursor on, as many as limit and manifest allow, and its cursor is behind them |
| FilingFixture.CollectedRun | src/ingestion/connectors/filing_fixture.py:45-63 | the run id names the manifest and the positions before and behind the page |
| CheckpointHistory.LandsOnCurrent | src/persistence/sqlite/checkpoints.py:145-188 | for any connector, a commit that succeeds was prepared from the stored checkpoint and stores the whole command |
| CheckpointHistory.HistoryStays | src/application/collection.py:29-97 | for any connector, a successful commit keeps tables, derived ids, work, bindings and the log in step |
| CheckpointHistory.BasisPassed | src/persistence/sqlite/checkpoints.py:145-188 | after a commit, no command prepared from an earlier checkpoint of the source can succeed |
| CheckpointHistory.CommitIsLocal | src/persistence/sqlite/atomic.py:60-131 | a successful commit adds documents of its own source only and leaves the checkpoints of all others as they were, whatever their connectors |
| IngestionSystem.StepKeepsBase | src/application/collection.py:29-97 | with manifests and feeds in one database, every publication, read, connector run, commit and crash keeps the history, the bindings of each source to its connector, and every prepared command sound |
| IngestionSystem.OneCommitPerRevision | src/persistence/sqlite/checkpoints.py:77-188 | whatever the connector, no revision of a source is expected by two successful commits |
| IngestionSystem.CheckpointTellsHistory | src/application/collection.py:71-97 | a stored revision counts the source's successful commits, its success time is the last one's, and no watermark appears |
| IngestionSystem.DocumentsHandedOff | src/ingestion/service.py:90-102 | in every run each stored document has its work row, told field by field, and no other work is stored |
| ExactlyOnce.PreparedCommand | src/application/collection.py:38-68 | the command prepared from a checkpoint carries exactly the page behind it, one work item per record, and its revision |
| ExactlyOnce.PageMoves | src/persistence/sqlite/checkpoints.py:145-188 | a commit that succeeds was prepared from the stored checkpoint; only its source moves, by its page |
| ExactlyOnce.StepKeepsInv | src/application/collection.py:29-68 | every step of any coordinator, for manifests and for feeds, keeps what is stored of the manifests exact |
| ExactlyOnce.StoredExactlyOnce | src/application/collection.py:38-68 | under every interleaving, also with feeds in the same database, the stored documents of a manifest are exactly its records before the cursor; claims and work are exactly those of the documents |
| ExactlyOnce.StoredAsRecorded | src/ingestion/connectors/filing_fixture.py:120-174 | in every run each record before the cursor is stored with the fields, the text, the path and the hash that record and file give |
| ExactlyOnce.PagesAddUp | src/persistence/sqlite/checkpoints.py:77-188 | the committed pages of a manifest add up to its cursor |
| ExactlyOnce.StepsMoveForward | src/ingestion/connectors/filing_fixture.py:45-58 | what remains of a manifest never grows and shrinks by each committed page |
| ExactlyOnce.StoredCount | src/ingestion/connectors/filing_fixture.py:45-58 | with distinct external ids a source has as many documents as its cursor says |
| FreshCommits.FreshBatchStored | src/persistence/sqlite/atomic.py:66-100 | a batch of new derived records is stored whole |
| FreshCommits.FreshItemsStored | src/persistence/sqlite/atomic.py:102-110 | work for new documents is created whole |
| FreshCommits.ConflictingBatch | src/persistence/sqlite/documents.py:161-194 | a batch in which an id belongs to a document that differs is refused as a whole with a document conflict |
| IngestionProgress.CommandAccepted | src/persistence/ingestion/models.py:150-212 | every page of an ingestible manifest becomes a command that its constructor accepts |
| IngestionProgress.UndisturbedCollection | src/application/collection.py:29-68 | from every reachable state an undisturbed collection of an ingestible manifest stores the next page of new documents with its work, whatever the other sources hold |
| IngestionProgress.ManifestCanBeDrained | src/application/collection.py:29-68 | every reachable state can be driven to the end of a manifest in as many collections as pages are left |
| IngestionExamples.ExampleIsIngested | src/ingestion/connectors/filing_fixture.py:23-63 | a concrete manifest of two records, in the wrong order, is ingested by one collection |
| IngestionExamples.RecordIsStored | src/ingestion/connectors/filing_fixture.py:120-174 | the row that this collection stores for one record, in full |
| IngestionRefusals.DocumentsRefused | src/ingestion/models.py:42-85 | a concrete document, and each way to spoil it |
| IngestionRefusals.CheckpointsRefused | src/ingestion/models.py:111-134 | a concrete checkpoint, and each way to spoil it |
| IngestionRefusals.WorkRefused | src/ingestion/work.py:28-95 | concrete work of each kind, and each way to spoil it |
| IngestionRefusals.CommandsRefused | src/persistence/ingestion/models.py:135-212 | a concrete commit command, and its parts that do not fit together |
| IngestionRefusals.BatchesRefused | src/persistence/ingestion/models.py:135-212 | batches that its source, connector or constructor does not allow |
| IngestionRefusals.HandoffsRefused | src/persistence/ingestion/models.py:135-212 | document work that its batch does not allow |
| RssConnector.Collect | src/ingestion/connectors/rss.py:99-195 | against the function of one collection; a success delivers the first due entries, as many as the limit allows, with nothing due left out before them, and a cursor behind them |
| RssConnector.CollectRefuses | src/ingestion/connectors/rss.py:99-160 | when a collection fails before any entry is read, and with which error |
| RssConnector.PageIsFirstDue | src/ingestion/connectors/rss.py:153-167 | filter, sort and cut give the first due entries: a due entry is missing only from a full page that it follows |
| RssConnector.DueIff | src/ingestion/connectors/rss.py:153-165 | the two filters keep exactly what was published after the watermark and comes after the cursor's entry by time and then id |
| RssConnector.StatusFailure | src/ingestion/connectors/rss.py:126-151 | success exactly for 200 to 299, retryable exactly for throttling, with a time to wait that is never negative, and server errors |
| RssConnector.SortInPlace | src/ingestion/connectors/rss.py:166-166 | the same entries in the order of their keys, and entries with one key in the order they had |
| Filtering.FilterOfSort | src/ingestion/connectors/rss.py:153-167 | filtering before a stable sort is filtering after it |
| FeedDraining.NothingSkippedIff | src/ingestion/connectors/rss.py:160-190 | for any feed, a page leaves nothing out exactly when it does not end between two entries with one key |
| FeedDraining.PageAppends | src/ingestion/connectors/rss.py:153-190 | with distinct keys a page continues what was delivered and the rest is what its cursor leaves |
| FeedDraining.GrowingFeedDelivered | src/ingestion/connectors/rss.py:153-190 | while a feed grows only beyond the cursor, the pages are exactly its entries up to the cursor in order |
| FeedDraining.FixedFeedDrained | src/ingestion/connectors/rss.py:153-190 | any limits deliver the first entries of the ordered feed, as many as asked for in all |
| FeedDraining.EmptyPageMeansDrained | src/ingestion/connectors/rss.py:186-195 | a page is empty exactly when all was delivered, and then the cursor stays |
| FeedDraining.CollectionIsOnePage | src/ingestion/connectors/rss.py:99-195 | a successful collection returns nothing for an unchanged feed, else the documents of the page behind cursor and watermark and a cursor for the position behind it |
| FeedDocuments.EntryDocumentIff | src/ingestion/connectors/rss.py:163-185 | an entry becomes a document exactly when its fields are given and its times are timestamps |
| FeedDocuments.DocumentTellsEntry | src/ingestion/connectors/rss.py:163-185 | each field of the document as the entry has it, with the hash of its content and no reference |
| FeedIngestion.StepKeepsInv | src/application/collection.py:29-68 | every step, arbitrary publications included, keeps the cursor behind the delivered entries, their order, and the stored documents exact |
| FeedIngestion.FeedsStoredExactly | src/application/collection.py:38-68 | under every interleaving and whatever is published, the stored documents of a feed are exactly the entries that its commits delivered; claims and work are exactly those of the documents |
| FeedIngestion.StoredAsPublished | src/ingestion/connectors/rss.py:163-185 | in every run each delivered entry is stored with its own address, time, title and content and the hash of its content |
| FeedIngestion.EachDeliveredOnce | src/ingestion/connectors/rss.py:153-190 | the delivered entries are in strict order of their keys, the cursor stands behind the last, and the log and the tables count as many |
| FeedIngestion.OneOfTwoDelivered | src/ingestion/deduplication.py:31-49 | of entries with one stripped external id at most one is ever delivered |
| FeedIngestion.OneAfterAnother | src/application/collection.py:29-68 | what interleaved coordinators deliver of a feed is what collections one after another deliver that see the same feeds with the same limits |
| FeedLosses.InPageIff | src/ingestion/connectors/rss.py:153-190 | an entry is in a page exactly when the run saw it and its key is beyond the cursor and not beyond the page's last, which it is if they share the key |
| FeedLosses.DeliveredOrLostIff | src/ingestion/connectors/rss.py:153-190 | at most one commit passes an entry's key; the entry is delivered exactly when that commit's run saw it, and lost exactly when it did not |
| FeedLosses.LostIff | src/application/collection.py:29-68 | a step loses an entry exactly when it commits a page that ends at or behind the entry and does not hold it |
| FeedLosses.LostForEver | src/ingestion/connectors/rss.py:153-190 | what the cursor has passed without delivering is delivered in no continuation |
| FeedLosses.PublishedInTime | src/ingestion/connectors/rss.py:153-190 | an entry published beyond the cursor and the pages about to be committed, and kept in the feed alone under its key, is delivered or still beyond the cursor at any later time |
| FeedLosses.SightsAreFeeds | src/ingestion/connectors/rss.py:118-153 | every committed page was taken from what its source's feed was at some time during the run |
| GrowingFeeds.NothingIsLost | src/ingestion/connectors/rss.py:153-190 | when feeds change only beyond the cursor and the pages about to be committed, the delivered entries are exactly those up to the cursor, as the feed has them |
| GrowingFeeds.CursorStopsAtRepeat | src/ingestion/connectors/rss.py:153-190 | of two entries of such a feed with one stripped external id the cursor never passes the second |
| FeedProgress.CommitSucceedsIff | src/persistence/sqlite/documents.py:161-194 | the commit of an undisturbed feed collection succeeds exactly when no entry has the id of a stored document, and is else a document conflict |
| FeedProgress.UndisturbedFeedCollection | src/application/collection.py:29-68 | from every reachable state, whatever was published, an undisturbed feed collection succeeds exactly when fetched, readable, without repeated ids and without stored ids; it delivers and stores the page, or changes nothing |
| FeedProgress.RepublishedEntryConflicts | src/persistence/sqlite/documents.py:161-194 | an entry published again under the id of a delivered one ends the collection in a document conflict |
| FeedProgress.FeedCanBeDelivered | src/application/collection.py:29-68 | every state reached with changes beyond the cursor only can deliver exactly the first n entries of a feed when they are readable and repeat no id |
| FeedProgress.RepeatsAreNeverDelivered | src/ingestion/connectors/rss.py:153-190 | no such state has delivered a beginning of a feed in which an id repeats |
| FeedExamples.TiedEntryIsLost | src/ingestion/connectors/rss.py:158-190 | a concrete feed of two entries with one key whose second entry is never delivered |
| FeedExamples.BothAreCollected | src/application/collection.py:29-68 | a concrete manifest and a concrete feed are collected into one database |
| FeedExamples.RepublishedEntryIsRefused | src/persistence/sqlite/documents.py:161-194 | a concrete feed: collected, an entry published again, and the next collection refused without a change |
| FeedExamples.LateEntryIsLost | src/ingestion/connectors/rss.py:153-190 | a concrete feed that drops a delivered entry and adds a late one: what was delivered stays, the late entry is lost whatever follows |
| RetryTiming.UncappedMonotone | src/persistence/ingestion/lifecycle.py:521-527 | uncapped backoff never drops and starts at the initial delay |
| RetryTiming.BaseMonotone | src/persistence/ingestion/lifecycle.py:521-527 | the capped base is monotone, within its bounds, and stays at the cap |
| RetryTiming.CapReached | src/persistence/ingestion/lifecycle.py:521-527 | with a multiplier above one the cap is reached after finitely many attempts |
| RetryTiming.JitterWithin | src/persistence/ingestion/lifecycle.py:528-533 | the jitter offset lies in its range for every digest and reaches both ends |
| RetryTiming.JitterIsShare | src/persistence/ingestion/lifecycle.py:528-533 | the offset is exactly the digest's share of the range, rounded down |
| RetryTiming.CalculatedWithin | src/persistence/ingestion/lifecycle.py:534-540 | the calculated delay lies between the two ends of the jitter, and is the base without jitter |
| RetryTiming.WaitFollowsDigest | src/persistence/ingestion/lifecycle.py:528-548 | only the digest of version, work item and attempt matters; a larger one never waits less, and the extreme ones give the ends of the jitter |
| RetryTiming.SeedInjective | src/persistence/ingestion/lifecycle.py:528-530 | under one policy different attempts and work items draw different digests |
| RetryTiming.DelayEnvelope | src/persistence/ingestion/lifecycle.py:534-547 | the delay is in its bounds, waits at least as long as a usable hint up to the maximum and less than a second longer, and ignores other hints |
| RetryTiming.DecisionAccepted | src/persistence/ingestion/lifecycle.py:495-555 | there is a decision exactly when the work is exhausted or neither the hint nor the retry's time overflows; it is exhausted exactly at the budget, else available a whole number of seconds after the failure: the capped backoff of its attempt between the ends of its jitter, extended to what a usable hint asks for up to the maximum |
| Lifecycle.NextIff | tests/contract/persistence/test_work_item_lifecycle_contract.py:292-380 | a claim finds work exactly when some record is eligible, and then one that the claim order puts first |
| Lifecycle.ServedFirstIff | tests/contract/persistence/test_work_item_lifecycle_contract.py:292-380 | the claim serves the record that comes before every other claimable one: held work before waiting work, then by priority, end of lease or availability, creation and id |
| Lifecycle.MentionsIff | src/persistence/ingestion/lifecycle.py:363-394 | a text mentions a token exactly when the token stands anywhere in it |
| Lifecycle.NamesAccepted | src/persistence/ingestion/lifecycle.py:25-27 | which worker ids and claim tokens are accepted |
| ClaimOrder.QueueIsServed | tests/contract/persistence/test_work_item_lifecycle_contract.py:317-380 | claims in a row grant the claimable work in that order, each work item once, and then find nothing |
| Lifecycle.NextUnique | tests/contract/persistence/test_work_item_lifecycle_contract.py:317-380 | the claim order selects a single record |
| LifecycleAdapters.LifecycleAdapter.Select | tests/contract/persistence/test_work_item_lifecycle_contract.py:292-380 | the loop over the records finds the claimable one that comes before every other, or that none is claimable |
| LifecycleAdapters.LifecycleAdapter.ClaimNext | src/persistence/ingestion/ports.py:127-132 | in place: the claim step, its outcome or its error with the state unchanged; the record served is claimable and comes before every other claimable one |
| LifecycleAdapters.LifecycleAdapter.RenewLease | src/persistence/ingestion/ports.py:134-139 | in place: the renewal step, its outcome or its error with the state unchanged |
| LifecycleAdapters.LifecycleAdapter.Complete | src/persistence/ingestion/ports.py:141-146 | in place: the completion step, its outcome or its error with the state unchanged |
| LifecycleAdapters.LifecycleAdapter.FailRetryable | src/persistence/ingestion/ports.py:148-153 | in place: the retry step, its outcome or its error with the state unchanged |
| LifecycleAdapters.LifecycleAdapter.FailTerminal | src/persistence/ingestion/ports.py:155-160 | in place: the terminal failure step, its outcome or its error with the state unchanged |
| LifecycleRuns.StepShape | tests/contract/persistence/test_work_item_lifecycle_contract.py:195-276 | a successful step changes one live record: one revision up, one attempt up only for a claim, which takes work of an allowed kind that is due or whose lease has run out; with the lease, the prior owner or the end that the operation leaves |
| LifecycleRuns.StepKeeps | src/persistence/ingestion/lifecycle.py:569-763 | every step keeps every record valid and returns a valid result that tells the stored record |
| LifecycleRuns.RunKeeps | src/persistence/ingestion/lifecycle.py:628-763 | the same over every run of calls in the order of their times |
| LifecycleRuns.BackdatedRenewalRefused | src/persistence/ingestion/lifecycle.py:650-671 | a lengthening renewal is refused by the record invariant exactly when it is dated before its claim |
| LifecycleRuns.InvariantBrokenIff | src/persistence/ingestion/lifecycle.py:628-763 | from valid records, whatever the clock, the record invariant refuses exactly unusable tokens and backdated renewals |
| LifecycleRuns.InvariantBrokenByTokensOnly | src/persistence/ingestion/lifecycle.py:628-763 | over every run under one policy, whatever the clock, it refuses exactly unusable tokens |
| LifecycleExamples.BackdatedRenewalBreaksInvariant | src/persistence/ingestion/lifecycle.py:650-671 | a concrete renewal dated before its claim that is refused, and the same one dated at the claim that succeeds |
| LifecycleRuns.EvaluatedRetryAccepted | src/persistence/ingestion/lifecycle.py:363-376 | for a live claim there is a decision exactly then, it waits as it should, and it is always accepted and reschedules or buries the work |
| LifecycleExamples.EvaluationOverflows | src/persistence/ingestion/lifecycle.py:541-555 | a concrete hint and a concrete last moment for which there is no decision, and one for which there is |
| LifecycleExamples.WaitsDouble | src/persistence/ingestion/lifecycle.py:495-555 | concrete decisions: 10 and 20 seconds, 60 with a hint of 60, 100 at the cap, and none after the last attempt |
| LifecycleExamples.WaitsJitter | src/persistence/ingestion/lifecycle.py:528-540 | the two ends of a concrete jitter |
| LifecycleFencing.RevisionCounts | tests/contract/persistence/test_work_item_lifecycle_contract.py:195-276 | a revision counts the changes of its record; equal revisions mean equal records |
| LifecycleFencing.AuthorityIsLatestGrant | src/persistence/ingestion/lifecycle.py:306-394 | renewal, completion and failure succeed only with exactly the latest grant's authority, before its lease expires |
| LifecycleFencing.StaleClaimantFenced | tests/contract/persistence/test_work_item_lifecycle_contract.py:573-598 | once its work was changed by anyone, a claimant with the revisions it knows never changes it again |
| LifecycleFencing.TokenFenced | tests/contract/persistence/test_work_item_lifecycle_contract.py:573-598 | with fresh tokens an earlier claimant is fenced whatever revision it presents |
| LifecycleFencing.LeasesNeverOverlap | tests/contract/persistence/test_work_item_lifecycle_contract.py:249-276 | running work is claimed over only after its lease has run out |
| LifecycleFencing.AtMostOneTerminalTransition | tests/contract/persistence/test_work_item_lifecycle_contract.py:600-608 | terminal work never changes and refuses every further operation as an invalid transition |
| LifecycleFencing.BudgetHolds | src/persistence/ingestion/lifecycle.py:628-763 | attempts never exceed the budget, revisions are at least the attempts, and changes at most twice the budget plus renewals |
| LifecycleFencing.ClaimServesFirst | tests/contract/persistence/test_work_item_lifecycle_contract.py:229-380 | with a fresh token a claim never fails and serves the claimable record that comes before every other one, or none is claimable |
| LifecycleExamples.DueWorkInOrder | tests/contract/persistence/test_work_item_lifecycle_contract.py:317-380 | five concrete claims: smaller priority, longer available, older, smaller id |
| LifecycleExamples.ExpiredWorkFirst | tests/contract/persistence/test_work_item_lifecycle_contract.py:292-315 | expired work of priority 99 is claimed before waiting work of priority 10 |
| LifecycleFencing.ClaimRaceHasOneWinner | tests/contract/persistence/test_work_item_lifecycle_contract.py:382-397 | of two claims in a row the second does not get the first one's work while its lease lasts |
| LifecycleExamples.ReclaimedWorkIsCompleted | tests/contract/persistence/test_work_item_lifecycle_contract.py:573-598 | a concrete run: reclaim at the moment of expiry, the stale completion refused, the new one accepted |
| LifecycleRefusals.PoliciesRefused | src/persistence/ingestion/lifecycle.py:124-210 | a concrete policy, and each way to spoil it |
| LifecycleRefusals.DecisionsRefused | src/persistence/ingestion/lifecycle.py:212-241 | concrete decisions before and at the budget, and each way to spoil them |
| LifecycleRefusals.RetryableCategories | src/persistence/ingestion/lifecycle.py:50-121 | which categories of errors may be retried; an error that says otherwise is refused |
| LifecycleRefusals.PendingRefused | src/persistence/ingestion/lifecycle.py:628-763 | a concrete pending record, and each way to spoil it |
| LifecycleRefusals.RunningRefused | src/persistence/ingestion/lifecycle.py:628-763 | a concrete running record, and each way to spoil it |
| LifecycleRefusals.RetryingRefused | src/persistence/ingestion/lifecycle.py:628-763 | a concrete record that waits for a retry, and each way to spoil it |
| LifecycleRefusals.EndedRefused | src/persistence/ingestion/lifecycle.py:628-763 | concrete completed and dead-lettered records, and each way to spoil them |
| LifecycleRefusals.RecordsRefused | src/persistence/ingestion/lifecycle.py:438-478 | records whose kind, lease or failure does not fit |
| LifecycleRefusals.CommandsRefused | src/persistence/ingestion/lifecycle.py:306-394 | commands refused before the state is looked at, also for a message that holds the token |
| LifecycleRefusals.ClaimsRefused | src/persistence/ingestion/lifecycle.py:243-265 | claim requests that are refused |
| LifecycleRefusals.ClaimResultsRefused | src/persistence/ingestion/lifecycle.py:267-303 | a concrete claim, and each way to spoil it |
| LifecycleRefusals.TransitionsRefused | src/persistence/ingestion/lifecycle.py:569-625 | concrete transition results of each kind, and each way to spoil them |
| RuntimeItems.FlattenSorts | src/runtime/queue.py:230-260 | the priority buckets put together are the stable sort of the arrivals |
| RuntimeExamples.EachPriorityInOrder | src/runtime/queue.py:230-260 | one item of each priority, arriving from the lowest up, is served from the highest down |
| RuntimeItems.RemoveFromClass | src/runtime/queue.py:287-299 | removing from one bucket removes the first match from the arrivals and from the order |
| RuntimeItems.DropUnique | src/runtime/queue.py:287-299 | with unique ids exactly the cancelled item is removed |
| RuntimeQueue.WorkQueue.Size | src/runtime/queue.py:192-195 | the bucket lengths add up to the waiting items |
| RuntimeQueue.WorkQueue.Enqueue | src/runtime/queue.py:208-228 | accepts pending items up to the capacity, as the newest arrival |
| RuntimeQueue.WorkQueue.Dequeue | src/runtime/queue.py:230-252 | returns the head of the stable priority order, running, and leaves the rest |
| RuntimeQueue.WorkQueue.Peek | src/runtime/queue.py:254-260 | returns the head of the stable priority order |
| RuntimeQueue.WorkQueue.MarkCompleted | src/runtime/queue.py:264-276 | logs running items only |
| RuntimeQueue.WorkQueue.MarkFailed | src/runtime/queue.py:278-285 | logs running items only, with their error |
| RuntimeQueue.WorkQueue.Cancel | src/runtime/queue.py:287-299 | removes the first item with the id and logs it; items are conserved exactly when it was queued |
| RuntimeQueue.WorkQueue.Clear | src/runtime/queue.py:324-333 | leaves an empty queue and empty logs |
| CycleDispatch.CycleDispatcher.DispatchOne | src/runtime/scheduler.py:238-272 | serves the head: if its cycle ends with a summary, the item is completed with it and logged there; if with an exception, it is failed with its text and logged there; the other log stays |
| CycleDispatch.CycleDispatcher.Drain | src/runtime/scheduler.py:274-288 | terminates and serves the queue in its order up to the limit; each cycle's item is at the next place of the completed log exactly when its run ended without an exception, and else of the failed log |
| CycleDispatch.LogsPartition | src/runtime/scheduler.py:238-288 | every served item is in exactly one of the two logs |
| CycleDispatch.LogsTell | src/runtime/scheduler.py:258-288 | the logs of any number of cycles, run by run |
| RuntimeExamples.DrainBoth | src/runtime/scheduler.py:238-288 | a concrete drain of one failure and one success, each with its start, status and text |
| Floats.PowerFitsIff | src/runtime/retry_manager.py:162-163 | a power of two has a finite double exactly below the exponent 1024 |
| Floats.FloatEndIsHalfStepBehind | src/runtime/retry_manager.py:162-163 | where integers stop having a finite double |
| Floats.PowerProductIsExact | src/runtime/retry_manager.py:162-163 | a double times a power of two is a double again unless it passes all of them |
| RetryManagement.DecisionIsOneOfTwo | src/runtime/retry_manager.py:100-151 | a decision is a retry or a dead letter, never both or neither, when it is which, and its kind, attempt and delay; there is none exactly for a retryable failure of attempt 1025 or later within an exponential budget |
| RetryManagement.CappedMonotone | src/runtime/retry_manager.py:153-164 | the capped delay exists exactly up to attempt 1025, is monotone there and within base and cap |
| RetryManagement.CappedDoubles | src/runtime/retry_manager.py:153-164 | the first retry waits for the base delay, each later one twice as long as the one before, up to the cap |
| RetryManagement.JitterFollowsClock | src/runtime/retry_manager.py:165-172 | the jitter over the clock's period, and none without a clock or a jitter |
| RetryManagement.CappedIsExact | src/runtime/retry_manager.py:153-164 | up to the cap floats round nothing: the product is a double, or passes all of them and the cap is taken |
| RetryManagement.DelayEnvelope | src/runtime/retry_manager.py:153-173 | where there is a delay, jitter keeps it within its share on both sides and below the widened maximum |
| RetryManagement.BudgetSpent | src/runtime/retry_manager.py:100-151 | from any attempt, the attempts left are retried one after the other with bounded delays, then one dead letter, or the overflow; none for manual |
| RetryManagement.RetriesPerCycle | src/runtime/retry_manager.py:100-151 | one retry less than the attempts allowed and then one dead letter, exactly when the policy is immediate or allows at most 1025 attempts |
| RetryOrchestration.DeadLetterQueue.Enqueue | src/runtime/dead_letter.py:60-79 | appends up to the capacity and drops the newest when full |
| RetryOrchestration.DeadLetterQueue.PopOldest | src/runtime/dead_letter.py:84-88 | removes and returns the oldest entry |
| RetryOrchestration.RetryOrchestrator.HandleFailedCycle | src/runtime/retry_orchestrator.py:71-143 | the two outcomes and their effects on both queues; exactly when there is no decision the call fails with queues and logs as they were |
| RetryOrchestration.RetryOrchestrator.HandleReplay | src/runtime/retry_orchestrator.py:145-173 | replay conserves work exactly when there is no entry or the queue has room |
| RuntimeExamples.CancelUnqueued | src/runtime/queue.py:287-299 | a concrete item that was never enqueued is logged as cancelled while the queue stays as it is |
| RuntimeExamples.ReplayIntoFullQueue | src/runtime/retry_orchestrator.py:145-173 | a concrete dead letter replayed into a full queue is in neither queue afterwards |
| RuntimeExamples.LongBudgetEndsUndecided | src/runtime/retry_manager.py:153-164 | with 1026 attempts allowed, 1024 retries and then an overflow instead of a decision |
| RuntimeExamples.DelaysDouble | src/runtime/retry_manager.py:153-164 | the delays of seven retries from 1 second to 60 |
| RuntimeExamples.QuarterOff | src/runtime/retry_manager.py:165-172 | a concrete delay with jitter |
| RuntimeExamples.DecisionForms | src/runtime/retry_manager.py:100-151 | one decision of each form, in full |
| RuntimeExamples.OverflowLeavesItemUnhandled | src/runtime/retry_orchestrator.py:71-143 | the running item of attempt 1025 is in neither queue and in no log afterwards |
| Migrations.AcceptedIffPrefix | src/persistence/sqlite/migration.py:137-169 | the checks accept a ledger exactly when it is a prefix of the registry, row for row |
| Migrations.ChecksumIff | src/persistence/sqlite/migration.py:37-42 | without digest collisions, checksums are equal exactly for equal joined stripped statements |
| Migrations.SpacingIgnored | src/persistence/sqlite/migration.py:37-42 | space around statements does not change a checksum |
| Migrations.ChangedMigrationRefused | src/persistence/sqlite/migration.py:137-169 | the ledger of an earlier registry is accepted exactly when version, name and statements of each of its migrations are still the same; else the database is refused and left as it is |
| MigrationExamples.ChangedStatementRefused | src/persistence/sqlite/migration.py:137-169 | a concrete statement that was changed under its version and name is refused, and one with another line end is not |
| MigrationExamples.SeparatorInStatement | src/persistence/sqlite/migration.py:37-42 | two statements and one that holds the separator have one checksum |
| Migrations.StatementsInOrder | src/persistence/sqlite/migration.py:172-211 | statements run in order, each on what the ones before it made |
| Migrations.ApplyKeepsPrefix | src/persistence/sqlite/migration.py:172-211 | one transaction extends the ledger by the next migration or changes nothing |
| MigrationRunner.SqliteSchema.Apply | src/persistence/sqlite/migration.py:172-211 | in place: the statements and the ledger row, or everything as before |
| MigrationRunner.SqliteSchema.MigrateAll | src/persistence/sqlite/migration.py:61-81 | in place: the loop over the registry between its two checks |
| MigrationRuns.RegistryRefusedIff | src/persistence/sqlite/migration.py:61-92 | a registry is refused exactly when it is empty, its versions do not count from one, or a name repeats |
| MigrationRuns.MigrateCompletes | src/persistence/sqlite/migration.py:61-81 | an incompatible database is never changed; a run completes, with the full ledger and its version, exactly when the statements of every missing migration run to their end, and the tables are what those made of the ones before |
| MigrationRuns.SecondRunChangesNothing | src/persistence/sqlite/migration.py:61-81 | a second run changes nothing and returns the same version |
| MigrationRuns.InterleavedMigrators | src/persistence/sqlite/migration.py:137-211 | under every interleaving the ledger is a prefix of the registry and each migration is executed at most once, in order |

## Left out

- SHA-256 itself, and the check that a content hash is 64 hexadecimal digits: digests are any text.
- ContentText.FixpointIffNormal: Unicode NFC is a parameter of content normalization; idempotence is proved for the
  steps after it.
- ISO-8601 parsing: timestamps are texts with an opaque validity check, or numbers in the work lifecycle.
- The JSON of a filing manifest: records are given with their fields. A text field that is null in the file, which the
  code turns into the text "None", is not modelled.
- HTTP transport, XML and date parsing, file reading: the connectors start from parsed entries and records.
- RssConnector.Collect: a Retry-After value is a real number or absent; infinite values and NaN are not modelled, nor
  is the `retry_hint` of a batch, which no connector sets.
- Rows of a table never hold values of the wrong type, so decoding errors of stored documents and checkpoints do not
  occur; `created_at` and `updated_at` of rows are not kept.
- Work rows have constant status, priority and revision, as the first schema's constraints demand.
- Json.LoadsWrite: does not cover floating-point numerals, which the ingestion code never writes, nor escapes of
  unpaired surrogates, which a text cannot hold here.
- `int()` on cursor positions reads ASCII digits only.
- SQLite connections, busy timeouts and operational errors: a transaction is one atomic step.
- RetryTiming.DecisionAccepted: an integer hint of 2 to the 53 or more is rounded to a float by the code and not here;
  such a wait passes the last moment of the calendar either way, or the maximal delay is taken.
- The lifecycle port has no adapter in the repository; the one here follows the port, the contract tests and
  ADR-010, with one policy per adapter. A renewal that does not extend the lease is a policy disagreement, and a
  token that the record already holds an invariant error.
- Structured lifecycle events.
- Drain: the pipeline that it runs does not touch the queue; the text of its summary is given.
- `DefaultScheduler`, queue statistics, `items_for_replay`: short bodies without further state.
- RetryManagement.DelayEnvelope: the jitter factor and its product with the capped delay are real numbers; the code
  rounds them to floats. Infinite and NaN parameters, and integers in place of float delays, are not modelled.
- Migration statements act on the set of tables through a given function; they never write the ledger rows.
- `prepare_research_work`, reports, workflow stages, research synthesis and the in-memory store.
