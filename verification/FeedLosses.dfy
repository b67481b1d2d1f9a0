/**
 * Which entries of a feed are delivered and which are lost, however the feed is published: one
 * commit passes an entry's key, and the entry is delivered exactly when that commit's run saw it.
 */
module FeedLosses {
  import opened Wrappers
  import opened IngestionModels
  import opened IngestionTables
  import opened CollectionCommits
  import opened CollectionReplay
  import opened CheckpointHistory
  import opened IngestionSystem
  import opened RssCursor
  import opened RssConnector
  import opened FeedDraining
  import opened FeedDocuments
  import opened FeedIngestion
  import opened TextOrder

  // ---- one page ----

  /** The run saw the entry, and no other entry with its key is the last of the page. */
  ghost predicate Seen(sight: Sight, page: seq<FeedEntry>, e: FeedEntry) {
    e in sight.feed && (PositionAfter(page) == Some(KeyOf(e)) ==> page[|page| - 1] == e)
  }

  /** An entry is in the page exactly when it was seen and its key is among those that the page passes. */
  lemma InPageIff(sight: Sight, position: Option<Position>, e: FeedEntry)
    requires Ascending(PageSeen(sight, position)) && PageSeen(sight, position) != []
    ensures var page := PageSeen(sight, position);
      e in page <==> Beyond(e, position) && !Beyond(e, PositionAfter(page)) && Seen(sight, page, e)
  {
    hide Page, Beyond, PairAtMost, Ascending, IsDue;
    var page := PageSeen(sight, position);
    PageEntries(sight, position);
    NoneBeyondEnd(page);
    if e in page {
      LastOfKey(page, e);
    } else if Beyond(e, position) && Seen(sight, page, e) {
      PageIsFirstDue(sight.feed, None, position, sight.limit);
      assert Placed(sight.feed, None, position, sight.limit, page, e);
      DueIff(e, None, position);
      assert e in multiset(sight.feed) && e !in multiset(page);
      NotPassed(page, e);
    }
  }

  lemma LastOfKey(page: seq<FeedEntry>, e: FeedEntry)
    requires Ascending(page) && e in page
    ensures PositionAfter(page) == Some(KeyOf(e)) ==> page[|page| - 1] == e
  {
    hide PairAtMost, Beyond;
    var i :| 0 <= i < |page| && page[i] == e;
    if i < |page| - 1 {
      BeyondHasOtherKey(page[|page| - 1], page[i]);
    }
  }

  lemma BeyondHasOtherKey(a: FeedEntry, b: FeedEntry)
    requires Beyond(a, Some(KeyOf(b)))
    ensures KeyOf(a) != KeyOf(b)
  {
    hide PairAtMost;
    PairAtMostTotal(KeyOf(b), KeyOf(b));
  }

  /** What comes no earlier than the last entry and has another key is beyond it. */
  lemma NotPassed(page: seq<FeedEntry>, e: FeedEntry)
    requires page != [] && PairAtMost(KeyOf(page[|page| - 1]), KeyOf(e)) && KeyOf(page[|page| - 1]) != KeyOf(e)
    ensures Beyond(e, PositionAfter(page))
  {
    hide PairAtMost;
    if PairAtMost(KeyOf(e), KeyOf(page[|page| - 1])) {
      PairAtMostAntisymmetric(KeyOf(e), KeyOf(page[|page| - 1]));
    }
  }

  // ---- the commit that passes an entry ----

  /** What was delivered of the source before commit `k`. */
  function DeliveredBefore(log: seq<Committed>, sights: seq<Sight>, k: nat, sourceId: Id): seq<FeedEntry>
    requires k <= |log| == |sights|
  {
    DeliveredIn(log[..k], sights[..k], sourceId)
  }

  /** The page that commit `k` delivered. */
  function PageAt(log: seq<Committed>, sights: seq<Sight>, k: nat): seq<FeedEntry>
    requires k < |log| == |sights|
  {
    PageSeen(sights[k], PositionAfter(DeliveredBefore(log, sights, k, log[k].sourceId)))
  }

  /** Commit `k` moved the source's cursor from before the entry's key to it or past it. */
  ghost predicate Passes(log: seq<Committed>, sights: seq<Sight>, k: nat, sourceId: Id, e: FeedEntry) {
    && k < |log| == |sights| && log[k].sourceId == sourceId
    && Beyond(e, PositionAfter(DeliveredBefore(log, sights, k, sourceId)))
    && !Beyond(e, PositionAfter(DeliveredBefore(log, sights, k + 1, sourceId)))
  }

  /** The run behind commit `k` saw the entry. */
  ghost predicate SeenBy(log: seq<Committed>, sights: seq<Sight>, k: nat, e: FeedEntry) {
    k < |log| == |sights| && Seen(sights[k], PageAt(log, sights, k), e)
  }

  lemma DeliveredStep(log: seq<Committed>, sights: seq<Sight>, k: nat, sourceId: Id)
    requires k < |log| == |sights|
    ensures DeliveredBefore(log, sights, k + 1, sourceId)
         == DeliveredBefore(log, sights, k, sourceId) + if log[k].sourceId == sourceId then PageAt(log, sights, k) else []
  {
    hide PageSeen;
    assert log[..k + 1][..k] == log[..k] && sights[..k + 1][..k] == sights[..k];
    assert DeliveredBefore(log, sights, k, sourceId) + [] == DeliveredBefore(log, sights, k, sourceId);
  }

  lemma {:induction false} DeliveredGrows(log: seq<Committed>, sights: seq<Sight>, j: nat, k: nat, sourceId: Id)
    requires j <= k <= |log| == |sights|
    ensures DeliveredBefore(log, sights, j, sourceId) <= DeliveredBefore(log, sights, k, sourceId)
  {
    hide DeliveredBefore, PageAt;
    if j < k {
      DeliveredGrows(log, sights, j, k - 1, sourceId);
      DeliveredStep(log, sights, k - 1, sourceId);
    }
  }

  lemma AscendingPart(part: seq<FeedEntry>, all: seq<FeedEntry>)
    requires Ascending(all) && part <= all
    ensures Ascending(part)
  {
    hide Beyond;
  }

  /** What is not beyond a beginning is not beyond the whole. */
  lemma PassedStays(part: seq<FeedEntry>, all: seq<FeedEntry>, e: FeedEntry)
    requires Ascending(all) && part <= all && !Beyond(e, PositionAfter(part))
    ensures !Beyond(e, PositionAfter(all))
  {
    hide Beyond, PairAtMost, Ascending;
    if Beyond(e, PositionAfter(all)) {
      BeyondPart(part, all, e);
    }
  }

  lemma BeyondPart(part: seq<FeedEntry>, all: seq<FeedEntry>, e: FeedEntry)
    requires Ascending(all) && part <= all && Beyond(e, PositionAfter(all))
    ensures Beyond(e, PositionAfter(part))
  {
    hide PairAtMost, Ascending;
    if part != [] {
      BeyondAll(all, |part| - 1, e);
    }
  }

  /** The commit that passes an entry: there is exactly one when the cursor has come to the entry's key. */
  lemma {:induction false} PassedBySome(log: seq<Committed>, sights: seq<Sight>, n: nat, sourceId: Id, e: FeedEntry)
    returns (k: nat)
    requires n <= |log| == |sights|
    requires !Beyond(e, PositionAfter(DeliveredBefore(log, sights, n, sourceId)))
    ensures k < n && Passes(log, sights, k, sourceId, e)
  {
    hide DeliveredBefore, PageAt, PairAtMost;
    if n == 0 {
      NothingBefore(log, sights, sourceId);
      assert false;
    } else if Beyond(e, PositionAfter(DeliveredBefore(log, sights, n - 1, sourceId))) {
      k := n - 1;
      DeliveredStep(log, sights, k, sourceId);
      assert DeliveredBefore(log, sights, k, sourceId) + [] == DeliveredBefore(log, sights, k, sourceId);
    } else {
      k := PassedBySome(log, sights, n - 1, sourceId, e);
    }
  }

  lemma NothingBefore(log: seq<Committed>, sights: seq<Sight>, sourceId: Id)
    requires |log| == |sights|
    ensures DeliveredBefore(log, sights, 0, sourceId) == []
  {
  }

  lemma PassedOnce(log: seq<Committed>, sights: seq<Sight>, j: nat, k: nat, sourceId: Id, e: FeedEntry)
    requires |log| == |sights| && Ascending(DeliveredIn(log, sights, sourceId))
    requires Passes(log, sights, j, sourceId, e) && Passes(log, sights, k, sourceId, e)
    ensures j == k
  {
    hide DeliveredBefore, Beyond, Ascending;
    if j != k {
      var (a, b) := if j < k then (j, k) else (k, j);
      PartOfAll(log, sights, b, sourceId);
      DeliveredGrows(log, sights, a + 1, b, sourceId);
      PassedStays(DeliveredBefore(log, sights, a + 1, sourceId), DeliveredBefore(log, sights, b, sourceId), e);
    }
  }

  lemma PartOfAll(log: seq<Committed>, sights: seq<Sight>, k: nat, sourceId: Id)
    requires k <= |log| == |sights| && Ascending(DeliveredIn(log, sights, sourceId))
    ensures DeliveredBefore(log, sights, k, sourceId) <= DeliveredIn(log, sights, sourceId)
    ensures Ascending(DeliveredBefore(log, sights, k, sourceId))
  {
    hide Ascending, DeliveredIn;
    assert log[..|log|] == log && sights[..|log|] == sights;
    DeliveredGrows(log, sights, k, |log|, sourceId);
    AscendingPart(DeliveredBefore(log, sights, k, sourceId), DeliveredIn(log, sights, sourceId));
  }

  /** An entry that commit `k` passes is delivered exactly when the commit's run saw it. */
  lemma DeliveredIfSeen(log: seq<Committed>, sights: seq<Sight>, k: nat, sourceId: Id, e: FeedEntry)
    requires |log| == |sights| && Ascending(DeliveredIn(log, sights, sourceId))
    requires Passes(log, sights, k, sourceId, e)
    ensures e in DeliveredIn(log, sights, sourceId) <==> SeenBy(log, sights, k, e)
  {
    hide DeliveredBefore, Beyond, Ascending, DeliveredIn, PageSeen, Seen;
    var all, before := DeliveredIn(log, sights, sourceId), DeliveredBefore(log, sights, k, sourceId);
    var after, page := DeliveredBefore(log, sights, k + 1, sourceId), PageAt(log, sights, k);
    PartOfAll(log, sights, k, sourceId);
    PartOfAll(log, sights, k + 1, sourceId);
    DeliveredStep(log, sights, k, sourceId);
    assert after == before + page;
    PassingPage(before, page, e);
    InPageIff(sights[k], PositionAfter(before), e);
    assert e in page <==> SeenBy(log, sights, k, e);
    NoneBeyondEnd(before);
    if e in all {
      PassedInPart(after, all, e);
    }
    if e in page {
      var i :| 0 <= i < |page| && page[i] == e;
      assert after[|before| + i] == e && all[..|after|] == after;
    }
  }

  /** A page that passes an entry is not empty, and ends where the cursor stands then. */
  lemma PassingPage(before: seq<FeedEntry>, page: seq<FeedEntry>, e: FeedEntry)
    requires Ascending(before + page)
    requires Beyond(e, PositionAfter(before)) && !Beyond(e, PositionAfter(before + page))
    ensures page != [] && PositionAfter(before + page) == PositionAfter(page) && Ascending(page)
  {
    hide Beyond;
    assert page == [] ==> before + page == before;
    forall i, j | 0 <= i < j < |page|
      ensures Beyond(page[j], Some(KeyOf(page[i])))
    {
      assert Beyond((before + page)[|before| + j], Some(KeyOf((before + page)[|before| + i])));
    }
  }

  /** What comes behind a beginning is beyond it. */
  lemma RestIsBeyond(part: seq<FeedEntry>, all: seq<FeedEntry>, i: nat)
    requires Ascending(all) && part <= all && |part| <= i < |all|
    ensures Beyond(all[i], PositionAfter(part))
  {
    hide PairAtMost;
    if part != [] {
      assert Beyond(all[i], Some(KeyOf(all[|part| - 1])));
    }
  }

  /** An entry that a beginning passes is in the beginning if it is anywhere. */
  lemma PassedInPart(part: seq<FeedEntry>, all: seq<FeedEntry>, e: FeedEntry)
    requires Ascending(all) && part <= all && e in all && !Beyond(e, PositionAfter(part))
    ensures e in part
  {
    hide Beyond, PairAtMost, Ascending;
    var i :| 0 <= i < |all| && all[i] == e;
    if i >= |part| {
      RestIsBeyond(part, all, i);
    }
  }

  // ---- delivered or lost, in every run ----

  /** The cursor has come to the entry's key or past it, and the entry was not delivered. */
  ghost predicate Lost(s: State, sourceId: Id, e: FeedEntry) {
    !Beyond(e, PositionIn(s.base.db, sourceId)) && e !in DeliveredOf(s, sourceId)
  }

  ghost predicate PassedAndSeen(s: State, sourceId: Id, e: FeedEntry) {
    exists k: nat :: Passes(s.base.log, s.committed, k, sourceId, e) && SeenBy(s.base.log, s.committed, k, e)
  }

  ghost predicate PassedUnseen(s: State, sourceId: Id, e: FeedEntry) {
    exists k: nat :: Passes(s.base.log, s.committed, k, sourceId, e) && !SeenBy(s.base.log, s.committed, k, e)
  }

  ghost predicate PassedAtMostOnce(s: State, sourceId: Id, e: FeedEntry) {
    forall j: nat, k: nat ::
      Passes(s.base.log, s.committed, j, sourceId, e) && Passes(s.base.log, s.committed, k, sourceId, e) ==> j == k
  }

  /**
   * In every reachable state, and whatever was published: one commit at most passed an entry's
   * key. The entry is delivered exactly when that commit's run saw it, and lost exactly when a
   * commit passed it whose run did not see it, or saw it cut off behind an entry with its key.
   */
  lemma DeliveredOrLostIff(world: World, steps: seq<Step>, sourceId: Id, e: FeedEntry)
    requires world.HasFeed(sourceId)
    ensures PassedAtMostOnce(Run(world, steps), sourceId, e)
    ensures e in DeliveredOf(Run(world, steps), sourceId) <==> PassedAndSeen(Run(world, steps), sourceId, e)
    ensures Lost(Run(world, steps), sourceId, e) <==> PassedUnseen(Run(world, steps), sourceId, e)
  {
    hide Run, BaseInv, FeedInv, Passes, SeenBy;
    RunsKeepInv(world, steps);
    PassingDecides(world, Run(world, steps), sourceId, e);
  }

  lemma SourceInv(world: World, s: State, sourceId: Id)
    requires FeedInv(world, s) && world.HasFeed(sourceId)
    ensures |s.base.log| == |s.committed| && Ascending(DeliveredOf(s, sourceId))
    ensures PositionIn(s.base.db, sourceId) == PositionAfter(DeliveredOf(s, sourceId))
  {
    hide PhaseOk, EntriesExact, DecodeCursor, GetCheckpoint, Ascending, DeliveredIn, PagesTotal;
    assert SourceOk(world.env, s.base.db, s.base.log, s.committed, sourceId);
  }

  lemma PassingDecides(world: World, s: State, sourceId: Id, e: FeedEntry)
    requires FeedInv(world, s) && world.HasFeed(sourceId)
    ensures PassedAtMostOnce(s, sourceId, e)
    ensures e in DeliveredOf(s, sourceId) <==> PassedAndSeen(s, sourceId, e)
    ensures Lost(s, sourceId, e) <==> PassedUnseen(s, sourceId, e)
  {
    hide FeedInv, Passes, SeenBy, PositionIn, Ascending, DeliveredIn;
    SourceInv(world, s, sourceId);
    var log, sights := s.base.log, s.committed;
    forall j: nat, k: nat | Passes(log, sights, j, sourceId, e) && Passes(log, sights, k, sourceId, e)
      ensures j == k
    {
      PassedOnce(log, sights, j, k, sourceId, e);
    }
    PassedIff(log, sights, sourceId, e);
    NoneBeyondEnd(DeliveredOf(s, sourceId));
    forall k: nat | Passes(log, sights, k, sourceId, e)
      ensures e in DeliveredOf(s, sourceId) <==> SeenBy(log, sights, k, e)
    {
      DeliveredIfSeen(log, sights, k, sourceId, e);
    }
  }

  lemma PassedIff(log: seq<Committed>, sights: seq<Sight>, sourceId: Id, e: FeedEntry)
    requires |log| == |sights| && Ascending(DeliveredIn(log, sights, sourceId))
    ensures !Beyond(e, PositionAfter(DeliveredIn(log, sights, sourceId)))
       <==> exists k: nat :: Passes(log, sights, k, sourceId, e)
  {
    hide Beyond, Ascending, DeliveredIn;
    var all := DeliveredIn(log, sights, sourceId);
    assert log[..|log|] == log && sights[..|log|] == sights;
    if !Beyond(e, PositionAfter(all)) {
      var k := PassedBySome(log, sights, |log|, sourceId, e);
    }
    if k: nat :| Passes(log, sights, k, sourceId, e) {
      PartOfAll(log, sights, k + 1, sourceId);
      PassedStays(DeliveredBefore(log, sights, k + 1, sourceId), all, e);
    }
  }

  // ---- how an entry gets lost ----

  /** The step is a successful commit of the source. */
  predicate CommitsSource(world: World, s: State, step: Step, sourceId: Id) {
    && step.CommitBatch? && PhaseOf(s.base, step.coordinator).Ready?
    && PhaseOf(s.base, step.coordinator).sourceId == sourceId
    && Commit(world.env, s.base.db, PhaseOf(s.base, step.coordinator).command).Ok?
  }

  /** Its page ends at or behind the entry's key and does not hold the entry. */
  ghost predicate Overtakes(world: World, s: State, step: Step, sourceId: Id, e: FeedEntry) {
    && CommitsSource(world, s, step, sourceId)
    && var c := PhaseOf(s.base, step.coordinator).command;
       Beyond(e, PositionIn(s.base.db, sourceId)) && !Beyond(e, EndOf(c)) && e !in EntriesOf(c.batch.records)
  }

  /** From one state to the other, the page was delivered and the cursor moved to its end. */
  ghost predicate Moves(s: State, t: State, sourceId: Id, page: seq<FeedEntry>, end: Option<Position>) {
    DeliveredOf(t, sourceId) == DeliveredOf(s, sourceId) + page && PositionIn(t.base.db, sourceId) == end
  }

  lemma EndIsStored(world: World, s: State, sourceId: Id, c: CollectionCommitCommand,
                    after: Database, r: CollectionCommitResult)
    requires Lands(world.env, world.Connectors(), s.base, sourceId, c, after, r)
    ensures PositionIn(after, sourceId) == EndOf(c)
  {
    hide Lands, DecodeCursor, GetCheckpoint, Basis, CheckpointMoved, CommitStored;
    LandsOnCurrent(world.env, world.Connectors(), s.base, sourceId, c, after, r);
    CheckpointAfter(s.base.db, c, after, r.checkpoint);
  }

  /** The step is a successful commit of any source. */
  predicate CommitsAny(world: World, s: State, step: Step) {
    && step.CommitBatch? && PhaseOf(s.base, step.coordinator).Ready?
    && Commit(world.env, s.base.db, PhaseOf(s.base, step.coordinator).command).Ok?
  }

  /** Any other step leaves the tables and the log as they were. */
  lemma NothingCommitted(world: World, s: State, step: Step)
    requires !CommitsAny(world, s, step)
    ensures Take(world, s, step).base.db == s.base.db && Take(world, s, step).base.log == s.base.log
    ensures Take(world, s, step).committed == s.committed
  {
    hide Commit, GetCheckpoint, RunSource;
  }

  lemma CommitAppends(world: World, s: State, i: nat, c: CollectionCommitCommand, after: Database,
                      r: CollectionCommitResult)
    requires PhaseOf(s.base, i).Ready? && PhaseOf(s.base, i).command == c
    requires Commit(world.env, s.base.db, c) == Ok((after, r))
    ensures Take(world, s, CommitBatch(i)).base.db == after
    ensures Take(world, s, CommitBatch(i)).base.log == s.base.log + [EntryFor(PhaseOf(s.base, i).sourceId, c, r.checkpoint)]
    ensures Take(world, s, CommitBatch(i)).committed == s.committed + [SightOf(s, i)]
    ensures PhaseOf(Take(world, s, CommitBatch(i)).base, i) == Idle
  {
    hide Commit, GetCheckpoint, RunSource;
  }

  lemma CommitDelivers(world: World, s: State, i: nat, sourceId: Id, c: CollectionCommitCommand)
    requires BaseInv(world, s) && FeedInv(world, s) && PhaseOf(s.base, i) == Ready(sourceId, c)
    requires world.HasFeed(sourceId) && Commit(world.env, s.base.db, c).Ok?
    ensures Moves(s, Take(world, s, CommitBatch(i)), sourceId, EntriesOf(c.batch.records), EndOf(c))
    ensures Live(s.base.db, sourceId, c) && EntriesOf(c.batch.records) == PageOf(s, i, sourceId)
  {
    hide BaseInv, FeedInv, Take, Commit, Lands, DecodeCursor, GetCheckpoint, DeliveredIn, PageSeen, ToDocuments,
      NextPosition, DistinctIds, EntriesOf, Basis, Live, PhaseOf;
    var (after, r) := Commit(world.env, s.base.db, c).value;
    CommitAppends(world, s, i, c, after, r);
    SoundLands(world, s, i, sourceId, c);
    SourceInv(world, s, sourceId);
    PageMoves(world, s, i, sourceId, c, after, r);
    EndIsStored(world, s, sourceId, c, after, r);
    EntriesOfPage(world.env, sourceId, PageOf(s, i, sourceId), c.batch.collectedAt);
    DeliveredNext(s.base.log, s.committed, EntryFor(sourceId, c, r.checkpoint), SightOf(s, i), sourceId);
  }

  /** A step that does not commit the source delivers nothing of it and leaves its cursor where it was. */
  lemma OthersDeliverNothing(world: World, s: State, step: Step, sourceId: Id)
    requires BaseInv(world, s) && FeedInv(world, s) && world.HasFeed(sourceId)
    requires !CommitsSource(world, s, step, sourceId)
    ensures Moves(s, Take(world, s, step), sourceId, [], PositionIn(s.base.db, sourceId))
  {
    hide BaseInv, FeedInv, Take, Commit, DeliveredIn, PositionIn;
    SourceInv(world, s, sourceId);
    assert DeliveredOf(s, sourceId) + [] == DeliveredOf(s, sourceId);
    if CommitsAny(world, s, step) {
      OtherCommitMoves(world, s, step.coordinator, PhaseOf(s.base, step.coordinator).sourceId,
                       PhaseOf(s.base, step.coordinator).command, sourceId);
    } else {
      NothingCommitted(world, s, step);
    }
  }

  lemma OtherCommitMoves(world: World, s: State, i: nat, other: Id, c: CollectionCommitCommand, sourceId: Id)
    requires BaseInv(world, s) && FeedInv(world, s) && world.HasFeed(sourceId) && other != sourceId
    requires PhaseOf(s.base, i) == Ready(other, c) && Commit(world.env, s.base.db, c).Ok?
    ensures Moves(s, Take(world, s, CommitBatch(i)), sourceId, [], PositionIn(s.base.db, sourceId))
  {
    hide BaseInv, FeedInv, Take, Commit, Lands, GetCheckpoint, DeliveredIn, PositionAt, OthersStay, PhaseOf;
    var (after, r) := Commit(world.env, s.base.db, c).value;
    SourceInv(world, s, sourceId);
    SoundLands(world, s, i, other, c);
    CommitIsLocal(world.env, world.Connectors(), s.base, other, c, after, r);
    OtherCheckpoints(s.base.db, other, after);
    CommitAppends(world, s, i, c, after, r);
    DeliveredNext(s.base.log, s.committed, EntryFor(other, c, r.checkpoint), SightOf(s, i), sourceId);
    assert DeliveredOf(s, sourceId) + [] == DeliveredOf(s, sourceId);
  }

  /**
   * A step loses an entry exactly when it commits a page that overtakes the entry; and what is
   * lost stays lost.
   */
  lemma LostIff(world: World, steps: seq<Step>, step: Step, sourceId: Id, e: FeedEntry)
    requires world.HasFeed(sourceId)
    ensures Lost(Take(world, Run(world, steps), step), sourceId, e)
       <==> Lost(Run(world, steps), sourceId, e) || Overtakes(world, Run(world, steps), step, sourceId, e)
  {
    hide Run, Take, BaseInv, FeedInv, Lost, Overtakes;
    RunsKeepInv(world, steps);
    StepLoses(world, Run(world, steps), step, sourceId, e);
  }

  lemma StepLoses(world: World, s: State, step: Step, sourceId: Id, e: FeedEntry)
    requires BaseInv(world, s) && FeedInv(world, s) && world.HasFeed(sourceId)
    ensures Lost(Take(world, s, step), sourceId, e) <==> Lost(s, sourceId, e) || Overtakes(world, s, step, sourceId, e)
  {
    hide BaseInv, FeedInv, Commit, Storing, Collecting, PositionIn, DeliveredOf, EntriesOf, EndOf, Beyond, Ascending;
    SourceInv(world, s, sourceId);
    NoneBeyondEnd(DeliveredOf(s, sourceId));
    if CommitsSource(world, s, step, sourceId) {
      var c := PhaseOf(s.base, step.coordinator).command;
      CommitDelivers(world, s, step.coordinator, sourceId, c);
      CommitMoves(world, s, step.coordinator, sourceId, c, e);
    } else {
      OthersDeliverNothing(world, s, step, sourceId);
    }
  }

  /** What the cursor has passed, a commit leaves passed, and its page holds none of it. */
  lemma CommitMoves(world: World, s: State, i: nat, sourceId: Id, c: CollectionCommitCommand, e: FeedEntry)
    requires BaseInv(world, s) && FeedInv(world, s) && PhaseOf(s.base, i) == Ready(sourceId, c)
    requires world.HasFeed(sourceId) && Commit(world.env, s.base.db, c).Ok?
    ensures !Beyond(e, PositionIn(s.base.db, sourceId)) ==> !Beyond(e, EndOf(c)) && e !in EntriesOf(c.batch.records)
  {
    hide BaseInv, FeedInv, Commit, PositionIn, EntriesOf, EndOf, Beyond, DeliveredIn, PageSeen, Ascending, PositionAfter;
    CommitDelivers(world, s, i, sourceId, c);
    SourceInv(world, s, sourceId);
    PageEntries(SightOf(s, i), PositionAfter(DeliveredOf(s, sourceId)));
    StepKeepsInv(world, s, CommitBatch(i));
    var t := Take(world, s, CommitBatch(i));
    SourceInv(world, t, sourceId);
    if !Beyond(e, PositionIn(s.base.db, sourceId)) {
      PassedStays(DeliveredOf(s, sourceId), DeliveredOf(t, sourceId), e);
    }
  }

  /** What is lost is never delivered again, whatever happens. */
  lemma {:induction false} LostForEver(world: World, steps: seq<Step>, more: seq<Step>, sourceId: Id, e: FeedEntry)
    requires world.HasFeed(sourceId) && Lost(Run(world, steps), sourceId, e)
    ensures Lost(Run(world, steps + more), sourceId, e)
  {
    hide Run, Take, Lost, Overtakes;
    if more == [] {
      assert steps + more == steps;
    } else {
      var front := more[..|more| - 1];
      LostForEver(world, steps, front, sourceId, e);
      assert steps + more == steps + front + [more[|more| - 1]];
      RunStep(world, steps + front, more[|more| - 1]);
      LostIff(world, steps + front, more[|more| - 1], sourceId, e);
    }
  }

  // ---- entries that are published in time ----

  /** The feed has the entry and no other one with its key. */
  ghost predicate Holds(feed: seq<FeedEntry>, e: FeedEntry) {
    e in feed && forall other :: other in feed && KeyOf(other) == KeyOf(e) ==> other == e
  }

  /** Committing this phase would not lose the entry: it is stale, ends before the entry or has it in its page. */
  ghost predicate Spares(s: State, i: nat, sourceId: Id, e: FeedEntry) {
    var phase := PhaseOf(s.base, i);
    phase.Ready? && phase.sourceId == sourceId && Live(s.base.db, sourceId, phase.command) ==>
      Beyond(e, EndOf(phase.command)) || e in PageOf(s, i, sourceId)
  }

  /** The entry is beyond the cursor and beyond every page about to be committed that does not have it. */
  ghost predicate StillDue(s: State, sourceId: Id, e: FeedEntry) {
    Beyond(e, PositionIn(s.base.db, sourceId)) && forall i :: Spares(s, i, sourceId, e)
  }

  ghost predicate Safe(s: State, sourceId: Id, e: FeedEntry) {
    e in DeliveredOf(s, sourceId) || StillDue(s, sourceId, e)
  }

  predicate RunsAt(step: Step, i: nat) {
    step.RunConnector? && step.coordinator == i
  }

  /** The step is one of this coordinator. */
  predicate StepOf(step: Step, i: nat) {
    !step.Publish? && step.coordinator == i
  }

  /** A step changes the phase and the sight of no other coordinator. */
  lemma OthersStand(world: World, s: State, step: Step, j: nat)
    requires !StepOf(step, j)
    ensures PhaseOf(Take(world, s, step).base, j) == PhaseOf(s.base, j)
    ensures SightOf(Take(world, s, step), j) == SightOf(s, j)
  {
    hide Commit, RunSource, GetCheckpoint;
  }

  /** Whoever commits or crashes or reads is not ready afterwards. */
  lemma NotReadyAfter(world: World, s: State, step: Step, i: nat)
    requires StepOf(step, i) && !step.RunConnector?
    ensures PhaseOf(Take(world, s, step).base, i).Ready? ==> Take(world, s, step) == s
  {
    hide Commit, RunSource, GetCheckpoint;
  }

  /** A run that sees the entry takes it, or ends its page before it. */
  lemma RunSpares(world: World, s: State, sourceId: Id, limit: int, fetch: Fetch, collectedAt: string,
                  preparedAt: string, e: FeedEntry)
    requires BaseInv(world, s) && FeedInv(world, s) && world.HasFeed(sourceId) && Holds(FeedOf(s, sourceId), e)
    requires Beyond(e, PositionIn(s.base.db, sourceId))
    requires RunRss(world.env, sourceId, FeedOf(s, sourceId), GetCheckpoint(s.base.db, sourceId), limit, fetch,
                    collectedAt, preparedAt).Ok?
    ensures var c := RunRss(world.env, sourceId, FeedOf(s, sourceId), GetCheckpoint(s.base.db, sourceId), limit, fetch,
                            collectedAt, preparedAt).value;
      && limit > 0
      && (|| Beyond(e, EndOf(c))
          || e in PageSeen(Sight(FeedOf(s, sourceId), limit, fetch), PositionIn(s.base.db, sourceId)))
  {
    hide BaseInv, FeedInv, RunRss, GetCheckpoint, FeedOf, PageSeen, DecodeCursor, ToDocuments, RunnerMade, Beyond,
      Ascending, Basis;
    RunPrepares(world, s, sourceId, limit, fetch, collectedAt, preparedAt);
    var c := RunRss(world.env, sourceId, FeedOf(s, sourceId), GetCheckpoint(s.base.db, sourceId), limit, fetch,
                    collectedAt, preparedAt).value;
    var sight := Sight(FeedOf(s, sourceId), limit, fetch);
    MadeParts(world.env, CONNECTOR, sourceId, c);
    CommandDistinct(world.env, c);
    BatchAscends(world.env, sight, StartOf(c), sourceId, c.batch.records, c.batch.collectedAt);
    PageSpares(sight, StartOf(c), e);
  }

  lemma PageSpares(sight: Sight, position: Option<Position>, e: FeedEntry)
    requires Holds(sight.feed, e) && Beyond(e, position) && Ascending(PageSeen(sight, position))
    ensures var page := PageSeen(sight, position);
            Beyond(e, NextPosition(page, position)) || e in page
  {
    hide Beyond, Ascending, PageSeen;
    var page := PageSeen(sight, position);
    if page != [] {
      InPageIff(sight, position, e);
      PageEntries(sight, position);
      assert page[|page| - 1] in sight.feed;
    }
  }

  lemma CommitIsSafe(world: World, s: State, i: nat, sourceId: Id, e: FeedEntry)
    requires BaseInv(world, s) && FeedInv(world, s) && world.HasFeed(sourceId) && StillDue(s, sourceId, e)
    requires CommitsSource(world, s, CommitBatch(i), sourceId)
    ensures Safe(Take(world, s, CommitBatch(i)), sourceId, e)
  {
    hide BaseInv, FeedInv, Commit, Storing, PositionIn, DeliveredOf, EntriesOf, EndOf, Beyond, PageOf, Live;
    var c := PhaseOf(s.base, i).command;
    var t := Take(world, s, CommitBatch(i));
    CommitDelivers(world, s, i, sourceId, c);
    assert Spares(s, i, sourceId, e);
    if e !in PageOf(s, i, sourceId) {
      forall j
        ensures Spares(t, j, sourceId, e)
      {
        SparesAfterOwn(world, s, i, j, sourceId, e);
      }
    }
  }

  /** After a commit of the source, no other command of it is live. */
  lemma SparesAfterOwn(world: World, s: State, i: nat, j: nat, sourceId: Id, e: FeedEntry)
    requires BaseInv(world, s) && CommitsSource(world, s, CommitBatch(i), sourceId)
    ensures Spares(Take(world, s, CommitBatch(i)), j, sourceId, e)
  {
    hide HistoryInv, Commit, Lands, EndOf, Beyond, PageOf, GetCheckpoint, Basis, WasCommitted, RunnerMade, DerivedId,
      Take;
    var c := PhaseOf(s.base, i).command;
    var (after, r) := Commit(world.env, s.base.db, c).value;
    SoundLands(world, s, i, sourceId, c);
    BasisPassed(world.env, world.Connectors(), s.base, sourceId, c, after, r);
    CommitAppends(world, s, i, c, after, r);
    if j != i {
      SoundPhase(world, s, j);
      OthersStand(world, s, CommitBatch(i), j);
    }
  }

  /** A step that delivers nothing of the source leaves the other commands as they were. */
  lemma SparesIfSame(world: World, s: State, t: State, j: nat, sourceId: Id, e: FeedEntry)
    requires Spares(s, j, sourceId, e) && DeliveredOf(t, sourceId) == DeliveredOf(s, sourceId)
    requires PhaseOf(t.base, j) == PhaseOf(s.base, j) && SightOf(t, j) == SightOf(s, j)
    requires GetCheckpoint(t.base.db, sourceId) == GetCheckpoint(s.base.db, sourceId)
    ensures Spares(t, j, sourceId, e)
  {
    hide EndOf, Beyond, GetCheckpoint, Basis, PageSeen, DeliveredOf, PhaseOf, SightOf;
  }

  lemma CheckpointStays(world: World, s: State, step: Step, sourceId: Id)
    requires BaseInv(world, s) && !CommitsSource(world, s, step, sourceId)
    ensures GetCheckpoint(Take(world, s, step).base.db, sourceId) == GetCheckpoint(s.base.db, sourceId)
  {
    hide BaseInv, Take, Commit, Lands, GetCheckpoint, OthersStay;
    if CommitsAny(world, s, step) {
      var (i, phase) := (step.coordinator, PhaseOf(s.base, step.coordinator));
      var (after, r) := Commit(world.env, s.base.db, phase.command).value;
      SoundLands(world, s, i, phase.sourceId, phase.command);
      CommitIsLocal(world.env, world.Connectors(), s.base, phase.sourceId, phase.command, after, r);
      OtherCheckpoints(s.base.db, phase.sourceId, after);
      CommitAppends(world, s, i, phase.command, after, r);
    } else {
      NothingCommitted(world, s, step);
    }
  }

  lemma SparesAfterOther(world: World, s: State, step: Step, j: nat, sourceId: Id, e: FeedEntry)
    requires !RunsAt(step, j)
    requires BaseInv(world, s) && FeedInv(world, s) && world.HasFeed(sourceId) && Spares(s, j, sourceId, e)
    requires !CommitsSource(world, s, step, sourceId)
    ensures Spares(Take(world, s, step), j, sourceId, e)
  {
    hide BaseInv, FeedInv, Take, EndOf, Beyond, GetCheckpoint, PageOf, DeliveredOf, PositionIn, CommitsSource, Live;
    var t := Take(world, s, step);
    OthersDeliverNothing(world, s, step, sourceId);
    assert DeliveredOf(s, sourceId) + [] == DeliveredOf(s, sourceId);
    CheckpointStays(world, s, step, sourceId);
    if StepOf(step, j) {
      NotReadyAfter(world, s, step, j);
    } else {
      OthersStand(world, s, step, j);
      SparesIfSame(world, s, t, j, sourceId, e);
    }
  }

  lemma SparesAfterRun(world: World, s: State, step: Step, i: nat, sourceId: Id, e: FeedEntry)
    requires RunsAt(step, i) && Holds(FeedOf(s, sourceId), e)
    requires BaseInv(world, s) && FeedInv(world, s) && world.HasFeed(sourceId) && StillDue(s, sourceId, e)
    ensures Spares(Take(world, s, step), i, sourceId, e)
  {
    hide BaseInv, FeedInv, RunFixture, RunRss, EndOf, Beyond, GetCheckpoint, PageSeen, DeliveredOf, PositionIn, FeedOf,
      RunnerMade, DerivedId, Basis, Holds;
    assert Spares(s, i, sourceId, e);
    var phase := PhaseOf(s.base, i);
    OthersDeliverNothing(world, s, step, sourceId);
    assert DeliveredOf(s, sourceId) + [] == DeliveredOf(s, sourceId);
    SourceInv(world, s, sourceId);
    if phase.Planned? && phase.sourceId == sourceId {
      var made := RunRss(world.env, sourceId, FeedOf(s, sourceId), phase.checkpoint, step.limit, step.fetch,
                         step.collectedAt, step.preparedAt);
      if made.Ok? {
        RunDerived(world, FeedOf(s, sourceId), sourceId, phase.checkpoint, step.limit, step.fetch, step.collectedAt,
                   step.preparedAt);
        if phase.checkpoint == GetCheckpoint(s.base.db, sourceId) {
          RunSpares(world, s, sourceId, step.limit, step.fetch, step.collectedAt, step.preparedAt, e);
        }
      }
    }
  }

  lemma StepIsSafe(world: World, s: State, step: Step, sourceId: Id, e: FeedEntry)
    requires BaseInv(world, s) && FeedInv(world, s) && world.HasFeed(sourceId)
    requires Safe(s, sourceId, e) && Holds(FeedOf(s, sourceId), e)
    ensures Safe(Take(world, s, step), sourceId, e)
  {
    hide BaseInv, FeedInv, Take, CommitsSource, PositionIn, DeliveredOf, EndOf, Beyond, Spares, Holds, FeedOf;
    if CommitsSource(world, s, step, sourceId) {
      OwnStep(world, s, step, sourceId);
      if e in DeliveredOf(s, sourceId) {
        CommitDelivers(world, s, step.coordinator, sourceId, PhaseOf(s.base, step.coordinator).command);
      } else {
        CommitIsSafe(world, s, step.coordinator, sourceId, e);
      }
    } else {
      OthersDeliverNothing(world, s, step, sourceId);
      if e !in DeliveredOf(s, sourceId) {
        forall j
          ensures Spares(Take(world, s, step), j, sourceId, e)
        {
          if RunsAt(step, j) {
            SparesAfterRun(world, s, step, j, sourceId, e);
          } else {
            SparesAfterOther(world, s, step, j, sourceId, e);
          }
        }
      }
    }
  }

  lemma OwnStep(world: World, s: State, step: Step, sourceId: Id)
    requires CommitsSource(world, s, step, sourceId)
    ensures step == CommitBatch(step.coordinator)
    ensures PhaseOf(s.base, step.coordinator) == Ready(sourceId, PhaseOf(s.base, step.coordinator).command)
    ensures Commit(world.env, s.base.db, PhaseOf(s.base, step.coordinator).command).Ok?
  {
    hide Commit;
  }

  /** The feed holds the entry for as long as these steps are taken. */
  ghost predicate Kept(world: World, steps: seq<Step>, more: seq<Step>, sourceId: Id, e: FeedEntry) {
    forall n :: 0 <= n <= |more| ==> Holds(FeedOf(Run(world, steps + more[..n]), sourceId), e)
  }

  /**
   * An entry that is published beyond the cursor and beyond every page about to be committed, and
   * that stays in the feed, alone under its key, is never lost: at any later time it is delivered
   * or still beyond the cursor.
   */
  lemma {:induction false} PublishedInTime(world: World, steps: seq<Step>, more: seq<Step>, sourceId: Id, e: FeedEntry)
    requires world.HasFeed(sourceId) && Safe(Run(world, steps), sourceId, e) && Kept(world, steps, more, sourceId, e)
    ensures Safe(Run(world, steps + more), sourceId, e)
    ensures !Lost(Run(world, steps + more), sourceId, e)
  {
    hide Run, Take, StillDue, Holds, BaseInv, FeedInv, DeliveredOf, PositionIn, Beyond;
    if more == [] {
      assert steps + more == steps;
    } else {
      var last := |more| - 1;
      var front := more[..last];
      assert forall n :: 0 <= n <= last ==> front[..n] == more[..n];
      PublishedInTime(world, steps, front, sourceId, e);
      assert steps + more == steps + front + [more[last]];
      RunStep(world, steps + front, more[last]);
      RunsKeepInv(world, steps + front);
      assert Holds(FeedOf(Run(world, steps + more[..last]), sourceId), e);
      StepIsSafe(world, Run(world, steps + front), more[last], sourceId, e);
    }
    SafeIsNotLost(Run(world, steps + more), sourceId, e);
  }

  lemma SafeIsNotLost(s: State, sourceId: Id, e: FeedEntry)
    requires Safe(s, sourceId, e)
    ensures !Lost(s, sourceId, e)
  {
    hide PositionIn, DeliveredOf, Beyond, Spares;
  }

  // ---- what the runs saw ----

  /** At some time during the run, the source's feed was this. */
  ghost predicate WasFeed(world: World, steps: seq<Step>, sourceId: Id, feed: seq<FeedEntry>) {
    exists n :: 0 <= n <= |steps| && FeedOf(Run(world, steps[..n]), sourceId) == feed
  }

  ghost predicate SightsWere(world: World, steps: seq<Step>, s: State) {
    && |s.base.log| == |s.committed|
    && (forall i :: PhaseOf(s.base, i).Ready? ==> WasFeed(world, steps, PhaseOf(s.base, i).sourceId, SightOf(s, i).feed))
    && (forall k :: 0 <= k < |s.committed| ==> WasFeed(world, steps, s.base.log[k].sourceId, s.committed[k].feed))
  }

  lemma WasBefore(world: World, steps: seq<Step>, step: Step, sourceId: Id, feed: seq<FeedEntry>)
    requires WasFeed(world, steps, sourceId, feed)
    ensures WasFeed(world, steps + [step], sourceId, feed)
  {
    hide Run, FeedOf;
    var n :| 0 <= n <= |steps| && FeedOf(Run(world, steps[..n]), sourceId) == feed;
    assert (steps + [step])[..n] == steps[..n];
  }

  lemma IsNow(world: World, steps: seq<Step>, sourceId: Id)
    ensures WasFeed(world, steps, sourceId, FeedOf(Run(world, steps), sourceId))
  {
    hide Run, FeedOf;
    assert steps[..|steps|] == steps;
  }

  lemma StepSees(world: World, steps: seq<Step>, s: State, step: Step)
    requires s == Run(world, steps) && SightsWere(world, steps, s)
    ensures SightsWere(world, steps + [step], Take(world, s, step))
  {
    hide Run, Take, WasFeed, PhaseOf, SightOf, FeedOf;
    var t := Take(world, s, step);
    forall x, feed | WasFeed(world, steps, x, feed)
      ensures WasFeed(world, steps + [step], x, feed)
    {
      WasBefore(world, steps, step, x, feed);
    }
    LogSees(world, s, step);
    forall i | PhaseOf(t.base, i).Ready?
      ensures WasFeed(world, steps + [step], PhaseOf(t.base, i).sourceId, SightOf(t, i).feed)
    {
      if !StepOf(step, i) {
        OthersStand(world, s, step, i);
      } else if step.RunConnector? {
        RunSees(world, s, step, i);
        IsNow(world, steps, PhaseOf(t.base, i).sourceId);
      } else {
        NotReadyAfter(world, s, step, i);
      }
    }
  }

  /** The log and the sights stay, or grow by a commit with what its coordinator had seen. */
  ghost predicate LogFollows(s: State, t: State) {
    || (t.base.log == s.base.log && t.committed == s.committed)
    || exists i :: PhaseOf(s.base, i).Ready? && Logs(s, t, PhaseOf(s.base, i).sourceId, SightOf(s, i))
  }

  ghost predicate Logs(s: State, t: State, sourceId: Id, sight: Sight) {
    && |t.base.log| == |s.base.log| + 1 && t.base.log[..|s.base.log|] == s.base.log
    && t.base.log[|s.base.log|].sourceId == sourceId && t.committed == s.committed + [sight]
  }

  lemma LogSees(world: World, s: State, step: Step)
    requires |s.base.log| == |s.committed|
    ensures LogFollows(s, Take(world, s, step))
  {
    hide Commit, RunSource, GetCheckpoint;
    if step.CommitBatch? && PhaseOf(s.base, step.coordinator).Ready? {
      var phase := PhaseOf(s.base, step.coordinator);
      var t := Take(world, s, step);
      assert t.base.log == s.base.log || Logs(s, t, phase.sourceId, SightOf(s, step.coordinator));
    }
  }

  /** Whoever is ready after a run has seen the feed as it is, or was ready before. */
  lemma RunSees(world: World, s: State, step: Step, i: nat)
    requires RunsAt(step, i)
    ensures PhaseOf(Take(world, s, step).base, i).Ready? ==>
              || Take(world, s, step) == s
              || SightOf(Take(world, s, step), i).feed == FeedOf(s, PhaseOf(Take(world, s, step).base, i).sourceId)
  {
    hide Commit, RunSource, GetCheckpoint;
  }

  /** Every committed page was taken from what its source's feed was at some time during the run. */
  lemma {:induction false} SightsAreFeeds(world: World, steps: seq<Step>)
    ensures SightsWere(world, steps, Run(world, steps))
  {
    hide Take, SightsWere;
    if steps == [] {
      NothingSeen(world);
    } else {
      var front := steps[..|steps| - 1];
      SightsAreFeeds(world, front);
      StepSees(world, front, Run(world, front), steps[|steps| - 1]);
      assert front + [steps[|steps| - 1]] == steps;
    }
  }

  lemma NothingSeen(world: World)
    ensures SightsWere(world, [], Start(world))
  {
    hide WasFeed;
  }
}
