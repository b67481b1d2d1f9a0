/** Feeds that change only where no collection has come yet: then nothing is lost. */
module GrowingFeeds {
  import opened Wrappers
  import opened IngestionModels
  import opened IngestionTables
  import opened CollectionReplay
  import opened CheckpointHistory
  import opened IngestionSystem
  import opened RssCursor
  import opened RssConnector
  import opened FeedDraining
  import opened FeedDocuments
  import opened FeedIngestion
  import opened FeedLosses
  import opened Filtering
  import opened Sorting
  import opened Text

  /** The coordinator is ready with a command of the source that can still be committed. */
  predicate IsLive(s: State, i: nat, sourceId: Id) {
    var phase := PhaseOf(s.base, i);
    phase.Ready? && phase.sourceId == sourceId && Live(s.base.db, sourceId, phase.command)
  }

  function EndAt(s: State, i: nat): Option<Position> {
    if PhaseOf(s.base, i).Ready? then EndOf(PhaseOf(s.base, i).command) else None
  }

  /**
   * The feed changes only beyond the cursor and beyond every page that a coordinator is about to
   * commit, and keys stay distinct.
   */
  ghost predicate ChangesBeyond(s: State, sourceId: Id, feed: seq<FeedEntry>) {
    && FeedDraining.DistinctKeys(feed)
    && UpTo(feed, PositionIn(s.base.db, sourceId)) == UpTo(FeedOf(s, sourceId), PositionIn(s.base.db, sourceId))
    && forall i :: IsLive(s, i, sourceId) ==> UpTo(feed, EndAt(s, i)) == UpTo(FeedOf(s, sourceId), EndAt(s, i))
  }

  ghost predicate CarefulStep(world: World, s: State, step: Step) {
    step.Publish? && world.HasFeed(step.sourceId) ==> ChangesBeyond(s, step.sourceId, step.feed)
  }

  /** Feeds start with distinct keys, and every publication changes its feed only beyond. */
  ghost predicate Careful(world: World, steps: seq<Step>) {
    && (forall x :: world.HasFeed(x) ==> FeedDraining.DistinctKeys(world.sources[x].initial))
    && (forall n :: 0 <= n < |steps| ==> CarefulStep(world, Run(world, steps[..n]), steps[n]))
  }

  // ---- what careful runs keep ----

  /** Committing the command would deliver exactly what its page passes. */
  ghost predicate PageFits(s: State, i: nat, sourceId: Id) {
    UpTo(FeedOf(s, sourceId), EndAt(s, i))
    == UpTo(FeedOf(s, sourceId), PositionIn(s.base.db, sourceId)) + PageOf(s, i, sourceId)
  }

  ghost predicate Complete(s: State, sourceId: Id) {
    && FeedDraining.DistinctKeys(FeedOf(s, sourceId))
    && DeliveredOf(s, sourceId) == UpTo(FeedOf(s, sourceId), PositionIn(s.base.db, sourceId))
  }

  ghost predicate GrowInv(world: World, s: State) {
    && (forall x :: world.HasFeed(x) ==> Complete(s, x))
    && (forall x, i :: world.HasFeed(x) && IsLive(s, i, x) ==> PageFits(s, i, x))
  }

  lemma PageSeenAppends(sight: Sight, position: Option<Position>)
    requires FeedDraining.DistinctKeys(sight.feed)
    ensures var page := PageSeen(sight, position);
            UpTo(sight.feed, NextPosition(page, position)) == UpTo(sight.feed, position) + page
  {
    hide UpTo, Page, FeedDraining.DistinctKeys;
    if sight.fetch.status == 304 {
      assert UpTo(sight.feed, position) + [] == UpTo(sight.feed, position);
    } else {
      PageAppends(sight.feed, position, sight.limit);
    }
  }

  /** Publishing keeps what was delivered, and every page that is about to be committed. */
  lemma PublishGrows(world: World, s: State, sourceId: Id, feed: seq<FeedEntry>)
    requires BaseInv(world, s) && GrowInv(world, s) && CarefulStep(world, s, Publish(sourceId, feed))
    ensures GrowInv(world, Take(world, s, Publish(sourceId, feed)))
  {
    hide BaseInv, Complete, PageFits, IsLive, Take, ChangesBeyond, FeedOf;
    var t := Take(world, s, Publish(sourceId, feed));
    forall x | world.HasFeed(x)
      ensures Complete(t, x)
      ensures forall i :: IsLive(t, i, x) ==> PageFits(t, i, x)
    {
      FeedPublished(world, s, sourceId, feed, x);
      PublishedComplete(s, t, x);
      forall i
        ensures IsLive(t, i, x) ==> PageFits(t, i, x)
      {
        PublishedFits(s, t, x, i);
      }
    }
  }

  lemma FeedPublished(world: World, s: State, sourceId: Id, feed: seq<FeedEntry>, x: Id)
    requires BaseInv(world, s) && world.HasFeed(x)
    ensures var t := Take(world, s, Publish(sourceId, feed));
      && t.base == s.base && t.sights == s.sights && t.committed == s.committed
      && FeedOf(t, x) == if x == sourceId then feed else FeedOf(s, x)
  {
    hide HistoryInv, PhaseSound, Collecting, Storing, GetCheckpoint;
  }

  lemma PublishedComplete(s: State, t: State, x: Id)
    requires t.base == s.base && t.committed == s.committed && Complete(s, x)
    requires FeedOf(t, x) == FeedOf(s, x) || ChangesBeyond(s, x, FeedOf(t, x))
    ensures Complete(t, x)
  {
    hide UpTo, PositionIn, DeliveredIn, FeedDraining.DistinctKeys, IsLive, EndAt, FeedOf;
  }

  lemma PublishedFits(s: State, t: State, x: Id, i: nat)
    requires t.base == s.base && t.sights == s.sights && t.committed == s.committed
    requires FeedOf(t, x) == FeedOf(s, x) || ChangesBeyond(s, x, FeedOf(t, x))
    requires IsLive(s, i, x) ==> PageFits(s, i, x)
    ensures IsLive(t, i, x) ==> PageFits(t, i, x)
  {
    hide UpTo, PositionIn, DeliveredIn, FeedDraining.DistinctKeys, FeedOf, PageSeen, GetCheckpoint, Basis, EndOf;
  }

  /** The own commit of a source. */
  lemma CommitGrows(world: World, s: State, i: nat, sourceId: Id)
    requires BaseInv(world, s) && FeedInv(world, s) && GrowInv(world, s) && world.HasFeed(sourceId)
    requires CommitsSource(world, s, CommitBatch(i), sourceId)
    ensures Complete(Take(world, s, CommitBatch(i)), sourceId)
    ensures forall j :: !IsLive(Take(world, s, CommitBatch(i)), j, sourceId)
  {
    hide BaseInv, FeedInv, Commit, Storing, UpTo, PositionIn, DeliveredOf, PageSeen, FeedDraining.DistinctKeys, Basis,
      GetCheckpoint, EntriesOf, CommitsSource;
    OwnStep(world, s, CommitBatch(i), sourceId);
    var c := PhaseOf(s.base, i).command;
    CommitDelivers(world, s, i, sourceId, c);
    assert Complete(s, sourceId) && IsLive(s, i, sourceId) && PageFits(s, i, sourceId);
    FeedsStay(world, s, CommitBatch(i), sourceId);
    forall j
      ensures !IsLive(Take(world, s, CommitBatch(i)), j, sourceId)
    {
      StaleAfterOwn(world, s, i, j, sourceId);
    }
  }

  lemma FeedsStay(world: World, s: State, step: Step, sourceId: Id)
    requires !step.Publish?
    ensures FeedOf(Take(world, s, step), sourceId) == FeedOf(s, sourceId)
  {
    hide Commit, RunSource, GetCheckpoint;
  }

  /** After a commit of the source, no command of it is live. */
  lemma StaleAfterOwn(world: World, s: State, i: nat, j: nat, sourceId: Id)
    requires BaseInv(world, s) && CommitsSource(world, s, CommitBatch(i), sourceId)
    ensures !IsLive(Take(world, s, CommitBatch(i)), j, sourceId)
  {
    hide HistoryInv, Commit, Lands, GetCheckpoint, Basis, WasCommitted, RunnerMade, DerivedId, Take;
    var c := PhaseOf(s.base, i).command;
    var (after, r) := Commit(world.env, s.base.db, c).value;
    SoundLands(world, s, i, sourceId, c);
    BasisPassed(world.env, world.Connectors(), s.base, sourceId, c, after, r);
    CommitAppends(world, s, i, c, after, r);
    if j != i {
      SoundPhase(world, s, j);
      OthersStand(world, s, CommitBatch(i), j);
    }
  }

  /** A step that neither publishes nor commits the source keeps what was delivered of it. */
  lemma OtherStepGrows(world: World, s: State, step: Step, sourceId: Id)
    requires !step.Publish?
    requires BaseInv(world, s) && FeedInv(world, s) && world.HasFeed(sourceId) && !CommitsSource(world, s, step, sourceId)
    requires Complete(s, sourceId)
    ensures Complete(Take(world, s, step), sourceId)
  {
    hide BaseInv, FeedInv, Take, UpTo, PositionIn, DeliveredOf, FeedDraining.DistinctKeys, CommitsSource, FeedOf;
    OthersDeliverNothing(world, s, step, sourceId);
    assert DeliveredOf(s, sourceId) + [] == DeliveredOf(s, sourceId);
    FeedsStay(world, s, step, sourceId);
  }

  /** Such a step keeps the pages of the other coordinators. */
  lemma OtherPageFits(world: World, s: State, step: Step, j: nat, sourceId: Id)
    requires !step.Publish? && !RunsAt(step, j)
    requires BaseInv(world, s) && FeedInv(world, s) && world.HasFeed(sourceId) && !CommitsSource(world, s, step, sourceId)
    requires IsLive(s, j, sourceId) ==> PageFits(s, j, sourceId)
    ensures IsLive(Take(world, s, step), j, sourceId) ==> PageFits(Take(world, s, step), j, sourceId)
  {
    hide BaseInv, FeedInv, Take, UpTo, PositionIn, DeliveredOf, CommitsSource, FeedOf, GetCheckpoint, Basis, EndOf, PageSeen,
      PhaseOf, SightOf;
    OthersDeliverNothing(world, s, step, sourceId);
    assert DeliveredOf(s, sourceId) + [] == DeliveredOf(s, sourceId);
    FeedsStay(world, s, step, sourceId);
    CheckpointStays(world, s, step, sourceId);
    if StepOf(step, j) {
      NotReadyAfter(world, s, step, j);
    } else {
      OthersStand(world, s, step, j);
    }
  }

  /** The page of a run on the stored checkpoint fits the feed that it saw. */
  lemma RunPageFits(world: World, s: State, step: Step, i: nat, sourceId: Id)
    requires RunsAt(step, i)
    requires BaseInv(world, s) && FeedInv(world, s) && world.HasFeed(sourceId)
    requires Complete(s, sourceId) && (IsLive(s, i, sourceId) ==> PageFits(s, i, sourceId))
    ensures IsLive(Take(world, s, step), i, sourceId) ==> PageFits(Take(world, s, step), i, sourceId)
  {
    hide BaseInv, FeedInv, RunFixture, RunRss, EndOf, GetCheckpoint, PageSeen, DeliveredOf, PositionIn, FeedOf, RunnerMade,
      DerivedId, Basis, Storing, UpTo, FeedDraining.DistinctKeys, PositionAfter, NextPosition;
    var phase := PhaseOf(s.base, i);
    OthersDeliverNothing(world, s, step, sourceId);
    assert DeliveredOf(s, sourceId) + [] == DeliveredOf(s, sourceId);
    FeedsStay(world, s, step, sourceId);
    SourceInv(world, s, sourceId);
    if phase.Planned? && phase.sourceId == sourceId {
      var made := RunRss(world.env, sourceId, FeedOf(s, sourceId), phase.checkpoint, step.limit, step.fetch,
                         step.collectedAt, step.preparedAt);
      if made.Ok? {
        RunDerived(world, FeedOf(s, sourceId), sourceId, phase.checkpoint, step.limit, step.fetch, step.collectedAt,
                   step.preparedAt);
        if phase.checkpoint == GetCheckpoint(s.base.db, sourceId) {
          RunEnds(world, s, sourceId, step.limit, step.fetch, step.collectedAt, step.preparedAt);
          PageSeenAppends(Sight(FeedOf(s, sourceId), step.limit, step.fetch), PositionIn(s.base.db, sourceId));
        }
      }
    }
  }

  /** Where the page of a run on the stored checkpoint ends. */
  lemma RunEnds(world: World, s: State, sourceId: Id, limit: int, fetch: Fetch, collectedAt: string, preparedAt: string)
    requires BaseInv(world, s) && FeedInv(world, s) && world.HasFeed(sourceId)
    requires RunRss(world.env, sourceId, FeedOf(s, sourceId), GetCheckpoint(s.base.db, sourceId), limit, fetch,
                    collectedAt, preparedAt).Ok?
    ensures limit > 0
    ensures var position := PositionIn(s.base.db, sourceId);
      EndOf(RunRss(world.env, sourceId, FeedOf(s, sourceId), GetCheckpoint(s.base.db, sourceId), limit, fetch,
                   collectedAt, preparedAt).value)
      == NextPosition(PageSeen(Sight(FeedOf(s, sourceId), limit, fetch), position), position)
  {
    hide BaseInv, FeedInv, RunRss, GetCheckpoint, FeedOf, PageSeen, DecodeCursor, ToDocuments, RunnerMade, Basis,
      NextPosition;
    RunPrepares(world, s, sourceId, limit, fetch, collectedAt, preparedAt);
  }

  lemma StepKeepsGrowing(world: World, s: State, step: Step)
    requires BaseInv(world, s) && FeedInv(world, s) && GrowInv(world, s) && CarefulStep(world, s, step)
    ensures GrowInv(world, Take(world, s, step))
  {
    hide BaseInv, FeedInv, Take, CommitsSource, Complete, PageFits, IsLive, CarefulStep;
    if step.Publish? {
      PublishGrows(world, s, step.sourceId, step.feed);
    } else {
      forall x | world.HasFeed(x)
        ensures Complete(Take(world, s, step), x)
        ensures forall i :: IsLive(Take(world, s, step), i, x) ==> PageFits(Take(world, s, step), i, x)
      {
        SourceGrows(world, s, step, x);
      }
    }
  }

  lemma SourceGrows(world: World, s: State, step: Step, x: Id)
    requires !step.Publish?
    requires BaseInv(world, s) && FeedInv(world, s) && GrowInv(world, s) && world.HasFeed(x)
    ensures Complete(Take(world, s, step), x)
    ensures forall i :: IsLive(Take(world, s, step), i, x) ==> PageFits(Take(world, s, step), i, x)
  {
    hide BaseInv, FeedInv, Take, CommitsSource, Complete, PageFits, IsLive;
    if CommitsSource(world, s, step, x) {
      OwnStep(world, s, step, x);
      CommitGrows(world, s, step.coordinator, x);
    } else {
      OtherStepGrows(world, s, step, x);
      forall i
        ensures IsLive(Take(world, s, step), i, x) ==> PageFits(Take(world, s, step), i, x)
      {
        if RunsAt(step, i) {
          RunPageFits(world, s, step, i, x);
        } else {
          OtherPageFits(world, s, step, i, x);
        }
      }
    }
  }

  lemma {:induction false} RunsKeepGrowing(world: World, steps: seq<Step>)
    requires Careful(world, steps)
    ensures BaseInv(world, Run(world, steps)) && FeedInv(world, Run(world, steps)) && GrowInv(world, Run(world, steps))
  {
    hide Take, BaseInv, FeedInv, GrowInv, CarefulStep;
    FeedIngestion.RunsKeepInv(world, steps);
    if steps == [] {
      StartGrows(world);
    } else {
      var last := |steps| - 1;
      CarefulBefore(world, steps);
      RunsKeepGrowing(world, steps[..last]);
      assert CarefulStep(world, Run(world, steps[..last]), steps[last]);
      StepKeepsGrowing(world, Run(world, steps[..last]), steps[last]);
    }
  }

  lemma CarefulBefore(world: World, steps: seq<Step>)
    requires Careful(world, steps) && steps != []
    ensures Careful(world, steps[..|steps| - 1])
  {
    hide Run, CarefulStep, FeedDraining.DistinctKeys;
    var front := steps[..|steps| - 1];
    forall n | 0 <= n < |front|
      ensures CarefulStep(world, Run(world, front[..n]), front[n])
    {
      assert front[..n] == steps[..n] && front[n] == steps[n];
    }
  }

  lemma StartGrows(world: World)
    requires Careful(world, [])
    ensures GrowInv(world, Start(world))
  {
    hide Complete, FeedDraining.DistinctKeys, CarefulStep, PageFits, Run, GetCheckpoint, Basis;
    forall x | world.HasFeed(x)
      ensures Complete(Start(world), x)
    {
      StartComplete(world, x);
    }
  }

  lemma StartComplete(world: World, x: Id)
    requires world.HasFeed(x) && FeedDraining.DistinctKeys(world.sources[x].initial)
    ensures Complete(Start(world), x)
  {
    hide UpTo, FeedDraining.DistinctKeys, DecodeCursor;
    NoCursor();
    NothingUpToNone(world.sources[x].initial);
  }

  // ---- nothing is lost ----

  /**
   * When every publication changes its feed only beyond the cursor and the pages about to be
   * committed, the delivered entries are exactly the entries up to the cursor, as the feed has
   * them now: nothing is lost, and nothing that was delivered was changed or dropped.
   */
  lemma NothingIsLost(world: World, steps: seq<Step>, sourceId: Id)
    requires Careful(world, steps) && world.HasFeed(sourceId)
    ensures var s := Run(world, steps);
            DeliveredOf(s, sourceId) == UpTo(FeedOf(s, sourceId), PositionIn(s.base.db, sourceId))
  {
    hide Run, BaseInv, FeedInv, DeliveredOf, UpTo, PositionIn, FeedOf, Careful, PageFits, IsLive, FeedDraining.DistinctKeys;
    RunsKeepGrowing(world, steps);
    assert Complete(Run(world, steps), sourceId);
  }

  /**
   * The cursor of such a feed never passes the second of two entries whose external ids agree up
   * to outer space, in no interleaving: an entry that is published again under its id stays
   * beyond the cursor for as long as the first one is in the feed.
   */
  lemma CursorStopsAtRepeat(world: World, steps: seq<Step>, sourceId: Id, a: FeedEntry, b: FeedEntry)
    requires Careful(world, steps) && world.HasFeed(sourceId)
    requires a in FeedOf(Run(world, steps), sourceId) && b in FeedOf(Run(world, steps), sourceId)
    requires a != b && Strip(a.externalId) == Strip(b.externalId)
    ensures var position := PositionIn(Run(world, steps).base.db, sourceId);
            Beyond(a, position) || Beyond(b, position)
  {
    hide Run, BaseInv, FeedInv, DeliveredOf, UpTo, PositionIn, FeedOf, Careful, Beyond, Strip;
    NothingIsLost(world, steps, sourceId);
    var s := Run(world, steps);
    var position := PositionIn(s.base.db, sourceId);
    if !Beyond(a, position) && !Beyond(b, position) {
      InUpTo(FeedOf(s, sourceId), position, a);
      InUpTo(FeedOf(s, sourceId), position, b);
      OneOfTwoDelivered(world, steps, sourceId, a, b);
    }
  }

  lemma InUpTo(feed: seq<FeedEntry>, position: Option<Position>, e: FeedEntry)
    ensures e in UpTo(feed, position) <==> e in feed && !Beyond(e, position)
  {
    hide Filter, SortBy, Beyond;
    var kept := Filter(DeliveredBy(position), feed);
    SortKeepsElements(BY_KEY, kept);
    FilterCounts(DeliveredBy(position), feed, e);
    assert e in UpTo(feed, position) <==> e in multiset(UpTo(feed, position));
    assert e in feed <==> e in multiset(feed);
  }
}
