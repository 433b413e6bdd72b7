/**
  Resumable backfill of the projection (src/admin/projection_sync.py): jobs, then steps, page by page,
  by a worker that may crash between any two of its actions.
  */
module ProjectionBackfill {
  import opened Schema
  import opened Finite
  import opened Projection
  import opened ProjectionSync

  // ---- One page ------------------------------------------------------------------------------

  datatype BackfillError =
    | BadBatchSize | LostMaximum | InvalidPage | TerminalCursor | CursorMismatch | MaximumChanged | PageRefused

  function CheckpointOf(db: Db, entity: Entity): Option<Checkpoint> {
    if entity in db.checkpoints then Some(db.checkpoints[entity]) else None
  }

  datatype PageRequest = PageRequest(after: nat, frozen: Option<nat>)

  /** _page_params; None is the error "lost its frozen snapshot maximum". */
  function PageParams(c: Option<Checkpoint>): Option<PageRequest> {
    if c.None? || c.value.lastId == 0 then Some(PageRequest(0, None))
    else if c.value.snapshotMax.None? then None
    else Some(PageRequest(c.value.lastId, c.value.snapshotMax))
  }

  /** The shape checks on a received page. */
  function PageError(p: Page): Option<BackfillError> {
    if p.hasMore && (p.items == [] || p.nextAfter.None?) then Some(InvalidPage)
    else if !p.hasMore && p.nextAfter.Some? then Some(TerminalCursor)
    else if p.items != [] && p.hasMore
      && p.nextAfter != Some(p.items[|p.items| - 1].SourceId()) then Some(CursorMismatch)
    else None
  }

  function AdvancedCheckpoint(c: Option<Checkpoint>, p: Page, now: Time): Checkpoint {
    if p.hasMore then Checkpoint(Some(p.snapshotMax), End(p), if c.Some? then c.value.completedAt else None)
    else Checkpoint(Some(p.snapshotMax), p.snapshotMax, Some(now))
  }

  /** One page's transaction. */
  function CommitOutcome(db: Db, entity: Entity, p: Page, now: Time): (Db, Option<BackfillError>) {
    var c := CheckpointOf(db, entity);
    if c.Some? && c.value.snapshotMax.Some?
      && c.value.snapshotMax.value != p.snapshotMax then (db, Some(MaximumChanged))
    else
      var after := PageAfter(db, entity, p.items, now);
      if after.None? then (db, Some(PageRefused))
      else (after.value.(checkpoints := db.checkpoints[entity := AdvancedCheckpoint(c, p, now)]), None)
  }

  method CommitPage(db: Database, entity: Entity, p: Page, now: Time) returns (error: Option<BackfillError>)
    requires PageError(p).None?
    modifies db
    ensures (db.tables, error) == CommitOutcome(old(db.tables), entity, p, now)
  {
    db.Begin();
    var saved := db.tables;
    var checkpoint := Checkpoint(None, 0, None);
    if entity in db.tables.checkpoints {
      checkpoint := db.tables.checkpoints[entity];
    }
    if checkpoint.snapshotMax.Some? && checkpoint.snapshotMax.value != p.snapshotMax {
      return Some(MaximumChanged);
    }
    checkpoint := checkpoint.(snapshotMax := Some(p.snapshotMax));
    var flushed := ApplyPage(db, entity, p.items, now);
    if !flushed {
      return Some(PageRefused);
    }
    if p.hasMore {
      checkpoint := checkpoint.(lastId := p.nextAfter.value);
    } else {
      checkpoint := checkpoint.(completedAt := Some(now));
      checkpoint := checkpoint.(lastId := p.snapshotMax);
    }
    db.tables := db.tables.(checkpoints := saved.checkpoints[entity := checkpoint]);
    return None;
  }

  // ---- One table -----------------------------------------------------------------------------

  /** One table's share of a backfill. `log` lists the items of the committed pages, in commit order. */
  datatype Backfill = Backfill(source: Source, db: Db, log: seq<Item>)

  function Completed(b: Backfill, entity: Entity): bool {
    var c := CheckpointOf(b.db, entity);
    c.Some? && c.value.completedAt.Some?
  }

  function Cursor(b: Backfill, entity: Entity): nat {
    var c := CheckpointOf(b.db, entity);
    if c.Some? then c.value.lastId else 0
  }

  /** The committed pages tile the rows up to the cursor, below a maximum that no later row can reach. */
  ghost predicate Tiled(b: Backfill, entity: Entity) {
    && SourceOk(b.source) && AllOf(entity, b.source)
    && Ascending(Ids(b.log))
    && (forall item | item in b.log :: OfEntity(entity, item) && Present(b.db.jobs, b.db.steps, item))
    && match CheckpointOf(b.db, entity)
       case None => b.log == []
       case Some(c) =>
         && c.snapshotMax.Some? && c.lastId <= c.snapshotMax.value <= Greatest(b.source.Keys)
         && (if c.completedAt.Some? then c.lastId == c.snapshotMax.value else c.lastId > 0)
         && Elements(Ids(b.log)) == Window(b.source.Keys, 0, c.lastId)
  }

  /** A page in the worker's hands continues where the log ends. */
  ghost predicate Fetched(b: Backfill, entity: Entity, p: Page) {
    && !Completed(b, entity) && PageError(p).None?
    && Cursor(b, entity) <= End(p) <= p.snapshotMax <= Greatest(b.source.Keys)
    && (p.hasMore ==> Cursor(b, entity) < End(p))
    && (!p.hasMore ==> End(p) == p.snapshotMax)
    && Ascending(Ids(p.items)) && Elements(Ids(p.items)) == Window(b.source.Keys, Cursor(b, entity), End(p))
    && (forall item | item in p.items :: OfEntity(entity, item))
    && (CheckpointOf(b.db, entity).Some? ==> CheckpointOf(b.db, entity).value.snapshotMax == Some(p.snapshotMax))
  }

  /** What the upstream answers to the next request; None is the error of a lost maximum. */
  function NextPage(b: Backfill, entity: Entity, limit: nat): Option<Page>
    requires limit >= 1
  {
    var request := PageParams(CheckpointOf(b.db, entity));
    if request.None? then None else Some(Serve(b.source, request.value.after, request.value.frozen, limit))
  }

  lemma HonestPagesPass(source: Source, after: nat, p: Page)
    requires HonestPage(source, after, p)
    ensures PageError(p).None?
  {
  }

  lemma HonestItems(source: Source, after: nat, p: Page, entity: Entity)
    requires AllOf(entity, source) && HonestPage(source, after, p)
    ensures forall item | item in p.items :: OfEntity(entity, item)
  {
    forall item | item in p.items
      ensures OfEntity(entity, item)
    {
      assert OfEntity(entity, source[item.SourceId()]);
    }
  }

  /** The next page is well formed and continues the log, whatever the upstream has grown to. */
  lemma NextIsFetched(b: Backfill, entity: Entity, limit: nat)
    requires Tiled(b, entity) && limit >= 1 && !Completed(b, entity)
    ensures NextPage(b, entity, limit).Some? && Fetched(b, entity, NextPage(b, entity, limit).value)
    ensures forall item | item in NextPage(b, entity, limit).value.items ::
              item.SourceId() in b.source && b.source[item.SourceId()] == item
  {
    var request := PageParams(CheckpointOf(b.db, entity)).value;
    var p := Serve(b.source, request.after, request.frozen, limit);
    ServedPage(b.source, request.after, request.frozen, limit);
    ServedMaximum(b.source, request.after, request.frozen, limit);
    HonestPagesPass(b.source, request.after, p);
    HonestItems(b.source, request.after, p, entity);
  }

  /** Later rows come above the maximum of the page, so it stays what it was. */
  lemma GrowthKeepsFetched(b: Backfill, entity: Entity, p: Page, grown: Source)
    requires SourceOk(b.source) && SourceOk(grown) && Grows(b.source, grown) && Fetched(b, entity, p)
    ensures Fetched(b.(source := grown), entity, p)
  {
    GrowthKeepsWindow(b.source, grown, End(p));
    assert Window(grown.Keys, Cursor(b, entity), End(p)) == Window(b.source.Keys, Cursor(b, entity), End(p)) by {
      assert forall i ::
          i in Window(grown.Keys, Cursor(b, entity), End(p)) <==>
          i in Window(grown.Keys, 0, End(p)) && Cursor(b, entity) < i;
      assert forall i ::
          i in Window(b.source.Keys, Cursor(b, entity), End(p)) <==>
          i in Window(b.source.Keys, 0, End(p)) && Cursor(b, entity) < i;
    }
  }

  lemma GrowthKeepsTiling(b: Backfill, entity: Entity, grown: Source)
    requires Tiled(b, entity) && SourceOk(grown) && AllOf(entity, grown) && Grows(b.source, grown)
    ensures Tiled(b.(source := grown), entity)
  {
    GrowthKeepsWindow(b.source, grown, Cursor(b, entity));
  }

  lemma AdvanceKeepsTiling(b: Backfill, entity: Entity, db: Db)
    requires Tiled(b, entity) && Advances(b.db, db) && CheckpointOf(db, entity) == CheckpointOf(b.db, entity)
    ensures Tiled(b.(db := db), entity)
  {
    LogStaysPresent(b.log, b.db, db);
  }

  lemma AdvanceKeepsFetched(b: Backfill, entity: Entity, p: Page, db: Db)
    requires Fetched(b, entity, p) && CheckpointOf(db, entity) == CheckpointOf(b.db, entity)
    ensures Fetched(b.(db := db), entity, p)
  {
    assert Cursor(b.(db := db), entity) == Cursor(b, entity);
  }

  lemma IdsConcat(a: seq<Item>, b: seq<Item>)
    ensures Ids(a + b) == Ids(a) + Ids(b)
  {
  }

  lemma WindowsJoin(keys: set<nat>, log: seq<nat>, page: seq<nat>, after: nat, end: nat)
    requires Ascending(log) && Elements(log) == Window(keys, 0, after)
    requires Ascending(page) && Elements(page) == Window(keys, after, end) && after <= end
    ensures Ascending(log + page) && Elements(log + page) == Window(keys, 0, end)
  {
    forall i, j | 0 <= i < |log| && 0 <= j < |page|
      ensures log[i] < page[j]
    {
      assert log[i] in Elements(log) && page[j] in Elements(page);
    }
    forall k
      ensures k in Elements(log + page) <==> k in Window(keys, 0, end)
    {
      assert k in Elements(log + page) <==> k in Elements(log) || k in Elements(page);
    }
  }

  lemma CommitTouchesOneCheckpoint(db: Db, entity: Entity, p: Page, now: Time)
    requires CommitOutcome(db, entity, p, now).1.None?
    ensures var after := CommitOutcome(db, entity, p, now).0;
            && after.checkpoints == db.checkpoints[entity := AdvancedCheckpoint(CheckpointOf(db, entity), p, now)]
            && PageAfter(db, entity, p.items, now).Some?
            && after.jobs == PageAfter(db, entity, p.items, now).value.jobs
            && after.steps == PageAfter(db, entity, p.items, now).value.steps
  {
  }

  function Committed(b: Backfill, entity: Entity, p: Page, now: Time): Backfill {
    Backfill(b.source, CommitOutcome(b.db, entity, p, now).0, b.log + p.items)
  }

  /** A fetched page is committed, or refused by a constraint; it meets no other error. */
  lemma OnlyRefusalStops(b: Backfill, entity: Entity, p: Page, now: Time)
    requires Fetched(b, entity, p)
    ensures CommitOutcome(b.db, entity, p, now).1
         == if PageAfter(b.db, entity, p.items, now).None? then Some(PageRefused) else None
  {
  }

  lemma CommitKeepsTiling(b: Backfill, entity: Entity, p: Page, now: Time)
    requires Tiled(b, entity) && Fetched(b, entity, p) && CommitOutcome(b.db, entity, p, now).1.None?
    ensures Tiled(Committed(b, entity, p, now), entity)
  {
    var next := Committed(b, entity, p, now);
    CommitTouchesOneCheckpoint(b.db, entity, p, now);
    PageMakesPresent(b.db, entity, p.items, now);
    LogStaysPresent(b.log, b.db, next.db);
    IdsConcat(b.log, p.items);
    WindowsJoin(b.source.Keys, Ids(b.log), Ids(p.items), Cursor(b, entity), End(p));
    CommittedLog(b, entity, p, next.db);
  }

  lemma CommittedLog(b: Backfill, entity: Entity, p: Page, db: Db)
    requires forall item | item in b.log :: OfEntity(entity, item) && Present(db.jobs, db.steps, item)
    requires forall item | item in p.items :: OfEntity(entity, item) && Present(db.jobs, db.steps, item)
    ensures forall item | item in b.log + p.items :: OfEntity(entity, item) && Present(db.jobs, db.steps, item)
  {
  }

  /** The other table's checkpoint and rows stay; nothing goes back. */
  ghost predicate Goes(before: Db, after: Db, entity: Entity) {
    && Advances(before, after)
    && (forall other | other != entity :: CheckpointOf(after, other) == CheckpointOf(before, other))
    && (if entity == TRIP_JOB then after.steps == before.steps else after.jobs == before.jobs)
  }

  /** What a commit gains: the backfill is complete, or the cursor is closer to the same maximum. */
  ghost predicate Gained(b: Backfill, next: Backfill, entity: Entity, more: bool) {
    && Tiled(next, entity) && Goes(b.db, next.db, entity) && (Completed(next, entity) <==> !more)
    && CheckpointOf(next.db, entity).Some?
    && (more && CheckpointOf(b.db, entity).Some? ==> Remaining(next.db, entity) < Remaining(b.db, entity))
  }

  /** The ids between the cursor and the maximum. */
  function Remaining(db: Db, entity: Entity): nat {
    var c := CheckpointOf(db, entity);
    if c.None? || c.value.snapshotMax.None? || c.value.snapshotMax.value < c.value.lastId then 0
    else c.value.snapshotMax.value - c.value.lastId
  }

  lemma CommitGains(b: Backfill, entity: Entity, p: Page, now: Time)
    requires Tiled(b, entity) && Fetched(b, entity, p) && CommitOutcome(b.db, entity, p, now).1.None?
    ensures Gained(b, Committed(b, entity, p, now), entity, p.hasMore)
  {
    CommitKeepsTiling(b, entity, p, now);
    CommitTouchesOneCheckpoint(b.db, entity, p, now);
    PageMakesPresent(b.db, entity, p.items, now);
    PageLeavesOther(b.db, entity, p.items, now);
  }

  lemma PageLeavesOther(db: Db, entity: Entity, items: seq<Item>, now: Time)
    requires PageAfter(db, entity, items, now).Some?
    ensures var after := PageAfter(db, entity, items, now).value;
            if entity == TRIP_JOB then after.steps == db.steps else after.jobs == db.jobs
  {
  }

  // ---- Jobs are never refused ----------------------------------------------------------------

  ghost predicate PageNamed(p: Page, names: Names) {
    forall item | item in p.items && item.JobItem? :: item.job.jobId == names(item.job.sourceId)
  }

  lemma {:induction false} JobsInNamed(items: seq<Item>, names: Names)
    requires forall item | item in items && item.JobItem? :: item.job.jobId == names(item.job.sourceId)
    ensures forall job | job in JobsIn(items) :: job.jobId == names(job.sourceId) && JobItem(job) in items
  {
    if items != [] {
      assert items[|items| - 1] in items && forall item | item in items[..|items| - 1] :: item in items;
      JobsInNamed(items[..|items| - 1], names);
    }
  }

  /** Under the stable mapping every page of jobs is accepted. */
  lemma NamedPageAccepted(db: Db, p: Page, names: Names, now: Time)
    requires OneToOneNames(names) && RowsNamed(db.jobs, names) && PageNamed(p, names)
    ensures PageAfter(db, TRIP_JOB, p.items, now).Some?
    ensures RowsNamed(PageAfter(db, TRIP_JOB, p.items, now).value.jobs, names)
    ensures PageAfter(db, TRIP_JOB, p.items, now).value.jobs.Keys == db.jobs.Keys + JobIds(p.items)
  {
    JobsInNamed(p.items, names);
    NamedJobsAccepted(db.trips, db.jobs, JobsIn(p.items), names, now);
    JobIdsIn(p.items);
  }

  function JobIds(items: seq<Item>): set<Id> {
    set item | item in items && item.JobItem? :: item.job.jobId
  }

  lemma {:induction false} JobIdsIn(items: seq<Item>)
    ensures JobIdsOf(JobsIn(items)) == JobIds(items)
  {
    if items != [] {
      var front, last := items[..|items| - 1], items[|items| - 1];
      JobIdsIn(front);
      assert items == front + [last];
      assert JobIds(items) == JobIds(front) + if last.JobItem? then {last.job.jobId} else {};
      assert last.JobItem? ==> JobsIn(items) == JobsIn(front) + [last.job];
      assert !last.JobItem? ==> JobsIn(items) == JobsIn(front);
    }
  }

  lemma ServedNamed(b: Backfill, limit: nat, names: Names)
    requires Tiled(b, TRIP_JOB) && limit >= 1 && !Completed(b, TRIP_JOB) && SourceNamed(b.source, names)
    ensures NextPage(b, TRIP_JOB, limit).Some? && PageNamed(NextPage(b, TRIP_JOB, limit).value, names)
  {
    NextIsFetched(b, TRIP_JOB, limit);
  }

  // ---- What is still ahead -------------------------------------------------------------------

  /** The last id that the backfill will read, if the upstream stands still. */
  function Last(b: Backfill, entity: Entity): nat {
    var c := CheckpointOf(b.db, entity);
    if c.Some? && c.value.snapshotMax.Some? then c.value.snapshotMax.value else Greatest(b.source.Keys)
  }

  function AheadOf(b: Backfill, entity: Entity): set<nat> {
    Window(b.source.Keys, Cursor(b, entity), Last(b, entity))
  }

  /** The page is the source's rows as they are now. */
  ghost predicate UpToDate(b: Backfill, p: Page) {
    forall item | item in p.items :: item.SourceId() in b.source && b.source[item.SourceId()] == item
  }

  /** A commit takes its page from what was ahead. */
  lemma CommitTakesPage(b: Backfill, entity: Entity, p: Page, now: Time)
    requires Tiled(b, entity) && Fetched(b, entity, p) && CommitOutcome(b.db, entity, p, now).1.None?
    requires CheckpointOf(b.db, entity).None? ==> p.snapshotMax == Greatest(b.source.Keys)
    ensures AheadOf(b, entity) == Elements(Ids(p.items)) + AheadOf(Committed(b, entity, p, now), entity)
    ensures Elements(Ids(p.items)) !! AheadOf(Committed(b, entity, p, now), entity)
  {
    CommitTouchesOneCheckpoint(b.db, entity, p, now);
    var next := Committed(b, entity, p, now);
    assert CheckpointOf(next.db, entity) == Some(AdvancedCheckpoint(CheckpointOf(b.db, entity), p, now));
    assert Last(b, entity) == p.snapshotMax && Last(next, entity) == p.snapshotMax && Cursor(next, entity) == End(p);
    WindowSplits(b.source.Keys, Cursor(b, entity), End(p), p.snapshotMax);
  }

  lemma WindowSplits(keys: set<nat>, a: nat, b: nat, c: nat)
    requires a <= b <= c
    ensures Window(keys, a, c) == Window(keys, a, b) + Window(keys, b, c) && Window(keys, a, b) !! Window(keys, b, c)
  {
  }

  lemma CompletedHasNothingAhead(b: Backfill, entity: Entity)
    requires Tiled(b, entity) && Completed(b, entity)
    ensures AheadOf(b, entity) == {}
  {
  }

  /** The jobs that are stored or will be. */
  function JobsToCome(b: Backfill): set<Id> {
    b.db.jobs.Keys + set i | i in AheadOf(b, TRIP_JOB) && i in b.source && b.source[i].JobItem? :: b.source[i].job.jobId
  }

  lemma CommitKeepsJobsToCome(b: Backfill, p: Page, names: Names, now: Time)
    requires Tiled(b, TRIP_JOB) && Fetched(b, TRIP_JOB, p) && UpToDate(b, p)
    requires CheckpointOf(b.db, TRIP_JOB).None? ==> p.snapshotMax == Greatest(b.source.Keys)
    requires OneToOneNames(names) && RowsNamed(b.db.jobs, names) && PageNamed(p, names)
    ensures CommitOutcome(b.db, TRIP_JOB, p, now).1.None?
    ensures JobsToCome(Committed(b, TRIP_JOB, p, now)) == JobsToCome(b)
    ensures RowsNamed(Committed(b, TRIP_JOB, p, now).db.jobs, names)
  {
    NamedPageAccepted(b.db, p, names, now);
    OnlyRefusalStops(b, TRIP_JOB, p, now);
    CommitTouchesOneCheckpoint(b.db, TRIP_JOB, p, now);
    CommitTakesPage(b, TRIP_JOB, p, now);
    IdsOfPage(b, p);
    JobsMoveOver(b, Committed(b, TRIP_JOB, p, now), p);
  }

  lemma IdsOfPage(b: Backfill, p: Page)
    requires UpToDate(b, p)
    ensures forall i :: i in Elements(Ids(p.items)) <==> exists item :: item in p.items && item.SourceId() == i
  {
    forall i
      ensures i in Elements(Ids(p.items)) <==> exists item :: item in p.items && item.SourceId() == i
    {
      if i in Elements(Ids(p.items)) {
        var k :| 0 <= k < |p.items| && Ids(p.items)[k] == i;
        assert p.items[k] in p.items;
      }
      if item :| item in p.items && item.SourceId() == i {
        var k :| 0 <= k < |p.items| && p.items[k] == item;
        assert Ids(p.items)[k] == i;
      }
    }
  }

  lemma JobsMoveOver(b: Backfill, next: Backfill, p: Page)
    requires UpToDate(b, p) && next.source == b.source && next.db.jobs.Keys == b.db.jobs.Keys + JobIds(p.items)
    requires AheadOf(b, TRIP_JOB) == Elements(Ids(p.items)) + AheadOf(next, TRIP_JOB)
    requires forall i :: i in Elements(Ids(p.items)) <==> exists item :: item in p.items && item.SourceId() == i
    ensures JobsToCome(next) == JobsToCome(b)
  {
    forall j
      ensures j in JobsToCome(next) <==> j in JobsToCome(b)
    {
      if j in JobIds(p.items) {
        var item :| item in p.items && item.JobItem? && item.job.jobId == j;
        assert item.SourceId() in Elements(Ids(p.items)) && b.source[item.SourceId()] == item;
      }
      if j in JobsToCome(b) && j !in b.db.jobs {
        var i :| i in AheadOf(b, TRIP_JOB) && i in b.source && b.source[i].JobItem? && b.source[i].job.jobId == j;
        if i in Elements(Ids(p.items)) {
          var item :| item in p.items && item.SourceId() == i;
          assert item == b.source[i];
        }
      }
    }
  }

  /** Every step ahead is stored already or has its job among `jobs`. */
  ghost predicate StepsPlaced(b: Backfill, jobs: set<Id>) {
    forall i | i in AheadOf(b, TRIP_STEP) && i in b.source && b.source[i].StepItem? ::
        StepPlaced(b.db.steps, b.source[i].step, jobs)
  }

  predicate StepPlaced(stored: map<Id, StepRow>, s: StepSnapshot, jobs: set<Id>) {
    s.jobId in jobs || (s.stepId in stored && s.version <= stored[s.stepId].version)
  }

  lemma CommitKeepsPlaced(b: Backfill, p: Page, now: Time)
    requires Tiled(b, TRIP_STEP) && Fetched(b, TRIP_STEP, p) && UpToDate(b, p)
             && CommitOutcome(b.db, TRIP_STEP, p, now).1.None?
    requires CheckpointOf(b.db, TRIP_STEP).None? ==> p.snapshotMax == Greatest(b.source.Keys)
    ensures StepsPlaced(Committed(b, TRIP_STEP, p, now), b.db.jobs.Keys) <==> StepsPlaced(b, b.db.jobs.Keys)
  {
    CommitTouchesOneCheckpoint(b.db, TRIP_STEP, p, now);
    CommitTakesPage(b, TRIP_STEP, p, now);
    IdsOfPage(b, p);
    StepPageRefused(b.db, p.items, now);
    StepsOfPage(p.items);
    var next := Committed(b, TRIP_STEP, p, now);
    forall i | i in AheadOf(next, TRIP_STEP) && i in b.source && b.source[i].StepItem?
      ensures StepPlaced(next.db.steps, b.source[i].step, b.db.jobs.Keys)
              <==> StepPlaced(b.db.steps, b.source[i].step, b.db.jobs.Keys)
    {
      RestUntouched(b, p, i);
    }
    PlacedEither(b, next, p);
  }

  lemma RestUntouched(b: Backfill, p: Page, i: nat)
    requires SourceOk(b.source) && PageAfter(b.db, TRIP_STEP, p.items, 0).Some?
             && (forall item | item in p.items :: item.StepItem?)
    requires i !in Elements(Ids(p.items)) && i in b.source && b.source[i].StepItem?
    ensures Lookup(PageAfter(b.db, TRIP_STEP, p.items, 0).value.steps, b.source[i].step.stepId)
            == Lookup(b.db.steps, b.source[i].step.stepId)
  {
    StepsOfPage(p.items);
    var list := StepsIn(p.items);
    forall s | s in list
      ensures s.stepId != i
    {
      var k :| 0 <= k < |list| && list[k] == s;
      assert Ids(p.items)[k] == s.stepId;
    }
    OthersUntouched(b.db.jobs, b.db.steps, list, i);
  }

  lemma PlacedEither(b: Backfill, next: Backfill, p: Page)
    requires UpToDate(b, p) && next.source == b.source && forall item | item in p.items ::
               item.StepItem? && !Orphan(b.db, item)
    requires AheadOf(b, TRIP_STEP) == Elements(Ids(p.items)) + AheadOf(next, TRIP_STEP)
    requires forall i :: i in Elements(Ids(p.items)) <==> exists item :: item in p.items && item.SourceId() == i
    requires forall i | i in AheadOf(next, TRIP_STEP) && i in b.source && b.source[i].StepItem? ::
               StepPlaced(next.db.steps, b.source[i].step, b.db.jobs.Keys) <==>
               StepPlaced(b.db.steps, b.source[i].step, b.db.jobs.Keys)
    ensures StepsPlaced(next, b.db.jobs.Keys) <==> StepsPlaced(b, b.db.jobs.Keys)
  {
    forall i | i in Elements(Ids(p.items)) && i in b.source && b.source[i].StepItem?
      ensures StepPlaced(b.db.steps, b.source[i].step, b.db.jobs.Keys)
    {
      var item :| item in p.items && item.SourceId() == i;
      assert b.source[i] == item;
    }
  }

  /** A refused page of steps shows that one of them is not placed. */
  lemma RefusalIsUnplaced(b: Backfill, p: Page, now: Time)
    requires Tiled(b, TRIP_STEP) && Fetched(b, TRIP_STEP, p) && UpToDate(b, p)
             && PageAfter(b.db, TRIP_STEP, p.items, now).None?
    requires CheckpointOf(b.db, TRIP_STEP).None? ==> p.snapshotMax == Greatest(b.source.Keys)
    ensures !StepsPlaced(b, b.db.jobs.Keys)
  {
    StepPageRefused(b.db, p.items, now);
    var item :| item in p.items && Orphan(b.db, item);
    IdsOfPage(b, p);
    assert item.SourceId() in Elements(Ids(p.items));
    WindowSplits(b.source.Keys, Cursor(b, TRIP_STEP), End(p), p.snapshotMax);
    assert item.SourceId() in AheadOf(b, TRIP_STEP);
    assert !StepPlaced(b.db.steps, b.source[item.SourceId()].step, b.db.jobs.Keys);
  }

  // ---- The worker ----------------------------------------------------------------------------

  ghost function Watch(db: Database, hermes: Hermes, entity: Entity, log: seq<Item>): Backfill
    reads db, hermes
  {
    Backfill(hermes.Rows(entity), db.tables, log)
  }

  /** The next page of an unfinished backfill would be refused. */
  ghost predicate NextRefused(b: Backfill, entity: Entity, limit: nat, now: Time)
    requires limit >= 1
  {
    !Completed(b, entity) && NextPage(b, entity, limit).Some?
    && PageAfter(b.db, entity, NextPage(b, entity, limit).value.items, now).None?
  }

  /** Why the loop stopped: the next page is refused, for rows outside the mapping or a step without its job. */
  ghost predicate Stopped(b: Backfill, entity: Entity, limit: nat, now: Time, names: Names)
    requires limit >= 1
  {
    && NextRefused(b, entity, limit, now)
    && (if entity == TRIP_JOB then !RowsNamed(b.db.jobs, names) else !StepsPlaced(b, b.db.jobs.Keys))
  }

  /** The request of a turn; the upstream may have grown before it is served. */
  method FetchPage(
    db: Database, hermes: Hermes, entity: Entity, batchSize: nat, request: PageRequest, ghost log: seq<Item>)
    returns (p: Page)
    requires hermes.Valid() && batchSize >= 1 && Tiled(Watch(db, hermes, entity, log), entity)
    requires !Completed(Watch(db, hermes, entity, log), entity)
    requires PageParams(CheckpointOf(db.tables, entity)) == Some(request)
    modifies hermes
    ensures hermes.Valid() && Tiled(Watch(db, hermes, entity, log), entity)
    ensures Grows(old(hermes.jobs), hermes.jobs) && Grows(old(hermes.steps), hermes.steps)
    ensures NextPage(Watch(db, hermes, entity, log), entity, batchSize) == Some(p)
    ensures Watch(db, hermes, entity, log) == old(Watch(db, hermes, entity, log)).(source := hermes.Rows(entity))
  {
    ghost var before := Watch(db, hermes, entity, log);
    p := hermes.Snapshots(entity, request.after, request.frozen, batchSize);
    GrowthKeepsTiling(before, entity, hermes.Rows(entity));
    assert Watch(db, hermes, entity, log) == before.(source := hermes.Rows(entity));
  }

  /** What a turn's commit keeps of the mapping and of what is ahead. */
  ghost predicate KeepsAhead(b: Backfill, next: Backfill, entity: Entity, names: Names) {
    if entity == TRIP_JOB then
      RowsNamed(b.db.jobs, names) ==> RowsNamed(next.db.jobs, names) && JobsToCome(next) == JobsToCome(b)
    else StepsPlaced(next, b.db.jobs.Keys) <==> StepsPlaced(b, b.db.jobs.Keys)
  }

  lemma CommitKeepsAhead(b: Backfill, entity: Entity, limit: nat, now: Time, p: Page, names: Names)
    requires Tiled(b, entity) && limit >= 1 && !Completed(b, entity) && NextPage(b, entity, limit) == Some(p)
    requires OneToOneNames(names) && SourceNamed(b.source, names)
    ensures CommitOutcome(b.db, entity, p, now).1.None? ==> KeepsAhead(b, Committed(b, entity, p, now), entity, names)
    ensures entity == TRIP_JOB && RowsNamed(b.db.jobs, names) ==> CommitOutcome(b.db, entity, p, now).1.None?
    ensures entity == TRIP_STEP && CommitOutcome(b.db, entity, p, now).1.Some? ==> !StepsPlaced(b, b.db.jobs.Keys)
  {
    NextIsFetched(b, entity, limit);
    NextMaximum(b, entity, limit);
    OnlyRefusalStops(b, entity, p, now);
    if entity == TRIP_JOB {
      if RowsNamed(b.db.jobs, names) {
        ServedNamed(b, limit, names);
        CommitKeepsJobsToCome(b, p, names, now);
      }
    } else if CommitOutcome(b.db, entity, p, now).1.None? {
      CommitKeepsPlaced(b, p, now);
    } else {
      RefusalIsUnplaced(b, p, now);
    }
  }

  lemma NextMaximum(b: Backfill, entity: Entity, limit: nat)
    requires limit >= 1 && NextPage(b, entity, limit).Some?
    ensures CheckpointOf(b.db, entity).None? ==> NextPage(b, entity, limit).value.snapshotMax == Greatest(b.source.Keys)
  {
    var request := PageParams(CheckpointOf(b.db, entity)).value;
    ServedMaximum(b.source, request.after, request.frozen, limit);
  }

  /** What a turn comes to; a turn that is not the last brings the cursor closer to the maximum. */
  ghost predicate TurnMade(
    before: Backfill, after: Backfill, entity: Entity, limit: nat, now: Time, names: Names, finished: bool,
    error: Option<BackfillError>)
    requires limit >= 1
  {
    && before.log <= after.log && Tiled(after, entity) && Goes(before.db, after.db, entity)
    && (error.Some? ==> finished && Stopped(after, entity, limit, now, names))
    && (finished && error.None? ==> Completed(after, entity))
    && (!finished ==> CheckpointOf(after.db, entity).Some?)
    && (!finished && CheckpointOf(before.db, entity).Some? ==>
          Remaining(after.db, entity) < Remaining(before.db, entity))
    && (entity == TRIP_JOB && RowsNamed(before.db.jobs, names) ==> RowsNamed(after.db.jobs, names))
    && (after.source == before.source ==> KeepsAhead(before, after, entity, names))
  }

  lemma CommitIsMade(b: Backfill, after: Backfill, entity: Entity, limit: nat, now: Time, names: Names, more: bool)
    requires limit >= 1 && Gained(b, after, entity, more) && b.log <= after.log && KeepsAhead(b, after, entity, names)
    ensures TurnMade(b, after, entity, limit, now, names, !more, None)
  {
  }

  lemma NothingIsMade(b: Backfill, entity: Entity, limit: nat, now: Time, names: Names)
    requires limit >= 1 && Tiled(b, entity) && Completed(b, entity)
    ensures TurnMade(b, b, entity, limit, now, names, true, None)
  {
  }

  lemma RefusalIsMade(b: Backfill, entity: Entity, limit: nat, now: Time, names: Names, error: BackfillError)
    requires limit >= 1 && Tiled(b, entity) && Stopped(b, entity, limit, now, names)
    ensures TurnMade(b, b, entity, limit, now, names, true, Some(error))
  {
  }

  /** Committing the next page is a turn, whether it goes through or is refused. */
  lemma CommitMakesTurn(b: Backfill, entity: Entity, limit: nat, now: Time, p: Page, names: Names)
    requires Tiled(b, entity) && limit >= 1 && !Completed(b, entity) && NextPage(b, entity, limit) == Some(p)
    requires OneToOneNames(names) && SourceNamed(b.source, names)
    ensures PageError(p).None?
    ensures var error := CommitOutcome(b.db, entity, p, now).1;
            var after := if error.None? then Committed(b, entity, p, now) else b;
            && error in {None, Some(PageRefused)}
            && TurnMade(b, after, entity, limit, now, names, !p.hasMore || error.Some?, error)
  {
    NextIsFetched(b, entity, limit);
    OnlyRefusalStops(b, entity, p, now);
    CommitKeepsAhead(b, entity, limit, now, p, names);
    if CommitOutcome(b.db, entity, p, now).1.None? {
      CommitGains(b, entity, p, now);
      CommitIsMade(b, Committed(b, entity, p, now), entity, limit, now, names, p.hasMore);
    } else {
      RefusalIsMade(b, entity, limit, now, names, PageRefused);
    }
  }

  /** Growth before the page is served belongs to the turn. */
  lemma AskedLater(
    before: Backfill, asked: Backfill, after: Backfill, entity: Entity, limit: nat, now: Time, names: Names,
    finished: bool, error: Option<BackfillError>)
    requires limit >= 1 && asked == before.(source := asked.source) && after.source == asked.source
    requires TurnMade(asked, after, entity, limit, now, names, finished, error)
    ensures TurnMade(before, after, entity, limit, now, names, finished, error)
  {
  }

  method CheckAndCommit(
    db: Database, ghost b: Backfill, entity: Entity, batchSize: nat, now: Time, p: Page, count: nat,
    ghost names: Names)
    returns (done: bool, error: Option<BackfillError>, count': nat, ghost log: seq<Item>)
    requires b.db == db.tables && Tiled(b, entity) && !Completed(b, entity)
    requires batchSize >= 1 && NextPage(b, entity, batchSize) == Some(p) && OneToOneNames(names)
             && SourceNamed(b.source, names)
    modifies db
    ensures count' - count == |log| - |b.log| && error in {None, Some(PageRefused)}
    ensures TurnMade(b, Backfill(b.source, db.tables, log), entity, batchSize, now, names, done || error.Some?, error)
  {
    CommitMakesTurn(b, entity, batchSize, now, p, names);
    count', log, error := count, b.log, PageError(p);
    if error.Some? {
      return false, error, count', log;
    }
    error := CommitPage(db, entity, p, now);
    done := !p.hasMore;
    if error.None? {
      log, count' := log + p.items, count + |p.items|;
    }
  }

  /** One turn of the loop: stop at a completed checkpoint, or fetch, check and commit. */
  method BackfillTurn(
    db: Database, hermes: Hermes, entity: Entity, batchSize: nat, now: Time, count: nat, ghost log: seq<Item>)
    returns (finished: bool, error: Option<BackfillError>, count': nat, ghost log': seq<Item>)
    requires hermes.Valid() && 1 <= batchSize <= 1000 && Tiled(Watch(db, hermes, entity, log), entity)
    modifies db, hermes
    ensures hermes.Valid() && Grows(old(hermes.jobs), hermes.jobs) && Grows(old(hermes.steps), hermes.steps)
    ensures count' - count == |log'| - |log| && error in {None, Some(PageRefused)}
    ensures TurnMade(old(Watch(db, hermes, entity, log)), Watch(db, hermes, entity, log'),
                     entity, batchSize, now, hermes.names, finished, error)
  {
    var checkpoint := CheckpointOf(db.tables, entity);
    if checkpoint.Some? && checkpoint.value.completedAt.Some? {
      NothingIsMade(Watch(db, hermes, entity, log), entity, batchSize, now, hermes.names);
      return true, None, count, log;
    }
    finished, error, count', log' := FetchAndCommit(db, hermes, entity, batchSize, now, count, log);
  }

  method FetchAndCommit(
    db: Database, hermes: Hermes, entity: Entity, batchSize: nat, now: Time, count: nat, ghost log: seq<Item>)
    returns (finished: bool, error: Option<BackfillError>, count': nat, ghost log': seq<Item>)
    requires hermes.Valid() && 1 <= batchSize <= 1000 && Tiled(Watch(db, hermes, entity, log), entity)
    requires !Completed(Watch(db, hermes, entity, log), entity)
    modifies db, hermes
    ensures hermes.Valid() && Grows(old(hermes.jobs), hermes.jobs) && Grows(old(hermes.steps), hermes.steps)
    ensures count' - count == |log'| - |log| && error in {None, Some(PageRefused)}
    ensures TurnMade(old(Watch(db, hermes, entity, log)), Watch(db, hermes, entity, log'),
                     entity, batchSize, now, hermes.names, finished, error)
  {
    ghost var before := Watch(db, hermes, entity, log);
    var request := PageParams(CheckpointOf(db.tables, entity));
    if request.None? {
      return true, Some(LostMaximum), count, log;
    }
    var p := FetchPage(db, hermes, entity, batchSize, request.value, log);
    ghost var asked := Watch(db, hermes, entity, log);
    finished, error, count', log' :=
      CheckAndCommit(db, asked, entity, batchSize, now, p, count, hermes.names);
    finished := finished || error.Some?;
    AskedLater(before, asked, Watch(db, hermes, entity, log'), entity, batchSize, now, hermes.names, finished, error);
  }

  lemma GoesTransitive(a: Db, b: Db, c: Db, entity: Entity)
    requires Goes(a, b, entity) && Goes(b, c, entity)
    ensures Goes(a, c, entity)
  {
    AdvancesTransitive(a, b, c);
  }

  lemma KeepsAheadTransitive(a: Backfill, b: Backfill, c: Backfill, entity: Entity, names: Names)
    requires KeepsAhead(a, b, entity, names) && KeepsAhead(b, c, entity, names)
    requires entity == TRIP_STEP ==> b.db.jobs == a.db.jobs
    ensures KeepsAhead(a, c, entity, names)
  {
  }

  /** The loop of one table; `earlier` is the log of earlier workers. */
  method BackfillEntity(
    db: Database, hermes: Hermes, entity: Entity, batchSize: nat, now: Time, ghost earlier: seq<Item>)
    returns (error: Option<BackfillError>, count: nat, ghost log: seq<Item>)
    requires hermes.Valid() && 1 <= batchSize <= 1000 && Tiled(Watch(db, hermes, entity, earlier), entity)
    modifies db, hermes
    ensures hermes.Valid() && Tiled(Watch(db, hermes, entity, log), entity)
    ensures Grows(old(hermes.jobs), hermes.jobs) && Grows(old(hermes.steps), hermes.steps)
    ensures earlier <= log && count == |log| - |earlier| && Goes(old(db.tables), db.tables, entity)
    ensures error in {None, Some(PageRefused)}
    ensures error.None? ==> Completed(Watch(db, hermes, entity, log), entity)
    ensures error.Some? ==> Stopped(Watch(db, hermes, entity, log), entity, batchSize, now, hermes.names)
    ensures entity == TRIP_JOB && RowsNamed(old(db.tables.jobs), hermes.names) ==>
              error.None? && RowsNamed(db.tables.jobs, hermes.names)
    ensures hermes.Rows(entity) == old(hermes.Rows(entity)) ==>
              KeepsAhead(old(Watch(db, hermes, entity, earlier)), Watch(db, hermes, entity, log), entity, hermes.names)
  {
    count, log := 0, earlier;
    ghost var first := Watch(db, hermes, entity, earlier);
    NoTurnMade(first, entity, hermes.names);
    while true
      invariant hermes.Valid() && count == |log| - |earlier|
      invariant Grows(old(hermes.jobs), hermes.jobs) && Grows(old(hermes.steps), hermes.steps)
      invariant TurnsMade(first, Watch(db, hermes, entity, log), entity, hermes.names)
      decreases if entity in db.tables.checkpoints then 0 else 1, Remaining(db.tables, entity)
    {
      ghost var before, jobs, steps := Watch(db, hermes, entity, log), hermes.jobs, hermes.steps;
      var finished;
      finished, error, count, log := BackfillTurn(db, hermes, entity, batchSize, now, count, log);
      GrowsTransitive(old(hermes.jobs), jobs, hermes.jobs);
      GrowsTransitive(old(hermes.steps), steps, hermes.steps);
      TurnJoins(first, before, Watch(db, hermes, entity, log), entity, batchSize, now, hermes.names, finished, error);
      if finished {
        return;
      }
    }
  }

  /** What some turns come to. */
  ghost predicate TurnsMade(first: Backfill, after: Backfill, entity: Entity, names: Names) {
    && first.log <= after.log && Tiled(after, entity) && Goes(first.db, after.db, entity)
    && (entity == TRIP_JOB && RowsNamed(first.db.jobs, names) ==> RowsNamed(after.db.jobs, names))
    && (after.source == first.source ==> KeepsAhead(first, after, entity, names))
  }

  lemma NoTurnMade(b: Backfill, entity: Entity, names: Names)
    requires Tiled(b, entity)
    ensures TurnsMade(b, b, entity, names)
  {
  }

  /** A turn added to the turns before it. */
  lemma TurnJoins(
    first: Backfill, before: Backfill, after: Backfill, entity: Entity, limit: nat, now: Time, names: Names,
    finished: bool, error: Option<BackfillError>)
    requires Grows(first.source, before.source) && Grows(before.source, after.source) && limit >= 1
    requires TurnsMade(first, before, entity, names)
    requires TurnMade(before, after, entity, limit, now, names, finished, error)
    ensures TurnsMade(first, after, entity, names)
  {
    GoesTransitive(first.db, before.db, after.db, entity);
    if after.source == first.source {
      BetweenIsSame(first.source, before.source, after.source);
      KeepsAheadTransitive(first, before, after, entity, names);
    }
  }

  lemma OtherTableStaysTiled(b: Backfill, entity: Entity, source: Source, db: Db)
    requires Tiled(b, entity) && SourceOk(source) && AllOf(entity, source) && Grows(b.source, source)
    requires Advances(b.db, db) && CheckpointOf(db, entity) == CheckpointOf(b.db, entity)
    ensures Tiled(Backfill(source, db, b.log), entity)
  {
    GrowthKeepsTiling(b, entity, source);
    AdvanceKeepsTiling(b.(source := source), entity, db);
  }

  /** The loop over the two tables. */
  method BackfillTables(
    db: Database, hermes: Hermes, batchSize: nat, now: Time, ghost jobLog: seq<Item>, ghost stepLog: seq<Item>)
    returns (error: Option<BackfillError>, jobCount: nat, stepCount: nat, ghost jobLog': seq<Item>,
        ghost stepLog': seq<Item>)
    requires hermes.Valid() && 1 <= batchSize <= 1000
    requires Tiled(Watch(db, hermes, TRIP_JOB, jobLog), TRIP_JOB)
             && Tiled(Watch(db, hermes, TRIP_STEP, stepLog), TRIP_STEP)
    modifies db, hermes
    ensures Tiled(Watch(db, hermes, TRIP_JOB, jobLog'), TRIP_JOB)
            && Tiled(Watch(db, hermes, TRIP_STEP, stepLog'), TRIP_STEP)
    ensures jobCount == |jobLog'| - |jobLog| && stepCount == |stepLog'| - |stepLog|
    ensures error.None? || error == Some(PageRefused)
    ensures error.None? || RowsNamed(old(db.tables.jobs), hermes.names) ==>
              Completed(Watch(db, hermes, TRIP_JOB, jobLog'), TRIP_JOB)
    ensures error.None? ==> Completed(Watch(db, hermes, TRIP_STEP, stepLog'), TRIP_STEP)
    ensures error.Some? && RowsNamed(old(db.tables.jobs), hermes.names) ==>
              NextRefused(Watch(db, hermes, TRIP_STEP, stepLog'), TRIP_STEP, batchSize, now)
    ensures RowsNamed(old(db.tables.jobs), hermes.names) && hermes.jobs == old(hermes.jobs)
            && hermes.steps == old(hermes.steps) ==>
              (error.None? <==> old(StepsPlaced(Watch(db, hermes, TRIP_STEP, stepLog),
                  JobsToCome(Watch(db, hermes, TRIP_JOB, jobLog)))))
  {
    jobCount, stepCount, jobLog', stepLog' := 0, 0, jobLog, stepLog;
    ghost var jobs, steps := Watch(db, hermes, TRIP_JOB, jobLog), Watch(db, hermes, TRIP_STEP, stepLog);
    error, jobCount, jobLog' := BackfillEntity(db, hermes, TRIP_JOB, batchSize, now, jobLog);
    OtherTableStaysTiled(steps, TRIP_STEP, hermes.steps, db.tables);
    if error.Some? {
      return;
    }
    ghost var jobs', steps' := Watch(db, hermes, TRIP_JOB, jobLog'), Watch(db, hermes, TRIP_STEP, stepLog);
    error, stepCount, stepLog' := BackfillEntity(db, hermes, TRIP_STEP, batchSize, now, stepLog);
    OtherTableStaysTiled(jobs', TRIP_JOB, hermes.jobs, db.tables);
    assert Completed(Watch(db, hermes, TRIP_JOB, jobLog'), TRIP_JOB);
    StillUpstream(jobs, jobs', steps, steps', Watch(db, hermes, TRIP_STEP, stepLog'), hermes.jobs, hermes.names,
        error.None?);
  }

  /**
    run_projection_backfill: jobs first, then steps. Jobs always complete, and the whole run does unless a
    page of steps is refused. With an upstream that stands still that is decided beforehand: it completes
    if and only if every step ahead is stored already or has its job among the jobs stored or ahead.
    */
  method RunProjectionBackfill(
    db: Database, hermes: Hermes, batchSize: nat, now: Time, ghost jobLog: seq<Item>, ghost stepLog: seq<Item>)
    returns (error: Option<BackfillError>, jobCount: nat, stepCount: nat, ghost jobLog': seq<Item>,
        ghost stepLog': seq<Item>)
    requires hermes.Valid()
    requires Tiled(Watch(db, hermes, TRIP_JOB, jobLog), TRIP_JOB)
             && Tiled(Watch(db, hermes, TRIP_STEP, stepLog), TRIP_STEP)
    modifies db, hermes
    ensures Tiled(Watch(db, hermes, TRIP_JOB, jobLog'), TRIP_JOB)
            && Tiled(Watch(db, hermes, TRIP_STEP, stepLog'), TRIP_STEP)
    ensures jobCount == |jobLog'| - |jobLog| && stepCount == |stepLog'| - |stepLog|
    ensures error == Some(BadBatchSize) <==> !(1 <= batchSize <= 1000)
    ensures error in {None, Some(BadBatchSize), Some(PageRefused)}
    ensures error.None? ==> Completed(Watch(db, hermes, TRIP_JOB, jobLog'), TRIP_JOB)
    ensures error.None? ==> Completed(Watch(db, hermes, TRIP_STEP, stepLog'), TRIP_STEP)
    ensures 1 <= batchSize <= 1000 && RowsNamed(old(db.tables.jobs), hermes.names) ==>
              && Completed(Watch(db, hermes, TRIP_JOB, jobLog'), TRIP_JOB)
              && (error == Some(PageRefused)
                  <==> NextRefused(Watch(db, hermes, TRIP_STEP, stepLog'), TRIP_STEP, batchSize, now))
    ensures 1 <= batchSize <= 1000 && RowsNamed(old(db.tables.jobs), hermes.names)
            && hermes.jobs == old(hermes.jobs) && hermes.steps == old(hermes.steps) ==>
              (error.None? <==> old(StepsPlaced(Watch(db, hermes, TRIP_STEP, stepLog),
                  JobsToCome(Watch(db, hermes, TRIP_JOB, jobLog)))))
  {
    jobCount, stepCount, jobLog', stepLog' := 0, 0, jobLog, stepLog;
    if !(1 <= batchSize <= 1000) {
      return Some(BadBatchSize), jobCount, stepCount, jobLog', stepLog';
    }
    error, jobCount, stepCount, jobLog', stepLog' := BackfillTables(db, hermes, batchSize, now, jobLog, stepLog);
  }

  lemma StillUpstream(
    jobs: Backfill, jobs': Backfill, steps: Backfill, steps': Backfill, end: Backfill, last: Source,
    names: Names, completed: bool)
    requires Tiled(jobs', TRIP_JOB) && Completed(jobs', TRIP_JOB) && steps.db == jobs.db && steps'.db == jobs'.db
    requires jobs'.source == jobs.source ==> KeepsAhead(jobs, jobs', TRIP_JOB, names)
    requires end.source == steps'.source ==> KeepsAhead(steps', end, TRIP_STEP, names)
    requires Grows(jobs.source, jobs'.source) && Grows(jobs'.source, last)
    requires Grows(steps.source, steps'.source) && Grows(steps'.source, end.source)
    requires Goes(jobs.db, jobs'.db, TRIP_JOB) && Goes(steps'.db, end.db, TRIP_STEP) && Tiled(end, TRIP_STEP)
    requires if completed then Completed(end, TRIP_STEP) else !StepsPlaced(end, end.db.jobs.Keys)
    ensures last == jobs.source && end.source == steps.source && RowsNamed(jobs.db.jobs, names) ==>
              (completed <==> StepsPlaced(steps, JobsToCome(jobs)))
  {
    if last == jobs.source && end.source == steps.source && RowsNamed(jobs.db.jobs, names) {
      BetweenIsSame(jobs.source, jobs'.source, last);
      BetweenIsSame(steps.source, steps'.source, end.source);
      DecidedBeforehand(jobs, jobs', steps, steps', end, names, completed);
    }
  }

  /** How the two loops over a still upstream hang together. */
  lemma DecidedBeforehand(
    jobs: Backfill, jobs': Backfill, steps: Backfill, steps': Backfill, end: Backfill, names: Names,
    completed: bool)
    requires Tiled(jobs', TRIP_JOB) && Completed(jobs', TRIP_JOB) && KeepsAhead(jobs, jobs', TRIP_JOB, names)
             && RowsNamed(jobs.db.jobs, names)
    requires steps.db == jobs.db && steps'.db == jobs'.db && steps'.source == steps.source
             && Goes(jobs.db, jobs'.db, TRIP_JOB)
    requires KeepsAhead(steps', end, TRIP_STEP, names) && Goes(steps'.db, end.db, TRIP_STEP) && Tiled(end, TRIP_STEP)
    requires if completed then Completed(end, TRIP_STEP) else !StepsPlaced(end, end.db.jobs.Keys)
    ensures completed <==> StepsPlaced(steps, JobsToCome(jobs))
  {
    CompletedHasNothingAhead(jobs', TRIP_JOB);
    NothingAheadNoJobs(jobs');
    SameAhead(steps, steps', TRIP_STEP);
    SamePlaced(steps, steps', JobsToCome(jobs));
    if completed {
      CompletedHasNothingAhead(end, TRIP_STEP);
      NothingAheadIsPlaced(end, end.db.jobs.Keys);
    }
  }

  lemma NothingAheadNoJobs(b: Backfill)
    requires AheadOf(b, TRIP_JOB) == {}
    ensures JobsToCome(b) == b.db.jobs.Keys
  {
  }

  lemma NothingAheadIsPlaced(b: Backfill, jobs: set<Id>)
    requires AheadOf(b, TRIP_STEP) == {}
    ensures StepsPlaced(b, jobs)
  {
  }

  lemma SameAhead(b: Backfill, c: Backfill, entity: Entity)
    requires c.source == b.source && CheckpointOf(c.db, entity) == CheckpointOf(b.db, entity)
    ensures AheadOf(c, entity) == AheadOf(b, entity)
  {
  }

  lemma SamePlaced(b: Backfill, c: Backfill, jobs: set<Id>)
    requires c.source == b.source && c.db.steps == b.db.steps && AheadOf(c, TRIP_STEP) == AheadOf(b, TRIP_STEP)
    ensures StepsPlaced(c, jobs) <==> StepsPlaced(b, jobs)
  {
  }

  // ---- Every crash and restart schedule ------------------------------------------------------

  /** The worker, both tables, and the page it has fetched but not committed. */
  datatype Sync = Sync(jobs: Source, steps: Source, db: Db, jobLog: seq<Item>, stepLog: seq<Item>, held: Option<Held>)
  datatype Held = Held(entity: Entity, page: Page)

  datatype Turn =
    | Upstream(grownJobs: Source, grownSteps: Source)
    /** Other transactions advance the projection. */
    | Elsewhere(advanced: Db)
    | Fetch(entity: Entity, limit: nat)
    | Commit(now: Time)
    /** The worker dies, or its transaction fails, and is restarted. */
    | Crash

  function View(s: Sync, entity: Entity): Backfill {
    if entity == TRIP_JOB then Backfill(s.jobs, s.db, s.jobLog) else Backfill(s.steps, s.db, s.stepLog)
  }

  ghost predicate Allowed(s: Sync, turn: Turn, names: Names) {
    match turn
    case Upstream(jobs, steps) =>
      && SourceOk(jobs) && Grows(s.jobs, jobs) && AllOf(TRIP_JOB, jobs) && SourceNamed(jobs, names)
      && SourceOk(steps) && Grows(s.steps, steps) && AllOf(TRIP_STEP, steps)
    case Elsewhere(advanced) =>
      Advances(s.db, advanced) && advanced.checkpoints == s.db.checkpoints && RowsNamed(advanced.jobs, names)
    case Fetch(entity, limit) =>
      && s.held.None? && 1 <= limit <= 1000 && !Completed(View(s, entity), entity)
      && (entity == TRIP_STEP ==> Completed(View(s, TRIP_JOB), TRIP_JOB))
    case Commit(_) => s.held.Some?
    case Crash => true
  }

  /** A fetch whose request or page is refused by the worker's own checks holds nothing. */
  function FetchedPage(s: Sync, entity: Entity, limit: nat): Option<Held>
    requires limit >= 1
  {
    var p := NextPage(View(s, entity), entity, limit);
    if p.None? || PageError(p.value).Some? then None else Some(Held(entity, p.value))
  }

  function Turned(s: Sync, turn: Turn): Sync {
    match turn
    case Upstream(jobs, steps) => s.(jobs := jobs, steps := steps)
    case Elsewhere(advanced) => s.(db := advanced)
    case Fetch(entity, limit) => s.(held := if limit < 1 then None else FetchedPage(s, entity, limit))
    case Commit(now) =>
      if s.held.None? then s
      else
        var entity, p := s.held.value.entity, s.held.value.page;
        var (db, error) := CommitOutcome(s.db, entity, p, now);
        s.(db := db, held := None,
           jobLog := if entity == TRIP_JOB && error.None? then s.jobLog + p.items else s.jobLog,
           stepLog := if entity == TRIP_STEP && error.None? then s.stepLog + p.items else s.stepLog)
    case Crash => s.(held := None)
  }

  function Turns(s: Sync, turns: seq<Turn>): Sync {
    if turns == [] then s else Turned(Turns(s, turns[..|turns| - 1]), turns[|turns| - 1])
  }

  ghost predicate AllAllowed(s: Sync, turns: seq<Turn>, names: Names) {
    turns != [] ==>
      AllAllowed(s, turns[..|turns| - 1], names) && Allowed(Turns(s, turns[..|turns| - 1]), turns[|turns| - 1], names)
  }

  ghost predicate WorkerOk(s: Sync, names: Names) {
    && Tiled(View(s, TRIP_JOB), TRIP_JOB) && Tiled(View(s, TRIP_STEP), TRIP_STEP)
    && SourceNamed(s.jobs, names) && RowsNamed(s.db.jobs, names)
    && (s.held.Some? ==> Fetched(View(s, s.held.value.entity), s.held.value.entity, s.held.value.page)
                         && PageNamed(s.held.value.page, names))
  }

  lemma FetchIsOk(s: Sync, entity: Entity, limit: nat, names: Names)
    requires WorkerOk(s, names) && Allowed(s, Fetch(entity, limit), names)
    ensures WorkerOk(Turned(s, Fetch(entity, limit)), names) && Turned(s, Fetch(entity, limit)).held.Some?
  {
    NextIsFetched(View(s, entity), entity, limit);
    if entity == TRIP_JOB {
      ServedNamed(View(s, entity), limit, names);
    }
  }

  lemma GrowthIsOk(s: Sync, jobs: Source, steps: Source, names: Names)
    requires WorkerOk(s, names) && Allowed(s, Upstream(jobs, steps), names)
    ensures WorkerOk(Turned(s, Upstream(jobs, steps)), names)
  {
    GrowthKeepsTiling(View(s, TRIP_JOB), TRIP_JOB, jobs);
    GrowthKeepsTiling(View(s, TRIP_STEP), TRIP_STEP, steps);
    if s.held.Some? {
      var entity := s.held.value.entity;
      GrowthKeepsFetched(View(s, entity), entity, s.held.value.page, if entity == TRIP_JOB then jobs else steps);
    }
  }

  lemma ElsewhereIsOk(s: Sync, db: Db, names: Names)
    requires WorkerOk(s, names) && Allowed(s, Elsewhere(db), names)
    ensures WorkerOk(Turned(s, Elsewhere(db)), names)
  {
    AdvanceKeepsTiling(View(s, TRIP_JOB), TRIP_JOB, db);
    AdvanceKeepsTiling(View(s, TRIP_STEP), TRIP_STEP, db);
    if s.held.Some? {
      AdvanceKeepsFetched(View(s, s.held.value.entity), s.held.value.entity, s.held.value.page, db);
    }
    ElsewhereViews(s, db);
  }

  lemma ElsewhereViews(s: Sync, db: Db)
    ensures forall entity :: View(Turned(s, Elsewhere(db)), entity) == View(s, entity).(db := db)
    ensures Turned(s, Elsewhere(db)) == s.(db := db)
  {
  }

  lemma CommitIsOk(s: Sync, now: Time, names: Names)
    requires OneToOneNames(names) && WorkerOk(s, names) && s.held.Some?
    ensures WorkerOk(Turned(s, Commit(now)), names)
    ensures s.held.value.entity == TRIP_JOB ==> CommitOutcome(s.db, TRIP_JOB, s.held.value.page, now).1.None?
  {
    var entity, p := s.held.value.entity, s.held.value.page;
    OnlyRefusalStops(View(s, entity), entity, p, now);
    if entity == TRIP_JOB {
      NamedPageAccepted(s.db, p, names, now);
      CommittedJobs(s, p, now, names);
    } else if CommitOutcome(s.db, entity, p, now).1.None? {
      CommittedSteps(s, p, now, names);
    }
  }

  lemma CommittedJobs(s: Sync, p: Page, now: Time, names: Names)
    requires OneToOneNames(names) && WorkerOk(s, names) && s.held == Some(Held(TRIP_JOB, p))
             && CommitOutcome(s.db, TRIP_JOB, p, now).1.None?
    ensures WorkerOk(Turned(s, Commit(now)), names)
  {
    NamedPageAccepted(s.db, p, names, now);
    CommitTouchesOneCheckpoint(s.db, TRIP_JOB, p, now);
    CommitGains(View(s, TRIP_JOB), TRIP_JOB, p, now);
    AdvanceKeepsTiling(View(s, TRIP_STEP), TRIP_STEP, CommitOutcome(s.db, TRIP_JOB, p, now).0);
  }

  lemma CommittedSteps(s: Sync, p: Page, now: Time, names: Names)
    requires WorkerOk(s, names) && s.held == Some(Held(TRIP_STEP, p)) && CommitOutcome(s.db, TRIP_STEP, p, now).1.None?
    ensures WorkerOk(Turned(s, Commit(now)), names)
  {
    CommitGains(View(s, TRIP_STEP), TRIP_STEP, p, now);
    AdvanceKeepsTiling(View(s, TRIP_JOB), TRIP_JOB, CommitOutcome(s.db, TRIP_STEP, p, now).0);
  }

  lemma TurnIsOk(s: Sync, turn: Turn, names: Names)
    requires OneToOneNames(names) && WorkerOk(s, names) && Allowed(s, turn, names)
    ensures WorkerOk(Turned(s, turn), names)
  {
    match turn
    case Upstream(jobs, steps) => GrowthIsOk(s, jobs, steps, names);
    case Elsewhere(advanced) => ElsewhereIsOk(s, advanced, names);
    case Fetch(entity, limit) => FetchIsOk(s, entity, limit, names);
    case Commit(now) => CommitIsOk(s, now, names);
    case Crash =>
  }

  /** Two tables on which no backfill has started. */
  ghost predicate Unstarted(s: Sync, names: Names) {
    && SourceOk(s.jobs) && AllOf(TRIP_JOB, s.jobs) && SourceNamed(s.jobs, names)
    && SourceOk(s.steps) && AllOf(TRIP_STEP, s.steps)
    && s.db.checkpoints == map[] && s.jobLog == [] && s.stepLog == [] && s.held.None? && RowsNamed(s.db.jobs, names)
  }

  /** A complete table: its log is every row up to the maximum, in order, and each is stored at its version or newer. */
  ghost predicate Complete(b: Backfill, entity: Entity) {
    Completed(b, entity) ==>
      && CheckpointOf(b.db, entity).value.snapshotMax.Some?
      && Ids(b.log) == Sorted(Window(b.source.Keys, 0, CheckpointOf(b.db, entity).value.snapshotMax.value))
      && forall item | item in b.log :: Present(b.db.jobs, b.db.steps, item)
  }

  lemma TiledIsComplete(b: Backfill, entity: Entity)
    requires Tiled(b, entity)
    ensures Complete(b, entity)
  {
    if Completed(b, entity) {
      var last := CheckpointOf(b.db, entity).value.snapshotMax.value;
      SortedElements(Window(b.source.Keys, 0, last));
      SameAscending(Ids(b.log), Sorted(Window(b.source.Keys, 0, last)));
    }
  }

  /**
    For every schedule of fetches, commits, crashes, restarts, upstream growth and other commits, also
    between a fetch and its commit: the committed pages of both tables tile the ids up to their cursors,
    without gap or overlap, below maxima that are never lost or changed; a complete table has every row.
    */
  lemma {:induction false} BackfillTilesTheSnapshot(s: Sync, turns: seq<Turn>, names: Names)
    requires OneToOneNames(names) && Unstarted(s, names) && AllAllowed(s, turns, names)
    ensures var r := Turns(s, turns);
            && WorkerOk(r, names)
            && Complete(View(r, TRIP_JOB), TRIP_JOB) && Complete(View(r, TRIP_STEP), TRIP_STEP)
  {
    if turns != [] {
      var front := turns[..|turns| - 1];
      BackfillTilesTheSnapshot(s, front, names);
      TurnIsOk(Turns(s, front), turns[|turns| - 1], names);
    }
    TiledIsComplete(View(Turns(s, turns), TRIP_JOB), TRIP_JOB);
    TiledIsComplete(View(Turns(s, turns), TRIP_STEP), TRIP_STEP);
  }

  /**
    In every schedule a fetched page of jobs is committed, and a fetched page of steps is refused if and
    only if it holds a new or newer step whose job is not stored; no other error can occur.
    */
  lemma OnlyOrphansAreRefused(s: Sync, turns: seq<Turn>, names: Names, now: Time)
    requires OneToOneNames(names) && Unstarted(s, names) && AllAllowed(s, turns, names) && Turns(s, turns).held.Some?
    ensures var r := Turns(s, turns);
            var error := CommitOutcome(r.db, r.held.value.entity, r.held.value.page, now).1;
            && error in {None, Some(PageRefused)} && (r.held.value.entity == TRIP_JOB ==> error.None?)
            && (r.held.value.entity == TRIP_STEP ==>
                  (error.Some? <==> exists item :: item in r.held.value.page.items && Orphan(r.db, item)))
  {
    BackfillTilesTheSnapshot(s, turns, names);
    var r := Turns(s, turns);
    var entity, p := r.held.value.entity, r.held.value.page;
    OnlyRefusalStops(View(r, entity), entity, p, now);
    if entity == TRIP_JOB {
      NamedPageAccepted(r.db, p, names, now);
    } else {
      StepPageRefused(r.db, p.items, now);
    }
  }

  /** A commit completes its table or moves its cursor up, still below the frozen maximum. */
  lemma CommitsMakeProgress(s: Sync, now: Time, names: Names)
    requires OneToOneNames(names) && WorkerOk(s, names) && s.held.Some?
    requires CommitOutcome(s.db, s.held.value.entity, s.held.value.page, now).1.None?
    ensures var entity := s.held.value.entity;
            var before, after := CheckpointOf(s.db, entity), CheckpointOf(Turned(s, Commit(now)).db, entity);
            after.Some? && (after.value.completedAt.Some? || CursorMoved(before, after))
  {
    var entity, p := s.held.value.entity, s.held.value.page;
    CommitTouchesOneCheckpoint(s.db, entity, p, now);
    PageMovesCursor(CheckpointOf(s.db, entity), p, Cursor(View(s, entity), entity), now);
  }

  predicate CursorMoved(before: Option<Checkpoint>, after: Option<Checkpoint>) {
    && after.Some? && after.value.snapshotMax.Some? && after.value.lastId <= after.value.snapshotMax.value
    && (if before.Some? then before.value.lastId < after.value.lastId
        && after.value.snapshotMax == before.value.snapshotMax
        else 0 < after.value.lastId)
  }

  lemma PageMovesCursor(c: Option<Checkpoint>, p: Page, after: nat, now: Time)
    requires if c.Some? then c.value.lastId == after && c.value.snapshotMax == Some(p.snapshotMax) else after == 0
    requires p.hasMore ==> after < End(p) <= p.snapshotMax
    ensures AdvancedCheckpoint(c, p, now).completedAt.Some? || CursorMoved(c, Some(AdvancedCheckpoint(c, p, now)))
  {
  }
}
