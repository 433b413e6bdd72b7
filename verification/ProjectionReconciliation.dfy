/** Comparing the projection with its source, and repairing it (src/admin/projection_sync.py). */
module ProjectionReconciliation {
  import opened Schema
  import opened Finite
  import opened Merge
  import opened Projection
  import opened ProjectionSync
  import opened AssociationAgreement

  // ---- _all_source_snapshots -----------------------------------------------------------------

  datatype SyncError = SnapshotMaximumChanged | OmittedCursor | RepairRefused

  function PutItems(items: map<nat, Item>, page: seq<Item>): map<nat, Item> {
    if page == [] then items
    else PutItems(items, page[..|page| - 1])[page[|page| - 1].SourceId() := page[|page| - 1]]
  }

  method Collect(items: map<nat, Item>, page: seq<Item>) returns (all: map<nat, Item>)
    ensures all == PutItems(items, page)
  {
    all := items;
    for k := 0 to |page|
      invariant all == PutItems(items, page[..k])
    {
      assert page[..k + 1][..k] == page[..k];
      all := all[page[k].SourceId() := page[k]];
    }
    assert page[..|page|] == page;
  }

  lemma {:induction false} CollectedKeys(items: map<nat, Item>, page: seq<Item>, i: nat)
    ensures i in PutItems(items, page) <==> i in items || i in Ids(page)
    ensures i !in Ids(page) && i in items ==> PutItems(items, page)[i] == items[i]
  {
    if page != [] {
      var front, last := page[..|page| - 1], page[|page| - 1];
      CollectedKeys(items, front, i);
      assert Ids(page) == Ids(front) + [last.SourceId()];
    }
  }

  lemma {:induction false} CollectedItem(items: map<nat, Item>, page: seq<Item>, k: nat)
    requires Ascending(Ids(page)) && k < |page|
    ensures Ids(page)[k] in PutItems(items, page) && PutItems(items, page)[Ids(page)[k]] == page[k]
  {
    var front := page[..|page| - 1];
    if k < |front| {
      assert Ids(page)[k] < Ids(page)[|page| - 1];
      AscendingPrefix(page);
      CollectedItem(items, front, k);
      assert Ids(front)[k] == Ids(page)[k];
    }
  }

  lemma AscendingPrefix(page: seq<Item>)
    requires page != [] && Ascending(Ids(page))
    ensures Ascending(Ids(page[..|page| - 1]))
  {
    assert Ids(page[..|page| - 1]) == Ids(page)[..|page| - 1];
  }

  /** Every row up to `after`, no older than at the start and no newer than now. */
  ghost predicate Collected(first: Source, source: Source, items: map<nat, Item>, after: nat) {
    && items.Keys == Window(source.Keys, 0, after)
    && forall i | i in items ::
         && items[i].SourceId() == i && Precedes(items[i], source[i])
         && (i in first ==> first[i].Version() <= items[i].Version())
  }

  lemma GrowthKeepsCollected(first: Source, before: Source, source: Source, items: map<nat, Item>, after: nat)
    requires SourceOk(before) && SourceOk(source) && Grows(before, source) && after <= Greatest(before.Keys)
    requires Collected(first, before, items, after)
    ensures Collected(first, source, items, after)
  {
    GrowthKeepsWindow(before, source, after);
  }

  lemma PageKeepsCollected(first: Source, source: Source, items: map<nat, Item>, after: nat, p: Page)
    requires SourceOk(source) && Grows(first, source) && after <= End(p)
    requires Collected(first, source, items, after) && HonestPage(source, after, p)
    ensures Collected(first, source, PutItems(items, p.items), End(p))
  {
    var all := PutItems(items, p.items);
    forall i: nat
      ensures i in all <==> i in Window(source.Keys, 0, End(p))
      ensures i in all && i !in Ids(p.items) ==> i in items && all[i] == items[i]
    {
      CollectedKeys(items, p.items, i);
      assert i in Ids(p.items) <==> i in Elements(Ids(p.items));
    }
    forall i | i in Ids(p.items)
      ensures i in all && i in source && all[i] == source[i]
    {
      var k :| 0 <= k < |p.items| && Ids(p.items)[k] == i;
      CollectedItem(items, p.items, k);
      assert p.items[k] in p.items;
    }
  }

  /** Rows as the source has held them, now or earlier. */
  ghost predicate Copied(copy: Source, source: Source) {
    forall i | i in copy :: copy[i].SourceId() == i && Held(source, copy[i])
  }

  lemma CopyGrows(copy: Source, before: Source, source: Source)
    requires SourceOk(before) && Copied(copy, before) && Grows(before, source)
    ensures Copied(copy, source)
  {
    forall i | i in copy
      ensures Held(source, copy[i])
    {
      assert Precedes(copy[i], before[i]) && Precedes(before[i], source[i]);
    }
  }

  lemma CopyIsOf(copy: Source, source: Source, entity: Entity)
    requires SourceOk(source) && AllOf(entity, source) && Copied(copy, source)
    ensures SourceOk(copy) && AllOf(entity, copy)
  {
    forall i | i in copy
      ensures OfEntity(entity, copy[i])
    {
      assert OfEntity(entity, source[i]) && Precedes(copy[i], source[i]);
    }
  }

  /** If the upstream stood still, the result is the source. */
  lemma StillSource(source: Source, items: map<nat, Item>, last: nat)
    requires SourceOk(source) && Collected(source, source, items, last) && Greatest(source.Keys) <= last
    ensures items == source
  {
    assert Window(source.Keys, 0, last) == source.Keys;
  }

  method NextSnapshots(
    hermes: Hermes, entity: Entity, after: nat, frozen: Option<nat>, ghost first: Source,
    ghost items: map<nat, Item>)
    returns (page: Page)
    requires hermes.Valid() && Grows(first, hermes.Rows(entity)) && Collected(first, hermes.Rows(entity), items, after)
    requires frozen.None? ==> after == 0
    requires frozen.Some? ==> after <= frozen.value <= Greatest(hermes.Rows(entity).Keys)
    modifies hermes
    ensures hermes.Valid() && Grows(old(hermes.jobs), hermes.jobs) && Grows(old(hermes.steps), hermes.steps)
    ensures Greatest(old(hermes.Rows(entity)).Keys) <= Greatest(hermes.Rows(entity).Keys)
    ensures Collected(first, hermes.Rows(entity), PutItems(items, page.items), End(page))
    ensures page.snapshotMax == if frozen.Some? then frozen.value else Greatest(hermes.Rows(entity).Keys)
    ensures page.hasMore ==> page.nextAfter.Some? && after < End(page) <= page.snapshotMax
    ensures !page.hasMore ==> End(page) == page.snapshotMax
  {
    ghost var before := hermes.Rows(entity);
    page := hermes.Snapshots(entity, after, frozen, 1000);
    ghost var source := hermes.Rows(entity);
    GrowsTransitive(first, before, source);
    GrowthKeepsWindow(before, source, 0);
    GrowthKeepsCollected(first, before, source, items, after);
    ServedPage(source, after, frozen, 1000);
    ServedMaximum(source, after, frozen, 1000);
    PageKeepsCollected(first, source, items, after, page);
  }

  /** _all_source_snapshots. Neither of its errors can occur. */
  method AllSourceSnapshots(hermes: Hermes, entity: Entity)
    returns (error: Option<SyncError>, items: map<nat, Item>, ghost last: nat)
    requires hermes.Valid()
    modifies hermes
    ensures hermes.Valid() && Grows(old(hermes.jobs), hermes.jobs) && Grows(old(hermes.steps), hermes.steps)
    ensures error.None?
    ensures Collected(old(hermes.Rows(entity)), hermes.Rows(entity), items, last)
    ensures Greatest(old(hermes.Rows(entity)).Keys) <= last
  {
    ghost var first := hermes.Rows(entity);
    var after: nat, snapshotMax: Option<nat> := 0, None;
    items := map[];
    while true
      invariant hermes.Valid() && Grows(old(hermes.jobs), hermes.jobs) && Grows(old(hermes.steps), hermes.steps)
      invariant Collected(first, hermes.Rows(entity), items, after)
      invariant snapshotMax.None? <==> after == 0
      invariant Greatest(first.Keys) <= Greatest(hermes.Rows(entity).Keys)
      invariant snapshotMax.Some? ==> Greatest(first.Keys) <= snapshotMax.value
      invariant snapshotMax.Some? ==> after <= snapshotMax.value <= Greatest(hermes.Rows(entity).Keys)
      decreases if snapshotMax.Some? then 0 else 1, if snapshotMax.Some? then snapshotMax.value - after else 0
    {
      ghost var jobs, steps := hermes.jobs, hermes.steps;
      var page := NextSnapshots(hermes, entity, after, if after != 0 then snapshotMax else None, first, items);
      GrowsTransitive(old(hermes.jobs), jobs, hermes.jobs);
      GrowsTransitive(old(hermes.steps), steps, hermes.steps);
      snapshotMax := if snapshotMax.Some? then snapshotMax else Some(page.snapshotMax);
      if page.snapshotMax != snapshotMax.value {
        return Some(SnapshotMaximumChanged), items, after;
      }
      items := Collect(items, page.items);
      if !page.hasMore {
        return None, items, End(page);
      }
      if page.nextAfter.None? {
        return Some(OmittedCursor), items, after;
      }
      after := page.nextAfter.value;
    }
  }

  // ---- reconcile_projection ------------------------------------------------------------------

  datatype Report = Report(
    missingJobs: set<nat>, missingSteps: set<nat>, extraJobs: set<nat>, extraSteps: set<nat>,
    staleJobs: set<nat>, staleSteps: set<nat>, impossible: set<Id>)
  {
    predicate NeedsRepair() {
      missingJobs != {} || staleJobs != {} || missingSteps != {} || staleSteps != {}
    }

    predicate Passed() {
      !NeedsRepair() && extraJobs == {} && extraSteps == {} && impossible == {}
    }
  }

  /** Versions by source id, of a source and of the local tables. */
  function Versions(source: Source): map<nat, nat> {
    map i | i in source :: source[i].Version()
  }

  function JobAt(jobs: map<Id, JobRow>, i: nat): (j: Option<Id>)
    ensures j.Some? ==> j.value in jobs && jobs[j.value].sourceId == i
    ensures j.None? ==> forall k | k in jobs :: jobs[k].sourceId != i
  {
    var rows := set k | k in jobs && jobs[k].sourceId == i;
    var j := First(rows);
    assert j.None? ==> forall k | k in jobs :: k !in rows;
    j
  }

  function SourceIds(jobs: map<Id, JobRow>): set<nat> {
    set j | j in jobs :: jobs[j].sourceId
  }

  /** local_jobs */
  function JobVersions(jobs: map<Id, JobRow>): map<nat, nat> {
    map i | i in SourceIds(jobs) && JobAt(jobs, i).Some? :: jobs[JobAt(jobs, i).value].version
  }

  /** local_steps */
  function StepVersions(steps: map<Id, StepRow>): map<nat, nat> {
    map s | s in steps :: steps[s].version
  }

  function Stale(source: map<nat, nat>, local: map<nat, nat>): set<nat> {
    set i | i in source && i in local && source[i] != local[i]
  }

  function Impossible(jobs: map<Id, JobRow>): set<Id> {
    set j | j in jobs &&
      ((jobs[j].erasedAt.Some? && (jobs[j].association != Deidentified || jobs[j].userId.Some?))
       || (jobs[j].association == Linked && (jobs[j].userId.None? || jobs[j].tripId.None?)))
  }

  function Compared(db: Db, jobs: Source, steps: Source): Report {
    var j, j', s, s' := Versions(jobs), JobVersions(db.jobs), Versions(steps), StepVersions(db.steps);
    Report(j.Keys - j'.Keys, s.Keys - s'.Keys, j'.Keys - j.Keys, s'.Keys - s.Keys, Stale(j, j'), Stale(s, s'),
        Impossible(db.jobs))
  }

  /** missing + stale, each in ascending order. */
  function Listing(source: map<nat, nat>, local: map<nat, nat>): seq<nat> {
    Sorted(source.Keys - local.Keys) + Sorted(Stale(source, local))
  }

  lemma ListingsAreListed(db: Db, jobs: Source, steps: Source)
    ensures forall k | k in Listing(Versions(jobs), JobVersions(db.jobs)) :: k in jobs
    ensures forall k | k in Listing(Versions(steps), StepVersions(db.steps)) :: k in steps
  {
    ListingIsListed(Versions(jobs), JobVersions(db.jobs));
    ListingIsListed(Versions(steps), StepVersions(db.steps));
  }

  lemma ListingIsListed(source: map<nat, nat>, local: map<nat, nat>)
    ensures forall k | k in Listing(source, local) :: k in source
  {
    forall k | k in Listing(source, local)
      ensures k in source
    {
      assert k in Sorted(source.Keys - local.Keys) || k in Sorted(Stale(source, local));
    }
  }

  /** The repair transaction: jobs, then steps. */
  function RepairedWith(db: Db, jobs: seq<Item>, steps: seq<Item>, now: Time): Option<Db> {
    var withJobs := PageAfter(db, TRIP_JOB, jobs, now);
    if withJobs.None? then None else PageAfter(withJobs.value, TRIP_STEP, steps, now)
  }

  function Repaired(db: Db, jobs: Source, steps: Source, now: Time): Option<Db> {
    ListingsAreListed(db, jobs, steps);
    RepairedWith(db, ItemsAt(jobs, Listing(Versions(jobs), JobVersions(db.jobs))),
                 ItemsAt(steps, Listing(Versions(steps), StepVersions(db.steps))), now)
  }

  method Repair(db: Database, jobs: seq<Item>, steps: seq<Item>, now: Time) returns (flushed: bool)
    modifies db
    ensures var after := RepairedWith(old(db.tables), jobs, steps, now);
            (flushed <==> after.Some?) && db.tables == if flushed then after.value else old(db.tables)
  {
    db.Begin();
    var saved := db.tables;
    flushed := ApplyPage(db, TRIP_JOB, jobs, now);
    if flushed {
      flushed := ApplyPage(db, TRIP_STEP, steps, now);
      if !flushed {
        db.tables := saved;
      }
    }
  }

  /** The comparison and the repair, once both sources have been read. */
  method CompareAndRepair(db: Database, jobs: Source, steps: Source, repair: bool, now: Time)
    returns (error: Option<SyncError>, report: Report)
    modifies db
    ensures report == Compared(old(db.tables), jobs, steps)
    ensures var after := if repair && report.NeedsRepair() then Repaired(old(db.tables), jobs, steps, now)
            else Some(old(db.tables));
            && error == (if after.Some? then None else Some(RepairRefused))
            && db.tables == if after.Some? then after.value else old(db.tables)
  {
    report := Compared(db.tables, jobs, steps);
    if repair && report.NeedsRepair() {
      ListingsAreListed(db.tables, jobs, steps);
      var flushed := Repair(db, ItemsAt(jobs, Sorted(report.missingJobs) + Sorted(report.staleJobs)),
                            ItemsAt(steps, Sorted(report.missingSteps) + Sorted(report.staleSteps)), now);
      if !flushed {
        return Some(RepairRefused), report;
      }
    }
    return None, report;
  }

  /** First all jobs are read, then all steps. */
  method ReadSources(hermes: Hermes) returns (jobs: Source, steps: Source)
    requires hermes.Valid()
    modifies hermes
    ensures hermes.Valid() && Copied(jobs, hermes.jobs) && Copied(steps, hermes.steps)
    ensures hermes.jobs == old(hermes.jobs) ==> jobs == hermes.jobs
    ensures hermes.steps == old(hermes.steps) ==> steps == hermes.steps
  {
    ghost var jobs0, steps0 := hermes.jobs, hermes.steps;
    ghost var lastJob, lastStep;
    var error;
    error, jobs, lastJob := AllSourceSnapshots(hermes, TRIP_JOB);
    ghost var jobs1, steps1 := hermes.jobs, hermes.steps;
    error, steps, lastStep := AllSourceSnapshots(hermes, TRIP_STEP);
    CopyGrows(jobs, jobs1, hermes.jobs);
    StillCopy(jobs0, jobs1, hermes.jobs, jobs, lastJob);
    StillCopy(steps0, steps1, hermes.steps, steps, lastStep);
  }

  lemma StillCopy(first: Source, middle: Source, last: Source, copy: Source, end: nat)
    requires SourceOk(first) && Grows(first, middle) && Grows(middle, last) && Greatest(first.Keys) <= end
    requires Collected(first, middle, copy, end) || Collected(first, last, copy, end)
    ensures last == first ==> copy == last
  {
    if last == first {
      BetweenIsSame(first, middle, last);
      StillSource(first, copy, end);
    }
  }

  /** Rows under the stable mapping correspond one to one to any copy of its source. */
  lemma NamedIsOneToOne(rows: map<Id, JobRow>, copy: Source, source: Source, names: Names)
    requires SourceOk(source) && AllOf(TRIP_JOB, source) && SourceNamed(source, names) && Copied(copy, source)
    requires OneToOneNames(names) && RowsNamed(rows, names)
    ensures OneToOne(rows, copy)
  {
    CopyIsOf(copy, source, TRIP_JOB);
    forall i | i in copy
      ensures copy[i].JobItem? && copy[i].job.jobId == names(i)
    {
      assert OfEntity(TRIP_JOB, copy[i]) && OfEntity(TRIP_JOB, source[i]) && Precedes(copy[i], source[i]);
    }
  }

  /**
    With an upstream that stands still, the comparison is with the source itself. The repair is refused
    if and only if a missing or newer step has its job neither stored nor among the jobs read.
    */
  method ReconcileProjection(db: Database, hermes: Hermes, repair: bool, now: Time)
    returns (error: Option<SyncError>, report: Report, ghost jobs: Source, ghost steps: Source)
    requires hermes.Valid()
    modifies db, hermes
    ensures hermes.Valid() && Copied(jobs, hermes.jobs) && Copied(steps, hermes.steps)
    ensures hermes.jobs == old(hermes.jobs) ==> jobs == hermes.jobs
    ensures hermes.steps == old(hermes.steps) ==> steps == hermes.steps
    ensures RowsNamed(old(db.tables.jobs), hermes.names) ==>
              (error == Some(RepairRefused) <==> repair && exists s :: Unplaced(old(db.tables), jobs, steps, s))
    ensures report == Compared(old(db.tables), jobs, steps)
    ensures var after := if repair && report.NeedsRepair() then Repaired(old(db.tables), jobs, steps, now)
            else Some(old(db.tables));
            && error == (if after.Some? then None else Some(RepairRefused))
            && db.tables == if after.Some? then after.value else old(db.tables)
  {
    var sourceJobs, sourceSteps := ReadSources(hermes);
    jobs, steps := sourceJobs, sourceSteps;
    if RowsNamed(db.tables.jobs, hermes.names) {
      RefusalIsUnplaced(db.tables, jobs, hermes.jobs, steps, hermes.steps, hermes.names, now);
    }
    error, report := CompareAndRepair(db, sourceJobs, sourceSteps, repair, now);
  }

  // ---- What a repair achieves ----------------------------------------------------------------

  /** A stable one-to-one correspondence of source ids and job ids, which the local rows share. */
  ghost predicate OneToOne(jobs: map<Id, JobRow>, source: Source) {
    && (forall i | i in source :: source[i].JobItem?)
    && (forall i, k | i in source && k in source && source[i].job.jobId == source[k].job.jobId :: i == k)
    && (forall j, i | j in jobs && i in source :: jobs[j].sourceId == i <==> source[i].job.jobId == j)
    && (forall j, k | j in jobs && k in jobs && jobs[j].sourceId == jobs[k].sourceId :: j == k)
  }

  /** The job is among those read. */
  ghost predicate JobRead(jobs: Source, j: Id) {
    exists i :: i in jobs && OfEntity(TRIP_JOB, jobs[i]) && jobs[i].job.jobId == j
  }

  /** A missing or newer step whose job is neither stored nor among those read. */
  ghost predicate Unplaced(db: Db, jobs: Source, steps: Source, s: nat) {
    s in steps && Orphan(db, steps[s]) && !JobRead(jobs, steps[s].step.jobId)
  }

  /** A job is listed under its source id exactly when its row is there, with the row's version. */
  lemma LocalJob(jobs: map<Id, JobRow>, source: Source, i: nat)
    requires OneToOne(jobs, source) && i in source
    ensures i in JobVersions(jobs) <==> source[i].job.jobId in jobs
    ensures i in JobVersions(jobs) ==> JobVersions(jobs)[i] == jobs[source[i].job.jobId].version
  {
    var j := source[i].job.jobId;
    if j in jobs {
      assert jobs[j].sourceId == i;
      assert i in SourceIds(jobs);
    }
  }

  /** The version stored after a snapshot of version v is offered. */
  function Newest(local: Option<nat>, v: nat): nat {
    if local.Some? && v <= local.value then local.value else v
  }

  function JobVersion(jobs: map<Id, JobRow>, j: Id): Option<nat> {
    if j in jobs then Some(jobs[j].version) else None
  }

  function StepVersion(steps: map<Id, StepRow>, s: Id): Option<nat> {
    if s in steps then Some(steps[s].version) else None
  }

  lemma OneMoreJob(source: Source, ids: seq<nat>)
    requires ids != [] && (forall i | i in ids :: i in source && source[i].JobItem?)
    ensures JobsIn(ItemsAt(source, ids)) == JobsIn(ItemsAt(source, ids[..|ids| - 1])) + [source[ids[|ids| - 1]].job]
  {
    assert ids[|ids| - 1] in ids;
    var items := ItemsAt(source, ids);
    assert items[..|items| - 1] == ItemsAt(source, ids[..|ids| - 1]);
  }

  ghost predicate JobsTouched(jobs: map<Id, JobRow>, after: map<Id, JobRow>, source: Source, ids: seq<nat>)
    requires forall i | i in ids :: i in source && source[i].JobItem?
  {
    && jobs.Keys <= after.Keys
    && (forall j | j in after && (forall i | i in ids :: source[i].job.jobId != j) :: j in jobs && after[j] == jobs[j])
    && (forall i | i in ids ::
          JobVersion(after, source[i].job.jobId)
            == Some(Newest(JobVersion(jobs, source[i].job.jobId), source[i].job.version)))
  }

  /** Repairing jobs cannot fail, and touches exactly the listed ones. */
  lemma {:induction false} JobRepair(
    trips: map<Id, Trip>, jobs: map<Id, JobRow>, source: Source, ids: seq<nat>, now: Time)
    requires SourceOk(source) && AllOf(TRIP_JOB, source) && OneToOne(jobs, source)
    requires forall i | i in ids :: i in source && source[i].JobItem?
    ensures var after := JobsAfterAll(trips, jobs, JobsIn(ItemsAt(source, ids)), now);
            after.Some? && OneToOne(after.value, source) && JobsTouched(jobs, after.value, source, ids)
  {
    if ids != [] {
      var front, last := ids[..|ids| - 1], ids[|ids| - 1];
      JobRepair(trips, jobs, source, front, now);
      var before := JobsAfterAll(trips, jobs, JobsIn(ItemsAt(source, front)), now).value;
      OneJobRepaired(trips, before, source, last, now);
      OneMoreRepaired(trips, jobs, source, ids, now);
      TouchedOneMore(jobs, before, JobsAfter(trips, before, source[last].job, now).value, source, ids);
    }
  }

  lemma OneMoreRepaired(trips: map<Id, Trip>, jobs: map<Id, JobRow>, source: Source, ids: seq<nat>, now: Time)
    requires ids != [] && forall i | i in ids :: i in source && source[i].JobItem?
    ensures var before := JobsAfterAll(trips, jobs, JobsIn(ItemsAt(source, ids[..|ids| - 1])), now);
            JobsAfterAll(trips, jobs, JobsIn(ItemsAt(source, ids)), now)
              == if before.None? then None else JobsAfter(trips, before.value, source[ids[|ids| - 1]].job, now)
  {
    OneMoreJob(source, ids);
    var list := JobsIn(ItemsAt(source, ids));
    assert list[..|list| - 1] == JobsIn(ItemsAt(source, ids[..|ids| - 1]));
    assert ids[|ids| - 1] in ids;
  }

  lemma OneJobRepaired(trips: map<Id, Trip>, jobs: map<Id, JobRow>, source: Source, i: nat, now: Time)
    requires SourceOk(source) && AllOf(TRIP_JOB, source) && OneToOne(jobs, source) && i in source
    ensures var job := source[i].job;
            var after := JobsAfter(trips, jobs, job, now);
            && after.Some? && OneToOne(after.value, source)
            && after.value.Keys == jobs.Keys + {job.jobId} && after.value == jobs[job.jobId := after.value[job.jobId]]
            && after.value[job.jobId].version == Newest(JobVersion(jobs, job.jobId), job.version)
  {
    assert OfEntity(TRIP_JOB, source[i]) && source[i].job.sourceId == i;
    var job := source[i].job;
    var row := JobRowAfter(trips, Lookup(jobs, job.jobId), job, now);
    assert row.sourceId == i;
    assert !SourceIdTaken(jobs, job);
  }

  lemma TouchedOneMore(
    jobs: map<Id, JobRow>, before: map<Id, JobRow>, after: map<Id, JobRow>, source: Source, ids: seq<nat>)
    requires ids != [] && forall i | i in ids :: i in source && source[i].JobItem?
    requires JobsTouched(jobs, before, source, ids[..|ids| - 1])
    requires var job := source[ids[|ids| - 1]].job;
             && job.jobId in after && after == before[job.jobId := after[job.jobId]]
             && after[job.jobId].version == Newest(JobVersion(before, job.jobId), job.version)
    requires forall i, k | i in source && k in source && source[i].JobItem? && source[k].JobItem?
             && source[i].job.jobId == source[k].job.jobId :: i == k
    ensures JobsTouched(jobs, after, source, ids)
  {
    var front, last := ids[..|ids| - 1], ids[|ids| - 1];
    assert ids == front + [last];
    var job := source[last].job;
    assert last in ids;
    if last !in front && job.jobId in before {
      assert forall i | i in front :: source[i].job.jobId != job.jobId;
      assert before[job.jobId] == jobs[job.jobId];
    }
    forall i | i in ids
      ensures JobVersion(after, source[i].job.jobId)
              == Some(Newest(JobVersion(jobs, source[i].job.jobId), source[i].job.version))
    {
      if i != last {
        assert i in front;
      }
    }
  }

  lemma OneMoreStep(source: Source, ids: seq<nat>)
    requires ids != [] && (forall i | i in ids :: i in source && source[i].StepItem?)
    ensures StepsIn(ItemsAt(source, ids)) == StepsIn(ItemsAt(source, ids[..|ids| - 1])) + [source[ids[|ids| - 1]].step]
  {
    assert ids[|ids| - 1] in ids;
    var items := ItemsAt(source, ids);
    assert items[..|items| - 1] == ItemsAt(source, ids[..|ids| - 1]);
  }

  ghost predicate StepsTouched(stored: map<Id, StepRow>, after: map<Id, StepRow>, source: Source, ids: seq<nat>)
    requires forall i | i in ids :: i in source && source[i].StepItem?
  {
    && (forall s | s in after && s !in ids :: s in stored && after[s] == stored[s])
    && (forall i | i in ids :: StepVersion(after, i) == Some(Newest(StepVersion(stored, i), source[i].step.version)))
  }

  /** A repair of steps that goes through touches exactly the listed ones. */
  lemma {:induction false} StepRepair(jobs: map<Id, JobRow>, stored: map<Id, StepRow>, source: Source, ids: seq<nat>)
    requires SourceOk(source) && forall i | i in ids :: i in source && source[i].StepItem?
    requires forall m, n | 0 <= m < n < |ids| :: ids[m] != ids[n]
    requires StepsAfter(jobs, stored, StepsIn(ItemsAt(source, ids))).Some?
    ensures StepsTouched(stored, StepsAfter(jobs, stored, StepsIn(ItemsAt(source, ids))).value, source, ids)
  {
    if ids != [] {
      var front, last := ids[..|ids| - 1], ids[|ids| - 1];
      OneMoreStep(source, ids);
      var list := StepsIn(ItemsAt(source, ids));
      assert list[..|list| - 1] == StepsIn(ItemsAt(source, front));
      StepRepair(jobs, stored, source, front);
      OneStepRepaired(jobs, stored, StepsAfter(jobs, stored, StepsIn(ItemsAt(source, front))).value, source, ids);
    }
  }

  lemma OneStepRepaired(
    jobs: map<Id, JobRow>, stored: map<Id, StepRow>, before: map<Id, StepRow>, source: Source, ids: seq<nat>)
    requires SourceOk(source) && ids != [] && stored.Keys <= before.Keys
    requires forall i | i in ids :: i in source && source[i].StepItem?
    requires ids[|ids| - 1] !in ids[..|ids| - 1] && StepsTouched(stored, before, source, ids[..|ids| - 1])
    requires StepAfter(jobs, stored, before, source[ids[|ids| - 1]].step).Some?
    ensures StepsTouched(stored, StepAfter(jobs, stored, before, source[ids[|ids| - 1]].step).value, source, ids)
  {
    var front, last := ids[..|ids| - 1], ids[|ids| - 1];
    assert ids == front + [last];
    assert last in ids && source[last].step.stepId == last;
    assert last in before ==> last in stored && before[last] == stored[last];
  }

  /** Rows that are ahead of the source, which no snapshot of the source can change. */
  function Ahead(source: map<nat, nat>, local: map<nat, nat>): set<nat> {
    set i | i in source && i in local && source[i] < local[i]
  }

  lemma Listed(source: Source, missing: set<nat>, stale: set<nat>)
    requires missing <= source.Keys && stale <= source.Keys && missing !! stale
    ensures var ids := Sorted(missing) + Sorted(stale);
            && (forall i :: i in ids <==> i in missing || i in stale)
            && (forall i | i in ids :: i in source)
            && forall m, n | 0 <= m < n < |ids| :: ids[m] != ids[n]
  {
    var a, b := Sorted(missing), Sorted(stale);
    forall m, n | 0 <= m < n < |a + b|
      ensures (a + b)[m] != (a + b)[n]
    {
      assert m < |a| ==> a[m] in missing;
      assert n >= |a| ==> b[n - |a|] in stale;
    }
  }

  function Local(versions: map<nat, nat>, i: nat): Option<nat> {
    if i in versions then Some(versions[i]) else None
  }

  /** The ids that a repair of `local` against `source` lists. */
  ghost predicate Lists(source: map<nat, nat>, local: map<nat, nat>, ids: seq<nat>) {
    forall i :: i in ids <==> i in source && Local(local, i) != Some(source[i])
  }

  lemma RepairListLists(source: map<nat, nat>, local: map<nat, nat>)
    ensures Lists(source, local, Sorted(source.Keys - local.Keys) + Sorted(Stale(source, local)))
  {
  }

  ghost predicate CaughtUp(source: map<nat, nat>, local: map<nat, nat>, after: map<nat, nat>) {
    forall i :: Local(after, i) == if i in source then Some(Newest(Local(local, i), source[i])) else Local(local, i)
  }

  /** A second comparison finds every source row, and stale exactly those ahead of the source. */
  lemma SecondComparison(source: map<nat, nat>, local: map<nat, nat>, after: map<nat, nat>)
    requires CaughtUp(source, local, after)
    ensures source.Keys - after.Keys == {}
    ensures after.Keys - source.Keys == local.Keys - source.Keys
    ensures Stale(source, after) == Ahead(source, local)
  {
    forall i
      ensures i in after.Keys - source.Keys <==> i in local.Keys - source.Keys
      ensures i in Stale(source, after) <==> i in Ahead(source, local)
      ensures i in source ==> i in after
    {
      assert Local(after, i) == if i in source then Some(Newest(Local(local, i), source[i])) else Local(local, i);
    }
  }

  lemma JobVersionsAfter(jobs: map<Id, JobRow>, after: map<Id, JobRow>, source: Source, ids: seq<nat>, i: nat)
    requires SourceOk(source) && OneToOne(jobs, source) && OneToOne(after, source)
    requires (forall k | k in ids :: k in source) && Lists(Versions(source), JobVersions(jobs), ids)
             && JobsTouched(jobs, after, source, ids)
    ensures Local(JobVersions(after), i)
         == if i in source then Some(Newest(Local(JobVersions(jobs), i), source[i].Version()))
           else Local(JobVersions(jobs), i)
  {
    if i in source {
      LocalJob(jobs, source, i);
      LocalJob(after, source, i);
      assert Local(JobVersions(jobs), i) == JobVersion(jobs, source[i].job.jobId);
      assert i in ids || source[i].job.jobId in jobs;
      assert i !in ids ==> forall k | k in ids :: source[k].job.jobId != source[i].job.jobId;
    } else {
      ExtraJob(jobs, after, source, ids, i);
    }
  }

  /** Rows of jobs that the source does not have stay as they are. */
  lemma ExtraJob(jobs: map<Id, JobRow>, after: map<Id, JobRow>, source: Source, ids: seq<nat>, i: nat)
    requires OneToOne(jobs, source) && OneToOne(after, source) && i !in source
    requires (forall k | k in ids :: k in source) && JobsTouched(jobs, after, source, ids)
    ensures Local(JobVersions(after), i) == Local(JobVersions(jobs), i)
  {
    var j, j' := JobAt(jobs, i), JobAt(after, i);
    if j.Some? {
      assert after[j.value] == jobs[j.value];
      assert j' == j;
    }
    if j'.Some? {
      assert after[j'.value] == jobs[j'.value];
      assert j == j';
    }
    assert i in JobVersions(jobs) <==> j.Some?;
    assert i in JobVersions(after) <==> j'.Some?;
  }

  lemma StepVersionsAfter(stored: map<Id, StepRow>, after: map<Id, StepRow>, source: Source, ids: seq<nat>, i: nat)
    requires SourceOk(source) && (forall k | k in source :: source[k].StepItem?) && stored.Keys <= after.Keys
    requires (forall k | k in ids :: k in source) && Lists(Versions(source), StepVersions(stored), ids)
             && StepsTouched(stored, after, source, ids)
    ensures Local(StepVersions(after), i)
         == if i in source then Some(Newest(Local(StepVersions(stored), i), source[i].Version()))
           else Local(StepVersions(stored), i)
  {
  }

  /** What is assumed of the two sources and the local rows. */
  ghost predicate Comparable(db: Db, jobs: Source, steps: Source) {
    && SourceOk(jobs) && SourceOk(steps) && AllOf(TRIP_JOB, jobs) && AllOf(TRIP_STEP, steps)
    && OneToOne(db.jobs, jobs)
  }

  lemma JobPhase(trips: map<Id, Trip>, rows: map<Id, JobRow>, source: Source, now: Time)
    requires SourceOk(source) && AllOf(TRIP_JOB, source) && OneToOne(rows, source)
    ensures var ids := Listing(Versions(source), JobVersions(rows));
            && (forall k | k in ids :: k in source && source[k].JobItem?)
            && var after := JobsAfterAll(trips, rows, JobsIn(ItemsAt(source, ids)), now);
            && after.Some? && OneToOne(after.value, source) && JobsTouched(rows, after.value, source, ids)
            && CaughtUp(Versions(source), JobVersions(rows), JobVersions(after.value))
  {
    var j, j' := Versions(source), JobVersions(rows);
    var ids := Listing(j, j');
    Listed(source, j.Keys - j'.Keys, Stale(j, j'));
    RepairListLists(j, j');
    JobRepair(trips, rows, source, ids, now);
    JobsCatchUp(rows, JobsAfterAll(trips, rows, JobsIn(ItemsAt(source, ids)), now).value, source, ids);
  }

  lemma JobsCatchUp(rows: map<Id, JobRow>, after: map<Id, JobRow>, source: Source, ids: seq<nat>)
    requires SourceOk(source) && OneToOne(rows, source) && OneToOne(after, source)
    requires (forall k | k in ids :: k in source) && Lists(Versions(source), JobVersions(rows), ids)
             && JobsTouched(rows, after, source, ids)
    ensures CaughtUp(Versions(source), JobVersions(rows), JobVersions(after))
  {
    forall i
      ensures Local(JobVersions(after), i)
           == if i in Versions(source) then Some(Newest(Local(JobVersions(rows), i), Versions(source)[i]))
             else Local(JobVersions(rows), i)
    {
      JobVersionsAfter(rows, after, source, ids, i);
    }
  }

  lemma StepPhase(jobs: map<Id, JobRow>, rows: map<Id, StepRow>, source: Source)
    requires SourceOk(source) && forall s | s in source :: source[s].StepItem?
    ensures var ids := Listing(Versions(source), StepVersions(rows));
            && (forall k | k in ids :: k in source && source[k].StepItem?)
            && var after := StepsAfter(jobs, rows, StepsIn(ItemsAt(source, ids)));
            && (after.Some? <==> forall s | s in source :: Placed(jobs, rows, source[s].step))
            && (after.Some? ==>
                  && StepsTouched(rows, after.value, source, ids)
                  && CaughtUp(Versions(source), StepVersions(rows), StepVersions(after.value)))
  {
    var s, s' := Versions(source), StepVersions(rows);
    var ids := Listing(s, s');
    Listed(source, s.Keys - s'.Keys, Stale(s, s'));
    RepairListLists(s, s');
    ListedStepsPlaced(jobs, rows, source, ids);
    if StepsAfter(jobs, rows, StepsIn(ItemsAt(source, ids))).Some? {
      StepRepair(jobs, rows, source, ids);
      StepsCatchUp(rows, StepsAfter(jobs, rows, StepsIn(ItemsAt(source, ids))).value, source, ids);
    }
  }

  /** The listed steps go through exactly when every step of the source is placed: those not listed are stored. */
  lemma ListedStepsPlaced(jobs: map<Id, JobRow>, rows: map<Id, StepRow>, source: Source, ids: seq<nat>)
    requires SourceOk(source) && (forall s | s in source :: source[s].StepItem?) && (forall i | i in ids :: i in source)
    requires Lists(Versions(source), StepVersions(rows), ids) && forall m, n | 0 <= m < n < |ids| :: ids[m] != ids[n]
    ensures StepsAfter(jobs, rows, StepsIn(ItemsAt(source, ids))).Some?
            <==> forall s | s in source :: Placed(jobs, rows, source[s].step)
  {
    var list := StepsIn(ItemsAt(source, ids));
    ListedSteps(source, ids);
    StepsNeedTheirJobs(jobs, rows, list);
    PlacedInList(jobs, rows, source, ids, list);
    forall s | s in source && s !in ids
      ensures Placed(jobs, rows, source[s].step)
    {
      UnlistedIsPlaced(jobs, rows, source, ids, s);
    }
  }

  lemma PlacedInList(
    jobs: map<Id, JobRow>, rows: map<Id, StepRow>, source: Source, ids: seq<nat>, list: seq<StepSnapshot>)
    requires (forall i | i in ids :: i in source && source[i].StepItem?) && |list| == |ids|
    requires forall k | 0 <= k < |ids| :: list[k] == source[ids[k]].step
    ensures (forall s | s in list :: Placed(jobs, rows, s))
            <==> forall i | i in ids :: Placed(jobs, rows, source[i].step)
  {
    forall i | i in ids
      ensures source[i].step in list
    {
      var k :| 0 <= k < |ids| && ids[k] == i;
      assert list[k] == source[i].step;
    }
  }

  lemma UnlistedIsPlaced(jobs: map<Id, JobRow>, rows: map<Id, StepRow>, source: Source, ids: seq<nat>, s: nat)
    requires SourceOk(source) && s in source && source[s].StepItem? && s !in ids
    requires Lists(Versions(source), StepVersions(rows), ids)
    ensures Placed(jobs, rows, source[s].step)
  {
    assert Local(StepVersions(rows), s) == Some(source[s].Version());
  }

  lemma ListedSteps(source: Source, ids: seq<nat>)
    requires SourceOk(source) && forall i | i in ids :: i in source && source[i].StepItem?
    requires forall m, n | 0 <= m < n < |ids| :: ids[m] != ids[n]
    ensures var list := StepsIn(ItemsAt(source, ids));
            |list| == |ids| && (forall k | 0 <= k < |ids| :: list[k] == source[ids[k]].step) && DistinctSteps(list)
  {
    StepsOfPage(ItemsAt(source, ids));
    var list := StepsIn(ItemsAt(source, ids));
    forall k | 0 <= k < |ids|
      ensures list[k] == source[ids[k]].step && list[k].stepId == ids[k]
    {
      assert ids[k] in ids;
    }
  }

  lemma StepsCatchUp(rows: map<Id, StepRow>, after: map<Id, StepRow>, source: Source, ids: seq<nat>)
    requires SourceOk(source) && (forall k | k in source :: source[k].StepItem?) && rows.Keys <= after.Keys
    requires (forall k | k in ids :: k in source) && Lists(Versions(source), StepVersions(rows), ids)
             && StepsTouched(rows, after, source, ids)
    ensures CaughtUp(Versions(source), StepVersions(rows), StepVersions(after))
  {
    forall i
      ensures Local(StepVersions(after), i)
           == if i in Versions(source) then Some(Newest(Local(StepVersions(rows), i), Versions(source)[i]))
             else Local(StepVersions(rows), i)
    {
      StepVersionsAfter(rows, after, source, ids, i);
    }
  }

  /** After the job phase exactly the stored jobs and those read have their rows. */
  lemma JobsComeFirst(rows: map<Id, JobRow>, jobs: Source, ids: seq<nat>, after: map<Id, JobRow>, j: Id)
    requires AllOf(TRIP_JOB, jobs) && OneToOne(after, jobs) && forall i | i in ids :: i in jobs && jobs[i].JobItem?
    requires JobsTouched(rows, after, jobs, ids) && CaughtUp(Versions(jobs), JobVersions(rows), JobVersions(after))
    ensures j in after <==> j in rows || JobRead(jobs, j)
  {
    if j in after && j !in rows {
      var i :| i in ids && jobs[i].job.jobId == j;
      assert OfEntity(TRIP_JOB, jobs[i]);
    }
    if JobRead(jobs, j) {
      var i :| i in jobs && OfEntity(TRIP_JOB, jobs[i]) && jobs[i].job.jobId == j;
      LocalJob(after, jobs, i);
      assert Local(JobVersions(after), i).Some?;
    }
  }

  /** Before the job phase as after it, the same steps lack their jobs. */
  lemma UnplacedAfterJobs(db: Db, jobs: Source, steps: Source, rows: map<Id, JobRow>)
    requires AllOf(TRIP_STEP, steps) && forall j :: j in rows <==> j in db.jobs || JobRead(jobs, j)
    ensures (forall s | s in steps :: steps[s].StepItem?)
    ensures (forall s | s in steps :: Placed(rows, db.steps, steps[s].step))
            <==> !exists s :: Unplaced(db, jobs, steps, s)
  {
    forall s | s in steps
      ensures steps[s].StepItem? && (Placed(rows, db.steps, steps[s].step) <==> !Unplaced(db, jobs, steps, s))
    {
      assert OfEntity(TRIP_STEP, steps[s]);
    }
  }

  /** The job rows after the job phase, and when the step phase fails. */
  lemma PhasesDecide(db: Db, jobs: Source, steps: Source, now: Time)
    requires Comparable(db, jobs, steps)
    ensures var ids := Listing(Versions(jobs), JobVersions(db.jobs));
            && (forall k | k in ids :: k in jobs && jobs[k].JobItem?) && (forall s | s in steps :: steps[s].StepItem?)
            && var rows := JobsAfterAll(db.trips, db.jobs, JobsIn(ItemsAt(jobs, ids)), now);
            && rows.Some?
            && ((forall s | s in steps :: Placed(rows.value, db.steps, steps[s].step))
                <==> !exists s :: Unplaced(db, jobs, steps, s))
  {
    JobPhase(db.trips, db.jobs, jobs, now);
    var ids := Listing(Versions(jobs), JobVersions(db.jobs));
    var rows := JobsAfterAll(db.trips, db.jobs, JobsIn(ItemsAt(jobs, ids)), now).value;
    forall j
      ensures j in rows <==> j in db.jobs || JobRead(jobs, j)
    {
      JobsComeFirst(db.jobs, jobs, ids, rows, j);
    }
    UnplacedAfterJobs(db, jobs, steps, rows);
  }

  /**
    A repair is refused if and only if a missing or newer step has its job neither stored nor among the
    jobs read. Jobs are read first, so that happens when a job and its step arise between the two readings.
    */
  lemma RepairRefusedExactly(db: Db, jobs: Source, steps: Source, now: Time)
    requires Comparable(db, jobs, steps)
    ensures Repaired(db, jobs, steps, now).None? <==> exists s :: Unplaced(db, jobs, steps, s)
  {
    PhasesDecide(db, jobs, steps, now);
    var rows := JobsAfterAll(db.trips, db.jobs, JobsIn(ItemsAt(jobs, Listing(Versions(jobs), JobVersions(db.jobs)))),
        now).value;
    StepPhase(rows, db.steps, steps);
    RepairIsTwoPhases(db, jobs, steps, now);
  }

  lemma RepairedTables(db: Db, jobs: Source, steps: Source, now: Time) returns (after: Db)
    requires Comparable(db, jobs, steps) && Repaired(db, jobs, steps, now).Some?
    ensures Repaired(db, jobs, steps, now) == Some(after)
    ensures CaughtUp(Versions(jobs), JobVersions(db.jobs), JobVersions(after.jobs))
    ensures CaughtUp(Versions(steps), StepVersions(db.steps), StepVersions(after.steps))
    ensures forall k | k in Listing(Versions(jobs), JobVersions(db.jobs)) :: k in jobs && jobs[k].JobItem?
    ensures JobsTouched(db.jobs, after.jobs, jobs, Listing(Versions(jobs), JobVersions(db.jobs)))
    ensures forall k | k in Listing(Versions(steps), StepVersions(db.steps)) :: k in steps && steps[k].StepItem?
    ensures StepsTouched(db.steps, after.steps, steps, Listing(Versions(steps), StepVersions(db.steps)))
    ensures db.steps.Keys <= after.steps.Keys
  {
    JobPhase(db.trips, db.jobs, jobs, now);
    var rows := JobsAfterAll(db.trips, db.jobs, JobsIn(ItemsAt(jobs, Listing(Versions(jobs), JobVersions(db.jobs)))),
        now).value;
    PhasesDecide(db, jobs, steps, now);
    StepPhase(rows, db.steps, steps);
    RepairIsTwoPhases(db, jobs, steps, now);
    after := db.(jobs := rows,
                 steps := StepsAfter(rows, db.steps,
                     StepsIn(ItemsAt(steps, Listing(Versions(steps), StepVersions(db.steps))))).value);
  }

  lemma RepairIsTwoPhases(db: Db, jobs: Source, steps: Source, now: Time)
    ensures var jobIds, stepIds :=
              Listing(Versions(jobs), JobVersions(db.jobs)), Listing(Versions(steps), StepVersions(db.steps));
            && (forall k | k in jobIds :: k in jobs) && (forall k | k in stepIds :: k in steps)
            && var rows := JobsAfterAll(db.trips, db.jobs, JobsIn(ItemsAt(jobs, jobIds)), now);
               if rows.None? then Repaired(db, jobs, steps, now) == None
               else
                 var rows' := StepsAfter(rows.value, db.steps, StepsIn(ItemsAt(steps, stepIds)));
                 Repaired(db, jobs, steps, now) == if rows'.None? then None
                   else Some(db.(jobs := rows.value, steps := rows'.value))
  {
    ListingsAreListed(db, jobs, steps);
    RepairedTwice(db, ItemsAt(jobs, Listing(Versions(jobs), JobVersions(db.jobs))),
                  ItemsAt(steps, Listing(Versions(steps), StepVersions(db.steps))), now);
  }

  lemma RepairedTwice(db: Db, jobs: seq<Item>, steps: seq<Item>, now: Time)
    ensures var rows := JobsAfterAll(db.trips, db.jobs, JobsIn(jobs), now);
            if rows.None? then RepairedWith(db, jobs, steps, now) == None
            else
              var rows' := StepsAfter(rows.value, db.steps, StepsIn(steps));
              RepairedWith(db, jobs, steps, now) == if rows'.None? then None
                else Some(db.(jobs := rows.value, steps := rows'.value))
  {
  }

  ghost predicate Untouched(db: Db, after: Db, report: Report) {
    && (forall j | j in db.jobs && db.jobs[j].sourceId !in report.missingJobs + report.staleJobs ::
          j in after.jobs && after.jobs[j] == db.jobs[j])
    && (forall s | s in db.steps && s !in report.missingSteps + report.staleSteps ::
          s in after.steps && after.steps[s] == db.steps[s])
  }

  lemma RepairTouchesOnlyListed(db: Db, jobs: Source, steps: Source, now: Time)
    requires Comparable(db, jobs, steps) && Repaired(db, jobs, steps, now).Some?
    ensures Untouched(db, Repaired(db, jobs, steps, now).value, Compared(db, jobs, steps))
  {
    var after := RepairedTables(db, jobs, steps, now);
    var report := Compared(db, jobs, steps);
    forall j | j in db.jobs && db.jobs[j].sourceId !in report.missingJobs + report.staleJobs
      ensures j in after.jobs && after.jobs[j] == db.jobs[j]
    {
      forall i | i in Listing(Versions(jobs), JobVersions(db.jobs))
        ensures jobs[i].job.jobId != j
      {
      }
    }
  }

  /**
    After a repair, a comparison with the same copies of the sources misses nothing, has the same extra
    rows, and is stale in exactly the rows that are ahead of their copy.
    */
  lemma RepairConverges(db: Db, jobs: Source, steps: Source, now: Time)
    requires Comparable(db, jobs, steps) && Repaired(db, jobs, steps, now).Some?
    ensures var before, again := Compared(db, jobs, steps), Compared(Repaired(db, jobs, steps, now).value, jobs, steps);
            && again.missingJobs == {} && again.missingSteps == {}
            && again.extraJobs == before.extraJobs && again.extraSteps == before.extraSteps
            && again.staleJobs == Ahead(Versions(jobs), JobVersions(db.jobs))
            && again.staleSteps == Ahead(Versions(steps), StepVersions(db.steps))
  {
    var after := RepairedTables(db, jobs, steps, now);
    SecondComparison(Versions(jobs), JobVersions(db.jobs), JobVersions(after.jobs));
    SecondComparison(Versions(steps), StepVersions(db.steps), StepVersions(after.steps));
  }

  lemma RefusalIsUnplaced(
    db: Db, jobs: Source, sourceJobs: Source, steps: Source, sourceSteps: Source, names: Names, now: Time)
    requires SourceOk(sourceJobs) && AllOf(TRIP_JOB, sourceJobs) && SourceNamed(sourceJobs, names)
             && Copied(jobs, sourceJobs)
    requires SourceOk(sourceSteps) && AllOf(TRIP_STEP, sourceSteps) && Copied(steps, sourceSteps)
    requires OneToOneNames(names) && RowsNamed(db.jobs, names)
    ensures Compared(db, jobs, steps).NeedsRepair() && Repaired(db, jobs, steps, now).None?
       <==> exists s :: Unplaced(db, jobs, steps, s)
  {
    CopyIsOf(jobs, sourceJobs, TRIP_JOB);
    CopyIsOf(steps, sourceSteps, TRIP_STEP);
    NamedIsOneToOne(db.jobs, jobs, sourceJobs, names);
    RepairRefusedExactly(db, jobs, steps, now);
    if s :| Unplaced(db, jobs, steps, s) {
      UnplacedNeedsRepair(db, jobs, steps, s);
    }
  }

  lemma UnplacedNeedsRepair(db: Db, jobs: Source, steps: Source, s: nat)
    requires SourceOk(steps) && Unplaced(db, jobs, steps, s)
    ensures Compared(db, jobs, steps).NeedsRepair()
  {
    var source, local := Versions(steps), StepVersions(db.steps);
    assert s in source.Keys - local.Keys || s in Stale(source, local);
  }

  // ---- Rows ahead of their copy --------------------------------------------------------------

  lemma {:induction false} FromJobViews(list: seq<JobSnapshot>, v: Versioned<(nat, Columns)>)
    requires v in JobViews(list)
    ensures exists job :: job in list && JobView(job) == v
  {
    var front, last := list[..|list| - 1], list[|list| - 1];
    if v == JobView(last) {
      assert last in list;
    } else {
      FromJobViews(front, v);
      var job :| job in front && JobView(job) == v;
      assert job in list;
    }
  }

  lemma {:induction false} FromStepViews(list: seq<StepSnapshot>, v: Versioned<(Id, Columns)>)
    requires v in StepViews(list)
    ensures exists s :: s in list && StepView(s) == v
  {
    var front, last := list[..|list| - 1], list[|list| - 1];
    if v == StepView(last) {
      assert last in list;
    } else {
      FromStepViews(front, v);
      var s :| s in front && StepView(s) == v;
      assert s in list;
    }
  }

  lemma ListedJobs(source: Source, ids: seq<nat>)
    requires SourceOk(source) && forall i | i in ids :: i in source && source[i].JobItem?
    ensures forall job | job in JobsIn(ItemsAt(source, ids)) ::
              job.sourceId in ids && source[job.sourceId] == JobItem(job)
  {
    var items := ItemsAt(source, ids);
    assert forall k | 0 <= k < |ids| :: ids[k] in ids;
    JobsOfPage(items);
    forall job | job in JobsIn(items)
      ensures job.sourceId in ids && source[job.sourceId] == JobItem(job)
    {
      var k :| 0 <= k < |items| && JobsIn(items)[k] == job;
      assert items[k] == source[ids[k]];
    }
  }

  lemma {:induction false} JobsOfPage(items: seq<Item>)
    requires forall item | item in items :: item.JobItem?
    ensures |JobsIn(items)| == |items| && forall k | 0 <= k < |items| :: items[k] == JobItem(JobsIn(items)[k])
  {
    if items != [] {
      JobsOfPage(items[..|items| - 1]);
    }
  }

  /** The newest offer wins: a row stays if every offer for its key is older. */
  lemma OlderOffersLose<T>(rows: Rows<T>, vs: seq<Versioned<T>>, k: Id)
    requires k in rows && forall v | v in vs && v.key == k :: v.version < rows[k].version
    ensures k in PutAll(rows, vs) && PutAll(rows, vs)[k] == rows[k]
  {
    PutAllKeepsNewest(rows, vs);
    assert Offered(rows, vs, rows[k]);
    assert Offered(rows, vs, PutAll(rows, vs)[k]);
  }

  function JobOffers(db: Db, jobs: Source): seq<Versioned<(nat, Columns)>> {
    ListingsAreListed(db, jobs, map[]);
    JobViews(JobsIn(ItemsAt(jobs, Listing(Versions(jobs), JobVersions(db.jobs)))))
  }

  function StepOffers(db: Db, steps: Source): seq<Versioned<(Id, Columns)>> {
    ListingsAreListed(db, map[], steps);
    StepViews(StepsIn(ItemsAt(steps, Listing(Versions(steps), StepVersions(db.steps)))))
  }

  lemma RepairMerges(db: Db, jobs: Source, steps: Source, now: Time)
    requires Repaired(db, jobs, steps, now).Some?
    ensures var after := Repaired(db, jobs, steps, now).value;
            && JobSourcesOf(after.jobs) == PutAll(JobSourcesOf(db.jobs), JobOffers(db, jobs))
            && StepSourcesOf(after.steps) == PutAll(StepSourcesOf(db.steps), StepOffers(db, steps))
  {
    RepairIsTwoPhases(db, jobs, steps, now);
    var jobIds := Listing(Versions(jobs), JobVersions(db.jobs));
    var stepIds := Listing(Versions(steps), StepVersions(db.steps));
    var rows := JobsAfterAll(db.trips, db.jobs, JobsIn(ItemsAt(jobs, jobIds)), now).value;
    JobSnapshotsMerge(db.trips, db.jobs, JobsIn(ItemsAt(jobs, jobIds)), now);
    StepSnapshotsMerge(rows, db.steps, StepsIn(ItemsAt(steps, stepIds)));
  }

  /** A row that is ahead of its copy is counted as stale, but no repair changes what it holds. */
  lemma AheadRowsStay(db: Db, jobs: Source, steps: Source, now: Time)
    requires Comparable(db, jobs, steps) && Repaired(db, jobs, steps, now).Some?
    ensures var before, after := JobSourcesOf(db.jobs), JobSourcesOf(Repaired(db, jobs, steps, now).value.jobs);
            forall j | j in db.jobs && db.jobs[j].sourceId in Ahead(Versions(jobs), JobVersions(db.jobs)) ::
              j in after && after[j] == before[j]
    ensures var before, after := StepSourcesOf(db.steps), StepSourcesOf(Repaired(db, jobs, steps, now).value.steps);
            forall s | s in Ahead(Versions(steps), StepVersions(db.steps)) :: s in after && after[s] == before[s]
  {
    RepairMerges(db, jobs, steps, now);
    forall j | j in db.jobs && db.jobs[j].sourceId in Ahead(Versions(jobs), JobVersions(db.jobs))
      ensures j in PutAll(JobSourcesOf(db.jobs), JobOffers(db, jobs))
      ensures PutAll(JobSourcesOf(db.jobs), JobOffers(db, jobs))[j] == JobSourcesOf(db.jobs)[j]
    {
      JobOffersAreOlder(db, jobs, j);
      OlderOffersLose(JobSourcesOf(db.jobs), JobOffers(db, jobs), j);
    }
    forall s | s in Ahead(Versions(steps), StepVersions(db.steps))
      ensures s in PutAll(StepSourcesOf(db.steps), StepOffers(db, steps))
      ensures PutAll(StepSourcesOf(db.steps), StepOffers(db, steps))[s] == StepSourcesOf(db.steps)[s]
    {
      StepOffersAreOlder(db, steps, s);
      OlderOffersLose(StepSourcesOf(db.steps), StepOffers(db, steps), s);
    }
  }

  lemma JobOffersAreOlder(db: Db, jobs: Source, j: Id)
    requires SourceOk(jobs) && AllOf(TRIP_JOB, jobs) && OneToOne(db.jobs, jobs)
    requires j in db.jobs && db.jobs[j].sourceId in Ahead(Versions(jobs), JobVersions(db.jobs))
    ensures forall v | v in JobOffers(db, jobs) && v.key == j :: v.version < db.jobs[j].version
  {
    ListingsAreListed(db, jobs, map[]);
    var ids := Listing(Versions(jobs), JobVersions(db.jobs));
    ListedJobs(jobs, ids);
    LocalJob(db.jobs, jobs, db.jobs[j].sourceId);
    forall v | v in JobOffers(db, jobs) && v.key == j
      ensures v.version < db.jobs[j].version
    {
      FromJobViews(JobsIn(ItemsAt(jobs, ids)), v);
      var job :| job in JobsIn(ItemsAt(jobs, ids)) && JobView(job) == v;
      assert jobs[job.sourceId] == JobItem(job) && db.jobs[j].sourceId == job.sourceId;
    }
  }

  lemma StepOffersAreOlder(db: Db, steps: Source, s: nat)
    requires SourceOk(steps) && AllOf(TRIP_STEP, steps) && s in Ahead(Versions(steps), StepVersions(db.steps))
    ensures forall v | v in StepOffers(db, steps) && v.key == s :: v.version < db.steps[s].version
  {
    forall i | i in steps
      ensures steps[i].StepItem?
    {
      assert OfEntity(TRIP_STEP, steps[i]);
    }
    ListingsAreListed(db, map[], steps);
    var ids := Listing(Versions(steps), StepVersions(db.steps));
    SomeListedSteps(steps, ids);
    forall v | v in StepOffers(db, steps) && v.key == s
      ensures v.version < db.steps[s].version
    {
      FromStepViews(StepsIn(ItemsAt(steps, ids)), v);
      var step :| step in StepsIn(ItemsAt(steps, ids)) && StepView(step) == v;
      assert steps[step.stepId] == StepItem(step);
    }
  }

  lemma SomeListedSteps(source: Source, ids: seq<nat>)
    requires SourceOk(source) && forall i | i in ids :: i in source && source[i].StepItem?
    ensures forall s | s in StepsIn(ItemsAt(source, ids)) :: s.stepId in ids && source[s.stepId] == StepItem(s)
  {
    var items := ItemsAt(source, ids);
    assert forall k | 0 <= k < |ids| :: ids[k] in ids;
    StepsOfPage(items);
    forall s | s in StepsIn(items)
      ensures s.stepId in ids && source[s.stepId] == StepItem(s)
    {
      var k :| 0 <= k < |items| && StepsIn(items)[k] == s;
      assert items[k] == source[ids[k]];
    }
  }

  // ---- Impossible rows -----------------------------------------------------------------------

  lemma {:induction false} SnapshotsKeepAssociations(
    trips: map<Id, Trip>, jobs: map<Id, JobRow>, list: seq<JobSnapshot>, now: Time)
    requires AssociationsOk(trips, jobs) && JobsAfterAll(trips, jobs, list, now).Some?
    ensures AssociationsOk(trips, JobsAfterAll(trips, jobs, list, now).value)
  {
    if list != [] {
      SnapshotsKeepAssociations(trips, jobs, list[..|list| - 1], now);
      SnapshotKeepsAssociations(trips, JobsAfterAll(trips, jobs, list[..|list| - 1], now).value, list[|list| - 1], now);
    }
  }

  /** No reachable state has an impossible row, and a repair creates none. */
  lemma NoneImpossible(db: Db, jobs: Source, steps: Source, now: Time)
    requires AssociationsOk(db.trips, db.jobs)
    ensures Compared(db, jobs, steps).impossible == {}
    ensures Repaired(db, jobs, steps, now).Some? ==>
              Compared(Repaired(db, jobs, steps, now).value, jobs, steps).impossible == {}
  {
    NoImpossibleRows(db.trips, db.jobs);
    if Repaired(db, jobs, steps, now).Some? {
      var after := Repaired(db, jobs, steps, now).value;
      RepairIsTwoPhases(db, jobs, steps, now);
      SnapshotsKeepAssociations(db.trips, db.jobs,
          JobsIn(ItemsAt(jobs, Listing(Versions(jobs), JobVersions(db.jobs)))), now);
      NoImpossibleRows(db.trips, after.jobs);
    }
  }

  /**
    A second pass over the same copies is PASSED if and only if nothing was extra and nothing was ahead of
    its copy.
    */
  lemma SecondPassPasses(db: Db, jobs: Source, steps: Source, now: Time)
    requires Comparable(db, jobs, steps) && AssociationsOk(db.trips, db.jobs) && Repaired(db, jobs, steps, now).Some?
    ensures Compared(Repaired(db, jobs, steps, now).value, jobs, steps).Passed()
       <==> && Compared(db, jobs, steps).extraJobs == {} && Compared(db, jobs, steps).extraSteps == {}
            && Ahead(Versions(jobs), JobVersions(db.jobs)) == {} && Ahead(Versions(steps), StepVersions(db.steps)) == {}
  {
    RepairConverges(db, jobs, steps, now);
    NoneImpossible(db, jobs, steps, now);
  }

  lemma NoImpossibleRows(trips: map<Id, Trip>, jobs: map<Id, JobRow>)
    requires AssociationsOk(trips, jobs)
    ensures Impossible(jobs) == {}
  {
    forall j | j in jobs
      ensures j !in Impossible(jobs)
    {
      NothingImpossible(trips, j, jobs[j]);
    }
  }
}
