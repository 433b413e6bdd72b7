/** Resumable backfill and reconciliation of the projection (src/admin/projection_sync.py). */
module ProjectionSync {
  import opened Schema
  import opened Finite
  import opened Merge
  import opened Projection

  // ---- The upstream snapshot endpoints -------------------------------------------------------

  datatype Item = JobItem(job: JobSnapshot) | StepItem(step: StepSnapshot) {
    function SourceId(): nat { if JobItem? then job.sourceId else step.stepId }
    function Version(): nat { if JobItem? then job.version else step.version }
  }

  datatype Page = Page(items: seq<Item>, snapshotMax: nat, hasMore: bool, nextAfter: Option<nat>)

  /** The rows of one upstream table, by source id. */
  type Source = map<nat, Item>

  ghost predicate SourceOk(source: Source) {
    0 !in source && forall i | i in source :: source[i].SourceId() == i
  }

  /** The row `b`, or an earlier version of it: a version has one payload, and a job keeps its ids. */
  predicate Precedes(a: Item, b: Item) {
    && a.JobItem? == b.JobItem? && a.SourceId() == b.SourceId() && (a.JobItem? ==> a.job.jobId == b.job.jobId)
    && a.Version() <= b.Version() && (a.Version() == b.Version() ==> a == b)
  }

  /** The source holds the item or a later version of it. */
  predicate Held(source: Source, item: Item) {
    item.SourceId() in source && Precedes(item, source[item.SourceId()])
  }

  /** Rows are added with higher ids and never removed; each moves on to later versions of itself. */
  ghost predicate Grows(before: Source, after: Source) {
    && before.Keys <= after.Keys
    && (forall i, j | i in before && j in after && j !in before :: i < j)
    && forall i | i in before :: Precedes(before[i], after[i])
  }

  function Greatest(s: set<nat>): (m: nat)
    ensures forall k | k in s :: k <= m
    ensures s != {} ==> m in s
    ensures s == {} ==> m == 0
  {
    if s == {} then 0
    else
      var k := Least(s);
      var m := Greatest(s - {k});
      assert forall j | j in s :: j == k || j in s - {k};
      if m < k then k else m
  }

  function Window(ids: set<nat>, after: nat, last: nat): set<nat> {
    set i | i in ids && after < i <= last
  }

  function Shown(ids: seq<nat>, limit: nat): seq<nat> {
    if |ids| > limit then ids[..limit] else ids
  }

  /** The page contract: the first `limit` rows after the cursor, below a maximum fixed by the first page. */
  function Serve(source: Source, after: nat, frozen: Option<nat>, limit: nat): Page
    requires limit >= 1
  {
    var last := if frozen.Some? then frozen.value else Greatest(source.Keys);
    SortedElements(Window(source.Keys, after, last));
    FirstOf(source, Sorted(Window(source.Keys, after, last)), last, limit)
  }

  function FirstOf(source: Source, ids: seq<nat>, last: nat, limit: nat): Page
    requires limit >= 1 && Elements(ids) <= source.Keys
  {
    assert forall i | i in Shown(ids, limit) :: i in Elements(ids);
    Page(ItemsAt(source, Shown(ids, limit)), last,
         |ids| > limit, if |ids| > limit then Some(ids[limit - 1]) else None)
  }

  function ItemsAt(source: Source, ids: seq<nat>): (items: seq<Item>)
    requires forall i | i in ids :: i in source
    ensures |items| == |ids| && forall k | 0 <= k < |ids| :: items[k] == source[ids[k]]
  {
    if ids == [] then [] else ItemsAt(source, ids[..|ids| - 1]) + [source[ids[|ids| - 1]]]
  }

  /** The stable one-to-one mapping from source ids to job ids. */
  type Names = nat -> Id

  ghost predicate OneToOneNames(names: Names) {
    forall i: nat, k: nat :: names(i) == names(k) ==> i == k
  }

  /** Items carry the job id of their source id. */
  ghost predicate SourceNamed(source: Source, names: Names) {
    forall i | i in source && source[i].JobItem? :: source[i].job.jobId == names(i)
  }

  /** Rows that came from this upstream, by whatever way. */
  ghost predicate RowsNamed(jobs: map<Id, JobRow>, names: Names) {
    forall j | j in jobs :: names(jobs[j].sourceId) == j
  }

  class Hermes {
    var jobs: Source
    var steps: Source
    ghost const names: Names

    ghost predicate Valid()
      reads this
    {
      && SourceOk(jobs) && SourceOk(steps) && AllOf(TRIP_JOB, jobs) && AllOf(TRIP_STEP, steps)
      && OneToOneNames(names) && SourceNamed(jobs, names)
    }

    function Rows(entity: Entity): Source
      reads this
    {
      if entity == TRIP_JOB then jobs else steps
    }

    /** A request; the upstream may have grown in the meantime. */
    method Snapshots(entity: Entity, after: nat, frozen: Option<nat>, limit: nat) returns (page: Page)
      requires Valid() && limit >= 1
      modifies this
      ensures Valid() && Grows(old(jobs), jobs) && Grows(old(steps), steps)
      ensures page == Serve(Rows(entity), after, frozen, limit)
    {
      page := Serve(Rows(entity), after, frozen, limit);
    }
  }

  function Ids(items: seq<Item>): (ids: seq<nat>)
    ensures |ids| == |items| && forall k | 0 <= k < |items| :: ids[k] == items[k].SourceId()
  {
    if items == [] then [] else Ids(items[..|items| - 1]) + [items[|items| - 1].SourceId()]
  }

  /** Where a page ends. */
  function End(p: Page): nat {
    if p.nextAfter.Some? then p.nextAfter.value else p.snapshotMax
  }

  /** A page holds exactly the rows between its cursor and its end, in order. */
  ghost predicate HonestPage(source: Source, after: nat, p: Page) {
    && Ascending(Ids(p.items)) && Elements(Ids(p.items)) == Window(source.Keys, after, End(p))
    && (p.hasMore ==> p.items != [] && p.nextAfter == Some(p.items[|p.items| - 1].SourceId())
                      && after < End(p) <= p.snapshotMax)
    && (!p.hasMore ==> p.nextAfter == None)
    && forall item | item in p.items :: item.SourceId() in source && source[item.SourceId()] == item
  }

  lemma ServedPage(source: Source, after: nat, frozen: Option<nat>, limit: nat)
    requires SourceOk(source) && limit >= 1
    ensures HonestPage(source, after, Serve(source, after, frozen, limit))
  {
    var last := if frozen.Some? then frozen.value else Greatest(source.Keys);
    SortedElements(Window(source.Keys, after, last));
    FirstOfIsHonest(source, Sorted(Window(source.Keys, after, last)), after, last, limit);
  }

  lemma FirstOfIsHonest(source: Source, ids: seq<nat>, after: nat, last: nat, limit: nat)
    requires SourceOk(source) && limit >= 1 && Ascending(ids) && Elements(ids) == Window(source.Keys, after, last)
    ensures HonestPage(source, after, FirstOf(source, ids, last, limit))
  {
    ShownItems(source, ids, limit);
    var p := FirstOf(source, ids, last, limit);
    assert Ids(p.items) == Shown(ids, limit);
    if |ids| > limit {
      PrefixIsWindow(source.Keys, ids, after, last, limit);
      assert End(p) == ids[limit - 1];
    }
  }

  lemma ShownItems(source: Source, ids: seq<nat>, limit: nat)
    requires SourceOk(source) && limit >= 1 && Ascending(ids) && Elements(ids) <= source.Keys
    ensures forall i | i in Shown(ids, limit) :: i in source
    ensures Ids(ItemsAt(source, Shown(ids, limit))) == Shown(ids, limit)
    ensures forall i | 0 <= i < |Shown(ids, limit)| ::
              ItemsAt(source, Shown(ids, limit))[i] == source[Shown(ids, limit)[i]]
              && source[Shown(ids, limit)[i]].SourceId() == Shown(ids, limit)[i]
  {
    assert forall i | i in Shown(ids, limit) :: i in Elements(ids);
    var shown := Shown(ids, limit);
    assert forall k | 0 <= k < |shown| :: shown[k] in shown;
  }

  lemma PrefixIsWindow(keys: set<nat>, ids: seq<nat>, after: nat, last: nat, n: nat)
    requires Ascending(ids) && Elements(ids) == Window(keys, after, last) && 1 <= n < |ids|
    ensures Elements(ids[..n]) == Window(keys, after, ids[n - 1])
    ensures after < ids[n - 1] <= last
  {
    assert ids[n - 1] in Elements(ids);
    forall k
      ensures k in Elements(ids[..n]) <==> k in Window(keys, after, ids[n - 1])
    {
      assert ids[n - 1] in Elements(ids);
      if k in Elements(ids[..n]) {
        assert k in Elements(ids);
      }
      if k in Window(keys, after, ids[n - 1]) {
        assert k in Elements(ids);
        var i :| 0 <= i < |ids| && ids[i] == k;
        assert i < n;
        assert ids[..n][i] == k;
      }
    }
  }

  // ---- Applying a page -----------------------------------------------------------------------

  function JobsIn(items: seq<Item>): seq<JobSnapshot> {
    if items == [] then []
    else JobsIn(items[..|items| - 1]) + if items[|items| - 1].JobItem? then [items[|items| - 1].job] else []
  }

  function StepsIn(items: seq<Item>): seq<StepSnapshot> {
    if items == [] then []
    else StepsIn(items[..|items| - 1]) + if items[|items| - 1].StepItem? then [items[|items| - 1].step] else []
  }

  function JobsAfterAll(
    trips: map<Id, Trip>, jobs: map<Id, JobRow>, list: seq<JobSnapshot>, now: Time): Option<map<Id, JobRow>> {
    if list == [] then Some(jobs)
    else
      var before := JobsAfterAll(trips, jobs, list[..|list| - 1], now);
      if before.None? then None else JobsAfter(trips, before.value, list[|list| - 1], now)
  }

  function JobViews(list: seq<JobSnapshot>): seq<Versioned<(nat, Columns)>> {
    if list == [] then [] else JobViews(list[..|list| - 1]) + [JobView(list[|list| - 1])]
  }

  lemma {:induction false} JobSnapshotsMerge(
    trips: map<Id, Trip>, jobs: map<Id, JobRow>, list: seq<JobSnapshot>, now: Time)
    requires JobsAfterAll(trips, jobs, list, now).Some?
    ensures JobSourcesOf(JobsAfterAll(trips, jobs, list, now).value) == PutAll(JobSourcesOf(jobs), JobViews(list))
  {
    if list != [] {
      var front, last := list[..|list| - 1], list[|list| - 1];
      JobSnapshotsMerge(trips, jobs, front, now);
      JobSnapshotMerges(trips, JobsAfterAll(trips, jobs, front, now).value, last, now);
      PutAllAppends(JobSourcesOf(jobs), JobViews(front), JobView(last));
    }
  }

  lemma {:induction false} JobFailureStays(
    trips: map<Id, Trip>, jobs: map<Id, JobRow>, list: seq<JobSnapshot>, now: Time, i: nat)
    requires i <= |list| && JobsAfterAll(trips, jobs, list[..i], now).None?
    ensures JobsAfterAll(trips, jobs, list, now).None?
    decreases |list| - i
  {
    if i == |list| {
      assert list[..i] == list;
    } else {
      assert list[..i + 1][..i] == list[..i];
      JobFailureStays(trips, jobs, list, now, i + 1);
    }
  }

  /** The loop over job snapshots of one transaction; a failed flush is undone by the caller. */
  method ApplyJobSnapshots(db: Database, list: seq<JobSnapshot>, now: Time) returns (flushed: bool)
    modifies db
    ensures flushed <==> JobsAfterAll(old(db.tables.trips), old(db.tables.jobs), list, now).Some?
    ensures flushed ==>
              db.tables == old(db.tables).(jobs := JobsAfterAll(old(db.tables.trips), old(db.tables.jobs), list,
                  now).value)
  {
    ghost var trips, jobs := db.tables.trips, db.tables.jobs;
    for i := 0 to |list|
      invariant JobsAfterAll(trips, jobs, list[..i], now).Some?
      invariant db.tables == old(db.tables).(jobs := JobsAfterAll(trips, jobs, list[..i], now).value)
    {
      assert list[..i + 1][..i] == list[..i];
      flushed := ApplyJobSnapshot(db, list[i], now);
      if !flushed {
        JobFailureStays(trips, jobs, list, now, i + 1);
        return;
      }
    }
    assert list[..|list|] == list;
    return true;
  }

  function PageAfter(db: Db, entity: Entity, items: seq<Item>, now: Time): Option<Db> {
    match entity
    case TRIP_JOB =>
      var jobs := JobsAfterAll(db.trips, db.jobs, JobsIn(items), now);
      if jobs.None? then None else Some(db.(jobs := jobs.value))
    case TRIP_STEP =>
      var steps := StepsAfter(db.jobs, db.steps, StepsIn(items));
      if steps.None? then None else Some(db.(steps := steps.value))
  }

  method ApplyPage(db: Database, entity: Entity, items: seq<Item>, now: Time) returns (flushed: bool)
    modifies db
    ensures flushed <==> PageAfter(old(db.tables), entity, items, now).Some?
    ensures db.tables == if flushed then PageAfter(old(db.tables), entity, items, now).value else old(db.tables)
  {
    var saved := db.tables;
    if entity == TRIP_JOB {
      flushed := ApplyJobSnapshots(db, JobsIn(items), now);
    } else {
      flushed := ApplyStepSnapshots(db, StepsIn(items));
    }
    if !flushed {
      db.tables := saved;
    }
  }

  /** The row of an item is stored, at its version or a newer one. */
  ghost predicate Present(jobs: map<Id, JobRow>, steps: map<Id, StepRow>, item: Item) {
    match item
    case JobItem(j) => j.jobId in jobs && j.version <= jobs[j.jobId].version
    case StepItem(s) => s.stepId in steps && s.version <= steps[s.stepId].version
  }

  /** Rows are never removed and never go back to an older version. */
  ghost predicate Advances(before: Db, after: Db) {
    && before.jobs.Keys <= after.jobs.Keys && before.steps.Keys <= after.steps.Keys
    && (forall j | j in before.jobs :: before.jobs[j].version <= after.jobs[j].version)
    && (forall s | s in before.steps :: before.steps[s].version <= after.steps[s].version)
  }

  ghost predicate AllOf(entity: Entity, source: Source) {
    forall i | i in source :: OfEntity(entity, source[i])
  }

  predicate OfEntity(entity: Entity, item: Item) {
    if entity == TRIP_JOB then item.JobItem? else item.StepItem?
  }

  lemma {:induction false} JobsInContains(items: seq<Item>, item: Item)
    requires item in items && item.JobItem?
    ensures JobView(item.job) in JobViews(JobsIn(items))
  {
    var front, last := items[..|items| - 1], items[|items| - 1];
    if item != last {
      JobsInContains(front, item);
    }
    if last.JobItem? {
      assert JobsIn(items)[..|JobsIn(items)| - 1] == JobsIn(front);
    } else {
      assert JobsIn(items) == JobsIn(front);
    }
  }

  lemma {:induction false} StepsInContains(items: seq<Item>, item: Item)
    requires item in items && item.StepItem?
    ensures StepView(item.step) in StepViews(StepsIn(items))
  {
    var front, last := items[..|items| - 1], items[|items| - 1];
    if item != last {
      StepsInContains(front, item);
    }
    if last.StepItem? {
      assert StepsIn(items)[..|StepsIn(items)| - 1] == StepsIn(front);
    } else {
      assert StepsIn(items) == StepsIn(front);
    }
  }

  lemma PageMakesPresent(db: Db, entity: Entity, items: seq<Item>, now: Time)
    requires PageAfter(db, entity, items, now).Some?
    ensures Advances(db, PageAfter(db, entity, items, now).value)
    ensures forall item | item in items && OfEntity(entity, item) ::
              Present(PageAfter(db, entity, items, now).value.jobs, PageAfter(db, entity, items, now).value.steps, item)
  {
    match entity
    case TRIP_JOB =>
      JobPageMakesPresent(db, items, now);
    case TRIP_STEP =>
      StepPageMakesPresent(db, items, now);
  }

  lemma JobPageMakesPresent(db: Db, items: seq<Item>, now: Time)
    requires PageAfter(db, TRIP_JOB, items, now).Some?
    ensures var after := PageAfter(db, TRIP_JOB, items, now).value;
            Advances(db, after) && forall item | item in items && item.JobItem? ::
                Present(after.jobs, after.steps, item)
  {
    var list := JobsIn(items);
    var after := PageAfter(db, TRIP_JOB, items, now).value;
    JobSnapshotsMerge(db.trips, db.jobs, list, now);
    PutAllKeepsNewest(JobSourcesOf(db.jobs), JobViews(list));
    forall j | j in db.jobs
      ensures j in after.jobs && db.jobs[j].version <= after.jobs[j].version
    {
      assert Offered(JobSourcesOf(db.jobs), JobViews(list), JobSourcesOf(db.jobs)[j]);
      assert j in JobSourcesOf(after.jobs);
    }
    forall item | item in items && item.JobItem?
      ensures Present(after.jobs, after.steps, item)
    {
      JobsInContains(items, item);
      assert Offered(JobSourcesOf(db.jobs), JobViews(list), JobView(item.job));
      assert item.job.jobId in JobSourcesOf(after.jobs);
    }
  }

  lemma StepPageMakesPresent(db: Db, items: seq<Item>, now: Time)
    requires PageAfter(db, TRIP_STEP, items, now).Some?
    ensures var after := PageAfter(db, TRIP_STEP, items, now).value;
            Advances(db, after) && forall item | item in items && item.StepItem? ::
                Present(after.jobs, after.steps, item)
  {
    var list := StepsIn(items);
    var after := PageAfter(db, TRIP_STEP, items, now).value;
    StepSnapshotsMerge(db.jobs, db.steps, list);
    PutAllKeepsNewest(StepSourcesOf(db.steps), StepViews(list));
    forall s | s in db.steps
      ensures s in after.steps && db.steps[s].version <= after.steps[s].version
    {
      assert Offered(StepSourcesOf(db.steps), StepViews(list), StepSourcesOf(db.steps)[s]);
      assert s in StepSourcesOf(after.steps);
    }
    forall item | item in items && item.StepItem?
      ensures Present(after.jobs, after.steps, item)
    {
      StepsInContains(items, item);
      assert Offered(StepSourcesOf(db.steps), StepViews(list), StepView(item.step));
      assert item.step.stepId in StepSourcesOf(after.steps);
    }
  }

  // ---- Growth, and what makes a page fail ------------------------------------------------------

  lemma GrowthKeepsWindow(before: Source, after: Source, last: nat)
    requires SourceOk(before) && SourceOk(after) && Grows(before, after) && last <= Greatest(before.Keys)
    ensures Window(after.Keys, 0, last) == Window(before.Keys, 0, last)
    ensures Greatest(before.Keys) <= Greatest(after.Keys)
  {
    assert forall j | j in Window(after.Keys, 0, last) :: j in before;
    if before != map[] {
      assert Greatest(before.Keys) in after.Keys;
    }
  }

  lemma LogStaysPresent(log: seq<Item>, before: Db, after: Db)
    requires Advances(before, after) && forall item | item in log :: Present(before.jobs, before.steps, item)
    ensures forall item | item in log :: Present(after.jobs, after.steps, item)
  {
  }

  lemma ServedMaximum(source: Source, after: nat, frozen: Option<nat>, limit: nat)
    requires limit >= 1
    ensures Serve(source, after, frozen, limit).snapshotMax == if frozen.Some? then frozen.value
            else Greatest(source.Keys)
  {
  }

  lemma AdvancesTransitive(a: Db, b: Db, c: Db)
    requires Advances(a, b) && Advances(b, c)
    ensures Advances(a, c)
  {
  }

  /** An upstream that is at the end what it was at the start stood still in between. */
  lemma BetweenIsSame(a: Source, b: Source, c: Source)
    requires Grows(a, b) && Grows(b, c) && a == c
    ensures a == b
  {
    assert b.Keys == a.Keys;
  }

  lemma GrowsTransitive(a: Source, b: Source, c: Source)
    requires Grows(a, b) && Grows(b, c)
    ensures Grows(a, c)
  {
    forall i, j | i in a && j in c && j !in a
      ensures i < j
    {
      assert j in b || j !in b;
    }
  }

  predicate Placed(jobs: map<Id, JobRow>, stored: map<Id, StepRow>, s: StepSnapshot) {
    s.jobId in jobs || (s.stepId in stored && s.version <= stored[s.stepId].version)
  }

  ghost predicate DistinctSteps(list: seq<StepSnapshot>) {
    forall i, j | 0 <= i < j < |list| :: list[i].stepId != list[j].stepId
  }

  /** Steps with distinct ids are refused exactly when a new or newer one has no job row yet. */
  lemma {:induction false} StepsNeedTheirJobs(jobs: map<Id, JobRow>, stored: map<Id, StepRow>, list: seq<StepSnapshot>)
    requires DistinctSteps(list)
    ensures StepsAfter(jobs, stored, list).Some? <==> forall s | s in list :: Placed(jobs, stored, s)
  {
    if list != [] {
      var front, last := list[..|list| - 1], list[|list| - 1];
      StepsNeedTheirJobs(jobs, stored, front);
      assert list == front + [last];
      assert forall s | s in front :: s.stepId != last.stepId;
      if StepsAfter(jobs, stored, front).Some? {
        OthersUntouched(jobs, stored, front, last.stepId);
        OneStepPlaced(jobs, stored, StepsAfter(jobs, stored, front).value, last);
      }
    }
  }

  lemma OneStepPlaced(jobs: map<Id, JobRow>, stored: map<Id, StepRow>, steps: map<Id, StepRow>, s: StepSnapshot)
    requires stored.Keys <= steps.Keys && Lookup(steps, s.stepId) == Lookup(stored, s.stepId)
    ensures StepAfter(jobs, stored, steps, s).Some? <==> Placed(jobs, stored, s)
  {
  }

  lemma {:induction false} OthersUntouched(
    jobs: map<Id, JobRow>, stored: map<Id, StepRow>, list: seq<StepSnapshot>, k: Id)
    requires StepsAfter(jobs, stored, list).Some? && forall s | s in list :: s.stepId != k
    ensures Lookup(StepsAfter(jobs, stored, list).value, k) == Lookup(stored, k)
  {
    if list != [] {
      assert list[|list| - 1] in list;
      OthersUntouched(jobs, stored, list[..|list| - 1], k);
    }
  }

  ghost predicate Orphan(db: Db, item: Item) {
    item.StepItem? && !Placed(db.jobs, db.steps, item.step)
  }

  lemma {:induction false} StepsOfPage(items: seq<Item>)
    requires forall item | item in items :: item.StepItem?
    ensures |StepsIn(items)| == |items| && forall k | 0 <= k < |items| :: items[k] == StepItem(StepsIn(items)[k])
  {
    if items != [] {
      StepsOfPage(items[..|items| - 1]);
    }
  }

  /** A page of steps is refused exactly when it holds a new or newer step whose job is not stored yet. */
  lemma StepPageRefused(db: Db, items: seq<Item>, now: Time)
    requires (forall item | item in items :: item.StepItem?) && Ascending(Ids(items))
    ensures PageAfter(db, TRIP_STEP, items, now).None? <==> exists item :: item in items && Orphan(db, item)
  {
    StepsOfPage(items);
    var list := StepsIn(items);
    assert forall k | 0 <= k < |list| :: Ids(items)[k] == list[k].stepId;
    AscendingIsDistinct(Ids(items), list);
    StepsNeedTheirJobs(db.jobs, db.steps, list);
    OrphansListed(db, items, list);
  }

  lemma AscendingIsDistinct(ids: seq<nat>, list: seq<StepSnapshot>)
    requires Ascending(ids) && |list| == |ids| && forall k | 0 <= k < |ids| :: ids[k] == list[k].stepId
    ensures DistinctSteps(list)
  {
  }

  lemma OrphansListed(db: Db, items: seq<Item>, list: seq<StepSnapshot>)
    requires |list| == |items| && forall k | 0 <= k < |items| :: items[k] == StepItem(list[k])
    ensures (exists item :: item in items && Orphan(db, item)) <==> exists s :: s in list && Orphan(db, StepItem(s))
  {
    if item :| item in items && Orphan(db, item) {
      assert item.step in list && Orphan(db, StepItem(item.step));
    }
    if s :| s in list && Orphan(db, StepItem(s)) {
      assert StepItem(s) in items;
    }
  }

  // ---- What makes a page of jobs fail --------------------------------------------------------

  predicate IsNewer(rows: map<Id, JobRow>, job: JobSnapshot) {
    job.jobId in rows ==> rows[job.jobId].version < job.version
  }

  /** Another job's row holds the source id of entry k, and no earlier entry gives that row its own. */
  ghost predicate Clashes(rows: map<Id, JobRow>, list: seq<JobSnapshot>, k: nat)
    requires k < |list|
  {
    IsNewer(rows, list[k])
    && exists j :: j in rows && j != list[k].jobId && rows[j].sourceId == list[k].sourceId && !Moved(rows, list[..k], j)
  }

  ghost predicate Moved(rows: map<Id, JobRow>, list: seq<JobSnapshot>, j: Id) {
    exists m :: 0 <= m < |list| && list[m].jobId == j && IsNewer(rows, list[m])
  }

  ghost predicate DistinctJobs(list: seq<JobSnapshot>) {
    forall i, k | 0 <= i < k < |list| :: list[i].jobId != list[k].jobId && list[i].sourceId != list[k].sourceId
  }

  /** Where the rows stand after some entries: moved ones have the source id of their entry, the others their own. */
  ghost predicate Standing(rows: map<Id, JobRow>, after: map<Id, JobRow>, list: seq<JobSnapshot>) {
    && (forall j | j in after && !Moved(rows, list, j) :: j in rows && after[j].sourceId == rows[j].sourceId)
    && (forall j | j in rows :: j in after)
    && (forall j | j in after && Moved(rows, list, j) ::
          exists m :: 0 <= m < |list| && list[m].jobId == j && after[j].sourceId == list[m].sourceId)
    && (forall j | (forall m | 0 <= m < |list| :: list[m].jobId != j) :: Lookup(after, j) == Lookup(rows, j))
  }

  lemma {:induction false} EntriesStand(trips: map<Id, Trip>, rows: map<Id, JobRow>, list: seq<JobSnapshot>, now: Time)
    requires DistinctJobs(list) && JobsAfterAll(trips, rows, list, now).Some?
    ensures Standing(rows, JobsAfterAll(trips, rows, list, now).value, list)
  {
    if list != [] {
      var front, last := list[..|list| - 1], list[|list| - 1];
      EntriesStand(trips, rows, front, now);
      var before := JobsAfterAll(trips, rows, front, now).value;
      assert forall m | 0 <= m < |front| :: front[m].jobId != last.jobId;
      assert Lookup(before, last.jobId) == Lookup(rows, last.jobId);
      OneEntryStands(trips, rows, before, front, last, now);
      assert list == front + [last];
    }
  }

  lemma MovedOneMore(rows: map<Id, JobRow>, front: seq<JobSnapshot>, last: JobSnapshot, j: Id)
    ensures Moved(rows, front + [last], j) <==> Moved(rows, front, j) || (last.jobId == j && IsNewer(rows, last))
  {
    var list := front + [last];
    if Moved(rows, front, j) {
      var m :| 0 <= m < |front| && front[m].jobId == j && IsNewer(rows, front[m]);
      assert list[m] == front[m];
    }
    if last.jobId == j && IsNewer(rows, last) {
      assert list[|front|] == last;
    }
  }

  lemma OneEntryStands(
    trips: map<Id, Trip>, rows: map<Id, JobRow>, before: map<Id, JobRow>, front: seq<JobSnapshot>,
    last: JobSnapshot, now: Time)
    requires Standing(rows, before, front) && Lookup(before, last.jobId) == Lookup(rows, last.jobId)
    requires JobsAfter(trips, before, last, now).Some?
    ensures Standing(rows, JobsAfter(trips, before, last, now).value, front + [last])
  {
    var after, list := JobsAfter(trips, before, last, now).value, front + [last];
    forall j | j in after && !Moved(rows, list, j)
      ensures j in rows && after[j].sourceId == rows[j].sourceId
    {
      MovedOneMore(rows, front, last, j);
    }
    forall j | j in after && Moved(rows, list, j)
      ensures exists m :: 0 <= m < |list| && list[m].jobId == j && after[j].sourceId == list[m].sourceId
    {
      MovedOneMore(rows, front, last, j);
      if j == last.jobId && IsNewer(rows, last) {
        assert list[|front|] == last;
      } else {
        var m :| 0 <= m < |front| && front[m].jobId == j && before[j].sourceId == front[m].sourceId;
        assert list[m] == front[m];
      }
    }
    forall j | (forall m | 0 <= m < |list| :: list[m].jobId != j)
      ensures Lookup(after, j) == Lookup(rows, j)
    {
      assert list[|front|] == last;
      assert forall m | 0 <= m < |front| :: front[m] == list[m];
    }
  }

  /** An entry is refused, where its turn comes, exactly when it clashes. */
  lemma RefusedExactly(trips: map<Id, Trip>, rows: map<Id, JobRow>, list: seq<JobSnapshot>, now: Time)
    requires list != [] && DistinctJobs(list) && JobsAfterAll(trips, rows, list[..|list| - 1], now).Some?
    ensures JobsAfterAll(trips, rows, list, now).None? <==> Clashes(rows, list, |list| - 1)
  {
    var front, last := list[..|list| - 1], list[|list| - 1];
    EntriesStand(trips, rows, front, now);
    var before := JobsAfterAll(trips, rows, front, now).value;
    assert forall m | 0 <= m < |front| ::
        front[m] == list[m] && front[m].jobId != last.jobId && front[m].sourceId != last.sourceId;
    assert Lookup(before, last.jobId) == Lookup(rows, last.jobId);
    forall j | j != last.jobId
      ensures j in before && before[j].sourceId == last.sourceId
         <==> j in rows && rows[j].sourceId == last.sourceId && !Moved(rows, front, j)
    {
    }
  }

  /** A page of jobs is refused exactly when an entry clashes: a source id in it is held by another job's row. */
  lemma {:induction false} JobPageRefused(
    trips: map<Id, Trip>, rows: map<Id, JobRow>, list: seq<JobSnapshot>, now: Time)
    requires DistinctJobs(list)
    ensures JobsAfterAll(trips, rows, list, now).None? <==> exists k :: 0 <= k < |list| && Clashes(rows, list, k)
  {
    if list != [] {
      var front := list[..|list| - 1];
      JobPageRefused(trips, rows, front, now);
      forall k | 0 <= k < |front|
        ensures Clashes(rows, front, k) <==> Clashes(rows, list, k)
      {
        assert front[..k] == list[..k];
      }
      if JobsAfterAll(trips, rows, front, now).Some? {
        RefusedExactly(trips, rows, list, now);
      }
    }
  }

  function JobIdsOf(list: seq<JobSnapshot>): set<Id> {
    set job | job in list :: job.jobId
  }

  lemma OneMoreJobId(list: seq<JobSnapshot>)
    requires list != []
    ensures JobIdsOf(list) == JobIdsOf(list[..|list| - 1]) + {list[|list| - 1].jobId}
  {
    assert list == list[..|list| - 1] + [list[|list| - 1]];
  }

  lemma {:induction false} JobsAfterAllKeys(
    trips: map<Id, Trip>, rows: map<Id, JobRow>, list: seq<JobSnapshot>, now: Time)
    requires JobsAfterAll(trips, rows, list, now).Some?
    ensures JobsAfterAll(trips, rows, list, now).value.Keys == rows.Keys + JobIdsOf(list)
  {
    if list != [] {
      JobsAfterAllKeys(trips, rows, list[..|list| - 1], now);
      OneMoreJobId(list);
    }
  }

  /** Under the stable mapping nothing clashes: rows and entries agree on whose a source id is. */
  lemma NamedJobsAccepted(
    trips: map<Id, Trip>, rows: map<Id, JobRow>, list: seq<JobSnapshot>, names: Names, now: Time)
    requires OneToOneNames(names) && RowsNamed(rows, names)
    requires forall job | job in list :: job.jobId == names(job.sourceId)
    ensures var after := JobsAfterAll(trips, rows, list, now);
            && after.Some? && RowsNamed(after.value, names)
            && after.value.Keys == rows.Keys + JobIdsOf(list)
  {
    NoneClashes(trips, rows, list, names, now);
    JobsAfterAllKeys(trips, rows, list, now);
  }

  lemma {:induction false} NoneClashes(
    trips: map<Id, Trip>, rows: map<Id, JobRow>, list: seq<JobSnapshot>, names: Names, now: Time)
    requires OneToOneNames(names) && RowsNamed(rows, names)
    requires forall job | job in list :: job.jobId == names(job.sourceId)
    ensures var after := JobsAfterAll(trips, rows, list, now); after.Some? && RowsNamed(after.value, names)
  {
    if list != [] {
      NoneClashes(trips, rows, list[..|list| - 1], names, now);
      OneNamedAccepted(trips, JobsAfterAll(trips, rows, list[..|list| - 1], now).value, list[|list| - 1], names, now);
    }
  }

  lemma OneNamedAccepted(trips: map<Id, Trip>, rows: map<Id, JobRow>, job: JobSnapshot, names: Names, now: Time)
    requires OneToOneNames(names) && RowsNamed(rows, names) && job.jobId == names(job.sourceId)
    ensures var after := JobsAfter(trips, rows, job, now);
            && after.Some? && RowsNamed(after.value, names) && after.value.Keys == rows.Keys + {job.jobId}
  {
    assert !SourceIdTaken(rows, job);
  }
}
