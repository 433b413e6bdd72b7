/**
  The projection next to its upstream: runs of the whole service while the upstream grows and a
  reconciliation reads, compares and repairs, each as a step of its own.
  */
module UpstreamRuns {
  import opened Schema
  import opened Merge
  import opened Projection
  import opened ProjectionSync
  import opened ProjectionReconciliation
  import opened World
  import opened System
  import StreamRuns
  import Frames
  import ProjectionStream

  // ---- The machine ---------------------------------------------------------------------------

  /** The snapshots that a comparison has listed for repair. */
  datatype Repairs = Repairs(jobs: seq<Item>, steps: seq<Item>)

  /** The service, the upstream, and what the reconciliation holds in memory. */
  datatype Observed = Observed(w: World, jobs: Source, steps: Source, readJobs: Source, readSteps: Source,
      listed: Option<Repairs>)

  datatype Turn =
    | Grow(grownJobs: Source, grownSteps: Source)
    | Service(op: Op)
    /** A reading spread over many requests: each row is as the upstream had it at some time. */
    | ReadJobs(copy: Source)
    | ReadSteps(copy: Source)
    | Compare
    | ApplyRepair

  function ListedFor(db: Db, jobs: Source, steps: Source): Repairs {
    ListingsAreListed(db, jobs, steps);
    Repairs(ItemsAt(jobs, Listing(Versions(jobs), JobVersions(db.jobs))),
            ItemsAt(steps, Listing(Versions(steps), StepVersions(db.steps))))
  }

  function RepairOutcome(o: Observed): Option<Db> {
    if o.listed.None? then None else RepairedWith(o.w.db, o.listed.value.jobs, o.listed.value.steps, o.w.now)
  }

  /** A refused repair changes nothing. */
  function WorldAfter(o: Observed, turn: Turn): World {
    match turn
    case Service(op) => Next(o.w, op)
    case ApplyRepair => if RepairOutcome(o).Some? then o.w.(db := RepairOutcome(o).value) else o.w
    case _ => o.w
  }

  function Turned(o: Observed, turn: Turn): Observed {
    Observed(
      WorldAfter(o, turn),
      if turn.Grow? then turn.grownJobs else o.jobs,
      if turn.Grow? then turn.grownSteps else o.steps,
      if turn.ReadJobs? then turn.copy else o.readJobs,
      if turn.ReadSteps? then turn.copy else o.readSteps,
      if turn.Compare? then Some(ListedFor(o.w.db, o.readJobs, o.readSteps)) else if turn.ApplyRepair? then None
        else o.listed)
  }

  function Turns(o: Observed, turns: seq<Turn>): Observed {
    if turns == [] then o else Turned(Turns(o, turns[..|turns| - 1]), turns[|turns| - 1])
  }

  lemma TurnsOneMore(o: Observed, turns: seq<Turn>, turn: Turn, names: Names)
    ensures Turns(o, turns + [turn]) == Turned(Turns(o, turns), turn)
    ensures AllAllowed(o, turns + [turn], names)
            <==> AllAllowed(o, turns, names) && Allowed(Turns(o, turns), turn, names)
  {
    assert (turns + [turn])[..|turns|] == turns;
  }

  /** Every step of the upstream belongs to one of its jobs. */
  ghost predicate Whole(jobs: Source, steps: Source) {
    && SourceOk(jobs) && SourceOk(steps) && AllOf(TRIP_JOB, jobs) && AllOf(TRIP_STEP, steps)
    && forall s | s in steps :: OfEntity(TRIP_STEP, steps[s]) && JobRead(jobs, steps[s].step.jobId)
  }

  ghost predicate AllHeld(source: Source, items: seq<Item>) {
    forall item | item in items :: Held(source, item)
  }

  /** Events and pages carry what the upstream holds or has held. */
  ghost predicate Genuine(o: Observed, op: Op) {
    match op
    case Deliver(e, _) => Held(o.jobs, JobItem(e.job)) && forall s | s in e.steps :: Held(o.steps, StepItem(s))
    case MergePage(entity, items) => AllHeld(if entity == TRIP_JOB then o.jobs else o.steps, items)
    case _ => true
  }

  ghost predicate Allowed(o: Observed, turn: Turn, names: Names) {
    match turn
    case Grow(jobs, steps) =>
      Grows(o.jobs, jobs) && Grows(o.steps, steps) && Whole(jobs, steps) && SourceNamed(jobs, names)
    case Service(op) => Enabled(o.w, op) && Genuine(o, op)
    case ReadJobs(copy) => Copied(copy, o.jobs)
    case ReadSteps(copy) => Copied(copy, o.steps)
    case Compare => true
    case ApplyRepair => true
  }

  ghost predicate AllAllowed(o: Observed, turns: seq<Turn>, names: Names) {
    turns != [] ==>
      AllAllowed(o, turns[..|turns| - 1], names) && Allowed(Turns(o, turns[..|turns| - 1]), turns[|turns| - 1], names)
  }

  // ---- What every run keeps ------------------------------------------------------------------

  function JobAsItem(j: Id, row: JobRow): Item { JobItem(JobSnapshot(j, row.sourceId, row.version, row.columns)) }
  function StepAsItem(s: Id, row: StepRow): Item { StepItem(StepSnapshot(s, row.jobId, row.version, row.columns)) }

  ghost predicate JobRowsHeld(rows: map<Id, JobRow>, jobs: Source) {
    forall j | j in rows :: Held(jobs, JobAsItem(j, rows[j]))
  }

  ghost predicate StepRowsHeld(rows: map<Id, StepRow>, steps: Source) {
    forall s | s in rows :: Held(steps, StepAsItem(s, rows[s]))
  }

  ghost predicate RowsHeld(db: Db, jobs: Source, steps: Source) {
    JobRowsHeld(db.jobs, jobs) && StepRowsHeld(db.steps, steps)
  }

  ghost predicate HandsHeld(o: Observed) {
    && Copied(o.readJobs, o.jobs) && Copied(o.readSteps, o.steps)
    && (o.listed.Some? ==> AllHeld(o.jobs, o.listed.value.jobs) && AllHeld(o.steps, o.listed.value.steps))
  }

  /** Every row, and all that the reconciliation holds, is what the upstream holds or has held. */
  ghost predicate Truthful(o: Observed, names: Names) {
    && Inv(o.w) && OneToOneNames(names) && Whole(o.jobs, o.steps) && SourceNamed(o.jobs, names)
    && RowsHeld(o.w.db, o.jobs, o.steps) && HandsHeld(o)
  }

  lemma HeldGrows(before: Source, after: Source, item: Item)
    requires Held(before, item) && Grows(before, after)
    ensures Held(after, item)
  {
    assert Precedes(before[item.SourceId()], after[item.SourceId()]);
  }

  lemma AllHeldGrows(before: Source, after: Source, items: seq<Item>)
    requires AllHeld(before, items) && Grows(before, after)
    ensures AllHeld(after, items)
  {
    forall item | item in items
      ensures Held(after, item)
    {
      HeldGrows(before, after, item);
    }
  }

  lemma RowsGrow(db: Db, jobs: Source, steps: Source, jobs': Source, steps': Source)
    requires RowsHeld(db, jobs, steps) && Grows(jobs, jobs') && Grows(steps, steps')
    ensures RowsHeld(db, jobs', steps')
  {
    forall j | j in db.jobs
      ensures Held(jobs', JobAsItem(j, db.jobs[j]))
    {
      HeldGrows(jobs, jobs', JobAsItem(j, db.jobs[j]));
    }
    forall s | s in db.steps
      ensures Held(steps', StepAsItem(s, db.steps[s]))
    {
      HeldGrows(steps, steps', StepAsItem(s, db.steps[s]));
    }
  }

  lemma GrowthKeepsTruth(o: Observed, jobs: Source, steps: Source, names: Names)
    requires Truthful(o, names) && Allowed(o, Grow(jobs, steps), names)
    ensures Truthful(Turned(o, Grow(jobs, steps)), names)
  {
    RowsGrow(o.w.db, o.jobs, o.steps, jobs, steps);
    CopyGrows(o.readJobs, o.jobs, jobs);
    CopyGrows(o.readSteps, o.steps, steps);
    if o.listed.Some? {
      AllHeldGrows(o.jobs, jobs, o.listed.value.jobs);
      AllHeldGrows(o.steps, steps, o.listed.value.steps);
    }
  }

  // ---- Merging what the upstream holds -------------------------------------------------------

  lemma JobsMerged(rows: map<Id, JobRow>, after: map<Id, JobRow>, list: seq<JobSnapshot>, jobs: Source)
    requires JobRowsHeld(rows, jobs) && forall job | job in list :: Held(jobs, JobItem(job))
    requires JobSourcesOf(after) == PutAll(JobSourcesOf(rows), JobViews(list))
    ensures JobRowsHeld(after, jobs)
    ensures rows.Keys <= after.Keys && forall j | j in rows :: rows[j].version <= after[j].version
  {
    PutAllKeepsNewest(JobSourcesOf(rows), JobViews(list));
    forall j | j in after
      ensures Held(jobs, JobAsItem(j, after[j]))
    {
      var v := JobSourcesOf(after)[j];
      assert Offered(JobSourcesOf(rows), JobViews(list), v);
      if v in JobViews(list) {
        FromJobViews(list, v);
        var job :| job in list && JobView(job) == v;
        assert JobItem(job) == JobAsItem(j, after[j]);
      } else {
        assert JobAsItem(j, rows[j]) == JobAsItem(j, after[j]);
      }
    }
    forall j | j in rows
      ensures j in after && rows[j].version <= after[j].version
    {
      assert Offered(JobSourcesOf(rows), JobViews(list), JobSourcesOf(rows)[j]);
      assert j in JobSourcesOf(after);
    }
  }

  lemma StepsMerged(rows: map<Id, StepRow>, after: map<Id, StepRow>, list: seq<StepSnapshot>, steps: Source)
    requires StepRowsHeld(rows, steps) && forall s | s in list :: Held(steps, StepItem(s))
    requires StepSourcesOf(after) == PutAll(StepSourcesOf(rows), StepViews(list))
    ensures StepRowsHeld(after, steps)
    ensures rows.Keys <= after.Keys && forall s | s in rows :: rows[s].version <= after[s].version
  {
    PutAllKeepsNewest(StepSourcesOf(rows), StepViews(list));
    forall k | k in after
      ensures Held(steps, StepAsItem(k, after[k]))
    {
      var v := StepSourcesOf(after)[k];
      assert Offered(StepSourcesOf(rows), StepViews(list), v);
      if v in StepViews(list) {
        FromStepViews(list, v);
        var s :| s in list && StepView(s) == v;
        assert StepItem(s) == StepAsItem(k, after[k]);
      } else {
        assert StepAsItem(k, rows[k]) == StepAsItem(k, after[k]);
      }
    }
    forall k | k in rows
      ensures k in after && rows[k].version <= after[k].version
    {
      assert Offered(StepSourcesOf(rows), StepViews(list), StepSourcesOf(rows)[k]);
      assert k in StepSourcesOf(after);
    }
  }

  /** The transaction merged some snapshots that the upstream has held, or none. */
  ghost predicate Merged(db: Db, after: Db, jobs: seq<JobSnapshot>, steps: seq<StepSnapshot>) {
    && JobSourcesOf(after.jobs) == PutAll(JobSourcesOf(db.jobs), JobViews(jobs))
    && StepSourcesOf(after.steps) == PutAll(StepSourcesOf(db.steps), StepViews(steps))
  }

  lemma MergeIsHeld(db: Db, after: Db, list: seq<JobSnapshot>, stepList: seq<StepSnapshot>, jobs: Source, steps: Source)
    requires RowsHeld(db, jobs, steps) && Merged(db, after, list, stepList)
    requires (forall job | job in list :: Held(jobs, JobItem(job))) && forall s | s in stepList ::
               Held(steps, StepItem(s))
    ensures RowsHeld(after, jobs, steps) && Advances(db, after)
  {
    JobsMerged(db.jobs, after.jobs, list, jobs);
    StepsMerged(db.steps, after.steps, stepList, steps);
  }

  lemma NothingMerged(db: Db, after: Db)
    requires JobSourcesOf(after.jobs) == JobSourcesOf(db.jobs) && after.steps == db.steps
    ensures Merged(db, after, [], [])
  {
  }

  lemma EventIsHeld(db: Db, e: Event, repair: bool, now: Time, jobs: Source, steps: Source)
    requires RowsHeld(db, jobs, steps) && Held(jobs, JobItem(e.job)) && forall s | s in e.steps ::
               Held(steps, StepItem(s))
    ensures var after := EventOutcome(db, e, repair, now).0; RowsHeld(after, jobs, steps) && Advances(db, after)
  {
    EventMerged(db, e, repair, now);
    EventOrNothing(db, EventOutcome(db, e, repair, now).0, e, jobs, steps);
  }

  lemma EventOrNothing(db: Db, after: Db, e: Event, jobs: Source, steps: Source)
    requires RowsHeld(db, jobs, steps) && Held(jobs, JobItem(e.job)) && forall s | s in e.steps ::
               Held(steps, StepItem(s))
    requires Merged(db, after, [e.job], InIdOrder(e.steps)) || after == db
    ensures RowsHeld(after, jobs, steps) && Advances(db, after)
  {
    if Merged(db, after, [e.job], InIdOrder(e.steps)) {
      assert forall s | s in InIdOrder(e.steps) :: s in e.steps;
      MergeIsHeld(db, after, [e.job], InIdOrder(e.steps), jobs, steps);
    } else {
      NothingMerged(db, after);
      MergeIsHeld(db, after, [], [], jobs, steps);
    }
  }

  lemma EventMerged(db: Db, e: Event, repair: bool, now: Time)
    ensures var after := EventOutcome(db, e, repair, now).0;
            Merged(db, after, [e.job], InIdOrder(e.steps)) || after == db
  {
    ProjectionStream.EventEffect(db, e, repair, now);
    if EventOutcome(db, e, repair, now).1 == APPLIED {
      ProjectionStream.EventMerges(db, e, now);
      assert JobViews([e.job]) == [JobView(e.job)];
    }
  }

  lemma {:induction false} JobsInHeld(items: seq<Item>, source: Source)
    requires AllHeld(source, items)
    ensures forall job | job in JobsIn(items) :: Held(source, JobItem(job))
  {
    if items != [] {
      assert items[|items| - 1] in items;
      JobsInHeld(items[..|items| - 1], source);
    }
  }

  lemma {:induction false} StepsInHeld(items: seq<Item>, source: Source)
    requires AllHeld(source, items)
    ensures forall s | s in StepsIn(items) :: Held(source, StepItem(s))
  {
    if items != [] {
      assert items[|items| - 1] in items;
      StepsInHeld(items[..|items| - 1], source);
    }
  }

  lemma PageIsHeld(db: Db, entity: Entity, items: seq<Item>, now: Time, jobs: Source, steps: Source)
    requires RowsHeld(db, jobs, steps) && AllHeld(if entity == TRIP_JOB then jobs else steps, items)
    requires PageAfter(db, entity, items, now).Some?
    ensures var after := PageAfter(db, entity, items, now).value; RowsHeld(after, jobs, steps) && Advances(db, after)
  {
    var after := PageAfter(db, entity, items, now).value;
    ProjectionStream.PageMerges(db, entity, items, now);
    if entity == TRIP_JOB {
      JobsInHeld(items, jobs);
      MergeIsHeld(db, after, JobsIn(items), [], jobs, steps);
    } else {
      StepsInHeld(items, steps);
      MergeIsHeld(db, after, [], StepsIn(items), jobs, steps);
    }
  }

  lemma OtherIsHeld(w: World, op: Op, jobs: Source, steps: Source)
    requires RowsHeld(w.db, jobs, steps) && !op.Deliver? && !op.MergePage?
    ensures RowsHeld(After(w, op), jobs, steps) && Advances(w.db, After(w, op))
  {
    OtherMergesNothing(w, op);
    NothingMerged(w.db, After(w, op));
    MergeIsHeld(w.db, After(w, op), [], [], jobs, steps);
  }

  lemma OtherMergesNothing(w: World, op: Op)
    requires !op.Deliver? && !op.MergePage?
    ensures JobSourcesOf(After(w, op).jobs) == JobSourcesOf(w.db.jobs) && After(w, op).steps == w.db.steps
  {
    match op
    case Beat(watermark) => ControlMergesNothing(w.db, watermark, w.now);
    case Pause => ControlMergesNothing(w.db, 0, w.now);
    case _ => StreamRuns.OthersAreElsewhere(w, op, []);
  }

  lemma ControlMergesNothing(db: Db, watermark: nat, now: Time)
    ensures HeartbeatOutcome(db, watermark, now).0.jobs == db.jobs
    ensures HeartbeatOutcome(db, watermark, now).0.steps == db.steps
    ensures Paused(db).jobs == db.jobs && Paused(db).steps == db.steps
  {
    Frames.BeatTouches(db, watermark, now);
    Frames.PauseTouches(db);
    OnlyTheConsumer(db, HeartbeatOutcome(db, watermark, now).0);
    OnlyTheConsumer(db, Paused(db));
  }

  lemma OnlyTheConsumer(a: Db, b: Db)
    requires Frames.Only(a, b, {Frames.ConsumerState})
    ensures b.jobs == a.jobs && b.steps == a.steps
  {
  }

  lemma PageStepIsHeld(o: Observed, entity: Entity, items: seq<Item>)
    requires RowsHeld(o.w.db, o.jobs, o.steps) && Genuine(o, MergePage(entity, items))
    ensures var after := After(o.w, MergePage(entity, items));
              RowsHeld(after, o.jobs, o.steps) && Advances(o.w.db, after)
  {
    if PageAfter(o.w.db, entity, items, o.w.now).Some? {
      PageIsHeld(o.w.db, entity, items, o.w.now, o.jobs, o.steps);
    }
  }

  /** Every transaction keeps the rows what the upstream holds or has held, and lets none go back. */
  lemma ServiceIsHeld(o: Observed, op: Op)
    requires RowsHeld(o.w.db, o.jobs, o.steps) && Genuine(o, op)
    ensures RowsHeld(Next(o.w, op).db, o.jobs, o.steps) && Advances(o.w.db, Next(o.w, op).db)
  {
    match op
    case Deliver(e, repair) => EventIsHeld(o.w.db, e, repair, o.w.now, o.jobs, o.steps);
    case MergePage(entity, items) => PageStepIsHeld(o, entity, items);
    case _ => OtherIsHeld(o.w, op, o.jobs, o.steps);
  }

  lemma ServiceKeepsTruth(o: Observed, op: Op, names: Names)
    requires Truthful(o, names) && Allowed(o, Service(op), names)
    ensures Truthful(Turned(o, Service(op)), names) && Advances(o.w.db, Next(o.w, op).db)
  {
    StepKeepsInv(o.w, op);
    ServiceIsHeld(o, op);
    ServiceTurn(o, op);
    WorldMayChange(o, Next(o.w, op), names);
  }

  lemma ServiceTurn(o: Observed, op: Op)
    ensures Turned(o, Service(op)) == o.(w := Next(o.w, op))
  {
  }

  lemma WorldMayChange(o: Observed, w: World, names: Names)
    requires Truthful(o, names) && Inv(w) && RowsHeld(w.db, o.jobs, o.steps)
    ensures Truthful(o.(w := w), names)
  {
  }

  /** A repair that goes through is two pages in one transaction. */
  lemma RepairIsTwoPages(o: Observed)
    requires RepairOutcome(o).Some?
    ensures var jobsPage := MergePage(TRIP_JOB, o.listed.value.jobs);
            var stepsPage := MergePage(TRIP_STEP, o.listed.value.steps);
            Turned(o, ApplyRepair).w == Next(Next(o.w, jobsPage), stepsPage)
  {
  }

  lemma RepairKeepsTruth(o: Observed, names: Names)
    requires Truthful(o, names)
    ensures Truthful(Turned(o, ApplyRepair), names) && Advances(o.w.db, Turned(o, ApplyRepair).w.db)
  {
    if RepairOutcome(o).Some? {
      var jobsPage := MergePage(TRIP_JOB, o.listed.value.jobs);
      var stepsPage := MergePage(TRIP_STEP, o.listed.value.steps);
      TwoPagesKeepTruth(o, jobsPage, stepsPage, names);
      RepairIsTwoPages(o);
      ListedIsDropped(o.(w := Next(Next(o.w, jobsPage), stepsPage)), names);
    }
  }

  lemma TwoPagesKeepTruth(o: Observed, a: Op, b: Op, names: Names)
    requires Truthful(o, names) && a.MergePage? && b.MergePage? && Genuine(o, a) && Genuine(o, b)
    ensures Truthful(o.(w := Next(Next(o.w, a), b)), names) && Advances(o.w.db, Next(Next(o.w, a), b).db)
  {
    var between := o.(w := Next(o.w, a));
    ServiceTurn(o, a);
    ServiceTurn(between, b);
    ServiceKeepsTruth(o, a, names);
    ServiceKeepsTruth(between, b, names);
    AdvancesTransitive(o.w.db, between.w.db, Next(between.w, b).db);
  }

  lemma ListedIsDropped(o: Observed, names: Names)
    requires Truthful(o, names)
    ensures Truthful(o.(listed := None), names)
  {
  }

  lemma ListedAreHeld(source: Source, copy: Source, ids: seq<nat>)
    requires Copied(copy, source) && forall i | i in ids :: i in copy
    ensures AllHeld(source, ItemsAt(copy, ids))
  {
    var items := ItemsAt(copy, ids);
    forall item | item in items
      ensures Held(source, item)
    {
      var k :| 0 <= k < |items| && items[k] == item;
      assert item == copy[ids[k]];
    }
  }

  lemma CompareKeepsTruth(o: Observed, names: Names)
    requires Truthful(o, names)
    ensures Truthful(Turned(o, Compare), names)
  {
    RepairsAreHeld(o.w.db, o.readJobs, o.readSteps, o.jobs, o.steps);
    ComparedHands(o);
  }

  lemma RepairsAreHeld(db: Db, readJobs: Source, readSteps: Source, jobs: Source, steps: Source)
    requires Copied(readJobs, jobs) && Copied(readSteps, steps)
    ensures AllHeld(jobs, ListedFor(db, readJobs, readSteps).jobs)
            && AllHeld(steps, ListedFor(db, readJobs, readSteps).steps)
  {
    ListingsAreListed(db, readJobs, readSteps);
    ListedAreHeld(jobs, readJobs, Listing(Versions(readJobs), JobVersions(db.jobs)));
    ListedAreHeld(steps, readSteps, Listing(Versions(readSteps), StepVersions(db.steps)));
  }

  lemma ComparedHands(o: Observed)
    ensures Turned(o, Compare) == o.(listed := Some(ListedFor(o.w.db, o.readJobs, o.readSteps)))
  {
  }

  lemma TurnKeepsTruth(o: Observed, turn: Turn, names: Names)
    requires Truthful(o, names) && Allowed(o, turn, names)
    ensures Truthful(Turned(o, turn), names) && Advances(o.w.db, Turned(o, turn).w.db)
  {
    match turn
    case Grow(jobs, steps) => GrowthKeepsTruth(o, jobs, steps, names);
    case Service(op) => ServiceKeepsTruth(o, op, names);
    case ReadJobs(_) =>
    case ReadSteps(_) =>
    case Compare => CompareKeepsTruth(o, names);
    case ApplyRepair => RepairKeepsTruth(o, names);
  }

  lemma {:induction false} RunKeepsTruth(o: Observed, turns: seq<Turn>, names: Names)
    requires Truthful(o, names) && AllAllowed(o, turns, names)
    ensures Truthful(Turns(o, turns), names) && Advances(o.w.db, Turns(o, turns).w.db)
  {
    if turns != [] {
      var before := Turns(o, turns[..|turns| - 1]);
      RunKeepsTruth(o, turns[..|turns| - 1], names);
      TurnKeepsTruth(before, turns[|turns| - 1], names);
      AdvancesTransitive(o.w.db, before.w.db, Turns(o, turns).w.db);
    }
  }

  /** A new installation beside any upstream. */
  lemma InstalledIsTruthful(maxAttempts: nat, now: Time, jobs: Source, steps: Source, names: Names)
    requires OneToOneNames(names) && Whole(jobs, steps) && SourceNamed(jobs, names)
    ensures Truthful(Observed(Installed(maxAttempts, now), jobs, steps, map[], map[], None), names)
  {
    InstalledIsOk(maxAttempts, now);
  }

  // ---- What a comparison with the upstream finds ---------------------------------------------

  lemma HeldJobRow(rows: map<Id, JobRow>, jobs: Source, j: Id, names: Names)
    requires SourceOk(jobs) && AllOf(TRIP_JOB, jobs) && SourceNamed(jobs, names) && JobRowsHeld(rows, jobs) && j in rows
    ensures rows[j].sourceId in jobs && names(rows[j].sourceId) == j
    ensures rows[j].version <= jobs[rows[j].sourceId].Version()
  {
    assert Held(jobs, JobAsItem(j, rows[j]));
  }

  lemma HeldRowsAreNamed(rows: map<Id, JobRow>, jobs: Source, names: Names)
    requires SourceOk(jobs) && AllOf(TRIP_JOB, jobs) && SourceNamed(jobs, names) && JobRowsHeld(rows, jobs)
    ensures RowsNamed(rows, names)
  {
    forall j | j in rows
      ensures names(rows[j].sourceId) == j
    {
      HeldJobRow(rows, jobs, j, names);
    }
  }

  lemma HeldIsOneToOne(rows: map<Id, JobRow>, jobs: Source, names: Names)
    requires SourceOk(jobs) && AllOf(TRIP_JOB, jobs) && SourceNamed(jobs, names) && JobRowsHeld(rows, jobs)
             && OneToOneNames(names)
    ensures OneToOne(rows, jobs)
  {
    HeldRowsAreNamed(rows, jobs, names);
    NamedIsOneToOne(rows, jobs, jobs, names);
  }

  lemma NoJobAhead(rows: map<Id, JobRow>, jobs: Source, names: Names)
    requires SourceOk(jobs) && AllOf(TRIP_JOB, jobs) && SourceNamed(jobs, names) && JobRowsHeld(rows, jobs)
    ensures JobVersions(rows).Keys - Versions(jobs).Keys == {} && Ahead(Versions(jobs), JobVersions(rows)) == {}
  {
    forall i | i in JobVersions(rows)
      ensures i in jobs && JobVersions(rows)[i] <= jobs[i].Version()
    {
      HeldJobRow(rows, jobs, JobAt(rows, i).value, names);
    }
  }

  lemma NoStepAhead(rows: map<Id, StepRow>, steps: Source)
    requires SourceOk(steps) && StepRowsHeld(rows, steps)
    ensures StepVersions(rows).Keys - Versions(steps).Keys == {} && Ahead(Versions(steps), StepVersions(rows)) == {}
  {
    forall s | s in rows
      ensures s in steps && rows[s].version <= steps[s].Version()
    {
      assert Held(steps, StepAsItem(s, rows[s]));
    }
  }

  /**
    In every run no row is ahead of the upstream, none is extra and none is impossible: against the
    upstream itself a row can only be missing or behind.
    */
  lemma NothingIsAhead(o: Observed, turns: seq<Turn>, names: Names)
    requires Truthful(o, names) && AllAllowed(o, turns, names)
    ensures var r := Turns(o, turns);
            var report := Compared(r.w.db, r.jobs, r.steps);
            && Ahead(Versions(r.jobs), JobVersions(r.w.db.jobs)) == {}
            && Ahead(Versions(r.steps), StepVersions(r.w.db.steps)) == {}
            && report.extraJobs == {} && report.extraSteps == {} && report.impossible == {}
  {
    RunKeepsTruth(o, turns, names);
    TruthIsNotAhead(Turns(o, turns), names);
  }

  lemma TruthIsNotAhead(r: Observed, names: Names)
    requires Truthful(r, names)
    ensures var report := Compared(r.w.db, r.jobs, r.steps);
            && Ahead(Versions(r.jobs), JobVersions(r.w.db.jobs)) == {}
            && Ahead(Versions(r.steps), StepVersions(r.w.db.steps)) == {}
            && report.extraJobs == {} && report.extraSteps == {} && report.impossible == {}
  {
    NoJobAhead(r.w.db.jobs, r.jobs, names);
    NoStepAhead(r.w.db.steps, r.steps);
    NoImpossibleRows(r.w.db.trips, r.w.db.jobs);
  }

  // ---- A reconciliation of an upstream that stands still -------------------------------------

  /** Every row of the source is stored, at its version or a newer one. */
  ghost predicate AllPresent(db: Db, source: Source) {
    forall i | i in source :: Present(db.jobs, db.steps, source[i])
  }

  lemma AllStayPresent(before: Db, after: Db, source: Source)
    requires AllPresent(before, source) && Advances(before, after)
    ensures AllPresent(after, source)
  {
  }

  /** Rows that are all present, and never ahead, are exactly those of the upstream. */
  lemma PresentIsClean(r: Observed, names: Names)
    requires Truthful(r, names) && AllPresent(r.w.db, r.jobs) && AllPresent(r.w.db, r.steps)
    ensures Compared(r.w.db, r.jobs, r.steps).Passed()
  {
    TruthIsNotAhead(r, names);
    HeldIsOneToOne(r.w.db.jobs, r.jobs, names);
    NoJobMissing(r.w.db, r.jobs);
    NoStepMissing(r.w.db, r.steps);
    NothingStale(Versions(r.jobs), JobVersions(r.w.db.jobs));
    NothingStale(Versions(r.steps), StepVersions(r.w.db.steps));
  }

  ghost predicate UpToDate(source: map<nat, nat>, local: map<nat, nat>) {
    forall i | i in source :: i in local && source[i] <= local[i]
  }

  lemma NothingStale(source: map<nat, nat>, local: map<nat, nat>)
    requires UpToDate(source, local) && Ahead(source, local) == {}
    ensures Stale(source, local) == {} && source.Keys - local.Keys == {}
  {
    forall i | i in source && i in local
      ensures source[i] == local[i]
    {
      assert i !in Ahead(source, local);
    }
  }

  lemma NoJobMissing(db: Db, jobs: Source)
    requires AllOf(TRIP_JOB, jobs) && OneToOne(db.jobs, jobs) && AllPresent(db, jobs)
    ensures UpToDate(Versions(jobs), JobVersions(db.jobs))
  {
    forall i | i in jobs
      ensures i in JobVersions(db.jobs) && jobs[i].Version() <= JobVersions(db.jobs)[i]
    {
      assert OfEntity(TRIP_JOB, jobs[i]) && Present(db.jobs, db.steps, jobs[i]);
      LocalJob(db.jobs, jobs, i);
    }
  }

  lemma NoStepMissing(db: Db, steps: Source)
    requires SourceOk(steps) && AllOf(TRIP_STEP, steps) && AllPresent(db, steps)
    ensures UpToDate(Versions(steps), StepVersions(db.steps))
  {
    forall s | s in steps
      ensures s in StepVersions(db.steps) && steps[s].Version() <= StepVersions(db.steps)[s]
    {
      assert OfEntity(TRIP_STEP, steps[s]) && Present(db.jobs, db.steps, steps[s]);
    }
  }

  /** What is not stored yet is listed, and only rows of the source are. */
  ghost predicate PresentOrListed(db: Db, source: Source, items: seq<Item>) {
    && (forall i | i in source :: Present(db.jobs, db.steps, source[i]) || source[i] in items)
    && forall item | item in items :: item.SourceId() in source && source[item.SourceId()] == item
  }

  /** The listed repairs make up for what the projection lacks. */
  ghost predicate Mends(db: Db, jobs: Source, steps: Source, listed: Repairs) {
    && PresentOrListed(db, jobs, listed.jobs) && PresentOrListed(db, steps, listed.steps)
    && DistinctSteps(StepsIn(listed.steps))
  }

  lemma AdvanceKeepsMending(before: Db, after: Db, jobs: Source, steps: Source, listed: Repairs)
    requires Mends(before, jobs, steps, listed) && Advances(before, after)
    ensures Mends(after, jobs, steps, listed)
  {
    StillPresentOrListed(before, after, jobs, listed.jobs);
    StillPresentOrListed(before, after, steps, listed.steps);
  }

  lemma StillPresentOrListed(before: Db, after: Db, source: Source, items: seq<Item>)
    requires PresentOrListed(before, source, items) && Advances(before, after)
    ensures PresentOrListed(after, source, items)
  {
  }

  lemma ItemsAreListed(source: Source, ids: seq<nat>)
    requires SourceOk(source) && forall i | i in ids :: i in source
    ensures forall item | item in ItemsAt(source, ids) :: item.SourceId() in source && source[item.SourceId()] == item
    ensures forall i | i in ids :: source[i] in ItemsAt(source, ids)
  {
    var items := ItemsAt(source, ids);
    forall item | item in items
      ensures item.SourceId() in source && source[item.SourceId()] == item
    {
      var k :| 0 <= k < |items| && items[k] == item;
      assert ids[k] in ids;
    }
    forall i | i in ids
      ensures source[i] in items
    {
      var k :| 0 <= k < |ids| && ids[k] == i;
      assert items[k] == source[i];
    }
  }

  lemma ComparisonMends(db: Db, jobs: Source, steps: Source)
    requires Whole(jobs, steps) && OneToOne(db.jobs, jobs)
    ensures Mends(db, jobs, steps, ListedFor(db, jobs, steps))
  {
    ListingsAreListed(db, jobs, steps);
    JobsListed(db, jobs);
    StepsListed(db, steps);
  }

  lemma JobsListed(db: Db, jobs: Source)
    requires SourceOk(jobs) && AllOf(TRIP_JOB, jobs) && OneToOne(db.jobs, jobs)
    ensures var ids := Listing(Versions(jobs), JobVersions(db.jobs));
            (forall i | i in ids :: i in jobs) && PresentOrListed(db, jobs, ItemsAt(jobs, ids))
  {
    var source, local := Versions(jobs), JobVersions(db.jobs);
    var ids := Listing(source, local);
    Listed(jobs, source.Keys - local.Keys, Stale(source, local));
    ItemsAreListed(jobs, ids);
    forall i | i in jobs && i !in ids
      ensures Present(db.jobs, db.steps, jobs[i])
    {
      RepairListLists(source, local);
      assert Local(local, i) == Some(source[i]) && OfEntity(TRIP_JOB, jobs[i]);
      LocalJob(db.jobs, jobs, i);
    }
  }

  lemma StepsListed(db: Db, steps: Source)
    requires SourceOk(steps) && AllOf(TRIP_STEP, steps)
    ensures var ids := Listing(Versions(steps), StepVersions(db.steps));
            && (forall i | i in ids :: i in steps) && PresentOrListed(db, steps, ItemsAt(steps, ids))
            && DistinctSteps(StepsIn(ItemsAt(steps, ids)))
  {
    var source, local := Versions(steps), StepVersions(db.steps);
    var ids := Listing(source, local);
    Listed(steps, source.Keys - local.Keys, Stale(source, local));
    ItemsAreListed(steps, ids);
    forall i | i in steps
      ensures steps[i].StepItem? && (i !in ids ==> Present(db.jobs, db.steps, steps[i]))
    {
      RepairListLists(source, local);
      assert OfEntity(TRIP_STEP, steps[i]);
      assert i !in ids ==> Local(local, i) == Some(source[i]);
    }
    ListedSteps(steps, ids);
  }

  lemma JobsMended(db: Db, jobs: Source, items: seq<Item>, now: Time, names: Names)
    requires SourceOk(jobs) && AllOf(TRIP_JOB, jobs) && SourceNamed(jobs, names) && OneToOneNames(names)
             && RowsNamed(db.jobs, names)
    requires PresentOrListed(db, jobs, items)
    ensures PageAfter(db, TRIP_JOB, items, now).Some? && AllPresent(PageAfter(db, TRIP_JOB, items, now).value, jobs)
    ensures Advances(db, PageAfter(db, TRIP_JOB, items, now).value)
  {
    JobsOfItems(items, jobs, names);
    NamedJobsAccepted(db.trips, db.jobs, JobsIn(items), names, now);
    PageMakesPresent(db, TRIP_JOB, items, now);
    var after := PageAfter(db, TRIP_JOB, items, now).value;
    StillPresentOrListed(db, after, jobs, items);
    forall i | i in jobs
      ensures Present(after.jobs, after.steps, jobs[i])
    {
      assert OfEntity(TRIP_JOB, jobs[i]);
    }
  }

  lemma {:induction false} JobsOfItems(items: seq<Item>, jobs: Source, names: Names)
    requires SourceOk(jobs) && SourceNamed(jobs, names)
    requires forall item | item in items :: item.SourceId() in jobs && jobs[item.SourceId()] == item
    ensures forall job | job in JobsIn(items) :: job.jobId == names(job.sourceId)
  {
    if items != [] {
      assert items[|items| - 1] in items;
      JobsOfItems(items[..|items| - 1], jobs, names);
    }
  }

  lemma {:induction false} StepsOfItems(items: seq<Item>, steps: Source)
    requires forall item | item in items :: item.SourceId() in steps && steps[item.SourceId()] == item
    ensures forall s | s in StepsIn(items) :: s.stepId in steps && steps[s.stepId] == StepItem(s)
  {
    if items != [] {
      assert items[|items| - 1] in items;
      StepsOfItems(items[..|items| - 1], steps);
    }
  }

  lemma StepsMended(db: Db, jobs: Source, steps: Source, items: seq<Item>, now: Time)
    requires Whole(jobs, steps) && AllPresent(db, jobs) && PresentOrListed(db, steps, items)
             && DistinctSteps(StepsIn(items))
    ensures PageAfter(db, TRIP_STEP, items, now).Some? && AllPresent(PageAfter(db, TRIP_STEP, items, now).value, steps)
    ensures Advances(db, PageAfter(db, TRIP_STEP, items, now).value)
  {
    StepsOfItems(items, steps);
    forall s | s in StepsIn(items)
      ensures Placed(db.jobs, db.steps, s)
    {
      assert JobRead(jobs, steps[s.stepId].step.jobId);
      var i :| i in jobs && OfEntity(TRIP_JOB, jobs[i]) && jobs[i].job.jobId == s.jobId;
      assert Present(db.jobs, db.steps, jobs[i]);
    }
    StepsNeedTheirJobs(db.jobs, db.steps, StepsIn(items));
    PageMakesPresent(db, TRIP_STEP, items, now);
    var after := PageAfter(db, TRIP_STEP, items, now).value;
    StillPresentOrListed(db, after, steps, items);
    forall i | i in steps
      ensures Present(after.jobs, after.steps, steps[i])
    {
      assert OfEntity(TRIP_STEP, steps[i]);
    }
  }

  /** A repair from such lists goes through, and leaves nothing missing. */
  lemma MendingWorks(db: Db, jobs: Source, steps: Source, listed: Repairs, now: Time, names: Names)
    requires Whole(jobs, steps) && SourceNamed(jobs, names) && OneToOneNames(names) && RowsNamed(db.jobs, names)
    requires Mends(db, jobs, steps, listed)
    ensures RepairedWith(db, listed.jobs, listed.steps, now).Some?
    ensures AllPresent(RepairedWith(db, listed.jobs, listed.steps, now).value, jobs)
    ensures AllPresent(RepairedWith(db, listed.jobs, listed.steps, now).value, steps)
  {
    JobsMended(db, jobs, listed.jobs, now, names);
    var between := PageAfter(db, TRIP_JOB, listed.jobs, now).value;
    StillPresentOrListed(db, between, steps, listed.steps);
    StepsMended(between, jobs, steps, listed.steps, now);
    AllStayPresent(between, PageAfter(between, TRIP_STEP, listed.steps, now).value, jobs);
  }

  predicate Services(turns: seq<Turn>) {
    forall i | 0 <= i < |turns| :: turns[i].Service?
  }

  predicate NoGrowth(turns: seq<Turn>) {
    forall i | 0 <= i < |turns| :: !turns[i].Grow?
  }

  lemma {:induction false} UpstreamStandsStill(o: Observed, turns: seq<Turn>)
    requires NoGrowth(turns)
    ensures Turns(o, turns).jobs == o.jobs && Turns(o, turns).steps == o.steps
    ensures Services(turns) ==> Turns(o, turns).listed == o.listed
  {
    if turns != [] {
      UpstreamStandsStill(o, turns[..|turns| - 1]);
      OneTurnStandsStill(Turns(o, turns[..|turns| - 1]), turns[|turns| - 1]);
    }
  }

  lemma OneTurnStandsStill(o: Observed, turn: Turn)
    requires !turn.Grow?
    ensures Turned(o, turn).jobs == o.jobs && Turned(o, turn).steps == o.steps
    ensures turn.Service? ==> Turned(o, turn).listed == o.listed
  {
  }

  lemma MendingLasts(o: Observed, between: seq<Turn>, names: Names)
    requires Truthful(o, names) && AllAllowed(o, between, names) && Services(between)
    requires o.listed.Some? && Mends(o.w.db, o.jobs, o.steps, o.listed.value)
    ensures var b := Turns(o, between);
            && Truthful(b, names) && b.jobs == o.jobs && b.steps == o.steps && b.listed == o.listed
            && Mends(b.w.db, b.jobs, b.steps, b.listed.value)
  {
    RunKeepsTruth(o, between, names);
    UpstreamStandsStill(o, between);
    AdvanceKeepsMending(o.w.db, Turns(o, between).w.db, o.jobs, o.steps, o.listed.value);
  }

  lemma RepairMends(b: Observed, names: Names)
    requires Truthful(b, names) && b.listed.Some? && Mends(b.w.db, b.jobs, b.steps, b.listed.value)
    ensures RepairOutcome(b).Some?
    ensures var c := Turned(b, ApplyRepair);
            && Truthful(c, names) && c.jobs == b.jobs && c.steps == b.steps
            && AllPresent(c.w.db, c.jobs) && AllPresent(c.w.db, c.steps)
  {
    HeldRowsAreNamed(b.w.db.jobs, b.jobs, names);
    MendingWorks(b.w.db, b.jobs, b.steps, b.listed.value, b.w.now, names);
    RepairKeepsTruth(b, names);
    RepairTurn(b);
  }

  lemma RepairTurn(o: Observed)
    requires RepairOutcome(o).Some?
    ensures Turned(o, ApplyRepair) == o.(w := o.w.(db := RepairOutcome(o).value), listed := None)
    ensures RepairOutcome(o) == RepairedWith(o.w.db, o.listed.value.jobs, o.listed.value.steps, o.w.now)
  {
  }

  lemma CleanLasts(c: Observed, later: seq<Turn>, names: Names)
    requires Truthful(c, names) && AllAllowed(c, later, names) && NoGrowth(later)
    requires AllPresent(c.w.db, c.jobs) && AllPresent(c.w.db, c.steps)
    ensures var d := Turns(c, later); Compared(d.w.db, d.jobs, d.steps).Passed()
  {
    RunKeepsTruth(c, later, names);
    UpstreamStandsStill(c, later);
    AllStayPresent(c.w.db, Turns(c, later).w.db, c.jobs);
    AllStayPresent(c.w.db, Turns(c, later).w.db, c.steps);
    PresentIsClean(Turns(c, later), names);
  }

  lemma ComparedMends(o: Observed, names: Names)
    requires Truthful(o, names) && o.readJobs == o.jobs && o.readSteps == o.steps
    ensures var a := Turned(o, Compare);
            && Truthful(a, names) && a.listed.Some? && a.jobs == o.jobs && a.steps == o.steps
            && Mends(a.w.db, a.jobs, a.steps, a.listed.value)
  {
    CompareKeepsTruth(o, names);
    ComparedHands(o);
    HeldIsOneToOne(o.w.db.jobs, o.jobs, names);
    ComparisonMends(o.w.db, o.jobs, o.steps);
  }

  /**
    After any run, a reconciliation of an upstream that stands still goes through, whatever the service
    does between its comparison and its repair; and from then on, until the upstream grows, every
    comparison with the upstream passes, whatever else the service does.
    */
  lemma ReconciliationPasses(start: Observed, before: seq<Turn>, between: seq<Turn>, later: seq<Turn>, names: Names)
    requires Truthful(start, names) && AllAllowed(start, before, names)
    requires Turns(start, before).readJobs == Turns(start, before).jobs
    requires Turns(start, before).readSteps == Turns(start, before).steps
    requires Services(between) && AllAllowed(Turned(Turns(start, before), Compare), between, names)
    requires NoGrowth(later)
    requires AllAllowed(Turned(Turns(Turned(Turns(start, before), Compare), between), ApplyRepair), later, names)
    ensures var b := Turns(Turned(Turns(start, before), Compare), between);
            var d := Turns(Turned(b, ApplyRepair), later);
            RepairOutcome(b).Some? && Compared(d.w.db, d.jobs, d.steps).Passed()
  {
    RunKeepsTruth(start, before, names);
    var a := Turned(Turns(start, before), Compare);
    ComparedMends(Turns(start, before), names);
    MendingLasts(a, between, names);
    RepairMends(Turns(a, between), names);
    CleanLasts(Turned(Turns(a, between), ApplyRepair), later, names);
  }
}
