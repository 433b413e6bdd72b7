/**
  A backfill that stops for good: a job is created after the maximum of the completed job backfill was
  frozen, and the step backfill meets its first step.
  */
module StoppedBackfill {
  import opened Schema
  import opened Finite
  import opened ProjectionSync
  import opened ProjectionBackfill

  /** The upstream has one job at first, then a later job with its first step. */
  datatype Late = Late(first: JobSnapshot, later: JobSnapshot, step: StepSnapshot)

  ghost predicate LateJob(l: Late, names: Names) {
    && OneToOneNames(names) && 0 < l.first.sourceId < l.later.sourceId && 0 < l.step.stepId
    && l.first.jobId == names(l.first.sourceId) && l.later.jobId == names(l.later.sourceId)
    && l.step.jobId == l.later.jobId
  }

  function FirstJob(l: Late): Source { map[l.first.sourceId := JobItem(l.first)] }
  function BothJobs(l: Late): Source { map[l.first.sourceId := JobItem(l.first), l.later.sourceId := JobItem(l.later)] }
  function TheStep(l: Late): Source { map[l.step.stepId := StepItem(l.step)] }

  /** Nothing is backfilled yet, and nobody else has brought the later job or its step. */
  ghost predicate AtFirst(s: Sync, l: Late, names: Names) {
    && Unstarted(s, names) && s.jobs == FirstJob(l) && s.steps == map[]
    && l.later.jobId !in s.db.jobs && l.step.stepId !in s.db.steps
  }

  /** The jobs are backfilled, the upstream grows, and the first page of steps is refused. */
  function LateTurns(l: Late, limit: nat, now: Time): seq<Turn> {
    [Fetch(TRIP_JOB, limit), Commit(now), Upstream(BothJobs(l), TheStep(l)), Fetch(TRIP_STEP, limit), Commit(now)]
  }

  lemma OneMore(s: Sync, turns: seq<Turn>, turn: Turn, names: Names)
    ensures Turns(s, turns + [turn]) == Turned(Turns(s, turns), turn)
    ensures AllAllowed(s, turns + [turn], names)
            <==> AllAllowed(s, turns, names) && Allowed(Turns(s, turns), turn, names)
  {
    assert (turns + [turn])[..|turns|] == turns;
  }

  /** A source of one row is one page, whatever the limit. */
  lemma OneRowPage(source: Source, i: nat, limit: nat)
    requires limit >= 1 && i > 0 && source.Keys == {i}
    ensures Serve(source, 0, None, limit) == Page([source[i]], i, false, None)
  {
    assert Greatest(source.Keys) == i;
    var ids := Sorted(Window(source.Keys, 0, i));
    SortedElements(Window(source.Keys, 0, i));
    SameAscending(ids, [i]);
    assert ItemsAt(source, Shown(ids, limit)) == [source[i]];
  }

  lemma FirstPage(b: Backfill, entity: Entity, i: nat, limit: nat)
    requires limit >= 1 && i > 0 && b.source.Keys == {i} && CheckpointOf(b.db, entity).None?
    ensures NextPage(b, entity, limit) == Some(Page([b.source[i]], i, false, None))
  {
    OneRowPage(b.source, i, limit);
  }

  /** After the first two turns. */
  ghost predicate JobsDone(s: Sync, l: Late, names: Names) {
    && WorkerOk(s, names) && s.held.None? && s.jobs == FirstJob(l) && s.steps == map[]
    && Completed(View(s, TRIP_JOB), TRIP_JOB) && CheckpointOf(s.db, TRIP_STEP).None?
    && l.first.jobId in s.db.jobs && l.later.jobId !in s.db.jobs && l.step.stepId !in s.db.steps
  }

  lemma FirstJobIsFetched(s: Sync, l: Late, names: Names, limit: nat)
    requires LateJob(l, names) && AtFirst(s, l, names) && 1 <= limit <= 1000
    ensures Allowed(s, Fetch(TRIP_JOB, limit), names)
    ensures Turned(s, Fetch(TRIP_JOB, limit)) == s.(held := Some(Held(TRIP_JOB, FirstJobPage(l))))
    ensures WorkerOk(Turned(s, Fetch(TRIP_JOB, limit)), names)
  {
    FirstPage(View(s, TRIP_JOB), TRIP_JOB, l.first.sourceId, limit);
    UnstartedIsOk(s, names);
    FetchIsOk(s, TRIP_JOB, limit, names);
    FetchHolds(s, TRIP_JOB, limit, FirstJobPage(l));
  }

  function FirstJobPage(l: Late): Page { Page([JobItem(l.first)], l.first.sourceId, false, None) }

  lemma FirstJobIsStored(s: Sync, l: Late, names: Names, now: Time)
    requires LateJob(l, names) && WorkerOk(s, names) && s.held == Some(Held(TRIP_JOB, FirstJobPage(l)))
    requires s.jobs == FirstJob(l) && s.steps == map[] && s.db.checkpoints == map[]
    requires l.later.jobId !in s.db.jobs && l.step.stepId !in s.db.steps
    ensures JobsDone(Turned(s, Commit(now)), l, names)
  {
    CommitIsOk(s, now, names);
    FirstCommit(s.db, FirstJobPage(l), l, names, now);
    CommitFields(s, now);
  }

  lemma UnstartedIsOk(s: Sync, names: Names)
    requires Unstarted(s, names)
    ensures WorkerOk(s, names)
  {
  }

  lemma FetchHolds(s: Sync, entity: Entity, limit: nat, p: Page)
    requires limit >= 1 && NextPage(View(s, entity), entity, limit) == Some(p) && PageError(p).None?
    ensures Turned(s, Fetch(entity, limit)) == s.(held := Some(Held(entity, p)))
  {
  }

  lemma CommitFields(s: Sync, now: Time)
    requires s.held.Some?
    ensures var r := Turned(s, Commit(now));
            r.jobs == s.jobs && r.steps == s.steps && r.held.None?
            && r.db == CommitOutcome(s.db, s.held.value.entity, s.held.value.page, now).0
  {
  }

  lemma FirstCommit(db: Db, p: Page, l: Late, names: Names, now: Time)
    requires LateJob(l, names) && p == FirstJobPage(l)
    requires RowsNamed(db.jobs, names) && db.checkpoints == map[] && l.later.jobId !in db.jobs
             && l.step.stepId !in db.steps
    ensures var after := CommitOutcome(db, TRIP_JOB, p, now).0;
            && after.checkpoints == map[TRIP_JOB := Checkpoint(Some(l.first.sourceId), l.first.sourceId, Some(now))]
            && l.first.jobId in after.jobs && l.later.jobId !in after.jobs && l.step.stepId !in after.steps
  {
    NamedPageAccepted(db, p, names, now);
    assert JobItem(l.first) in p.items;
    assert JobIds(p.items) == {l.first.jobId};
    CommitTouchesOneCheckpoint(db, TRIP_JOB, p, now);
  }

  /** The jobs are complete, and every first page of steps is refused. */
  ghost predicate Stuck(s: Sync, names: Names) {
    && WorkerOk(s, names) && Completed(View(s, TRIP_JOB), TRIP_JOB) && !Completed(View(s, TRIP_STEP), TRIP_STEP)
    && forall limit, now | limit >= 1 :: Refuses(s, limit, now)
  }

  ghost predicate Refuses(s: Sync, limit: nat, now: Time)
    requires limit >= 1
  {
    NextRefused(View(s, TRIP_STEP), TRIP_STEP, limit, now)
  }

  lemma GrowthIsAllowed(s: Sync, l: Late, names: Names)
    requires LateJob(l, names) && s.jobs == FirstJob(l) && s.steps == map[]
    ensures Allowed(s, Upstream(BothJobs(l), TheStep(l)), names)
  {
  }

  lemma GrownIsStuck(s: Sync, l: Late, names: Names)
    requires LateJob(l, names) && JobsDone(s, l, names)
    ensures Allowed(s, Upstream(BothJobs(l), TheStep(l)), names)
    ensures Stuck(Turned(s, Upstream(BothJobs(l), TheStep(l))), names)
  {
    GrowthIsAllowed(s, l, names);
    GrowthIsOk(s, BothJobs(l), TheStep(l), names);
    FirstStepsAreRefused(s.(jobs := BothJobs(l), steps := TheStep(l)), l);
  }

  lemma FirstStepsAreRefused(s: Sync, l: Late)
    requires 0 < l.step.stepId && l.step.jobId !in s.db.jobs && l.step.stepId !in s.db.steps
    requires s.steps == TheStep(l) && CheckpointOf(s.db, TRIP_STEP).None?
    ensures forall limit, now | limit >= 1 :: Refuses(s, limit, now)
  {
    forall limit, now: Time | limit >= 1
      ensures Refuses(s, limit, now)
    {
      FirstPage(View(s, TRIP_STEP), TRIP_STEP, l.step.stepId, limit);
      OrphanRefused(s.db, l.step, now);
    }
  }

  lemma OrphanRefused(db: Db, step: StepSnapshot, now: Time)
    requires step.jobId !in db.jobs && step.stepId !in db.steps
    ensures PageAfter(db, TRIP_STEP, [StepItem(step)], now).None?
  {
    assert StepItem(step) in [StepItem(step)] && Orphan(db, StepItem(step));
    StepPageRefused(db, [StepItem(step)], now);
  }

  /** The worker's own turns. */
  predicate OwnTurns(turns: seq<Turn>) {
    forall i | 0 <= i < |turns| :: turns[i].Fetch? || turns[i].Commit? || turns[i].Crash?
  }

  /** Idle, or with a page in its hands that will be refused. */
  ghost predicate Doomed(s: Sync) {
    s.held.Some? ==> s.held.value.entity == TRIP_STEP
                     && forall now :: PageAfter(s.db, TRIP_STEP, s.held.value.page.items, now).None?
  }

  lemma OwnTurnChangesNothing(s: Sync, turn: Turn, names: Names)
    requires OneToOneNames(names) && Stuck(s, names) && Doomed(s) && Allowed(s, turn, names)
    requires turn.Fetch? || turn.Commit? || turn.Crash?
    ensures Turned(s, turn).db == s.db && Stuck(Turned(s, turn), names) && Doomed(Turned(s, turn))
  {
    TurnIsOk(s, turn, names);
    OnlyHeldChanges(s, turn, names);
    StuckAsBefore(s, Turned(s, turn), names);
  }

  lemma OnlyHeldChanges(s: Sync, turn: Turn, names: Names)
    requires Stuck(s, names) && Doomed(s) && Allowed(s, turn, names) && (turn.Fetch? || turn.Commit? || turn.Crash?)
    ensures Turned(s, turn) == s.(held := Turned(s, turn).held) && Doomed(Turned(s, turn))
  {
    match turn
    case Fetch(entity, limit) =>
      FetchIsDoomed(s, limit, names);
    case Commit(now) =>
      OnlyRefusalStops(View(s, TRIP_STEP), TRIP_STEP, s.held.value.page, now);
    case Crash =>
  }

  lemma FetchIsDoomed(s: Sync, limit: nat, names: Names)
    requires Stuck(s, names) && Allowed(s, Fetch(TRIP_STEP, limit), names)
    ensures Doomed(Turned(s, Fetch(TRIP_STEP, limit)))
  {
    NextIsFetched(View(s, TRIP_STEP), TRIP_STEP, limit);
    var p := NextPage(View(s, TRIP_STEP), TRIP_STEP, limit).value;
    FetchHolds(s, TRIP_STEP, limit, p);
    forall now: Time
      ensures PageAfter(s.db, TRIP_STEP, p.items, now).None?
    {
      assert Refuses(s, limit, now);
    }
  }

  lemma StuckAsBefore(s: Sync, r: Sync, names: Names)
    requires Stuck(s, names) && WorkerOk(r, names) && r == s.(held := r.held)
    ensures Stuck(r, names)
  {
    assert View(r, TRIP_STEP) == View(s, TRIP_STEP) && View(r, TRIP_JOB) == View(s, TRIP_JOB);
    forall limit, now | limit >= 1
      ensures Refuses(r, limit, now)
    {
      assert Refuses(s, limit, now);
    }
  }

  /** No retry helps: however often the worker fetches, commits and is restarted, nothing is stored any more. */
  lemma {:induction false} RetriesChangeNothing(s: Sync, turns: seq<Turn>, names: Names)
    requires OneToOneNames(names) && Stuck(s, names) && Doomed(s) && OwnTurns(turns) && AllAllowed(s, turns, names)
    ensures Turns(s, turns).db == s.db && Stuck(Turns(s, turns), names) && Doomed(Turns(s, turns))
  {
    if turns != [] {
      var front := turns[..|turns| - 1];
      RetriesChangeNothing(s, front, names);
      OwnTurnChangesNothing(Turns(s, front), turns[|turns| - 1], names);
    }
  }

  /**
    A backfill from the start that stops: after five turns the job backfill is complete with its row
    stored, and the page of steps is refused; so is every later one, until somebody else brings the job.
    */
  lemma StepBackfillCanStop(s: Sync, l: Late, names: Names, limit: nat, now: Time, retries: seq<Turn>)
    requires LateJob(l, names) && AtFirst(s, l, names) && 1 <= limit <= 1000
    requires OwnTurns(retries) && AllAllowed(Turns(s, LateTurns(l, limit, now)), retries, names)
    ensures AllAllowed(s, LateTurns(l, limit, now), names)
    ensures var r := Turns(s, LateTurns(l, limit, now));
            && WorkerOk(r, names) && Completed(View(r, TRIP_JOB), TRIP_JOB) && l.first.jobId in r.db.jobs
            && Turns(r, retries).db == r.db && !Completed(View(Turns(r, retries), TRIP_STEP), TRIP_STEP)
  {
    var turns := LateTurns(l, limit, now);
    var a, b := Turned(s, turns[0]), Turned(Turned(s, turns[0]), turns[1]);
    FirstJobIsFetched(s, l, names, limit);
    FirstJobIsStored(a, l, names, now);
    var c := Turned(b, turns[2]);
    GrownIsStuck(b, l, names);
    assert Refuses(c, limit, now);
    var d := Turned(c, turns[3]);
    OwnTurnChangesNothing(c, turns[3], names);
    FetchIsOk(c, TRIP_STEP, limit, names);
    OwnTurnChangesNothing(d, turns[4], names);
    InFiveTurns(s, turns, names);
    RetriesChangeNothing(Turned(d, turns[4]), retries, names);
  }

  lemma InFiveTurns(s: Sync, turns: seq<Turn>, names: Names)
    requires |turns| == 5
    requires Allowed(s, turns[0], names) && Allowed(Turned(s, turns[0]), turns[1], names)
    requires var b := Turned(Turned(s, turns[0]), turns[1]);
             Allowed(b, turns[2], names) && Allowed(Turned(b, turns[2]), turns[3], names)
             && Allowed(Turned(Turned(b, turns[2]), turns[3]), turns[4], names)
    ensures AllAllowed(s, turns, names)
    ensures Turns(s, turns) == Turned(Turned(Turned(Turned(Turned(s, turns[0]), turns[1]), turns[2]), turns[3]),
              turns[4])
  {
    OneMore(s, [], turns[0], names);
    OneMore(s, [turns[0]], turns[1], names);
    OneMore(s, [turns[0], turns[1]], turns[2], names);
    OneMore(s, [turns[0], turns[1], turns[2]], turns[3], names);
    OneMore(s, [turns[0], turns[1], turns[2], turns[3]], turns[4], names);
    assert [] + [turns[0]] == [turns[0]];
    assert [turns[0]] + [turns[1]] == [turns[0], turns[1]];
    assert [turns[0], turns[1]] + [turns[2]] == [turns[0], turns[1], turns[2]];
    assert [turns[0], turns[1], turns[2]] + [turns[3]] == [turns[0], turns[1], turns[2], turns[3]];
    assert [turns[0], turns[1], turns[2], turns[3]] + [turns[4]] == turns;
  }
}
