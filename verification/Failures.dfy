/** Runs that end on the failing side of a condition proved elsewhere. */
module Failures {
  import opened Schema
  import opened Projection
  import opened ProjectionSync
  import opened Quota
  import opened AccountClosure
  import opened ProjectionReconciliation
  import opened Admin
  import opened Money
  import opened Reversals
  import opened World
  import Frames
  import opened Idempotency
  import opened System
  import opened UpstreamRuns

  lemma OneMoreOp(w: World, ops: seq<Op>, op: Op)
    ensures Run(w, ops + [op]) == Next(Run(w, ops), op)
    ensures Possible(w, ops + [op]) <==> Possible(w, ops) && Enabled(Run(w, ops), op)
  {
    assert (ops + [op])[..|ops|] == ops;
  }

  // ---- A reversal that is not repeated -------------------------------------------------------

  /** The owner grants some units and, under another key, takes them back. */
  datatype Correction = Correction(caller: Context, user: Id, delta: int, note: string, key: Id, backKey: Id) {
    function Grant(): Change { Change(user, delta, note, None) }
    function Back(original: nat): Change { Change(user, -delta, note, Some(original)) }
  }

  ghost predicate Correctable(db: Db, x: Correction) {
    && x.caller.isOwner && x.user in db.users && x.delta > 0 && x.key != x.backKey
    && KeyOf(x.caller.actor, x.key) !in db.records && KeyOf(x.caller.actor, x.backKey) !in db.records
  }

  lemma GrantIsDone(db: Db, x: Correction)
    requires MoneyOk(db) && Correctable(db, x)
    ensures AdjustOutcome(db, x.caller, x.Grant(), x.key).1.Done?
  {
    ClampNeverFires(db, x.user);
    assert Used(db.entries, x.user) <= Limit(db.grants, db.adjustments, x.user);
    GrantWith(db, x, Snapshot(db, x.user));
  }

  lemma GrantWith(db: Db, x: Correction, read: QuotaSnapshot)
    requires Correctable(db, x) && read.Remaining() >= 0
    ensures AdjustWith(db, x.caller, x.Grant(), x.key, read).1.Done?
  {
  }

  /** What the grant leaves for the reversal to find. */
  ghost predicate Granted(db: Db, x: Correction, n: nat) {
    && MoneyOk(db) && x.user in db.users && KeyOf(x.caller.actor, x.backKey) !in db.records
    && n < |db.adjustments| && db.adjustments[n].target == Some(x.user) && db.adjustments[n].delta == x.delta
    && !Reversed(db.adjustments, n) && Free(db, x.user) >= x.delta
  }

  lemma GrantIsGranted(db: Db, x: Correction)
    requires MoneyOk(db) && ChainsOk(db.adjustments) && Correctable(db, x)
    ensures Granted(AdjustOutcome(db, x.caller, x.Grant(), x.key).0, x, |db.adjustments|)
  {
    GrantIsDone(db, x);
    var read, after := Snapshot(db, x.user), AdjustOutcome(db, x.caller, x.Grant(), x.key).0;
    AdjustCases(db, x.caller, x.Grant(), x.key, read);
    AdjustWriteTables(db, x.caller, x.Grant(), x.key, read);
    AdjustRecords(db, x.caller, x.Grant(), x.key);
    AdjustmentIsExact(db, x.caller, x.Grant(), x.key);
    ClampNeverFires(db, x.user);
    ClampNeverFires(after, x.user);
    NothingReversesIt(db.adjustments, after.adjustments[|db.adjustments|]);
  }

  lemma NothingReversesIt(adjustments: seq<Adjustment>, a: Adjustment)
    requires ChainsOk(adjustments) && a.reverses.None?
    ensures !Reversed(adjustments + [a], |adjustments|)
  {
    forall i | 0 <= i < |adjustments|
      ensures (adjustments + [a])[i].reverses != Some(|adjustments|)
    {
      assert LinkOk(adjustments, i);
    }
  }

  lemma ReversalIsDone(db: Db, x: Correction, n: nat)
    requires x.caller.isOwner && x.delta > 0 && Granted(db, x, n)
    ensures ReverseOutcome(db, x.caller, n, x.note, x.backKey).1.Done?
    ensures ReverseOutcome(db, x.caller, n, x.note, x.backKey) == AdjustOutcome(db, x.caller, x.Back(n), x.backKey)
  {
    assert ReversalOf(db, n, x.note) == Some(x.Back(n));
    ClampNeverFires(db, x.user);
  }

  /** The account may be closed with this code. */
  ghost predicate Closable(db: Db, u: Id, c: Id, code: string, now: Time) {
    CloseRefusal(db, u, c, now).None? && code == db.challenges[c].code && ActiveTrips(db.trips, u) == {}
  }

  /** Adjustments do not get in the way of a closure. */
  lemma AdjustmentKeepsClosable(db: Db, x: Correction, change: Change, key: Id, c: Id, code: string, now: Time)
    requires Closable(db, x.user, c, code, now)
    ensures Closable(AdjustOutcome(db, x.caller, change, key).0, x.user, c, code, now)
  {
    Frames.AdjustTouches(db, x.caller, change, key);
    KeptClosable(db, AdjustOutcome(db, x.caller, change, key).0, x.user, c, code, now);
  }

  lemma KeptClosable(a: Db, b: Db, u: Id, c: Id, code: string, now: Time)
    requires Frames.Only(a, b, {Frames.Adjustments, Frames.Records}) && Closable(a, u, c, code, now)
    ensures Closable(b, u, c, code, now)
  {
  }

  /** Once the account is gone its adjustments name nobody, and a repeated reversal finds none. */
  lemma ClosedIsNotFound(db: Db, x: Correction, n: nat, c: Id, code: string, now: Time)
    requires Closable(db, x.user, c, code, now) && n < |db.adjustments| && db.adjustments[n].target == Some(x.user)
    ensures var after := CloseOutcome(db, x.user, c, code, now).0;
            ReverseOutcome(after, x.caller, n, x.note, x.backKey) == (after, NotFound)
  {
    CloseIsAllOrAttempt(db, x.user, c, code, now);
    CloseWriteTables(db, x.user, now);
    var after := CloseWrite(db, x.user, now);
    assert after.adjustments[n] == Forgotten(db.adjustments[n], x.user);
  }

  /**
    A run that reverses an adjustment, closes the account, and repeats the reversal with the same key and
    note: the answer is NOT_FOUND and not the first response.
    */
  lemma ClosureEndsReplay(w: World, x: Correction, c: Id, code: string)
    requires Inv(w) && Correctable(w.db, x) && Closable(w.db, x.user, c, code, w.now)
    ensures var n := |w.db.adjustments|;
            var granted := [Adjust(x.caller, x.Grant(), x.key)];
            var reversed := granted + [Reverse(x.caller, n, x.note, x.backKey)];
            var closed := reversed + [Close(x.user, c, code)];
            && Possible(w, closed)
            && ReverseOutcome(Run(w, granted).db, x.caller, n, x.note, x.backKey).1.Done?
            && ReverseOutcome(Run(w, reversed).db, x.caller, n, x.note, x.backKey).1.Replayed?
            && ReverseOutcome(Run(w, closed).db, x.caller, n, x.note, x.backKey) == (Run(w, closed).db, NotFound)
  {
    var n := |w.db.adjustments|;
    var grant, back, close :=
        Adjust(x.caller, x.Grant(), x.key), Reverse(x.caller, n, x.note, x.backKey), Close(x.user, c, code);
    var a := AdjustOutcome(w.db, x.caller, x.Grant(), x.key).0;
    GrantIsGranted(w.db, x);
    AdjustmentKeepsClosable(w.db, x, x.Grant(), x.key, c, code, w.now);
    var b := AdjustOutcome(a, x.caller, x.Back(n), x.backKey).0;
    ReversalIsDone(a, x, n);
    AdjustmentKeepsClosable(a, x, x.Back(n), x.backKey, c, code, w.now);
    AdjustRecords(a, x.caller, x.Back(n), x.backKey);
    BackIsReplayed(a, x, n);
    ClosedIsNotFound(b, x, n, c, code, w.now);
    AfterThree(w, grant, back, close);
    ThreeOps(w, grant, back, close);
  }

  lemma BackIsReplayed(db: Db, x: Correction, n: nat)
    requires x.caller.isOwner && x.delta > 0 && Granted(db, x, n)
    ensures var after := AdjustOutcome(db, x.caller, x.Back(n), x.backKey).0;
            && n < |after.adjustments| && after.adjustments[n].target == Some(x.user)
            && ReverseOutcome(after, x.caller, n, x.note, x.backKey).1.Replayed?
  {
    ReversalIsDone(db, x, n);
    AdjustRecords(db, x.caller, x.Back(n), x.backKey);
    var after := AdjustOutcome(db, x.caller, x.Back(n), x.backKey).0;
    assert after.adjustments[n] == after.adjustments[..|db.adjustments|][n];
    Frames.AdjustTouches(db, x.caller, x.Back(n), x.backKey);
    ReverseReplay(after, x.caller, n, x.note, x.backKey, x.Back(n));
  }

  lemma AfterThree(w: World, a: Op, b: Op, c: Op)
    requires a.Adjust? && b.Reverse? && c.Close?
    ensures var first := AdjustOutcome(w.db, a.caller, a.change, a.key).0;
            var second := ReverseOutcome(first, b.caller, b.original, b.note, b.key).0;
            && Next(w, a).db == first && Next(Next(w, a), b).db == second
            && Next(Next(Next(w, a), b), c).db == CloseOutcome(second, c.user, c.challenge, c.code, w.now).0
  {
  }

  lemma ThreeOps(w: World, a: Op, b: Op, c: Op)
    requires a.Adjust? && b.Reverse? && c.Close?
    ensures Possible(w, [a] + [b] + [c])
    ensures Run(w, [a]) == Next(w, a) && Run(w, [a] + [b]) == Next(Next(w, a), b)
    ensures Run(w, [a] + [b] + [c]) == Next(Next(Next(w, a), b), c)
  {
    OneMoreOp(w, [], a);
    assert [] + [a] == [a];
    OneMoreOp(w, [a], b);
    OneMoreOp(w, [a] + [b], c);
  }

  // ---- A copy that is overtaken --------------------------------------------------------------

  /** The job moves on after the source was read: the event is newer than the copy. */
  ghost predicate MovedOn(e: Event, copy: JobSnapshot, names: Names) {
    && OneToOneNames(names) && e.Valid() && e.sequence == 1 && e.steps == [] && 0 < copy.sourceId
    && e.job.jobId == copy.jobId && e.job.sourceId == copy.sourceId && copy.version < e.job.version
    && names(copy.sourceId) == copy.jobId
  }

  /** A source with one job. */
  function Only(job: JobSnapshot): Source {
    map[job.sourceId := JobItem(job)]
  }

  lemma FirstEventApplies(db: Db, e: Event, now: Time)
    requires db.jobs == map[] && db.steps == map[] && db.events == map[] && e.Valid() && e.sequence == 1
             && e.steps == []
    requires db.consumer.Some? && db.consumer.value.stream == ACTIVE && db.consumer.value.next == 1
    ensures var after := EventOutcome(db, e, false, now).0;
            after.jobs == map[e.job.jobId := JobRowAfter(db.trips, None, e.job, now)] && after.steps == map[]
  {
    assert InIdOrder(e.steps) == [];
    assert JobsAfter(db.trips, db.jobs, e.job, now)
      == Some(map[e.job.jobId := JobRowAfter(db.trips, None, e.job, now)]);
  }

  /** A new installation beside an upstream with these jobs and no steps. */
  function Beside(maxAttempts: nat, now: Time, jobs: Source): Observed {
    Observed(Installed(maxAttempts, now), jobs, map[], map[], map[], None)
  }

  /** The source is read, the job moves on, and its event arrives before the comparison. */
  function Overtaken(e: Event, copy: JobSnapshot): seq<Turn> {
    [ReadJobs(Only(copy))] + [Grow(Only(e.job), map[])] + [ReadSteps(map[])] + [Service(Deliver(e, false))]
  }

  /** What the comparison then stands before. */
  ghost predicate ReadTooEarly(r: Observed, e: Event, copy: JobSnapshot) {
    && r.jobs == Only(e.job) && r.steps == map[] && r.readJobs == Only(copy) && r.readSteps == map[]
    && r.w.db.jobs.Keys == {copy.jobId} && r.w.db.steps == map[]
    && r.w.db.jobs[copy.jobId].sourceId == copy.sourceId && r.w.db.jobs[copy.jobId].version == e.job.version
  }

  lemma OvertakenTurns(o: Observed, e: Event, copy: JobSnapshot, names: Names)
    ensures Turns(o, Overtaken(e, copy))
         == o.(readJobs := Only(copy), jobs := Only(e.job), steps := map[], readSteps := map[],
             w := Next(o.w, Deliver(e, false)))
    ensures Allowed(o, ReadJobs(Only(copy)), names)
            && Allowed(o.(readJobs := Only(copy)), Grow(Only(e.job), map[]), names)
            && Allowed(o.(readJobs := Only(copy), jobs := Only(e.job), steps := map[]), ReadSteps(map[]), names)
            && Allowed(o.(readJobs := Only(copy), jobs := Only(e.job), steps := map[], readSteps := map[]),
                       Service(Deliver(e, false)), names)
            ==> AllAllowed(o, Overtaken(e, copy), names)
  {
    var a, b, c, d := ReadJobs(Only(copy)), Grow(Only(e.job), map[]), ReadSteps(map[]), Service(Deliver(e, false));
    TurnsOneMore(o, [], a, names);
    assert [] + [a] == [a];
    TurnsOneMore(o, [a], b, names);
    TurnsOneMore(o, [a] + [b], c, names);
    TurnsOneMore(o, [a] + [b] + [c], d, names);
    var reading := o.(readJobs := Only(copy));
    assert Turned(o, a) == reading;
    var grown := reading.(jobs := Only(e.job), steps := map[]);
    assert Turned(reading, b) == grown;
    assert Turned(grown, c) == grown.(readSteps := map[]);
    ServiceTurn(grown.(readSteps := map[]), Deliver(e, false));
  }

  lemma JobMovesOn(e: Event, copy: JobSnapshot, names: Names)
    requires MovedOn(e, copy, names)
    ensures Grows(Only(copy), Only(e.job)) && Whole(Only(e.job), map[]) && SourceNamed(Only(e.job), names)
    ensures Whole(Only(copy), map[]) && SourceNamed(Only(copy), names)
    ensures Copied(Only(copy), Only(copy)) && Held(Only(e.job), JobItem(e.job))
  {
  }

  lemma OvertakenIsAllowed(o: Observed, e: Event, copy: JobSnapshot, names: Names)
    requires MovedOn(e, copy, names) && o.jobs == Only(copy) && o.steps == map[]
    ensures AllAllowed(o, Overtaken(e, copy), names)
  {
    OvertakenTurns(o, e, copy, names);
    JobMovesOn(e, copy, names);
    NothingIsCopied();
  }

  lemma NothingIsCopied()
    ensures Grows(map[], map[]) && Copied(map[], map[])
  {
  }

  lemma OvertakenIsReadTooEarly(maxAttempts: nat, now: Time, e: Event, copy: JobSnapshot, names: Names)
    requires MovedOn(e, copy, names)
    ensures ReadTooEarly(Turns(Beside(maxAttempts, now, Only(copy)), Overtaken(e, copy)), e, copy)
  {
    var start := Beside(maxAttempts, now, Only(copy));
    OvertakenTurns(start, e, copy, names);
    FirstEventApplies(start.w.db, e, now);
    FirstDelivery(Installed(maxAttempts, now), e);
  }

  lemma FirstDelivery(w: World, e: Event)
    ensures Next(w, Deliver(e, false)).db == EventOutcome(w.db, e, false, w.now).0
  {
  }

  lemma TooEarlyIsStale(r: Observed, e: Event, copy: JobSnapshot, names: Names)
    requires MovedOn(e, copy, names) && ReadTooEarly(r, e, copy)
    ensures Comparable(r.w.db, r.readJobs, r.readSteps)
    ensures Compared(r.w.db, r.readJobs, r.readSteps).staleJobs == {copy.sourceId}
    ensures Ahead(Versions(r.readJobs), JobVersions(r.w.db.jobs)) == {copy.sourceId}
  {
    assert OneToOne(r.w.db.jobs, Only(copy));
    LocalJob(r.w.db.jobs, Only(copy), copy.sourceId);
    assert Versions(Only(copy))[copy.sourceId] == copy.version;
  }

  /** The comparison and the repair, one right after the other. */
  function Repairing(r: Observed): Observed {
    Turned(Turned(r, Compare), ApplyRepair)
  }

  lemma RepairingIs(r: Observed)
    ensures RepairOutcome(Turned(r, Compare)) == Repaired(r.w.db, r.readJobs, r.readSteps, r.w.now)
    ensures Repaired(r.w.db, r.readJobs, r.readSteps, r.w.now).Some? ==>
              Repairing(r).w.db == Repaired(r.w.db, r.readJobs, r.readSteps, r.w.now).value
    ensures Repaired(r.w.db, r.readJobs, r.readSteps, r.w.now).None? ==> Repairing(r).w.db == r.w.db
  {
    ComparedHands(r);
    if RepairOutcome(Turned(r, Compare)).Some? {
      RepairTurn(Turned(r, Compare));
    } else {
      RefusedTurn(Turned(r, Compare));
    }
  }

  lemma RefusedTurn(o: Observed)
    requires RepairOutcome(o).None?
    ensures Turned(o, ApplyRepair).w == o.w
  {
  }

  /** Counted as stale, although the projection is exactly what the upstream holds. */
  ghost predicate CountedThoughRight(r: Observed, i: nat) {
    Compared(r.w.db, r.readJobs, r.readSteps).staleJobs == {i} && Compared(r.w.db, r.jobs, r.steps).Passed()
  }

  /** The repair goes through, the row holds what it held, and the next reading of the upstream passes. */
  ghost predicate RepairedForNothing(r: Observed, j: Id) {
    && RepairOutcome(Turned(r, Compare)).Some? && SameSources(r.w.db.jobs, Repairing(r).w.db.jobs, j)
    && Compared(Repairing(r).w.db, Repairing(r).jobs, Repairing(r).steps).Passed()
  }

  ghost predicate SameSources(before: map<Id, JobRow>, after: map<Id, JobRow>, j: Id) {
    j in before && j in after && JobSourcesOf(after)[j] == JobSourcesOf(before)[j]
  }

  lemma RepairAddsNothing(r: Observed, e: Event, copy: JobSnapshot, now: Time, names: Names)
    requires MovedOn(e, copy, names) && ReadTooEarly(r, e, copy)
    ensures Repaired(r.w.db, r.readJobs, r.readSteps, now).Some?
    ensures SameSources(r.w.db.jobs, Repaired(r.w.db, r.readJobs, r.readSteps, now).value.jobs, copy.jobId)
  {
    TooEarlyIsStale(r, e, copy, names);
    RepairRefusedExactly(r.w.db, r.readJobs, r.readSteps, now);
    AheadRowsStay(r.w.db, r.readJobs, r.readSteps, now);
  }

  lemma NothingIsMissing(r: Observed, e: Event, copy: JobSnapshot, names: Names)
    requires MovedOn(e, copy, names) && ReadTooEarly(r, e, copy) && Truthful(r, names)
    ensures AllPresent(r.w.db, r.jobs) && AllPresent(r.w.db, r.steps)
    ensures Compared(r.w.db, r.jobs, r.steps).Passed()
  {
    PresentIsClean(r, names);
  }

  lemma RepairingStaysClean(r: Observed, names: Names)
    requires Truthful(r, names) && AllPresent(r.w.db, r.jobs) && AllPresent(r.w.db, r.steps)
    ensures Compared(Repairing(r).w.db, Repairing(r).jobs, Repairing(r).steps).Passed()
  {
    var a := Turned(r, Compare);
    ComparedHands(r);
    CompareKeepsTruth(r, names);
    RepairKeepsTruth(a, names);
    OneTurnStandsStill(a, ApplyRepair);
    AllStayPresent(r.w.db, Repairing(r).w.db, r.jobs);
    AllStayPresent(r.w.db, Repairing(r).w.db, r.steps);
    PresentIsClean(Repairing(r), names);
  }

  /**
    A run in which the job moves on between the reading and the comparison: its row is counted as stale,
    although the projection is exactly what the upstream holds; the repair goes through without changing
    what the row holds; and the next run, which reads the upstream again, passes.
    */
  lemma OvertakenCopyIsStale(maxAttempts: nat, now: Time, e: Event, copy: JobSnapshot, names: Names)
    requires MovedOn(e, copy, names)
    ensures Truthful(Beside(maxAttempts, now, Only(copy)), names)
    ensures AllAllowed(Beside(maxAttempts, now, Only(copy)), Overtaken(e, copy), names)
    ensures CountedThoughRight(Turns(Beside(maxAttempts, now, Only(copy)), Overtaken(e, copy)), copy.sourceId)
    ensures RepairedForNothing(Turns(Beside(maxAttempts, now, Only(copy)), Overtaken(e, copy)), copy.jobId)
  {
    JobMovesOn(e, copy, names);
    InstalledIsTruthful(maxAttempts, now, Only(copy), map[], names);
    OvertakenIsReadTooEarly(maxAttempts, now, e, copy, names);
    OvertakenIsAllowed(Beside(maxAttempts, now, Only(copy)), e, copy, names);
    RunKeepsTruth(Beside(maxAttempts, now, Only(copy)), Overtaken(e, copy), names);
    AfterOvertaking(Turns(Beside(maxAttempts, now, Only(copy)), Overtaken(e, copy)), e, copy, names);
  }

  lemma AfterOvertaking(r: Observed, e: Event, copy: JobSnapshot, names: Names)
    requires MovedOn(e, copy, names) && ReadTooEarly(r, e, copy) && Truthful(r, names)
    ensures CountedThoughRight(r, copy.sourceId) && RepairedForNothing(r, copy.jobId)
  {
    TooEarlyIsStale(r, e, copy, names);
    NothingIsMissing(r, e, copy, names);
    RepairAddsNothing(r, e, copy, r.w.now, names);
    RepairingIs(r);
    RepairingStaysClean(r, names);
  }

  // ---- A job that arises between the two readings --------------------------------------------

  /** A job and its first step, with their ids. */
  ghost predicate Arising(job: JobSnapshot, step: StepSnapshot, names: Names) {
    && OneToOneNames(names) && 0 < job.sourceId && names(job.sourceId) == job.jobId
    && 0 < step.stepId && step.jobId == job.jobId
  }

  function OnlyStep(step: StepSnapshot): Source {
    map[step.stepId := StepItem(step)]
  }

  /** The jobs are read, the job arises with its step, and the steps are read. */
  function Arisen(job: JobSnapshot, step: StepSnapshot): seq<Turn> {
    [ReadJobs(map[])] + [Grow(Only(job), OnlyStep(step))] + [ReadSteps(OnlyStep(step))]
  }

  lemma ArisenTurns(o: Observed, job: JobSnapshot, step: StepSnapshot, names: Names)
    requires Arising(job, step, names) && o.jobs == map[] && o.steps == map[]
    ensures Turns(o, Arisen(job, step))
         == o.(readJobs := map[], jobs := Only(job), steps := OnlyStep(step), readSteps := OnlyStep(step))
    ensures AllAllowed(o, Arisen(job, step), names)
  {
    var a, b, c := ReadJobs(map[]), Grow(Only(job), OnlyStep(step)), ReadSteps(OnlyStep(step));
    TurnsOneMore(o, [], a, names);
    assert [] + [a] == [a];
    TurnsOneMore(o, [a], b, names);
    TurnsOneMore(o, [a] + [b], c, names);
    var reading := o.(readJobs := map[]);
    assert Turned(o, a) == reading;
    assert Turned(reading, b) == reading.(jobs := Only(job), steps := OnlyStep(step));
    BothArise(job, step, names);
  }

  lemma BothArise(job: JobSnapshot, step: StepSnapshot, names: Names)
    requires Arising(job, step, names)
    ensures Whole(Only(job), OnlyStep(step)) && SourceNamed(Only(job), names)
    ensures Grows(map[], Only(job)) && Grows(map[], OnlyStep(step)) && Copied(map[], map[])
    ensures Copied(OnlyStep(step), OnlyStep(step))
  {
    assert OfEntity(TRIP_JOB, Only(job)[job.sourceId]) && JobRead(Only(job), step.jobId);
  }

  /**
    A run in which a job arises with its step between the two readings: the repair is refused as a whole,
    and the tables are as before.
    */
  lemma ArisenJobIsRefused(maxAttempts: nat, now: Time, job: JobSnapshot, step: StepSnapshot, names: Names)
    requires Arising(job, step, names)
    ensures AllAllowed(Beside(maxAttempts, now, map[]), Arisen(job, step), names)
    ensures var r := Turns(Beside(maxAttempts, now, map[]), Arisen(job, step));
            RepairOutcome(Turned(r, Compare)).None? && Repairing(r).w.db == r.w.db
  {
    ArisenTurns(Beside(maxAttempts, now, map[]), job, step, names);
    StepIsOrphaned(Installed(maxAttempts, now).db, step, now);
    RepairingIs(Turns(Beside(maxAttempts, now, map[]), Arisen(job, step)));
  }

  lemma StepIsOrphaned(db: Db, step: StepSnapshot, now: Time)
    requires db.jobs == map[] && db.steps == map[] && 0 < step.stepId
    ensures Repaired(db, map[], OnlyStep(step), now).None?
  {
    EmptyIsComparable(db, step);
    RepairRefusedExactly(db, map[], OnlyStep(step), now);
    StepIsUnplaced(db, map[], OnlyStep(step), step);
  }

  lemma StepIsUnplaced(db: Db, jobs: Source, steps: Source, step: StepSnapshot)
    requires db.jobs.Keys == {} && db.steps.Keys == {} && jobs.Keys == {}
    requires step.stepId in steps && steps[step.stepId] == StepItem(step)
    ensures Unplaced(db, jobs, steps, step.stepId)
  {
  }

  lemma EmptyIsComparable(db: Db, step: StepSnapshot)
    requires db.jobs == map[] && 0 < step.stepId
    ensures Comparable(db, map[], OnlyStep(step))
  {
  }
}
