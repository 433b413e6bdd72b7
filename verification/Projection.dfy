/**
  The operational projection of upstream jobs (src/admin/projection.py): version-gated snapshots,
  the association of a job with a trip and its owner, and the ordered event stream.
  */
module Projection {
  import opened Schema
  import opened Merge

  // ---- Association with the local trip -------------------------------------------------------

  datatype Facts = Facts(state: Association, version: nat, erasedAt: Option<Time>, tripId: Option<Id>,
      userId: Option<Id>)

  /** _lock_user_trip */
  function TripOfJob(trips: map<Id, Trip>, jobId: Id): (t: Option<Id>)
    ensures t.Some? ==> t.value in trips && trips[t.value].jobId == Some(jobId)
    ensures t.None? ==> forall k | k in trips :: trips[k].jobId != Some(jobId)
  {
    var bound := set k | k in trips && trips[k].jobId == Some(jobId);
    var t := First(bound);
    assert t.None? ==> forall k | k in trips :: k !in bound;
    t
  }

  /** _association_from_locked_facts */
  function AssociationFromLockedFacts(trips: map<Id, Trip>, bound: Option<Id>, existing: Option<JobRow>): Facts
    requires bound.Some? ==> bound.value in trips
  {
    if existing.Some? && existing.value.erasedAt.Some? then
      Facts(Deidentified, existing.value.assocVersion, existing.value.erasedAt, None, None)
    else if bound.None? then
      Facts(Unlinked, if existing.Some? then existing.value.assocVersion else 1, None, None, None)
    else
      var trip := trips[bound.value];
      if trip.erasedAt.Some? then Facts(Deidentified, trip.assocVersion, trip.erasedAt, None, None)
      else if trip.owner.None? then Facts(Unlinked, trip.assocVersion, None, bound, None)
      else Facts(Linked, trip.assocVersion, None, bound, trip.owner)
  }

  function Max(a: nat, b: nat): nat { if a < b then b else a }

  // ---- Job and step snapshots ----------------------------------------------------------------

  type JobSources = Rows<(nat, Columns)>
  type StepSources = Rows<(Id, Columns)>

  function JobView(j: JobSnapshot): Versioned<(nat, Columns)> { Versioned(j.jobId, j.version, (j.sourceId, j.columns)) }
  function StepView(s: StepSnapshot): Versioned<(Id, Columns)> { Versioned(s.stepId, s.version, (s.jobId, s.columns)) }

  /** What a row holds that came from upstream. */
  function JobSourcesOf(jobs: map<Id, JobRow>): JobSources {
    map j | j in jobs :: Versioned(j, jobs[j].version, (jobs[j].sourceId, jobs[j].columns))
  }
  function StepSourcesOf(steps: map<Id, StepRow>): StepSources {
    map s | s in steps :: Versioned(s, steps[s].version, (steps[s].jobId, steps[s].columns))
  }

  /** The unique source_id column is about to hold one value twice. */
  predicate SourceIdTaken(jobs: map<Id, JobRow>, job: JobSnapshot) {
    && (job.jobId in jobs ==> jobs[job.jobId].version < job.version)
    && exists j | j in jobs :: j != job.jobId && jobs[j].sourceId == job.sourceId
  }

  function Lookup<T>(rows: map<Id, T>, k: Id): Option<T> {
    if k in rows then Some(rows[k]) else None
  }

  function JobRowAfter(trips: map<Id, Trip>, existing: Option<JobRow>, job: JobSnapshot, now: Time): JobRow {
    var facts := AssociationFromLockedFacts(trips, TripOfJob(trips, job.jobId), existing);
    if existing.Some? && job.version <= existing.value.version then
      JobRow(existing.value.sourceId, existing.value.version, existing.value.columns,
             facts.state, Max(existing.value.assocVersion, facts.version), facts.erasedAt,
             facts.tripId, facts.userId, now)
    else
      JobRow(job.sourceId, job.version, job.columns,
             facts.state, if existing.Some? then Max(existing.value.assocVersion, facts.version) else facts.version,
             facts.erasedAt, facts.tripId, facts.userId, now)
  }

  function JobsAfter(
    trips: map<Id, Trip>, jobs: map<Id, JobRow>, job: JobSnapshot, now: Time): Option<map<Id, JobRow>> {
    if SourceIdTaken(jobs, job) then None
    else Some(jobs[job.jobId := JobRowAfter(trips, Lookup(jobs, job.jobId), job, now)])
  }

  function JobLocks(db: Db, jobId: Id): seq<Lock> {
    var bound := TripOfJob(db.trips, jobId);
    (if bound.Some? then [Lock(TripT, bound.value)] else [])
    + if jobId in db.jobs then [Lock(ProjectionT, jobId)] else []
  }

  /** _apply_job_snapshot. Answers false where the flush violates the unique source_id. */
  method ApplyJobSnapshot(db: Database, job: JobSnapshot, now: Time) returns (flushed: bool)
    modifies db
    ensures flushed <==> JobsAfter(old(db.tables.trips), old(db.tables.jobs), job, now).Some?
    ensures flushed ==>
              db.tables == old(db.tables).(jobs := JobsAfter(old(db.tables.trips), old(db.tables.jobs), job, now).value)
    ensures !flushed ==> db.tables == old(db.tables)
    ensures db.locks == old(db.locks) + old(JobLocks(db.tables, job.jobId))
  {
    var bound := TripOfJob(db.tables.trips, job.jobId);
    if bound.Some? {
      db.ForUpdate(TripT, bound.value);
    }
    if SourceIdTaken(db.tables.jobs, job) {
      if job.jobId in db.tables.jobs {
        db.ForUpdate(ProjectionT, job.jobId);
      }
      return false;
    }
    if job.jobId !in db.tables.jobs {
      var facts := AssociationFromLockedFacts(db.tables.trips, bound, None);
      db.tables := db.tables.(jobs := db.tables.jobs[job.jobId :=
        JobRow(job.sourceId, job.version, job.columns,
               facts.state, facts.version, facts.erasedAt, facts.tripId, facts.userId, now)]);
      return true;
    }
    db.ForUpdate(ProjectionT, job.jobId);
    var row := db.tables.jobs[job.jobId];
    var facts := AssociationFromLockedFacts(db.tables.trips, bound, Some(row));
    if job.version > row.version {
      row := row.(sourceId := job.sourceId, version := job.version, columns := job.columns);
    }
    row := row.(association := facts.state);
    row := row.(assocVersion := Max(row.assocVersion, facts.version));
    row := row.(erasedAt := row.erasedAt.Or(facts.erasedAt));
    if row.erasedAt.Some? {
      row := row.(association := Deidentified, tripId := None, userId := None);
    } else {
      row := row.(tripId := facts.tripId, userId := facts.userId);
    }
    row := row.(syncedAt := now);
    db.tables := db.tables.(jobs := db.tables.jobs[job.jobId := row]);
    return true;
  }

  /** On source columns, applying a snapshot is the version-gated merge. */
  lemma JobSnapshotMerges(trips: map<Id, Trip>, jobs: map<Id, JobRow>, job: JobSnapshot, now: Time)
    requires JobsAfter(trips, jobs, job, now).Some?
    ensures JobSourcesOf(JobsAfter(trips, jobs, job, now).value) == Put(JobSourcesOf(jobs), JobView(job))
  {
  }

  /**
    Step rows of one transaction. Pending inserts are not flushed between steps, so a second insert of
    one id fails, and so does a row whose job is not there (the foreign key).
    */
  function StepsAfter(
    jobs: map<Id, JobRow>, stored: map<Id, StepRow>, list: seq<StepSnapshot>): (r: Option<map<Id, StepRow>>)
    ensures r.Some? ==> stored.Keys <= r.value.Keys
  {
    if list == [] then Some(stored)
    else
      var before := StepsAfter(jobs, stored, list[..|list| - 1]);
      if before.None? then None else StepAfter(jobs, stored, before.value, list[|list| - 1])
  }

  function StepAfter(
    jobs: map<Id, JobRow>, stored: map<Id, StepRow>, steps: map<Id, StepRow>, s: StepSnapshot)
    : (r: Option<map<Id, StepRow>>)
    requires stored.Keys <= steps.Keys
    ensures r.Some? ==> stored.Keys <= r.value.Keys
  {
    if s.stepId in stored && s.version <= steps[s.stepId].version then Some(steps)
    else if s.jobId !in jobs || (s.stepId in steps && s.stepId !in stored) then None
    else Some(steps[s.stepId := StepRow(s.jobId, s.version, s.columns)])
  }

  function StepLock(stored: map<Id, StepRow>, s: StepSnapshot): seq<Lock> {
    if s.stepId in stored then [Lock(StepT, s.stepId)] else []
  }

  function StepLocks(stored: map<Id, StepRow>, list: seq<StepSnapshot>): seq<Lock> {
    if list == [] then []
    else StepLocks(stored, list[..|list| - 1]) + StepLock(stored, list[|list| - 1])
  }

  /** _apply_step_snapshot, within a transaction that began with the step rows `stored`. */
  method ApplyStepSnapshot(db: Database, stored: map<Id, StepRow>, step: StepSnapshot) returns (flushed: bool)
    requires stored.Keys <= db.tables.steps.Keys
    modifies db
    ensures flushed <==> StepAfter(old(db.tables.jobs), stored, old(db.tables.steps), step).Some?
    ensures flushed ==>
              db.tables == old(db.tables).(steps := StepAfter(old(db.tables.jobs), stored, old(db.tables.steps),
                  step).value)
    ensures !flushed ==> db.tables == old(db.tables)
    ensures db.locks == old(db.locks) + StepLock(stored, step)
  {
    if step.stepId in stored {
      db.ForUpdate(StepT, step.stepId);
      if step.version <= db.tables.steps[step.stepId].version {
        return true;
      }
    } else if step.stepId in db.tables.steps {
      return false;
    }
    if step.jobId !in db.tables.jobs {
      return false;
    }
    db.tables := db.tables.(steps := db.tables.steps[step.stepId := StepRow(step.jobId, step.version, step.columns)]);
    return true;
  }

  /** On source columns, the step loop is the version-gated merge of the list. */
  lemma {:induction false} StepSnapshotsMerge(jobs: map<Id, JobRow>, stored: map<Id, StepRow>, list: seq<StepSnapshot>)
    requires StepsAfter(jobs, stored, list).Some?
    ensures StepSourcesOf(StepsAfter(jobs, stored, list).value) == PutAll(StepSourcesOf(stored), StepViews(list))
  {
    if list != [] {
      var front, last := list[..|list| - 1], list[|list| - 1];
      StepSnapshotsMerge(jobs, stored, front);
      StepSnapshotMerges(jobs, stored, StepsAfter(jobs, stored, front).value, last);
      PutAllAppends(StepSourcesOf(stored), StepViews(front), StepView(last));
    }
  }

  lemma StepSnapshotMerges(jobs: map<Id, JobRow>, stored: map<Id, StepRow>, steps: map<Id, StepRow>, s: StepSnapshot)
    requires stored.Keys <= steps.Keys && StepAfter(jobs, stored, steps, s).Some?
    ensures StepSourcesOf(StepAfter(jobs, stored, steps, s).value) == Put(StepSourcesOf(steps), StepView(s))
  {
  }

  function StepViews(list: seq<StepSnapshot>): seq<Versioned<(Id, Columns)>> {
    if list == [] then [] else StepViews(list[..|list| - 1]) + [StepView(list[|list| - 1])]
  }

  /** sorted(changed_steps, key=source_step_id), which is stable. */
  function InIdOrder(list: seq<StepSnapshot>): (r: seq<StepSnapshot>)
    ensures |r| == |list|
    ensures forall s :: s in r <==> s in list
    ensures forall i, j | 0 <= i < j < |r| :: r[i].stepId <= r[j].stepId
  {
    if list == [] then []
    else Insert(list[0], InIdOrder(list[1..]))
  }

  function Insert(s: StepSnapshot, list: seq<StepSnapshot>): (r: seq<StepSnapshot>)
    requires forall i, j | 0 <= i < j < |list| :: list[i].stepId <= list[j].stepId
    ensures |r| == |list| + 1
    ensures forall t :: t in r <==> t == s || t in list
    ensures forall i, j | 0 <= i < j < |r| :: r[i].stepId <= r[j].stepId
  {
    if list == [] || s.stepId <= list[0].stepId then [s] + list
    else
      var rest := Insert(s, list[1..]);
      assert forall i | 0 <= i < |rest| :: rest[i] in rest;
      [list[0]] + rest
  }

  lemma PrefixStep(jobs: map<Id, JobRow>, stored: map<Id, StepRow>, list: seq<StepSnapshot>, i: nat)
    requires i < |list| && StepsAfter(jobs, stored, list[..i]).Some?
    ensures StepsAfter(jobs, stored, list[..i + 1])
         == StepAfter(jobs, stored, StepsAfter(jobs, stored, list[..i]).value, list[i])
    ensures StepLocks(stored, list[..i + 1]) == StepLocks(stored, list[..i]) + StepLock(stored, list[i])
  {
    assert list[..i + 1][..i] == list[..i];
  }

  lemma {:induction false} FailureStays(
    jobs: map<Id, JobRow>, stored: map<Id, StepRow>, list: seq<StepSnapshot>, i: nat)
    requires i <= |list| && StepsAfter(jobs, stored, list[..i]).None?
    ensures StepsAfter(jobs, stored, list).None?
    decreases |list| - i
  {
    if i == |list| {
      assert list[..i] == list;
    } else {
      assert list[..i + 1][..i] == list[..i];
      FailureStays(jobs, stored, list, i + 1);
    }
  }

  lemma {:induction false} StepLocksPrefix(stored: map<Id, StepRow>, list: seq<StepSnapshot>, i: nat)
    requires i <= |list|
    ensures StepLocks(stored, list[..i]) <= StepLocks(stored, list)
    decreases |list| - i
  {
    if i == |list| {
      assert list[..i] == list;
    } else {
      assert list[..i + 1][..i] == list[..i];
      StepLocksPrefix(stored, list, i + 1);
    }
  }

  /** The loop over the steps of one transaction. */
  method ApplyStepSnapshots(db: Database, list: seq<StepSnapshot>) returns (flushed: bool)
    modifies db
    ensures flushed <==> StepsAfter(old(db.tables.jobs), old(db.tables.steps), list).Some?
    ensures flushed ==>
              db.tables == old(db.tables).(steps := StepsAfter(old(db.tables.jobs), old(db.tables.steps), list).value)
    ensures old(db.locks) <= db.locks <= old(db.locks) + StepLocks(old(db.tables.steps), list)
  {
    var jobs, stored := db.tables.jobs, db.tables.steps;
    for i := 0 to |list|
      invariant StepsAfter(jobs, stored, list[..i]).Some?
      invariant db.tables == old(db.tables).(steps := StepsAfter(jobs, stored, list[..i]).value)
      invariant db.locks == old(db.locks) + StepLocks(stored, list[..i])
    {
      PrefixStep(jobs, stored, list, i);
      flushed := ApplyStepSnapshot(db, stored, list[i]);
      StepLocksPrefix(stored, list, i + 1);
      if !flushed {
        FailureStays(jobs, stored, list, i + 1);
        return;
      }
    }
    assert list[..|list|] == list;
    return true;
  }

  // ---- The ordered stream --------------------------------------------------------------------

  datatype Answer = APPLIED | DUPLICATE | Invalid | Poison | Unavailable | Blocked | IntegrityFailure

  function ProjectionsAfter(db: Db, e: Event, now: Time): Option<Db> {
    var jobs := JobsAfter(db.trips, db.jobs, e.job, now);
    if jobs.None? then None
    else
      var steps := StepsAfter(jobs.value, db.steps, InIdOrder(e.steps));
      if steps.None? then None else Some(db.(jobs := jobs.value, steps := steps.value))
  }

  predicate Accepting(c: Consumer, repair: bool) {
    c.stream == ACTIVE || (repair && c.stream == PAUSED_POISON)
  }

  /** Why an event is not applied, in the order the checks are made. */
  function Refusal(db: Db, e: Event, repair: bool): Option<Answer> {
    if !e.Valid() then Some(Invalid)
    else if e.eventId in db.events then
      Some(if db.events[e.eventId].payload == e then DUPLICATE else Poison)
    else if db.consumer.None? then Some(Unavailable)
    else if !Accepting(db.consumer.value, repair) || e.sequence != db.consumer.value.next then Some(Blocked)
    else None
  }

  function Recorded(db: Db, e: Event, repair: bool): Db
    requires db.consumer.Some?
  {
    db.(events := db.events[e.eventId := EventRow(e.sequence, e)],
        consumer := Some(db.consumer.value.(
          applied := e.sequence, next := e.sequence + 1,
          stream := if repair then ACTIVE else db.consumer.value.stream)))
  }

  function EventOutcome(db: Db, e: Event, repair: bool, now: Time): (Db, Answer) {
    if Refusal(db, e, repair).Some? then (db, Refusal(db, e, repair).value)
    else
      var after := ProjectionsAfter(db, e, now);
      if after.None? || SequenceTaken(db.events, e) then (db, IntegrityFailure)
        else (Recorded(after.value, e, repair), APPLIED)
  }

  /** The unique outbox_sequence column. */
  predicate SequenceTaken(events: map<Id, EventRow>, e: Event) {
    exists id | id in events :: events[id].sequence == e.sequence
  }

  function ProjectionLocks(db: Db, e: Event): seq<Lock> {
    JobLocks(db, e.job.jobId) + StepLocks(db.steps, InIdOrder(e.steps))
  }

  /** The locks that the transaction takes when it gets as far as writing. */
  function EventLocks(db: Db, e: Event): seq<Lock> {
    [Lock(ConsumerT, 1)] + ProjectionLocks(db, e)
  }

  /** The job and its changed steps, undone together when a constraint fails. */
  method ApplyProjections(db: Database, e: Event, now: Time) returns (flushed: bool)
    modifies db
    ensures flushed <==> ProjectionsAfter(old(db.tables), e, now).Some?
    ensures db.tables == if flushed then ProjectionsAfter(old(db.tables), e, now).value else old(db.tables)
    ensures old(db.locks) <= db.locks
    ensures db.locks <= old(db.locks) + old(ProjectionLocks(db.tables, e))
  {
    var saved := db.tables;
    flushed := ApplyJobSnapshot(db, e.job, now);
    if flushed {
      flushed := ApplyStepSnapshots(db, InIdOrder(e.steps));
    }
    if !flushed {
      db.tables := saved;
    }
  }

  /** apply_projection_event; repair_projection_event passes repair = true. */
  method ApplyProjectionEvent(db: Database, e: Event, repair: bool, now: Time) returns (answer: Answer)
    modifies db
    ensures (db.tables, answer) == EventOutcome(old(db.tables), e, repair, now)
    ensures db.locks <= old(EventLocks(db.tables, e))
  {
    db.Begin();
    if !e.Valid() {
      return Invalid;
    }
    if e.eventId in db.tables.events {
      if db.tables.events[e.eventId].payload != e {
        return Poison;
      }
      return DUPLICATE;
    }
    if db.tables.consumer.None? {
      return Unavailable;
    }
    db.ForUpdate(ConsumerT, 1);
    var state := db.tables.consumer.value;
    if state.stream != ACTIVE && !(repair && state.stream == PAUSED_POISON) {
      return Blocked;
    }
    if e.sequence != state.next {
      return Blocked;
    }
    var flushed := ApplyHead(db, e, repair, now);
    return if flushed then APPLIED else IntegrityFailure;
  }

  /** The writes of the expected event, undone together when a constraint fails. */
  method ApplyHead(db: Database, e: Event, repair: bool, now: Time) returns (flushed: bool)
    requires db.tables.consumer.Some?
    modifies db
    ensures var after := ProjectionsAfter(old(db.tables), e, now);
            && (flushed <==> after.Some? && !SequenceTaken(old(db.tables.events), e))
            && db.tables == if flushed then Recorded(after.value, e, repair) else old(db.tables)
    ensures db.locks <= old(db.locks) + old(ProjectionLocks(db.tables, e)) && old(db.locks) <= db.locks
  {
    var saved := db.tables;
    flushed := ApplyProjections(db, e, now);
    if !flushed {
      return;
    }
    if SequenceTaken(db.tables.events, e) {
      db.tables := saved;
      return false;
    }
    db.tables := db.tables.(events := db.tables.events[e.eventId := EventRow(e.sequence, e)]);
    var state := db.tables.consumer.value;
    state := state.(applied := e.sequence);
    state := state.(next := e.sequence + 1);
    if repair {
      state := state.(stream := ACTIVE);
    }
    db.tables := db.tables.(consumer := Some(state));
  }

  function HeartbeatOutcome(db: Db, watermark: nat, observedAt: Time): (Db, bool) {
    if db.consumer.None? || db.consumer.value.stream != ACTIVE
      || watermark != db.consumer.value.applied then (db, false)
    else
      (db.(consumer := Some(db.consumer.value.(
         heartbeat := Some(watermark), observedAt := Some(observedAt), initialized := true))), true)
  }

  /** apply_projection_heartbeat */
  method ApplyProjectionHeartbeat(db: Database, watermark: nat, observedAt: Time) returns (contiguous: bool)
    modifies db
    ensures db.tables == HeartbeatOutcome(old(db.tables), watermark, observedAt).0
    ensures contiguous == HeartbeatOutcome(old(db.tables), watermark, observedAt).1
  {
    db.Begin();
    if db.tables.consumer.None? {
      return false;
    }
    db.ForUpdate(ConsumerT, 1);
    var state := db.tables.consumer.value;
    if state.stream != ACTIVE {
      return false;
    }
    if watermark != state.applied {
      return false;
    }
    state := state.(heartbeat := Some(watermark));
    state := state.(observedAt := Some(observedAt));
    state := state.(initialized := true);
    db.tables := db.tables.(consumer := Some(state));
    return true;
  }

  function Paused(db: Db): Db {
    if db.consumer.None? then db else db.(consumer := Some(db.consumer.value.(stream := PAUSED_POISON)))
  }

  /** pause_projection_stream */
  method PauseProjectionStream(db: Database)
    modifies db
    ensures db.tables == Paused(old(db.tables))
  {
    db.Begin();
    if db.tables.consumer.Some? {
      db.ForUpdate(ConsumerT, 1);
      db.tables := db.tables.(consumer := Some(db.tables.consumer.value.(stream := PAUSED_POISON)));
    }
  }
}
