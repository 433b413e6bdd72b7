/**
  A projection row always agrees with the trip its job is bound to. Three transactions maintain this
  independently: upstream acceptance, job snapshots, and account closure.
  */
module AssociationAgreement {
  import opened Schema
  import opened Projection
  import opened Quota
  import opened AccountClosure

  function One(b: bool): nat { if b then 1 else 0 }

  /** The association version counts the facts it has seen: a job bound, an identity erased. */
  ghost predicate TripCounts(trip: Trip) {
    && trip.assocVersion == 1 + One(trip.jobId.Some?) + One(trip.erasedAt.Some?)
    && (trip.owner.Some? <==> trip.erasedAt.None?)
  }

  ghost predicate RowAgrees(trips: map<Id, Trip>, j: Id, row: JobRow) {
    var bound := TripOfJob(trips, j);
    && row.assocVersion == 1 + One(bound.Some?) + One(row.erasedAt.Some?)
    && (row.erasedAt.Some? <==> bound.Some? && trips[bound.value].erasedAt.Some?)
    && match row.association
       case Linked => bound.Some? && row.erasedAt.None? && row.tripId == bound && row.userId == trips[bound.value].owner
                      && row.userId.Some?
       case Deidentified => row.erasedAt.Some? && row.tripId.None? && row.userId.None?
       case Unlinked => bound.None? && row.tripId.None? && row.userId.None?
  }

  ghost predicate AssociationsOk(trips: map<Id, Trip>, jobs: map<Id, JobRow>) {
    && UniqueJobs(trips)
    && (forall t | t in trips :: TripCounts(trips[t]))
    && (forall j | j in jobs :: RowAgrees(trips, j, jobs[j]))
  }

  /** reconcile_projection's impossible rows cannot be found. */
  lemma NothingImpossible(trips: map<Id, Trip>, j: Id, row: JobRow)
    requires RowAgrees(trips, j, row)
    ensures !(row.erasedAt.Some? && (row.association != Deidentified || row.userId.Some?))
    ensures !(row.association == Linked && (row.userId.None? || row.tripId.None?))
  {
  }

  /** Nothing changed that the association looks at. */
  ghost predicate SameFacts(before: Trip, after: Trip) {
    && after.jobId == before.jobId && after.owner == before.owner
    && after.erasedAt == before.erasedAt && after.assocVersion == before.assocVersion
  }

  lemma {:induction false} OtherColumnsKeepAssociations(
    trips: map<Id, Trip>, trips': map<Id, Trip>, jobs: map<Id, JobRow>)
    requires AssociationsOk(trips, jobs) && trips'.Keys == trips.Keys
    requires forall t | t in trips :: SameFacts(trips[t], trips'[t])
    ensures AssociationsOk(trips', jobs)
  {
    assert UniqueJobs(trips') by {
      forall s, t | s in trips' && t in trips' && trips'[s].jobId.Some? && trips'[s].jobId == trips'[t].jobId
        ensures s == t
      {
        assert SameFacts(trips[s], trips'[s]) && SameFacts(trips[t], trips'[t]);
      }
    }
    forall j | j in jobs
      ensures RowAgrees(trips', j, jobs[j])
    {
      SameBinding(trips, trips', j);
    }
  }

  lemma SameBinding(trips: map<Id, Trip>, trips': map<Id, Trip>, j: Id)
    requires UniqueJobs(trips) && trips.Keys <= trips'.Keys
    requires forall t | t in trips :: trips'[t].jobId == trips[t].jobId
    requires forall t | t in trips' && t !in trips :: trips'[t].jobId != Some(j)
    ensures TripOfJob(trips', j) == TripOfJob(trips, j)
  {
    var bound, bound' := TripOfJob(trips, j), TripOfJob(trips', j);
    if bound'.Some? {
      assert bound'.value in trips && trips[bound'.value].jobId == Some(j);
    }
  }

  lemma NewTripKeepsAssociations(trips: map<Id, Trip>, jobs: map<Id, JobRow>, t: Id, trip: Trip)
    requires AssociationsOk(trips, jobs) && t !in trips && trip.jobId.None? && TripCounts(trip)
    ensures AssociationsOk(trips[t := trip], jobs)
  {
    forall j | j in jobs
      ensures RowAgrees(trips[t := trip], j, jobs[j])
    {
      SameBinding(trips, trips[t := trip], j);
    }
  }

  /** Acceptance binds the job and relinks the row in one transaction. */
  lemma AcceptKeepsAssociations(db: Db, t: Id, job: Id, reported: string, now: Time)
    requires AssociationsOk(db.trips, db.jobs)
    ensures AssociationsOk(AcceptOutcome(db, t, job, reported, now).0.trips,
              AcceptOutcome(db, t, job, reported, now).0.jobs)
  {
    if AcceptRefusal(db, t, job).None? {
      var after := AcceptWrite(db, t, job, reported, now);
      BindingKeepsUniqueJobs(db.trips, t, job, after.trips[t]);
      forall k | k in after.trips
        ensures TripCounts(after.trips[k])
      {
        assert TripCounts(db.trips[k]);
      }
      forall j | j in after.jobs
        ensures RowAgrees(after.trips, j, after.jobs[j])
      {
        assert RowAgrees(db.trips, j, db.jobs[j]);
        if j == job {
          assert after.trips[t].jobId == Some(job);
          assert TripOfJob(after.trips, j) == Some(t);
          assert TripOfJob(db.trips, j) == if db.trips[t].jobId.Some? then Some(t) else None;
        } else {
          OtherBinding(db.trips, after.trips, t, j);
        }
      }
    }
  }

  lemma OtherBinding(trips: map<Id, Trip>, trips': map<Id, Trip>, t: Id, j: Id)
    requires UniqueJobs(trips) && UniqueJobs(trips') && t in trips && t in trips' && trips' == trips[t := trips'[t]]
    requires trips[t].jobId != Some(j) && trips'[t].jobId != Some(j)
    ensures TripOfJob(trips', j) == TripOfJob(trips, j)
    ensures TripOfJob(trips, j).Some? ==> trips'[TripOfJob(trips, j).value] == trips[TripOfJob(trips, j).value]
  {
    var bound, bound' := TripOfJob(trips, j), TripOfJob(trips', j);
    if bound'.Some? {
      assert trips[bound'.value].jobId == Some(j);
    }
    if bound.Some? {
      assert trips'[bound.value].jobId == Some(j);
    }
  }

  lemma BindingKeepsUniqueJobs(trips: map<Id, Trip>, t: Id, job: Id, trip: Trip)
    requires UniqueJobs(trips) && t in trips && trip.jobId == Some(job) && !BoundElsewhere(trips, t, job)
    ensures UniqueJobs(trips[t := trip])
  {
    var trips' := trips[t := trip];
    forall a, b | a in trips' && b in trips' && trips'[a].jobId.Some? && trips'[a].jobId == trips'[b].jobId
      ensures a == b
    {
      assert a != t ==> trips[a].jobId == trips'[a].jobId;
      assert b != t ==> trips[b].jobId == trips'[b].jobId;
    }
  }

  /** A snapshot computes the association afresh from the locked trip and row. */
  lemma SnapshotKeepsAssociations(trips: map<Id, Trip>, jobs: map<Id, JobRow>, job: JobSnapshot, now: Time)
    requires AssociationsOk(trips, jobs) && JobsAfter(trips, jobs, job, now).Some?
    ensures AssociationsOk(trips, JobsAfter(trips, jobs, job, now).value)
  {
    var row := JobRowAfter(trips, Lookup(jobs, job.jobId), job, now);
    var bound := TripOfJob(trips, job.jobId);
    if bound.Some? {
      assert TripCounts(trips[bound.value]);
    }
    assert job.jobId in jobs ==> RowAgrees(trips, job.jobId, jobs[job.jobId]);
    assert RowAgrees(trips, job.jobId, row);
  }

  /** Closure erases every trip of the account together with the rows of their jobs. */
  lemma ErasureKeepsAssociations(trips: map<Id, Trip>, jobs: map<Id, JobRow>, u: Id, now: Time)
    requires AssociationsOk(trips, jobs)
    ensures AssociationsOk(ErasedTrips(trips, TripsOf(trips, u), now), ErasedJobs(trips, jobs, TripsOf(trips, u), now))
  {
    var mine := TripsOf(trips, u);
    var trips', jobs' := ErasedTrips(trips, mine, now), ErasedJobs(trips, jobs, mine, now);
    forall t | t in trips'
      ensures TripCounts(trips'[t])
    {
      assert TripCounts(trips[t]);
    }
    forall j | j in jobs'
      ensures RowAgrees(trips', j, jobs'[j])
    {
      assert RowAgrees(trips, j, jobs[j]);
      SameBinding(trips, trips', j);
    }
  }

  /**
    Acceptance and a later snapshot compute one association: re-delivering an old snapshot right after
    an acceptance changes nothing but the sync time.
    */
  lemma AcceptanceAgreesWithSnapshot(db: Db, t: Id, job: JobSnapshot, reported: string, now: Time)
    requires AssociationsOk(db.trips, db.jobs) && AcceptRefusal(db, t, job.jobId).None?
    requires job.jobId in db.jobs && job.version <= db.jobs[job.jobId].version
    ensures var after := AcceptWrite(db, t, job.jobId, reported, now);
            JobsAfter(after.trips, after.jobs, job, now) == Some(after.jobs)
  {
    AcceptKeepsAssociations(db, t, job.jobId, reported, now);
    var after := AcceptWrite(db, t, job.jobId, reported, now);
    assert AcceptOutcome(db, t, job.jobId, reported, now).0 == after;
    assert RowAgrees(after.trips, job.jobId, after.jobs[job.jobId]);
    assert after.trips[t].jobId == Some(job.jobId);
    assert TripOfJob(after.trips, job.jobId) == Some(t);
    assert TripCounts(after.trips[t]);
    assert JobRowAfter(after.trips, Some(after.jobs[job.jobId]), job, now) == after.jobs[job.jobId];
    assert after.jobs[job.jobId := after.jobs[job.jobId]] == after.jobs;
  }

  /**
    A snapshot repairs any row of its job that an uncontrolled interleaving left behind, as long as the
    row is not a tombstone and its version is not ahead of the facts.
    */
  lemma SnapshotRestoresAgreement(trips: map<Id, Trip>, jobs: map<Id, JobRow>, job: JobSnapshot, now: Time)
    requires UniqueJobs(trips) && (forall t | t in trips :: TripCounts(trips[t]))
    requires JobsAfter(trips, jobs, job, now).Some? && job.jobId in jobs
    ensures RowAgrees(trips, job.jobId, JobsAfter(trips, jobs, job, now).value[job.jobId])
       <==> (var row, bound := jobs[job.jobId], TripOfJob(trips, job.jobId);
             var erased := bound.Some? && trips[bound.value].erasedAt.Some?;
             && row.assocVersion <= 1 + One(bound.Some?) + One(erased)
             && (bound.None? ==> row.assocVersion == 1)
             && (row.erasedAt.Some? ==> erased && row.assocVersion == 3))
  {
    var bound := TripOfJob(trips, job.jobId);
    if bound.Some? {
      assert TripCounts(trips[bound.value]);
    }
  }
}
