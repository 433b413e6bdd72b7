/**
  Trips, their quota entries, their upstream jobs and their projection rows, kept together by every step
  of the service.
  */
module TripRuns {
  import opened Schema
  import opened Finite
  import opened Projection
  import opened ProjectionSync
  import opened Quota
  import opened Ledger
  import opened AssociationAgreement
  import opened TripSubmission
  import opened AccountClosure
  import opened ProjectionReconciliation
  import ProjectionStream
  import Profile
  import opened Auth
  import opened World
  import opened Frames
  import opened Accounts
  import opened NameOwnership

  /**
    Every trip was asked for once: by its owner while it has one, by a user who is gone otherwise. No two
    trips were ever reserved for the same user and request id.
    */
  ghost predicate BornOk(users: set<Id>, trips: map<Id, Trip>, born: map<Id, Request>, known: set<Id>) {
    && born.Keys == trips.Keys
    && (forall t | t in trips ::
          && born[t].user in known
          && (if trips[t].owner.Some? then trips[t].owner.value == born[t].user
              && trips[t].request == Client(born[t].key)
              else born[t].user !in users))
    && forall s, t | s in born && t in born && born[s].user == born[t].user && born[s].key == born[t].key :: s == t
  }

  /** Claims are counted before they are made. */
  ghost predicate ClaimsOk(trips: map<Id, Trip>, claims: map<Id, nat>, maxAttempts: nat) {
    && claims.Keys <= trips.Keys
    && forall t | t in trips :: Times(claims, t) <= trips[t].attempts && Times(claims, t) <= maxAttempts
  }

  /** Every step row has its job row: the foreign key. */
  ghost predicate StepsHaveRows(jobs: map<Id, JobRow>, steps: map<Id, StepRow>) {
    forall s | s in steps :: steps[s].jobId in jobs
  }

  // ---- Born ----------------------------------------------------------------------------------

  lemma SameOwnersKeepBorn(
    users: set<Id>, users': set<Id>, trips: map<Id, Trip>, trips': map<Id, Trip>, born: map<Id, Request>,
    known: set<Id>, known': set<Id>)
    requires BornOk(users, trips, born, known) && SameOwners(trips, trips')
    requires users' * known <= users && known <= known'
    ensures BornOk(users', trips', born, known')
  {
    forall t | t in trips'
      ensures born[t].user in known'
              && (if trips'[t].owner.Some? then trips'[t].owner.value == born[t].user
                  && trips'[t].request == Client(born[t].key)
                  else born[t].user !in users')
    {
      assert t in trips;
    }
  }

  lemma ReservingKeepsBorn(
    users: set<Id>, trips: map<Id, Trip>, born: map<Id, Request>, known: set<Id>, r: Request, t: Id, trip: Trip)
    requires BornOk(users, trips, born, known) && t !in trips && r.user in users && users <= known
    requires forall s | s in trips && trips[s].owner == Some(r.user) :: trips[s].request != Client(r.key)
    requires trip.owner == Some(r.user) && trip.request == Client(r.key)
    ensures BornOk(users, trips[t := trip], born[t := r], known)
  {
  }

  lemma ErasingKeepsBorn(users: set<Id>, trips: map<Id, Trip>, born: map<Id, Request>, known: set<Id>, u: Id, now: Time)
    requires BornOk(users, trips, born, known)
    ensures BornOk(users - {u}, ErasedTrips(trips, TripsOf(trips, u), now), born, known)
  {
  }

  // ---- Claims --------------------------------------------------------------------------------

  lemma EvolvingKeepsClaims(trips: map<Id, Trip>, trips': map<Id, Trip>, claims: map<Id, nat>, maxAttempts: nat)
    requires ClaimsOk(trips, claims, maxAttempts) && TripsEvolve(trips, trips')
    ensures ClaimsOk(trips', claims, maxAttempts)
  {
    forall t | t in trips'
      ensures Times(claims, t) <= trips'[t].attempts && Times(claims, t) <= maxAttempts
    {
      if t in trips {
        assert TripEvolves(trips[t], trips'[t]);
      }
    }
  }

  lemma ClaimingKeepsClaims(trips: map<Id, Trip>, claims: map<Id, nat>, ids: seq<Id>, maxAttempts: nat)
    requires ClaimsOk(trips, claims, maxAttempts) && forall t | t in ids :: Eligible(trips, t, maxAttempts)
    ensures ClaimsOk(ClaimedTrips(trips, Elements(ids)), Counted(claims, trips, Elements(ids)), maxAttempts)
  {
    var trips', claims' := ClaimedTrips(trips, Elements(ids)), Counted(claims, trips, Elements(ids));
    forall t | t in trips'
      ensures Times(claims', t) <= trips'[t].attempts && Times(claims', t) <= maxAttempts
    {
      assert t in Elements(ids) <==> t in ids;
    }
  }

  lemma ClaimingEvolves(trips: map<Id, Trip>, ids: set<Id>)
    ensures TripsEvolve(trips, ClaimedTrips(trips, ids)) && SameOwners(trips, ClaimedTrips(trips, ids))
    ensures forall t | t in trips :: SameFacts(trips[t], ClaimedTrips(trips, ids)[t])
  {
  }

  // ---- Jobs ----------------------------------------------------------------------------------

  lemma EvolvingKeepsBound(trips: map<Id, Trip>, trips': map<Id, Trip>, jobs: Jobs)
    requires Bound(trips, jobs)
    requires forall t | t in trips' :: trips'[t].jobId.None? || (t in trips && trips'[t].jobId == trips[t].jobId)
    ensures Bound(trips', jobs)
  {
  }

  // ---- Foreign keys --------------------------------------------------------------------------

  lemma {:induction false} StepsAfterHaveRows(jobs: map<Id, JobRow>, stored: map<Id, StepRow>, list: seq<StepSnapshot>)
    requires StepsHaveRows(jobs, stored) && StepsAfter(jobs, stored, list).Some?
    ensures StepsHaveRows(jobs, StepsAfter(jobs, stored, list).value)
  {
    if list != [] {
      StepsAfterHaveRows(jobs, stored, list[..|list| - 1]);
    }
  }

  lemma MoreRowsKeepSteps(jobs: map<Id, JobRow>, jobs': map<Id, JobRow>, steps: map<Id, StepRow>)
    requires StepsHaveRows(jobs, steps) && jobs.Keys <= jobs'.Keys
    ensures StepsHaveRows(jobs', steps)
  {
  }

  // ---- Tombstones ----------------------------------------------------------------------------

  /** A row of an erased identity stays erased and de-identified, for ever with the same mark. */
  ghost predicate RowEvolves(before: JobRow, after: JobRow) {
    && before.version <= after.version && before.assocVersion <= after.assocVersion
    && (before.erasedAt.Some? ==>
          && after.erasedAt == before.erasedAt && after.assocVersion == before.assocVersion
          && after.association == Deidentified && after.tripId.None? && after.userId.None?)
  }

  ghost predicate RowsEvolve(before: map<Id, JobRow>, after: map<Id, JobRow>) {
    before.Keys <= after.Keys && forall j | j in before :: RowEvolves(before[j], after[j])
  }

  lemma RowsEvolveTransitive(a: map<Id, JobRow>, b: map<Id, JobRow>, c: map<Id, JobRow>)
    requires RowsEvolve(a, b) && RowsEvolve(b, c)
    ensures RowsEvolve(a, c)
  {
    forall j | j in a
      ensures RowEvolves(a[j], c[j])
    {
      assert RowEvolves(a[j], b[j]) && RowEvolves(b[j], c[j]);
    }
  }

  lemma SnapshotEvolves(trips: map<Id, Trip>, jobs: map<Id, JobRow>, job: JobSnapshot, now: Time)
    requires AssociationsOk(trips, jobs) && JobsAfter(trips, jobs, job, now).Some?
    ensures RowsEvolve(jobs, JobsAfter(trips, jobs, job, now).value)
  {
    forall j | j in jobs
      ensures RowEvolves(jobs[j], JobsAfter(trips, jobs, job, now).value[j])
    {
      assert RowAgrees(trips, j, jobs[j]);
    }
  }

  lemma {:induction false} SnapshotsEvolve(
    trips: map<Id, Trip>, jobs: map<Id, JobRow>, list: seq<JobSnapshot>, now: Time)
    requires AssociationsOk(trips, jobs) && JobsAfterAll(trips, jobs, list, now).Some?
    ensures RowsEvolve(jobs, JobsAfterAll(trips, jobs, list, now).value)
  {
    if list == [] {
      RowsStay(trips, jobs);
    } else {
      var front := list[..|list| - 1];
      SnapshotsEvolve(trips, jobs, front, now);
      SnapshotsKeepAssociations(trips, jobs, front, now);
      var before := JobsAfterAll(trips, jobs, front, now).value;
      SnapshotEvolves(trips, before, list[|list| - 1], now);
      RowsEvolveTransitive(jobs, before, JobsAfterAll(trips, jobs, list, now).value);
    }
  }

  lemma RowsStay(trips: map<Id, Trip>, jobs: map<Id, JobRow>)
    requires AssociationsOk(trips, jobs)
    ensures RowsEvolve(jobs, jobs)
  {
    forall j | j in jobs
      ensures RowEvolves(jobs[j], jobs[j])
    {
      assert RowAgrees(trips, j, jobs[j]);
    }
  }

  lemma OneRowEvolves(jobs: map<Id, JobRow>, j: Id, row: JobRow)
    requires RowsEvolve(jobs, jobs) && j in jobs && RowEvolves(jobs[j], row)
    ensures RowsEvolve(jobs, jobs[j := row])
  {
  }

  lemma AcceptedRows(db: Db, t: Id, job: Id, reported: string, now: Time)
    ensures var after := AcceptOutcome(db, t, job, reported, now).0;
            if AcceptRefusal(db, t, job).None? && job in db.jobs then
              after.jobs == db.jobs[job := RelinkedRow(db.jobs[job], t, BoundTrip(db.trips[t], job, reported, now),
                  now)]
            else after.jobs == db.jobs
  {
  }

  lemma AcceptEvolvesRows(db: Db, t: Id, job: Id, reported: string, now: Time)
    requires AssociationsOk(db.trips, db.jobs)
    ensures RowsEvolve(db.jobs, AcceptOutcome(db, t, job, reported, now).0.jobs)
  {
    AcceptedRows(db, t, job, reported, now);
    if AcceptRefusal(db, t, job).None? && job in db.jobs {
      RowsStay(db.trips, db.jobs);
      RelinkEvolves(db, t, job, reported, now);
      OneRowEvolves(db.jobs, job, RelinkedRow(db.jobs[job], t, BoundTrip(db.trips[t], job, reported, now), now));
    } else {
      RowsStay(db.trips, db.jobs);
    }
  }

  /** A row already erased belongs to a bound, erased and hence finished trip, which accepts nothing. */
  lemma RelinkEvolves(db: Db, t: Id, job: Id, reported: string, now: Time)
    requires AssociationsOk(db.trips, db.jobs) && AcceptRefusal(db, t, job).None? && job in db.jobs
    ensures RowEvolves(db.jobs[job], RelinkedRow(db.jobs[job], t, BoundTrip(db.trips[t], job, reported, now), now))
  {
    var bound := TripOfJob(db.trips, job);
    assert RowAgrees(db.trips, job, db.jobs[job]);
    assert TripCounts(db.trips[t]);
    if bound.Some? {
      assert bound.value == t;
    }
  }

  lemma ErasureEvolvesRows(trips: map<Id, Trip>, jobs: map<Id, JobRow>, u: Id, now: Time)
    requires AssociationsOk(trips, jobs)
    ensures RowsEvolve(jobs, ErasedJobs(trips, jobs, TripsOf(trips, u), now))
  {
    forall j | j in jobs
      ensures RowEvolves(jobs[j], ErasedJobs(trips, jobs, TripsOf(trips, u), now)[j])
    {
      assert RowAgrees(trips, j, jobs[j]);
      var bound := TripOfJob(trips, j);
      if bound.Some? {
        assert TripCounts(trips[bound.value]);
      }
    }
  }

  // ---- Every step ----------------------------------------------------------------------------

  ghost predicate TripInv(w: World) {
    && LedgerOk(w.db) && AssociationsOk(w.db.trips, w.db.jobs) && StepsHaveRows(w.db.jobs, w.db.steps)
    && Bound(w.db.trips, w.jobs)
    && BornOk(w.db.users.Keys, w.db.trips, w.past.born, w.past.users)
    && ClaimsOk(w.db.trips, w.past.claims, w.maxAttempts)
  }

  /** What no step undoes. */
  ghost predicate TripsGoOn(w: World, next: World) {
    TripsEvolve(w.db.trips, next.db.trips) && RowsEvolve(w.db.jobs, next.db.jobs) && next.maxAttempts == w.maxAttempts
  }

  /** Steps that leave the projection alone and every trip with its owner, request and job. */
  lemma CountedStepKeepsTrips(w: World, next: World)
    requires TripInv(w) && LedgerOk(next.db) && ClaimsOk(next.db.trips, next.past.claims, next.maxAttempts)
    requires TripsEvolve(w.db.trips, next.db.trips) && SameOwners(w.db.trips, next.db.trips)
    requires forall t | t in w.db.trips :: SameFacts(w.db.trips[t], next.db.trips[t])
    requires next.db.jobs == w.db.jobs && next.db.steps == w.db.steps && next.jobs == w.jobs
             && next.maxAttempts == w.maxAttempts
    requires next.db.users.Keys * w.past.users <= w.db.users.Keys && w.past.users <= next.past.users
    requires next.past.born == w.past.born
    ensures TripInv(next) && TripsGoOn(w, next)
  {
    OtherColumnsKeepAssociations(w.db.trips, next.db.trips, w.db.jobs);
    RowsStay(w.db.trips, w.db.jobs);
    SameOwnersKeepBorn(w.db.users.Keys, next.db.users.Keys, w.db.trips, next.db.trips, w.past.born, w.past.users,
        next.past.users);
    EvolvingKeepsBound(w.db.trips, next.db.trips, w.jobs);
  }

  lemma PlainStepKeepsTrips(w: World, next: World)
    requires TripInv(w) && LedgerOk(next.db)
    requires TripsEvolve(w.db.trips, next.db.trips) && SameOwners(w.db.trips, next.db.trips)
    requires forall t | t in w.db.trips :: SameFacts(w.db.trips[t], next.db.trips[t])
    requires next.db.jobs == w.db.jobs && next.db.steps == w.db.steps && next.jobs == w.jobs
             && next.maxAttempts == w.maxAttempts
    requires next.db.users.Keys * w.past.users <= w.db.users.Keys && w.past.users <= next.past.users
    requires next.past.born == w.past.born && next.past.claims == w.past.claims
    ensures TripInv(next) && TripsGoOn(w, next)
  {
    EvolvingKeepsClaims(w.db.trips, next.db.trips, w.past.claims, w.maxAttempts);
    CountedStepKeepsTrips(w, next);
  }

  /** Reserving adds one trip that has no job. */
  lemma ReserveStepKeepsTrips(w: World, next: World, r: Request, ids: NewIds, window: Time)
    requires TripInv(w) && LedgerOk(next.db) && w.db.users.Keys <= w.past.users
    requires ReserveRefusal(w.db, r).None? && ids.trip !in w.db.trips
    requires next.db.trips == w.db.trips[ids.trip := NewTrip(r, ids.entry, window, w.now)]
             && next.db.users == w.db.users
    requires next.db.jobs == w.db.jobs && next.db.steps == w.db.steps && next.jobs == w.jobs
             && next.maxAttempts == w.maxAttempts
    requires next.past == w.past.(born := w.past.born[ids.trip := r])
    ensures TripInv(next) && TripsGoOn(w, next)
  {
    var trip := NewTrip(r, ids.entry, window, w.now);
    NewTripKeepsAssociations(w.db.trips, w.db.jobs, ids.trip, trip);
    RowsStay(w.db.trips, w.db.jobs);
    ReserveConditions(w.db, r);
    ReservingKeepsBorn(w.db.users.Keys, w.db.trips, w.past.born, w.past.users, r, ids.trip, trip);
    AddedKeeps(w.db.trips, ids.trip, trip, w.jobs, w.past.claims, w.maxAttempts);
  }

  lemma AddedKeeps(trips: map<Id, Trip>, t: Id, trip: Trip, jobs: Jobs, claims: map<Id, nat>, maxAttempts: nat)
    requires t !in trips && trip.jobId.None? && Bound(trips, jobs) && ClaimsOk(trips, claims, maxAttempts)
    ensures TripsEvolve(trips, trips[t := trip]) && Bound(trips[t := trip], jobs)
            && ClaimsOk(trips[t := trip], claims, maxAttempts)
  {
    NothingEvolves(trips);
    EvolvingKeepsClaims(trips, trips[t := trip], claims, maxAttempts);
    EvolvingKeepsBound(trips, trips[t := trip], jobs);
  }

  /** A reply that names the job the upstream holds. */
  lemma AcceptStepKeepsTrips(w: World, next: World, t: Id, reported: string)
    requires TripInv(w) && t in w.jobs && next.db == AcceptOutcome(w.db, t, w.jobs[t], reported, w.now).0
    requires next.past == w.past && next.jobs == w.jobs && next.maxAttempts == w.maxAttempts
    ensures TripInv(next) && TripsGoOn(w, next)
  {
    AcceptKeepsLedger(w.db, t, w.jobs[t], reported, w.now);
    AcceptKeepsAssociations(w.db, t, w.jobs[t], reported, w.now);
    AcceptEvolves(w.db, t, w.jobs[t], reported, w.now);
    AcceptEvolvesRows(w.db, t, w.jobs[t], reported, w.now);
    AcceptKeepsBound(w.db, w.jobs, t, reported, w.now);
    AcceptTouches(w.db, w.jobs, t, reported, w.now);
    KeptUsers(w.db, next.db, {Trips, JobRows});
    MoreRowsKeepSteps(w.db.jobs, next.db.jobs, w.db.steps);
    SameOwnersKeepBorn(w.db.users.Keys, next.db.users.Keys, w.db.trips, next.db.trips, w.past.born, w.past.users,
        w.past.users);
    EvolvingKeepsClaims(w.db.trips, next.db.trips, w.past.claims, w.maxAttempts);
  }

  lemma KeptUsers(a: Db, b: Db, changed: set<Kind>)
    requires Only(a, b, changed) && Users !in changed && StepRows !in changed
    ensures b.users == a.users && b.steps == a.steps
  {
  }

  /** An erasure: the trips of one user lose their owner, and the user is gone. */
  lemma EraseStepKeepsTrips(w: World, next: World, u: Id)
    requires TripInv(w) && u in w.db.users && u in w.db.identities && ActiveTrips(w.db.trips, u) == {}
    requires next.db == CloseWrite(w.db, u, w.now) && LedgerOk(next.db)
    requires next.past == w.past && next.jobs == w.jobs && next.maxAttempts == w.maxAttempts
    ensures TripInv(next) && TripsGoOn(w, next)
  {
    CloseWriteTables(w.db, u, w.now);
    ErasureKeepsAssociations(w.db.trips, w.db.jobs, u, w.now);
    ErasureEvolves(w.db.users.Keys, w.db.trips, w.db.entries, u, w.now);
    ErasureEvolvesRows(w.db.trips, w.db.jobs, u, w.now);
    ErasingKeepsBorn(w.db.users.Keys, w.db.trips, w.past.born, w.past.users, u, w.now);
    ErasedKeeps(w.db.trips, u, w.now, w.jobs, w.past.claims, w.maxAttempts);
    StepsStay(w.db, u, w.now);
    MoreRowsKeepSteps(w.db.jobs, next.db.jobs, w.db.steps);
  }

  lemma ErasedKeeps(trips: map<Id, Trip>, u: Id, now: Time, jobs: Jobs, claims: map<Id, nat>, maxAttempts: nat)
    requires Bound(trips, jobs) && ClaimsOk(trips, claims, maxAttempts)
    requires TripsEvolve(trips, ErasedTrips(trips, TripsOf(trips, u), now))
    ensures var after := ErasedTrips(trips, TripsOf(trips, u), now);
            Bound(after, jobs) && ClaimsOk(after, claims, maxAttempts)
  {
    EvolvingKeepsClaims(trips, ErasedTrips(trips, TripsOf(trips, u), now), claims, maxAttempts);
    EvolvingKeepsBound(trips, ErasedTrips(trips, TripsOf(trips, u), now), jobs);
  }

  lemma StepsStay(db: Db, u: Id, now: Time)
    requires u in db.users && u in db.identities
    ensures CloseWrite(db, u, now).steps == db.steps
  {
  }

  /** Snapshots change the projection alone. */
  lemma SnapshotStepKeepsTrips(w: World, next: World)
    requires TripInv(w) && next.past == w.past && next.jobs == w.jobs && next.maxAttempts == w.maxAttempts
    requires next.db.trips == w.db.trips && next.db.users == w.db.users && next.db.entries == w.db.entries
    requires AssociationsOk(w.db.trips, next.db.jobs) && RowsEvolve(w.db.jobs, next.db.jobs)
             && StepsHaveRows(next.db.jobs, next.db.steps)
    ensures TripInv(next) && TripsGoOn(w, next)
  {
    NothingEvolves(w.db.trips);
  }

  lemma EventKeepsRows(db: Db, e: Event, now: Time)
    requires AssociationsOk(db.trips, db.jobs) && StepsHaveRows(db.jobs, db.steps) && ProjectionsAfter(db, e, now).Some?
    ensures var after := ProjectionsAfter(db, e, now).value;
            && after.trips == db.trips && after.users == db.users && after.entries == db.entries
            && AssociationsOk(db.trips, after.jobs) && RowsEvolve(db.jobs, after.jobs)
            && StepsHaveRows(after.jobs, after.steps)
  {
    SnapshotKeepsAssociations(db.trips, db.jobs, e.job, now);
    SnapshotEvolves(db.trips, db.jobs, e.job, now);
    var jobs := JobsAfter(db.trips, db.jobs, e.job, now).value;
    MoreRowsKeepSteps(db.jobs, jobs, db.steps);
    StepsAfterHaveRows(jobs, db.steps, InIdOrder(e.steps));
  }

  lemma PageKeepsRows(db: Db, entity: Entity, items: seq<Item>, now: Time)
    requires AssociationsOk(db.trips, db.jobs) && StepsHaveRows(db.jobs, db.steps)
             && PageAfter(db, entity, items, now).Some?
    ensures var after := PageAfter(db, entity, items, now).value;
            && after.trips == db.trips && after.users == db.users && after.entries == db.entries
            && AssociationsOk(db.trips, after.jobs) && RowsEvolve(db.jobs, after.jobs)
            && StepsHaveRows(after.jobs, after.steps)
  {
    if entity == TRIP_JOB {
      SnapshotsKeepAssociations(db.trips, db.jobs, JobsIn(items), now);
      SnapshotsEvolve(db.trips, db.jobs, JobsIn(items), now);
      MoreRowsKeepSteps(db.jobs, JobsAfterAll(db.trips, db.jobs, JobsIn(items), now).value, db.steps);
    } else {
      RowsStay(db.trips, db.jobs);
      StepsAfterHaveRows(db.jobs, db.steps, StepsIn(items));
    }
  }

  lemma FactsStay(trips: map<Id, Trip>)
    ensures forall t | t in trips :: SameFacts(trips[t], trips[t])
  {
  }

  lemma OneTripSameFacts(trips: map<Id, Trip>, t: Id, trip: Trip)
    requires t in trips && SameFacts(trips[t], trip)
    ensures forall s | s in trips :: SameFacts(trips[s], trips[t := trip][s])
  {
  }

  lemma UncertainFacts(trips: map<Id, Trip>, t: Id)
    ensures forall s | s in trips :: SameFacts(trips[s], UncertainTrips(trips, t)[s])
  {
  }

  lemma SettleFacts(db: Db, t: Id, r: Terminal, owner: Option<Id>, now: Time)
    ensures var after := SettleOutcome(db, t, r, owner, now).0;
            after.trips.Keys == db.trips.Keys && forall s | s in db.trips :: SameFacts(db.trips[s], after.trips[s])
  {
    FactsStay(db.trips);
    if SettleRefusal(db, t, r, owner).None? {
      assert SettleWrite(db, t, r, now).trips == db.trips[t := SettledTrip(db.trips[t], r, now)];
      OneTripSameFacts(db.trips, t, SettledTrip(db.trips[t], r, now));
    }
  }

  lemma ProgressFacts(db: Db, t: Id, status: TripStatus, owner: Option<Id>, now: Time)
    ensures var after := ActiveOutcome(db, t, status, owner, now).0;
            after.trips.Keys == db.trips.Keys && forall s | s in db.trips :: SameFacts(db.trips[s], after.trips[s])
  {
    ProgressCases(db, t, status, owner, now);
    FactsStay(db.trips);
    if t in db.trips {
      OneTripSameFacts(db.trips, t, Progressed(db.trips[t], status, now));
    }
  }

  /** A step that writes none of these tables. */
  lemma IdleStepKeepsTrips(w: World, next: World)
    requires TripInv(w) && next.db.trips == w.db.trips && next.db.entries == w.db.entries
    requires next.db.jobs == w.db.jobs && next.db.steps == w.db.steps && next.jobs == w.jobs
             && next.maxAttempts == w.maxAttempts
    requires w.db.users.Keys <= next.db.users.Keys && next.db.users.Keys * w.past.users <= w.db.users.Keys
             && w.past.users <= next.past.users
    requires next.past.born == w.past.born && next.past.claims == w.past.claims
    ensures TripInv(next) && TripsGoOn(w, next)
  {
    MoreUsersKeepLedger(w.db.users.Keys, next.db.users.Keys, w.db.trips, w.db.entries);
    NothingEvolves(w.db.trips);
    FactsStay(w.db.trips);
    PlainStepKeepsTrips(w, next);
  }

  /** What the tables outside the ledger and the projection look like after a quiet step. */
  lemma KeptProjection(a: Db, b: Db, changed: set<Kind>)
    requires Only(a, b, changed) && JobRows !in changed && StepRows !in changed
    ensures b.jobs == a.jobs && b.steps == a.steps
    ensures Users !in changed ==> b.users == a.users
    ensures Trips !in changed ==> b.trips == a.trips
    ensures Entries !in changed ==> b.entries == a.entries
  {
  }

  lemma SettleStep(w: World, op: Op)
    requires op.Settle? && TripInv(w)
    ensures TripInv(Next(w, op)) && TripsGoOn(w, Next(w, op))
  {
    SettleKeepsLedger(w.db, op.trip, op.report, op.owner, w.now);
    SettleEvolves(w.db, op.trip, op.report, op.owner, w.now);
    SettleFacts(w.db, op.trip, op.report, op.owner, w.now);
    SettleTouches(w.db, op.trip, op.report, op.owner, w.now);
    KeptProjection(w.db, SettleOutcome(w.db, op.trip, op.report, op.owner, w.now).0, {Trips, Entries});
    PlainStepKeepsTrips(w, Next(w, op));
  }

  lemma ProgressStep(w: World, op: Op)
    requires op.Progress? && TripInv(w)
    ensures TripInv(Next(w, op)) && TripsGoOn(w, Next(w, op))
  {
    ActiveKeepsLedger(w.db, op.trip, op.status, op.owner, w.now);
    ProgressEvolves(w.db, op.trip, op.status, op.owner, w.now);
    ProgressFacts(w.db, op.trip, op.status, op.owner, w.now);
    ProgressTouches(w.db, op.trip, op.status, op.owner, w.now);
    KeptProjection(w.db, ActiveOutcome(w.db, op.trip, op.status, op.owner, w.now).0, {Trips});
    PlainStepKeepsTrips(w, Next(w, op));
  }

  lemma UncertainStep(w: World, op: Op)
    requires op.Uncertain? && TripInv(w)
    ensures TripInv(Next(w, op)) && TripsGoOn(w, Next(w, op))
  {
    UncertainKeepsLedger(w.db, op.trip);
    UncertainEvolves(w.db, op.trip);
    UncertainFacts(w.db.trips, op.trip);
    PlainStepKeepsTrips(w, Next(w, op));
  }

  lemma ClaimStep(w: World, op: Op)
    requires op.Claim? && TripInv(w)
    ensures TripInv(Next(w, op)) && TripsGoOn(w, Next(w, op))
  {
    var ids := Claimable(w.db.trips, op.order, w.maxAttempts, op.limit);
    ClaimedKeepsTrips(w, Next(w, op), ids);
  }

  lemma ClaimedKeepsTrips(w: World, next: World, ids: seq<Id>)
    requires TripInv(w) && forall t | t in ids :: Eligible(w.db.trips, t, w.maxAttempts)
    requires next.db == w.db.(trips := ClaimedTrips(w.db.trips, Elements(ids))) && next.jobs == w.jobs
             && next.maxAttempts == w.maxAttempts
    requires next.past == w.past.(claims := Counted(w.past.claims, w.db.trips, Elements(ids)))
    ensures TripInv(next) && TripsGoOn(w, next)
  {
    ClaimedTables(w.db.users.Keys, w.db.trips, w.db.entries, w.past.claims, ids, w.maxAttempts);
    CountedStepKeepsTrips(w, next);
  }

  lemma ClaimedTables(
    users: set<Id>, trips: map<Id, Trip>, entries: map<Id, Entry>, claims: map<Id, nat>, ids: seq<Id>,
    maxAttempts: nat)
    requires TripsOk(users, trips, entries) && ClaimsOk(trips, claims, maxAttempts)
    requires forall t | t in ids :: Eligible(trips, t, maxAttempts)
    ensures var trips' := ClaimedTrips(trips, Elements(ids));
            && TripsOk(users, trips', entries) && TripsEvolve(trips, trips') && SameOwners(trips, trips')
            && (forall t | t in trips :: SameFacts(trips[t], trips'[t]))
            && ClaimsOk(trips', Counted(claims, trips, Elements(ids)), maxAttempts)
  {
    ClaimingKeepsLedger(users, trips, ClaimedTrips(trips, Elements(ids)), entries);
    ClaimingEvolves(trips, Elements(ids));
    ClaimingKeepsClaims(trips, claims, ids, maxAttempts);
  }

  lemma ReserveStep(w: World, op: Op)
    requires op.Reserve? && TripInv(w) && Enabled(w, op) && w.db.users.Keys <= w.past.users
    ensures TripInv(Next(w, op)) && TripsGoOn(w, Next(w, op))
  {
    if ReserveRefusal(w.db, op.request).None? {
      ReservedStep(w, op);
      ReservedKeepsTrips(w, Next(w, op), op.request, op.ids, op.window);
    } else {
      RefusedStep(w, op);
      IdleStepKeepsTrips(w, Next(w, op));
    }
  }

  lemma ReservedStep(w: World, op: Op)
    requires op.Reserve? && ReserveRefusal(w.db, op.request).None?
    ensures var next := Next(w, op);
            && next.db == ReserveOutcome(w.db, op.request, op.ids.trip, op.ids.entry, op.window, w.now).0
            && next.jobs == w.jobs && next.maxAttempts == w.maxAttempts
            && next.past == w.past.(born := w.past.born[op.ids.trip := op.request])
  {
  }

  lemma RefusedStep(w: World, op: Op)
    requires op.Reserve? && ReserveRefusal(w.db, op.request).Some?
    ensures Next(w, op) == w
  {
  }

  lemma ReservedKeepsTrips(w: World, next: World, r: Request, ids: NewIds, window: Time)
    requires TripInv(w) && w.db.users.Keys <= w.past.users && ReserveRefusal(w.db, r).None?
    requires ids.trip !in w.db.trips && ids.entry !in w.db.entries
    requires next.db == ReserveOutcome(w.db, r, ids.trip, ids.entry, window, w.now).0
    requires next.jobs == w.jobs && next.maxAttempts == w.maxAttempts
             && next.past == w.past.(born := w.past.born[ids.trip := r])
    ensures TripInv(next) && TripsGoOn(w, next)
  {
    ReserveKeepsLedger(w.db, r, ids.trip, ids.entry, window, w.now);
    ReservedTables(w.db, r, ids, window, w.now);
    ReserveStepKeepsTrips(w, next, r, ids, window);
  }

  lemma ReservedTables(db: Db, r: Request, ids: NewIds, window: Time, now: Time)
    requires ReserveRefusal(db, r).None?
    ensures var after := ReserveOutcome(db, r, ids.trip, ids.entry, window, now).0;
            && after.trips == db.trips[ids.trip := NewTrip(r, ids.entry, window, now)]
            && after.users == db.users && after.jobs == db.jobs && after.steps == db.steps
  {
    WrittenTables(db, r, ids, window, now);
  }

  lemma WrittenTables(db: Db, r: Request, ids: NewIds, window: Time, now: Time)
    ensures var after := ReserveWrite(db, r, ids.trip, ids.entry, window, now);
            && after.trips == db.trips[ids.trip := NewTrip(r, ids.entry, window, now)]
            && after.users == db.users && after.jobs == db.jobs && after.steps == db.steps
  {
  }

  lemma CloseStep(w: World, op: Op)
    requires op.Close? && TripInv(w)
    ensures TripInv(Next(w, op)) && TripsGoOn(w, Next(w, op))
  {
    CloseIsAllOrAttempt(w.db, op.user, op.challenge, op.code, w.now);
    CloseKeepsLedger(w.db, op.user, op.challenge, op.code, w.now);
    if CloseOutcome(w.db, op.user, op.challenge, op.code, w.now).1 == Closed {
      EraseStepKeepsTrips(w, Next(w, op), op.user);
    } else {
      IdleStepKeepsTrips(w, Next(w, op));
    }
  }

  lemma DeliverStep(w: World, op: Op)
    requires op.Deliver? && TripInv(w)
    ensures TripInv(Next(w, op)) && TripsGoOn(w, Next(w, op))
  {
    EventKeepsTables(w.db, op.event, op.repair, w.now);
    SnapshotStepKeepsTrips(w, Next(w, op));
  }

  lemma EventKeepsTables(db: Db, e: Event, repair: bool, now: Time)
    requires AssociationsOk(db.trips, db.jobs) && StepsHaveRows(db.jobs, db.steps)
    ensures var after := EventOutcome(db, e, repair, now).0;
            && after.trips == db.trips && after.users == db.users && after.entries == db.entries
            && AssociationsOk(db.trips, after.jobs) && RowsEvolve(db.jobs, after.jobs)
            && StepsHaveRows(after.jobs, after.steps)
  {
    EventTouches(db, e, repair, now);
    KeptByEvents(db, EventOutcome(db, e, repair, now).0);
    ProjectionStream.EventEffect(db, e, repair, now);
    if EventOutcome(db, e, repair, now).1 == APPLIED {
      EventKeepsRows(db, e, now);
    } else {
      RowsStay(db.trips, db.jobs);
    }
  }

  lemma KeptByEvents(a: Db, b: Db)
    requires Only(a, b, {JobRows, StepRows, Events, ConsumerState})
    ensures b.trips == a.trips && b.users == a.users && b.entries == a.entries
  {
  }

  lemma PageStep(w: World, op: Op)
    requires op.MergePage? && TripInv(w)
    ensures TripInv(Next(w, op)) && TripsGoOn(w, Next(w, op))
  {
    if PageAfter(w.db, op.entity, op.items, w.now).Some? {
      PageKeepsRows(w.db, op.entity, op.items, w.now);
    } else {
      RowsStay(w.db.trips, w.db.jobs);
    }
    SnapshotStepKeepsTrips(w, Next(w, op));
  }

  lemma PostStep(w: World, op: Op)
    requires op.Post? && TripInv(w) && Enabled(w, op)
    ensures TripInv(Next(w, op)) && TripsGoOn(w, Next(w, op))
    ensures forall t | t in w.jobs :: t in Next(w, op).jobs && Next(w, op).jobs[t] == w.jobs[t]
  {
    CreateKeepsBound(w.db.trips, w.jobs, op.trip, op.fate);
    NothingEvolves(w.db.trips);
    RowsStay(w.db.trips, w.db.jobs);
  }

  predicate ForTrips(op: Op) {
    op.Reserve? || op.Post? || op.Accept? || op.Uncertain? || op.Claim? || op.Settle? || op.Progress?
    || op.Deliver? || op.MergePage? || op.Close?
  }

  lemma OthersTouchNoTrip(op: Op)
    requires !ForTrips(op)
    ensures Touches(op) !! {Trips, Entries, JobRows, StepRows}
  {
  }

  /** Registrations add a user that no trip knows; other steps keep the users. */
  lemma UsersGrow(w: World, op: Op)
    requires !ForTrips(op) && Enabled(w, op) && w.db.users.Keys <= w.past.users
    ensures w.db.users.Keys <= After(w, op).users.Keys && After(w, op).users.Keys * w.past.users <= w.db.users.Keys
  {
    if op.Verify? {
      UsersAfterVerify(w.db, op.challenge, op.code, op.drawn, op.draws, op.units, w.now);
      VerifiedUsersGrow(w.db, VerifyOutcome(w.db, op.challenge, op.code, op.drawn, op.draws, op.units, w.now),
          op.drawn.user, w.past.users, w.now);
    } else if op.Mutate? {
      MutateInPlace(w.db, op.caller, op.action, op.target, op.reason, op.key);
    } else if op.RenameTo? {
      RenameInPlace(w.db, op.user, op.name, w.now);
    } else {
      OthersKeepUsers(w, op);
    }
  }

  lemma VerifiedUsersGrow(db: Db, outcome: (Db, VerifyAnswer), u: Id, known: set<Id>, now: Time)
    requires if outcome.1.Registered? then
               exists name :: Profile.NameFree(db, name, now)
                 && outcome.0.users == db.users[u := User(Active, Member, name, name, None)]
             else outcome.0.users == db.users
    requires u !in known
    ensures db.users.Keys <= outcome.0.users.Keys && outcome.0.users.Keys * known <= db.users.Keys
  {
  }

  lemma OthersKeepUsers(w: World, op: Op)
    requires !ForTrips(op) && !op.Verify? && !op.Mutate? && !op.RenameTo?
    ensures After(w, op).users == w.db.users
  {
    assert Users !in Touches(op);
    StepTouches(w, op);
  }

  lemma OtherStep(w: World, op: Op)
    requires !ForTrips(op) && TripInv(w) && Enabled(w, op) && w.db.users.Keys <= w.past.users
    ensures TripInv(Next(w, op)) && TripsGoOn(w, Next(w, op))
  {
    UsersGrow(w, op);
    OthersTouchNoTrip(op);
    StepTouches(w, op);
    KeptProjection(w.db, After(w, op), Touches(op));
    RememberedTrips(w, op);
    IdleStepKeepsTrips(w, Next(w, op));
  }

  lemma RememberedTrips(w: World, op: Op)
    requires !ForTrips(op)
    ensures Remember(w, op).born == w.past.born && Remember(w, op).claims == w.past.claims
            && w.past.users <= Remember(w, op).users
  {
  }

  lemma StepKeepsTrips(w: World, op: Op)
    requires TripInv(w) && Enabled(w, op) && w.db.users.Keys <= w.past.users
    ensures TripInv(Next(w, op)) && TripsGoOn(w, Next(w, op))
  {
    if !ForTrips(op) {
      OtherStep(w, op);
    } else if op.Reserve? {
      ReserveStep(w, op);
    } else if op.Post? {
      PostStep(w, op);
    } else if op.Accept? {
      AcceptStepKeepsTrips(w, Next(w, op), op.trip, op.reported);
    } else if op.Uncertain? {
      UncertainStep(w, op);
    } else if op.Claim? {
      ClaimStep(w, op);
    } else if op.Settle? {
      SettleStep(w, op);
    } else if op.Progress? {
      ProgressStep(w, op);
    } else if op.Deliver? {
      DeliverStep(w, op);
    } else if op.MergePage? {
      PageStep(w, op);
    } else {
      CloseStep(w, op);
    }
  }
}
