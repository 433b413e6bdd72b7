/**
  What the trip, quota and projection tables satisfy together, and that every transaction that writes
  them keeps it.
  */
module Ledger {
  import opened Schema
  import opened Quota
  import opened AccountClosure

  // ---- Trips and their quota entries ---------------------------------------------------------

  function EntryFor(status: TripStatus): EntryStatus {
    if !status.Terminal() then RESERVED else if status == SUCCESS then CONSUMED else RELEASED
  }

  /** An owned trip has exactly the entry its status calls for; an erased one is over and has none. */
  ghost predicate TripOk(users: set<Id>, entries: map<Id, Entry>, t: Id, trip: Trip) {
    match trip.owner
    case Some(u) =>
      && u in users && trip.erasedAt.None? && trip.request.Client?
      && trip.entryId.Some? && trip.entryId.value in entries
      && entries[trip.entryId.value] == Entry(u, t, 1, EntryFor(trip.status))
    case None =>
      trip.status.Terminal() && trip.entryId.None? && trip.erasedAt.Some? && trip.request == Erased(t)
  }

  ghost predicate EntryOk(trips: map<Id, Trip>, e: Id, entry: Entry) {
    entry.trip in trips && trips[entry.trip].entryId == Some(e)
  }

  ghost predicate OneActiveTrip(trips: map<Id, Trip>) {
    forall s, t | s in trips && t in trips && trips[s].owner.Some? && trips[s].owner == trips[t].owner
                  && !trips[s].status.Terminal() && !trips[t].status.Terminal() :: s == t
  }

  ghost predicate OneTripPerRequest(trips: map<Id, Trip>) {
    forall s, t | s in trips && t in trips && trips[s].owner.Some? && trips[s].owner == trips[t].owner
                  && trips[s].request == trips[t].request :: s == t
  }

  ghost predicate TripsOk(users: set<Id>, trips: map<Id, Trip>, entries: map<Id, Entry>) {
    && (forall t | t in trips :: TripOk(users, entries, t, trips[t]))
    && (forall e | e in entries :: EntryOk(trips, e, entries[e]))
    && OneActiveTrip(trips)
    && OneTripPerRequest(trips)
  }

  ghost predicate LedgerOk(db: Db) {
    TripsOk(db.users.Keys, db.trips, db.entries)
  }

  lemma ReserveKeepsLedger(db: Db, r: Request, trip: Id, entry: Id, window: Time, now: Time)
    requires LedgerOk(db) && trip !in db.trips && entry !in db.entries
    ensures LedgerOk(ReserveOutcome(db, r, trip, entry, window, now).0)
  {
    if ReserveRefusal(db, r).None? {
      ReserveConditions(db, r);
      AddingKeepsTrips(db.users.Keys, db.trips, db.entries, r, trip, entry, window, now);
    }
  }

  lemma AddingKeepsTrips(users: set<Id>, trips: map<Id, Trip>, entries: map<Id, Entry>,
                         r: Request, t: Id, e: Id, window: Time, now: Time)
    requires TripsOk(users, trips, entries) && t !in trips && e !in entries && r.user in users
    requires forall k | k in trips && trips[k].owner == Some(r.user) ::
               trips[k].status.Terminal() && trips[k].request != Client(r.key)
    ensures TripsOk(users, trips[t := NewTrip(r, e, window, now)], entries[e := Entry(r.user, t, 1, RESERVED)])
  {
    var trips', entries' := trips[t := NewTrip(r, e, window, now)], entries[e := Entry(r.user, t, 1, RESERVED)];
    forall k | k in trips'
      ensures TripOk(users, entries', k, trips'[k])
    {
      assert k != t ==> TripOk(users, entries, k, trips[k]);
    }
    forall k | k in entries'
      ensures EntryOk(trips', k, entries'[k])
    {
      assert k != e ==> EntryOk(trips, k, entries[k]);
    }
  }

  lemma AcceptKeepsLedger(db: Db, t: Id, job: Id, reported: string, now: Time)
    requires LedgerOk(db)
    ensures LedgerOk(AcceptOutcome(db, t, job, reported, now).0)
  {
    if AcceptRefusal(db, t, job).None? {
      StatusStepKeepsLedger(db, t, BoundTrip(db.trips[t], job, reported, now));
    }
  }

  /** Replacing an active trip by an active version of itself. */
  lemma StatusStepKeepsLedger(db: Db, t: Id, trip: Trip)
    requires LedgerOk(db) && t in db.trips
    requires EntryFor(trip.status) == EntryFor(db.trips[t].status)
    requires trip.owner == db.trips[t].owner && trip.entryId == db.trips[t].entryId
    requires trip.erasedAt == db.trips[t].erasedAt && trip.request == db.trips[t].request
    ensures TripsOk(db.users.Keys, db.trips[t := trip], db.entries)
  {
    var trips := db.trips[t := trip];
    forall s | s in trips
      ensures TripOk(db.users.Keys, db.entries, s, trips[s])
    {
      assert TripOk(db.users.Keys, db.entries, s, db.trips[s]);
    }
    forall e | e in db.entries
      ensures EntryOk(trips, e, db.entries[e])
    {
      assert EntryOk(db.trips, e, db.entries[e]);
    }
  }

  lemma ActiveKeepsLedger(db: Db, t: Id, status: TripStatus, owner: Option<Id>, now: Time)
    requires LedgerOk(db)
    ensures LedgerOk(ActiveOutcome(db, t, status, owner, now).0)
  {
    if t in db.trips && !db.trips[t].status.Terminal() && !status.Terminal() {
      StatusStepKeepsLedger(db, t, Progressed(db.trips[t], status, now));
    }
  }

  /** The settlement's invariant error cannot happen: an active trip still holds its reservation. */
  lemma SettlementNeverFails(db: Db, t: Id, r: Terminal, owner: Option<Id>)
    requires LedgerOk(db)
    ensures SettleRefusal(db, t, r, owner) != Some(QuotaInvariantError)
    ensures t in db.trips && !db.trips[t].status.Terminal() ==>
              db.trips[t].owner.Some? && Holds(db.entries, db.trips[t].entryId, RESERVED)
  {
    if t in db.trips {
      assert TripOk(db.users.Keys, db.entries, t, db.trips[t]);
    }
  }

  lemma SettleKeepsLedger(db: Db, t: Id, r: Terminal, owner: Option<Id>, now: Time)
    requires LedgerOk(db)
    ensures LedgerOk(SettleOutcome(db, t, r, owner, now).0)
  {
    if SettleRefusal(db, t, r, owner).None? {
      SettlementNeverFails(db, t, r, owner);
      var after := SettleWrite(db, t, r, now);
      forall s | s in after.trips
        ensures TripOk(after.users.Keys, after.entries, s, after.trips[s])
      {
        assert TripOk(db.users.Keys, db.entries, s, db.trips[s]);
        assert TripOk(db.users.Keys, db.entries, t, db.trips[t]);
      }
      forall e | e in after.entries
        ensures EntryOk(after.trips, e, after.entries[e])
      {
        assert EntryOk(db.trips, e, db.entries[e]);
      }
    }
  }

  /** Nobody but the owner settles or advances a trip in the owner's name. */
  lemma StrangersChangeNothing(db: Db, t: Id, r: Terminal, status: TripStatus, stranger: Id, now: Time)
    requires t in db.trips ==> db.trips[t].owner != Some(stranger)
    ensures SettleOutcome(db, t, r, Some(stranger), now)
            == (db, if r.status.Terminal() then NotOwned else NotATerminalStatus)
    ensures ActiveOutcome(db, t, status, Some(stranger), now)
            == (db, if status.Terminal() then NotAnActiveStatus else NotTheOwner)
  {
  }

  lemma ErasingKeepsTrips(users: set<Id>, trips: map<Id, Trip>, entries: map<Id, Entry>, u: Id, now: Time)
    requires TripsOk(users, trips, entries) && ActiveTrips(trips, u) == {}
    ensures TripsOk(users - {u}, ErasedTrips(trips, TripsOf(trips, u), now), EntriesWithout(entries, u))
  {
    var trips', entries' := ErasedTrips(trips, TripsOf(trips, u), now), EntriesWithout(entries, u);
    forall t | t in trips'
      ensures TripOk(users - {u}, entries', t, trips'[t])
    {
      assert TripOk(users, entries, t, trips[t]);
      assert t !in ActiveTrips(trips, u);
    }
    forall e | e in entries'
      ensures EntryOk(trips', e, entries'[e])
    {
      assert EntryOk(trips, e, entries[e]);
      assert TripOk(users, entries, entries[e].trip, trips[entries[e].trip]);
    }
  }

  lemma CloseKeepsLedger(db: Db, u: Id, c: Id, code: string, now: Time)
    requires LedgerOk(db)
    ensures LedgerOk(CloseOutcome(db, u, c, code, now).0)
  {
    CloseIsAllOrAttempt(db, u, c, code, now);
    if CloseOutcome(db, u, c, code, now).1 == Closed {
      CloseWriteTables(db, u, now);
      ErasingKeepsTrips(db.users.Keys, db.trips, db.entries, u, now);
    }
  }

  lemma ClaimingKeepsLedger(users: set<Id>, trips: map<Id, Trip>, trips': map<Id, Trip>, entries: map<Id, Entry>)
    requires TripsOk(users, trips, entries) && trips'.Keys == trips.Keys
    requires forall t | t in trips :: trips'[t] == trips[t].(attempts := trips'[t].attempts)
    ensures TripsOk(users, trips', entries)
  {
    forall t | t in trips'
      ensures TripOk(users, entries, t, trips'[t])
    {
      assert TripOk(users, entries, t, trips[t]);
    }
    forall e | e in entries
      ensures EntryOk(trips', e, entries[e])
    {
      assert EntryOk(trips, e, entries[e]);
    }
  }

  lemma MoreUsersKeepLedger(users: set<Id>, more: set<Id>, trips: map<Id, Trip>, entries: map<Id, Entry>)
    requires TripsOk(users, trips, entries) && users <= more
    ensures TripsOk(more, trips, entries)
  {
    forall t | t in trips
      ensures TripOk(more, entries, t, trips[t])
    {
      assert TripOk(users, entries, t, trips[t]);
    }
  }

  // ---- Terminal states absorb, and progress is never lost ------------------------------------

  /** What any step may do to a trip that it does not create. */
  ghost predicate TripEvolves(before: Trip, after: Trip) {
    && before.status.Rank() <= after.status.Rank()
    && (before.status.Terminal() ==> after.status == before.status && after.resultId == before.resultId)
    && (before.jobId.Some? ==> after.jobId == before.jobId)
    && (before.erasedAt.Some? ==> after.erasedAt == before.erasedAt)
    && (after.owner.Some? ==>
        after.owner == before.owner && after.request == before.request && after.requestHash == before.requestHash)
    && before.attempts <= after.attempts
    && before.assocVersion <= after.assocVersion && after.createdAt == before.createdAt
    && (before.startedAt.Some? ==> after.startedAt == before.startedAt)
  }

  ghost predicate TripsEvolve(before: map<Id, Trip>, after: map<Id, Trip>) {
    && before.Keys <= after.Keys
    && forall t | t in before :: TripEvolves(before[t], after[t])
  }

  lemma TripsEvolveTransitive(a: map<Id, Trip>, b: map<Id, Trip>, c: map<Id, Trip>)
    requires TripsEvolve(a, b) && TripsEvolve(b, c)
    ensures TripsEvolve(a, c)
  {
    forall t | t in a
      ensures TripEvolves(a[t], c[t])
    {
      assert TripEvolves(a[t], b[t]) && TripEvolves(b[t], c[t]);
    }
  }

  /** The owners and requests of all trips are as before. */
  ghost predicate SameOwners(before: map<Id, Trip>, after: map<Id, Trip>) {
    && after.Keys == before.Keys
    && forall t | t in before :: after[t].owner == before[t].owner && after[t].request == before[t].request
  }

  lemma OneTripEvolves(trips: map<Id, Trip>, t: Id, trip: Trip)
    requires t in trips && TripEvolves(trips[t], trip) && trip.owner == trips[t].owner
             && trip.request == trips[t].request
    ensures TripsEvolve(trips, trips[t := trip]) && SameOwners(trips, trips[t := trip])
  {
  }

  lemma NothingEvolves(trips: map<Id, Trip>)
    ensures TripsEvolve(trips, trips) && SameOwners(trips, trips)
  {
  }

  lemma AcceptEvolves(db: Db, t: Id, job: Id, reported: string, now: Time)
    ensures var after := AcceptOutcome(db, t, job, reported, now).0;
            TripsEvolve(db.trips, after.trips) && SameOwners(db.trips, after.trips)
  {
    NothingEvolves(db.trips);
    if AcceptRefusal(db, t, job).None? {
      assert AcceptWrite(db, t, job, reported, now).trips == db.trips[t := BoundTrip(db.trips[t], job, reported, now)];
      OneTripEvolves(db.trips, t, BoundTrip(db.trips[t], job, reported, now));
    }
  }

  lemma UncertainEvolves(db: Db, t: Id)
    ensures var after := UncertainWrite(db, t);
            TripsEvolve(db.trips, after.trips) && SameOwners(db.trips, after.trips)
  {
    NothingEvolves(db.trips);
    if t in db.trips {
      OneTripEvolves(db.trips, t, db.trips[t].(attempts := db.trips[t].attempts + 1));
    }
  }

  lemma SettleEvolves(db: Db, t: Id, r: Terminal, owner: Option<Id>, now: Time)
    ensures var after := SettleOutcome(db, t, r, owner, now).0;
            TripsEvolve(db.trips, after.trips) && SameOwners(db.trips, after.trips)
  {
    NothingEvolves(db.trips);
    if SettleRefusal(db, t, r, owner).None? {
      assert SettleWrite(db, t, r, now).trips == db.trips[t := SettledTrip(db.trips[t], r, now)];
      OneTripEvolves(db.trips, t, SettledTrip(db.trips[t], r, now));
    }
  }

  lemma ProgressEvolves(db: Db, t: Id, status: TripStatus, owner: Option<Id>, now: Time)
    ensures var after := ActiveOutcome(db, t, status, owner, now).0;
            TripsEvolve(db.trips, after.trips) && SameOwners(db.trips, after.trips)
  {
    ProgressCases(db, t, status, owner, now);
    NothingEvolves(db.trips);
    if ActiveRefusal(db, t, status, owner).None? && !db.trips[t].status.Terminal()
      && Progress(db.trips[t].status) <= Progress(status) {
      OneTripEvolves(db.trips, t, Progressed(db.trips[t], status, now));
    }
  }

  lemma ErasureEvolves(users: set<Id>, trips: map<Id, Trip>, entries: map<Id, Entry>, u: Id, now: Time)
    requires TripsOk(users, trips, entries) && ActiveTrips(trips, u) == {}
    ensures TripsEvolve(trips, ErasedTrips(trips, TripsOf(trips, u), now))
  {
    forall t | t in trips
      ensures TripEvolves(trips[t], ErasedTrips(trips, TripsOf(trips, u), now)[t])
    {
      assert TripOk(users, entries, t, trips[t]);
    }
  }
}
