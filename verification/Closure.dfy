/** Erasing an account in one transaction (src/account/closure.py). */
module AccountClosure {
  import opened Schema
  import opened Finite
  import opened Profile
  import opened Quota
  import opened Projection
  import Auth

  datatype CloseAnswer =
    | Closed | NoSuchUser | OtpInvalid | OtpUsed | OtpExpired | OtpAttemptsExceeded | ActiveTripInProgress

  /** Answers that write nothing. */
  function CloseRefusal(db: Db, u: Id, c: Id, now: Time): Option<CloseAnswer> {
    if u !in db.users then Some(NoSuchUser)
    else if u !in db.identities || c !in db.challenges then Some(OtpInvalid)
    else
      var challenge := db.challenges[c];
      if challenge.purpose != AccountClosure || challenge.mode != Closure || challenge.user != Some(u)
         || challenge.email != db.identities[u] || challenge.delivery != Sent then Some(OtpInvalid)
      else if challenge.consumedAt.Some? then Some(OtpUsed)
      else if challenge.expiresAt <= now then Some(OtpExpired)
      else if challenge.attempts >= challenge.maxAttempts then Some(OtpAttemptsExceeded)
      else None
  }

  function TripsOf(trips: map<Id, Trip>, u: Id): set<Id> {
    set t | t in trips && trips[t].owner == Some(u)
  }

  function ErasedTrip(t: Id, trip: Trip, now: Time): Trip {
    trip.(assocVersion := trip.assocVersion + 1, owner := None, entryId := None,
          erasedAt := Some(now), archivedAt := Some(now), request := Erased(t))
  }

  function ErasedRow(row: JobRow, version: nat, now: Time): JobRow {
    row.(association := Deidentified, assocVersion := Max(row.assocVersion, version),
         erasedAt := row.erasedAt.Or(Some(now)), tripId := None, userId := None, syncedAt := now)
  }

  /** The trips and projection rows once the trips in `chosen` have been erased. */
  function ErasedTrips(trips: map<Id, Trip>, chosen: set<Id>, now: Time): map<Id, Trip> {
    map t | t in trips :: if t in chosen then ErasedTrip(t, trips[t], now) else trips[t]
  }

  function ErasedJobs(trips: map<Id, Trip>, jobs: map<Id, JobRow>, chosen: set<Id>, now: Time): map<Id, JobRow> {
    map j | j in jobs ::
      var bound := TripOfJob(trips, j);
      if bound.Some? && bound.value in chosen then ErasedRow(jobs[j], trips[bound.value].assocVersion + 1, now)
      else jobs[j]
  }

  function Forgotten(a: Adjustment, u: Id): Adjustment {
    a.(target := if a.target == Some(u) then None else a.target,
       actor := if a.actor == Some(u) then None else a.actor)
  }

  function ForgetIn(adjustments: seq<Adjustment>, u: Id): seq<Adjustment> {
    seq(|adjustments|, i requires 0 <= i < |adjustments| => Forgotten(adjustments[i], u))
  }

  function EntriesWithout(entries: map<Id, Entry>, u: Id): map<Id, Entry> {
    map e | e in entries && entries[e].user != u :: entries[e]
  }
  function GrantsWithout(grants: map<Id, Grant>, u: Id): map<Id, Grant> {
    map g | g in grants && grants[g].user != u :: grants[g]
  }
  function RedemptionsWithout(redemptions: map<Id, Id>, u: Id): map<Id, Id> {
    map i | i in redemptions && redemptions[i] != u :: redemptions[i]
  }
  function SessionsWithout(sessions: map<Id, Session>, u: Id): map<Id, Session> {
    map s | s in sessions && sessions[s].user != u :: sessions[s]
  }
  function ChallengesWithout(challenges: map<Id, Challenge>, u: Id, email: string): map<Id, Challenge> {
    map c | c in challenges && challenges[c].user != Some(u) && challenges[c].email != email :: challenges[c]
  }

  /** The bulk deletes and updates that follow the loop over trips. */
  function Purged(db: Db, u: Id, email: string): Db {
    db.(entries := EntriesWithout(db.entries, u), grants := GrantsWithout(db.grants, u),
        redemptions := RedemptionsWithout(db.redemptions, u), sessions := SessionsWithout(db.sessions, u),
        challenges := ChallengesWithout(db.challenges, u, email), identities := db.identities - {u},
        adjustments := ForgetIn(db.adjustments, u), users := db.users - {u})
  }

  function CloseWrite(db: Db, u: Id, now: Time): Db
    requires u in db.users && u in db.identities
  {
    var mine := TripsOf(db.trips, u);
    Purged(
      WithQuarantine(db, db.users[u].nameKey, now).(
        trips := ErasedTrips(db.trips, mine, now),
        jobs := ErasedJobs(db.trips, db.jobs, mine, now)),
      u, db.identities[u])
  }

  function CloseOutcome(db: Db, u: Id, c: Id, code: string, now: Time): (Db, CloseAnswer) {
    var refusal := CloseRefusal(db, u, c, now);
    if refusal.Some? then (db, refusal.value)
    else if code != db.challenges[c].code then
      (Auth.WrongCode(db, c),
       if db.challenges[c].attempts + 1 >= db.challenges[c].maxAttempts then OtpAttemptsExceeded else OtpInvalid)
    else if ActiveTrips(db.trips, u) != {} then (db, ActiveTripInProgress)
    else (CloseWrite(db, u, now), Closed)
  }

  /** Either the whole erasure, or at most one more counted attempt on the presented challenge. */
  lemma CloseIsAllOrAttempt(db: Db, u: Id, c: Id, code: string, now: Time)
    ensures var (after, answer) := CloseOutcome(db, u, c, code, now);
            if answer == Closed then
              && u in db.users && u in db.identities && after == CloseWrite(db, u, now)
              && ActiveTrips(db.trips, u) == {}
            else
              after == db || (c in db.challenges && db.challenges[c].attempts < db.challenges[c].maxAttempts
                  && after == Auth.WrongCode(db, c))
    ensures CloseOutcome(db, u, c, code, now).1 == ActiveTripInProgress ==> CloseOutcome(db, u, c, code, now).0 == db
  {
  }

  lemma CloseWriteTables(db: Db, u: Id, now: Time)
    requires u in db.users && u in db.identities
    ensures var after := CloseWrite(db, u, now);
            && after.users == db.users - {u} && after.users.Keys == db.users.Keys - {u}
            && after.trips == ErasedTrips(db.trips, TripsOf(db.trips, u), now)
            && after.jobs == ErasedJobs(db.trips, db.jobs, TripsOf(db.trips, u), now)
            && after.entries == EntriesWithout(db.entries, u)
            && after.grants == GrantsWithout(db.grants, u)
            && after.adjustments == ForgetIn(db.adjustments, u)
  {
  }

  /** The unique hermes_job_id column. */
  ghost predicate UniqueJobs(trips: map<Id, Trip>) {
    forall s, t | s in trips && t in trips && trips[s].jobId.Some? && trips[s].jobId == trips[t].jobId :: s == t
  }

  function JobsOf(trips: map<Id, Trip>, chosen: set<Id>): set<Id> {
    set t | t in chosen && t in trips && trips[t].jobId.Some? :: trips[t].jobId.value
  }

  /** The locks of SELECT ... ORDER BY id FOR UPDATE on the given rows. */
  function RowLocks(table: Table, rows: set<Id>): seq<Lock> {
    ListLocks(table, Sorted(rows))
  }

  function ListLocks(table: Table, ids: seq<Id>): seq<Lock> {
    if ids == [] then [] else ListLocks(table, ids[..|ids| - 1]) + [Lock(table, ids[|ids| - 1])]
  }

  function EraseLocks(db: Db, u: Id): seq<Lock> {
    var mine := TripsOf(db.trips, u);
    RowLocks(TripT, mine) + RowLocks(ProjectionT, JobsOf(db.trips, mine) * db.jobs.Keys)
  }

  /** The locks of a closure that gets as far as erasing. */
  function CloseLocks(db: Db, u: Id, c: Id): seq<Lock> {
    [Lock(UserT, u), Lock(ChallengeT, c)] + EraseLocks(db, u)
  }

  method CloseAccount(db: Database, u: Id, c: Id, code: string, now: Time) returns (answer: CloseAnswer)
    requires UniqueJobs(db.tables.trips)
    modifies db
    ensures (db.tables, answer) == CloseOutcome(old(db.tables), u, c, code, now)
    ensures db.locks <= old(CloseLocks(db.tables, u, c))
  {
    var refusal := CheckClosure(db, u, c, now);
    if refusal.Some? {
      return refusal.value;
    }
    var challenge := db.tables.challenges[c];
    if code != challenge.code {
      challenge := challenge.(attempts := challenge.attempts + 1);
      db.tables := db.tables.(challenges := db.tables.challenges[c := challenge]);
      return if challenge.attempts >= challenge.maxAttempts then OtpAttemptsExceeded else OtpInvalid;
    }
    if ActiveTrips(db.tables.trips, u) != {} {
      return ActiveTripInProgress;
    }
    Erase(db, u, now);
    return Closed;
  }

  /** The user and the challenge are locked before the challenge is checked. */
  method CheckClosure(db: Database, u: Id, c: Id, now: Time) returns (refusal: Option<CloseAnswer>)
    modifies db
    ensures db.tables == old(db.tables) && refusal == CloseRefusal(db.tables, u, c, now)
    ensures db.locks == if u !in db.tables.users then []
                        else if c !in db.tables.challenges then [Lock(UserT, u)]
                        else [Lock(UserT, u), Lock(ChallengeT, c)]
  {
    db.Begin();
    if u !in db.tables.users {
      return Some(NoSuchUser);
    }
    db.ForUpdate(UserT, u);
    if c in db.tables.challenges {
      db.ForUpdate(ChallengeT, c);
    }
    refusal := CloseRefusal(db.tables, u, c, now);
  }

  method Erase(db: Database, u: Id, now: Time)
    requires UniqueJobs(db.tables.trips) && u in db.tables.users && u in db.tables.identities
    modifies db
    ensures db.tables == CloseWrite(old(db.tables), u, now)
    ensures db.locks == old(db.locks) + old(EraseLocks(db.tables, u))
  {
    QuarantineFormerName(db, db.tables.users[u].nameKey, now);
    EraseTrips(db, u, now);
    PurgeUser(db, u);
  }

  lemma EraseOneMore(trips: map<Id, Trip>, jobs: map<Id, JobRow>, chosen: set<Id>, t: Id, now: Time)
    requires UniqueJobs(trips) && t in trips && t !in chosen
    ensures ErasedTrips(trips, chosen + {t}, now) == ErasedTrips(trips, chosen, now)[t := ErasedTrip(t, trips[t], now)]
    ensures ErasedJobs(trips, jobs, chosen + {t}, now)
            == RowsAfterErasing(trips[t], ErasedJobs(trips, jobs, chosen, now), now)
  {
    forall j | j in jobs
      ensures TripOfJob(trips, j) == Some(t) <==> trips[t].jobId == Some(j)
    {
    }
  }

  function RowsAfterErasing(trip: Trip, jobs: map<Id, JobRow>, now: Time): map<Id, JobRow> {
    if trip.jobId.Some? && trip.jobId.value in jobs then
      jobs[trip.jobId.value := ErasedRow(jobs[trip.jobId.value], trip.assocVersion + 1, now)]
    else jobs
  }

  method EraseTrip(db: Database, t: Id, now: Time)
    requires t in db.tables.trips
    modifies db`tables
    ensures db.tables == old(db.tables).(
              trips := old(db.tables.trips)[t := ErasedTrip(t, old(db.tables.trips[t]), now)],
              jobs := RowsAfterErasing(old(db.tables.trips[t]), old(db.tables.jobs), now))
  {
    var trip := db.tables.trips[t];
    trip := trip.(assocVersion := trip.assocVersion + 1);
    trip := trip.(owner := None, entryId := None, erasedAt := Some(now), archivedAt := Some(now), request := Erased(t));
    db.tables := db.tables.(trips := db.tables.trips[t := trip]);
    if trip.jobId.Some? && trip.jobId.value in db.tables.jobs {
      var row := db.tables.jobs[trip.jobId.value];
      row := row.(association := Deidentified);
      row := row.(assocVersion := Max(row.assocVersion, trip.assocVersion));
      row := row.(erasedAt := row.erasedAt.Or(Some(now)));
      row := row.(tripId := None, userId := None, syncedAt := now);
      db.tables := db.tables.(jobs := db.tables.jobs[trip.jobId.value := row]);
    }
  }

  /** The loop over the account's trips and the projection rows of their jobs. */
  method EraseTrips(db: Database, u: Id, now: Time)
    requires UniqueJobs(db.tables.trips)
    modifies db
    ensures db.tables == old(db.tables).(
              trips := ErasedTrips(old(db.tables.trips), TripsOf(old(db.tables.trips), u), now),
              jobs := ErasedJobs(old(db.tables.trips), old(db.tables.jobs), TripsOf(old(db.tables.trips), u), now))
    ensures db.locks == old(db.locks) + old(EraseLocks(db.tables, u))
  {
    LockRows(db, u);
    var mine := Sorted(TripsOf(db.tables.trips, u));
    assert Elements(mine) == TripsOf(db.tables.trips, u);
    EraseEach(db, mine, now);
  }

  method EraseEach(db: Database, mine: seq<Id>, now: Time)
    requires UniqueJobs(db.tables.trips) && Ascending(mine) && Elements(mine) <= db.tables.trips.Keys
    modifies db`tables
    ensures db.tables == old(db.tables).(
              trips := ErasedTrips(old(db.tables.trips), Elements(mine), now),
              jobs := ErasedJobs(old(db.tables.trips), old(db.tables.jobs), Elements(mine), now))
  {
    ghost var trips, jobs := db.tables.trips, db.tables.jobs;
    assert Elements(mine[..0]) == {};
    assert ErasedTrips(trips, {}, now) == trips && ErasedJobs(trips, jobs, {}, now) == jobs;
    for i := 0 to |mine|
      invariant db.tables == old(db.tables).(
                  trips := ErasedTrips(trips, Elements(mine[..i]), now),
                  jobs := ErasedJobs(trips, jobs, Elements(mine[..i]), now))
    {
      NextElement(mine, i);
      assert mine[i] in Elements(mine);
      EraseOneMore(trips, jobs, Elements(mine[..i]), mine[i], now);
      EraseTrip(db, mine[i], now);
    }
    assert mine[..|mine|] == mine;
  }

  method LockRows(db: Database, u: Id)
    modifies db`locks
    ensures db.locks == old(db.locks) + old(EraseLocks(db.tables, u))
  {
    var mine := TripsOf(db.tables.trips, u);
    var rows := JobsOf(db.tables.trips, mine) * db.tables.jobs.Keys;
    LockEach(db, TripT, Sorted(mine));
    LockEach(db, ProjectionT, Sorted(rows));
    Associative(old(db.locks), RowLocks(TripT, mine), RowLocks(ProjectionT, rows));
  }

  lemma Associative(a: seq<Lock>, b: seq<Lock>, c: seq<Lock>)
    ensures (a + b) + c == a + (b + c)
  {
  }

  method LockEach(db: Database, table: Table, ids: seq<Id>)
    modifies db`locks
    ensures db.locks == old(db.locks) + ListLocks(table, ids)
  {
    for i := 0 to |ids|
      invariant db.locks == old(db.locks) + ListLocks(table, ids[..i])
    {
      db.ForUpdate(table, ids[i]);
      assert ids[..i + 1][..i] == ids[..i];
    }
    assert ids[..|ids|] == ids;
  }

  method PurgeUser(db: Database, u: Id)
    requires u in db.tables.identities
    modifies db`tables
    ensures db.tables == Purged(old(db.tables), u, old(db.tables.identities[u]))
  {
    var email := db.tables.identities[u];
    db.tables := db.tables.(entries := EntriesWithout(db.tables.entries, u));
    db.tables := db.tables.(grants := GrantsWithout(db.tables.grants, u));
    db.tables := db.tables.(redemptions := RedemptionsWithout(db.tables.redemptions, u));
    db.tables := db.tables.(sessions := SessionsWithout(db.tables.sessions, u));
    db.tables := db.tables.(challenges := ChallengesWithout(db.tables.challenges, u, email));
    db.tables := db.tables.(identities := db.tables.identities - {u});
    db.tables := db.tables.(adjustments := ForgetIn(db.tables.adjustments, u));
    db.tables := db.tables.(users := db.tables.users - {u});
  }
}
