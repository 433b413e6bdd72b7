/**
  Reserving one credit per trip, binding the upstream job, and settling once (src/quota/service.py).
  Every transaction is a list of reasons to refuse, in the order the code checks them, and a write.
  */
module Quota {
  import opened Schema
  import opened Finite
  import opened Projection

  // ---- Balance -------------------------------------------------------------------------------

  datatype QuotaSnapshot = QuotaSnapshot(limit: int, reserved: int, consumed: int) {
    function Free(): int { limit - reserved - consumed }

    /** The clamped balance that callers see. */
    function Remaining(): int { if Free() < 0 then 0 else Free() }
  }

  function GrantedRows(grants: map<Id, Grant>, u: Id): map<Id, int> {
    map g | g in grants && grants[g].user == u :: grants[g].units
  }

  function EntryRows(entries: map<Id, Entry>, u: Id, status: EntryStatus): map<Id, int> {
    map e | e in entries && entries[e].user == u && entries[e].status == status :: entries[e].units
  }

  function Adjusted(adjustments: seq<Adjustment>, u: Id): int {
    if adjustments == [] then 0
    else
      var last := adjustments[|adjustments| - 1];
      Adjusted(adjustments[..|adjustments| - 1], u) + if last.target == Some(u) then last.delta else 0
  }

  function Limit(grants: map<Id, Grant>, adjustments: seq<Adjustment>, u: Id): int {
    Sum(GrantedRows(grants, u)) + Adjusted(adjustments, u)
  }

  /** quota_snapshot */
  function Snapshot(db: Db, u: Id): QuotaSnapshot {
    QuotaSnapshot(
      Limit(db.grants, db.adjustments, u),
      Sum(EntryRows(db.entries, u, RESERVED)),
      Sum(EntryRows(db.entries, u, CONSUMED)))
  }

  // ---- reserve_trip --------------------------------------------------------------------------

  datatype ReserveAnswer =
    | Reserved(quota: QuotaSnapshot)
    | AlreadyReserved(trip: Id, quotaNow: QuotaSnapshot)
    | OwnershipError | RequestIdConflict | ActiveTripConflict(active: Id) | QuotaExhausted

  datatype Request = Request(user: Id, key: string, hash: string)

  function SameRequest(trips: map<Id, Trip>, r: Request): set<Id> {
    set t | t in trips && trips[t].owner == Some(r.user) && trips[t].request == Client(r.key)
  }

  function ActiveTrips(trips: map<Id, Trip>, u: Id): set<Id> {
    set t | t in trips && trips[t].owner == Some(u) && !trips[t].status.Terminal()
  }

  /** Why nothing is reserved, given the balance that the transaction reads. */
  function ReserveRefusalWith(db: Db, r: Request, read: QuotaSnapshot): Option<ReserveAnswer> {
    var existing := First(SameRequest(db.trips, r));
    var active := First(ActiveTrips(db.trips, r.user));
    if r.user !in db.users || db.users[r.user].status != Active then Some(OwnershipError)
    else if existing.Some? then
      Some(if db.trips[existing.value].requestHash != r.hash then RequestIdConflict
          else AlreadyReserved(existing.value, read))
    else if active.Some? then Some(ActiveTripConflict(active.value))
    else if read.Remaining() < 1 then Some(QuotaExhausted)
    else None
  }

  function ReserveRefusal(db: Db, r: Request): Option<ReserveAnswer> {
    ReserveRefusalWith(db, r, Snapshot(db, r.user))
  }

  function NewTrip(r: Request, entry: Id, window: Time, now: Time): Trip {
    Trip(Some(r.user), Client(r.key), r.hash, SUBMITTING, None, None, Some(entry), None,
         0, 1, None, None, now, now + window, None, None)
  }

  function ReserveWrite(db: Db, r: Request, trip: Id, entry: Id, window: Time, now: Time): Db {
    db.(trips := db.trips[trip := NewTrip(r, entry, window, now)],
        entries := db.entries[entry := Entry(r.user, trip, 1, RESERVED)])
  }

  function ReserveWith(
    db: Db, r: Request, read: QuotaSnapshot, trip: Id, entry: Id, window: Time, now: Time): (Db, ReserveAnswer) {
    var refusal := ReserveRefusalWith(db, r, read);
    if refusal.Some? then (db, refusal.value)
    else (ReserveWrite(db, r, trip, entry, window, now), Reserved(read.(reserved := read.reserved + 1)))
  }

  function ReserveOutcome(db: Db, r: Request, trip: Id, entry: Id, window: Time, now: Time): (Db, ReserveAnswer) {
    ReserveWith(db, r, Snapshot(db, r.user), trip, entry, window, now)
  }

  /** A reservation is made for an active user who has one unit left and neither this request nor an active trip. */
  lemma ReserveConditions(db: Db, r: Request)
    requires ReserveRefusal(db, r).None?
    ensures r.user in db.users && db.users[r.user].status == Active && Snapshot(db, r.user).Remaining() >= 1
    ensures forall t | t in db.trips && db.trips[t].owner == Some(r.user) ::
              db.trips[t].status.Terminal() && db.trips[t].request != Client(r.key)
  {
    ConditionsWith(db, r, Snapshot(db, r.user));
  }

  lemma ConditionsWith(db: Db, r: Request, read: QuotaSnapshot)
    requires ReserveRefusalWith(db, r, read).None?
    ensures r.user in db.users && db.users[r.user].status == Active && read.Remaining() >= 1
    ensures forall t | t in db.trips && db.trips[t].owner == Some(r.user) ::
              db.trips[t].status.Terminal() && db.trips[t].request != Client(r.key)
  {
    forall t | t in db.trips && db.trips[t].owner == Some(r.user)
      ensures db.trips[t].status.Terminal() && db.trips[t].request != Client(r.key)
    {
      assert t !in ActiveTrips(db.trips, r.user) && t !in SameRequest(db.trips, r);
    }
  }

  /** `trip` and `entry` are the identifiers that uuid4 draws. */
  method ReserveTrip(
    db: Database, r: Request, trip: Id, entry: Id, window: Time, now: Time)
    returns (answer: ReserveAnswer)
    modifies db
    ensures (db.tables, answer) == ReserveOutcome(old(db.tables), r, trip, entry, window, now)
    ensures db.locks <= [Lock(UserT, r.user)]
  {
    db.Begin();
    if r.user in db.tables.users {
      db.ForUpdate(UserT, r.user);
    }
    if r.user !in db.tables.users || db.tables.users[r.user].status != Active {
      return OwnershipError;
    }
    var existing := First(SameRequest(db.tables.trips, r));
    if existing.Some? {
      if db.tables.trips[existing.value].requestHash != r.hash {
        return RequestIdConflict;
      }
      return AlreadyReserved(existing.value, Snapshot(db.tables, r.user));
    }
    var active := First(ActiveTrips(db.tables.trips, r.user));
    if active.Some? {
      return ActiveTripConflict(active.value);
    }
    var before := Snapshot(db.tables, r.user);
    if before.Remaining() < 1 {
      return QuotaExhausted;
    }
    var row := Trip(Some(r.user), Client(r.key), r.hash, SUBMITTING, None, None, None, None,
                    0, 1, None, None, now, now + window, None, None);
    db.tables := db.tables.(trips := db.tables.trips[trip := row]);
    db.tables := db.tables.(entries := db.tables.entries[entry := Entry(r.user, trip, 1, RESERVED)]);
    db.tables := db.tables.(trips := db.tables.trips[trip := row.(entryId := Some(entry))]);
    assert db.tables.trips == old(db.tables.trips)[trip := NewTrip(r, entry, window, now)];
    return Reserved(before.(reserved := before.reserved + 1));
  }

  // ---- save_upstream_acceptance --------------------------------------------------------------

  datatype AcceptAnswer = Accepted | AcceptedTerminal | TripDisappeared | DifferentJob | JobBoundElsewhere

  /** str.upper on ASCII */
  function Upper(s: string): (r: string)
    ensures |r| == |s| && forall i | 0 <= i < |s| :: r[i] == if 'a' <= s[i] <= 'z' then s[i] - 'a' + 'A' else s[i]
  {
    if s == "" then "" else [if 'a' <= s[0] <= 'z' then s[0] - 'a' + 'A' else s[0]] + Upper(s[1..])
  }

  function ActiveStatus(reported: string): TripStatus {
    if Upper(reported) == "RUNNING" then RUNNING else PENDING
  }

  predicate BoundElsewhere(trips: map<Id, Trip>, t: Id, job: Id) {
    exists k | k in trips :: k != t && trips[k].jobId == Some(job)
  }

  function AcceptRefusal(db: Db, t: Id, job: Id): Option<AcceptAnswer> {
    if t !in db.trips then Some(TripDisappeared)
    else if db.trips[t].jobId.Some? && db.trips[t].jobId != Some(job) then Some(DifferentJob)
    else if db.trips[t].status.Terminal() then Some(AcceptedTerminal)
    else if BoundElsewhere(db.trips, t, job) then Some(JobBoundElsewhere)
    else None
  }

  /** started_at is set when the trip is first seen running. */
  function Started(trip: Trip, status: TripStatus, now: Time): Option<Time> {
    trip.startedAt.Or(if status == RUNNING then Some(now) else None)
  }

  function BoundTrip(trip: Trip, job: Id, reported: string, now: Time): Trip {
    trip.(jobId := Some(job), status := ActiveStatus(reported), startedAt := Started(trip, ActiveStatus(reported), now),
          assocVersion := if trip.jobId.None? then trip.assocVersion + 1 else trip.assocVersion)
  }

  function RelinkedRow(row: JobRow, t: Id, trip: Trip, now: Time): JobRow {
    var version := Max(row.assocVersion, trip.assocVersion);
    if trip.erasedAt.Some? || row.erasedAt.Some? then
      row.(association := Deidentified, tripId := None, userId := None,
           erasedAt := row.erasedAt.Or(trip.erasedAt).Or(Some(now)), assocVersion := version, syncedAt := now)
    else
      row.(association := if trip.owner.Some? then Linked else Unlinked, tripId := Some(t), userId := trip.owner,
           assocVersion := version, syncedAt := now)
  }

  function AcceptWrite(db: Db, t: Id, job: Id, reported: string, now: Time): Db
    requires t in db.trips
  {
    var trip := BoundTrip(db.trips[t], job, reported, now);
    db.(trips := db.trips[t := trip],
        jobs := if job in db.jobs then db.jobs[job := RelinkedRow(db.jobs[job], t, trip, now)] else db.jobs)
  }

  function AcceptOutcome(db: Db, t: Id, job: Id, reported: string, now: Time): (Db, AcceptAnswer) {
    var refusal := AcceptRefusal(db, t, job);
    if refusal.Some? then (db, refusal.value) else (AcceptWrite(db, t, job, reported, now), Accepted)
  }

  method SaveUpstreamAcceptance(
    db: Database, t: Id, job: Id, reported: string, now: Time)
    returns (answer: AcceptAnswer)
    modifies db
    ensures (db.tables, answer) == AcceptOutcome(old(db.tables), t, job, reported, now)
    ensures db.locks <= [Lock(TripT, t), Lock(ProjectionT, job)]
  {
    db.Begin();
    if t !in db.tables.trips {
      return TripDisappeared;
    }
    db.ForUpdate(TripT, t);
    var trip := db.tables.trips[t];
    if trip.jobId.Some? && trip.jobId.value != job {
      return DifferentJob;
    }
    if trip.status.Terminal() {
      return AcceptedTerminal;
    }
    if BoundElsewhere(db.tables.trips, t, job) {
      return JobBoundElsewhere;
    }
    var bindingChanged := trip.jobId.None?;
    trip := trip.(jobId := Some(job));
    trip := trip.(status := ActiveStatus(reported));
    trip := trip.(startedAt := trip.startedAt.Or(if trip.status == RUNNING then Some(now) else None));
    if bindingChanged {
      trip := trip.(assocVersion := trip.assocVersion + 1);
    }
    db.tables := db.tables.(trips := db.tables.trips[t := trip]);
    if job in db.tables.jobs {
      db.ForUpdate(ProjectionT, job);
      var row := db.tables.jobs[job];
      if trip.erasedAt.Some? || row.erasedAt.Some? {
        row := row.(association := Deidentified, tripId := None, userId := None);
        row := row.(erasedAt := row.erasedAt.Or(trip.erasedAt).Or(Some(now)));
      } else if trip.owner.Some? {
        row := row.(association := Linked, tripId := Some(t), userId := trip.owner);
      } else {
        row := row.(association := Unlinked, tripId := Some(t), userId := None);
      }
      row := row.(assocVersion := Max(row.assocVersion, trip.assocVersion), syncedAt := now);
      db.tables := db.tables.(jobs := db.tables.jobs[job := row]);
    }
    return Accepted;
  }

  // ---- mark_upstream_uncertain ---------------------------------------------------------------

  function UncertainTrips(trips: map<Id, Trip>, t: Id): map<Id, Trip> {
    if t in trips && trips[t].status == SUBMITTING then trips[t := trips[t].(attempts := trips[t].attempts + 1)]
      else trips
  }

  function UncertainWrite(db: Db, t: Id): Db {
    db.(trips := UncertainTrips(db.trips, t))
  }

  method MarkUpstreamUncertain(db: Database, t: Id)
    modifies db
    ensures db.tables == UncertainWrite(old(db.tables), t)
  {
    db.Begin();
    if t in db.tables.trips && db.tables.trips[t].status == SUBMITTING {
      var trip := db.tables.trips[t];
      db.tables := db.tables.(trips := db.tables.trips[t := trip.(attempts := trip.attempts + 1)]);
    }
  }

  // ---- settle_trip ---------------------------------------------------------------------------

  datatype SettleAnswer = Settled | AlreadyTerminal | NotOwned | NotATerminalStatus | QuotaInvariantError | ResultTaken

  /** What an upstream terminal report carries. */
  datatype Terminal = Terminal(status: TripStatus, resultId: Option<nat>, errorCode: Option<string>)

  function Spent(status: TripStatus): EntryStatus {
    if status == SUCCESS then CONSUMED else RELEASED
  }

  predicate Owned(trips: map<Id, Trip>, t: Id, owner: Option<Id>) {
    t in trips && (owner.Some? ==> trips[t].owner == owner)
  }

  predicate Holds(entries: map<Id, Entry>, e: Option<Id>, status: EntryStatus) {
    e.Some? && e.value in entries && entries[e.value].status == status
  }

  function SettledTrip(trip: Trip, r: Terminal, now: Time): Trip {
    trip.(status := r.status, finishedAt := Some(now),
          resultId := if r.status == SUCCESS then r.resultId else None,
          errorCode := if r.status == SUCCESS then None else r.errorCode)
  }

  predicate ResultHeldElsewhere(trips: map<Id, Trip>, t: Id, r: Terminal) {
    r.status == SUCCESS && r.resultId.Some? && exists k | k in trips :: k != t && trips[k].resultId == r.resultId
  }

  function SettleRefusal(db: Db, t: Id, r: Terminal, owner: Option<Id>): Option<SettleAnswer> {
    if !r.status.Terminal() then Some(NotATerminalStatus)
    else if !Owned(db.trips, t, owner) then Some(NotOwned)
    else if db.trips[t].status.Terminal() then Some(AlreadyTerminal)
    else if !Holds(db.entries, db.trips[t].entryId, RESERVED)
      && !Holds(db.entries, db.trips[t].entryId, Spent(r.status))
    then Some(QuotaInvariantError)
    else if ResultHeldElsewhere(db.trips, t, r) then Some(ResultTaken)
    else None
  }

  function SettleWrite(db: Db, t: Id, r: Terminal, now: Time): Db
    requires t in db.trips && db.trips[t].entryId.Some? && db.trips[t].entryId.value in db.entries
  {
    var e := db.trips[t].entryId.value;
    db.(trips := db.trips[t := SettledTrip(db.trips[t], r, now)],
        entries := db.entries[e := db.entries[e].(status := Spent(r.status))])
  }

  function SettleOutcome(db: Db, t: Id, r: Terminal, owner: Option<Id>, now: Time): (Db, SettleAnswer) {
    var refusal := SettleRefusal(db, t, r, owner);
    if refusal.Some? then (db, refusal.value) else (SettleWrite(db, t, r, now), Settled)
  }

  method SettleTrip(db: Database, t: Id, r: Terminal, owner: Option<Id>, now: Time) returns (answer: SettleAnswer)
    modifies db
    ensures (db.tables, answer) == SettleOutcome(old(db.tables), t, r, owner, now)
    ensures db.locks <= [Lock(TripT, t)]
  {
    db.Begin();
    if !r.status.Terminal() {
      return NotATerminalStatus;
    }
    if !Owned(db.tables.trips, t, owner) {
      return NotOwned;
    }
    db.ForUpdate(TripT, t);
    var saved := db.tables;
    var trip := db.tables.trips[t];
    if trip.status.Terminal() {
      return AlreadyTerminal;
    }
    var changed := Holds(db.tables.entries, trip.entryId, RESERVED);
    if changed {
      var e := trip.entryId.value;
      db.tables := db.tables.(entries := db.tables.entries[e := db.tables.entries[e].(status := Spent(r.status))]);
    } else if !Holds(db.tables.entries, trip.entryId, Spent(r.status)) {
      return QuotaInvariantError;
    } else {
      var e := trip.entryId.value;
      assert db.tables.entries[e := db.tables.entries[e].(status := Spent(r.status))] == db.tables.entries;
    }
    trip := trip.(status := r.status);
    trip := trip.(resultId := if r.status == SUCCESS then r.resultId else None);
    trip := trip.(errorCode := if r.status != SUCCESS then r.errorCode else None);
    trip := trip.(finishedAt := Some(now));
    db.tables := db.tables.(trips := db.tables.trips[t := trip]);
    if ResultHeldElsewhere(saved.trips, t, r) {
      db.tables := saved;
      return ResultTaken;
    }
    return Settled;
  }

  // ---- update_active_status ------------------------------------------------------------------

  datatype ActiveAnswer = Current | NotTheOwner | NotAnActiveStatus

  /** SUBMITTING < PENDING < RUNNING, as this one transaction ranks them. */
  function Progress(s: TripStatus): nat {
    if s.SUBMITTING? then 0 else if s.PENDING? then 1 else 2
  }

  function ActiveRefusal(db: Db, t: Id, status: TripStatus, owner: Option<Id>): Option<ActiveAnswer> {
    if status.Terminal() then Some(NotAnActiveStatus)
    else if !Owned(db.trips, t, owner) then Some(NotTheOwner)
    else None
  }

  function Progressed(trip: Trip, status: TripStatus, now: Time): Trip {
    trip.(status := status, startedAt := Started(trip, status, now))
  }

  function ActiveOutcome(db: Db, t: Id, status: TripStatus, owner: Option<Id>, now: Time): (Db, ActiveAnswer) {
    var refusal := ActiveRefusal(db, t, status, owner);
    if refusal.Some? then (db, refusal.value)
    else if db.trips[t].status.Terminal() || Progress(status) < Progress(db.trips[t].status) then (db, Current)
    else (db.(trips := db.trips[t := Progressed(db.trips[t], status, now)]), Current)
  }

  /** The status moves on, or nothing changes. */
  lemma ProgressCases(db: Db, t: Id, status: TripStatus, owner: Option<Id>, now: Time)
    ensures var after := ActiveOutcome(db, t, status, owner, now).0;
            if ActiveRefusal(db, t, status, owner).None? && !db.trips[t].status.Terminal()
              && Progress(db.trips[t].status) <= Progress(status) then
              after == db.(trips := db.trips[t := Progressed(db.trips[t], status, now)])
            else after == db
  {
  }

  method UpdateActiveStatus(
    db: Database, t: Id, status: TripStatus, owner: Option<Id>, now: Time)
    returns (answer: ActiveAnswer)
    modifies db
    ensures (db.tables, answer) == ActiveOutcome(old(db.tables), t, status, owner, now)
    ensures db.locks <= [Lock(TripT, t)]
  {
    db.Begin();
    if status.Terminal() {
      return NotAnActiveStatus;
    }
    if !Owned(db.tables.trips, t, owner) {
      return NotTheOwner;
    }
    db.ForUpdate(TripT, t);
    var trip := db.tables.trips[t];
    if !trip.status.Terminal() {
      if Progress(status) >= Progress(trip.status) {
        trip := trip.(status := status);
        trip := trip.(startedAt := trip.startedAt.Or(if status == RUNNING then Some(now) else None));
        db.tables := db.tables.(trips := db.tables.trips[t := trip]);
      }
    }
    return Current;
  }
}
