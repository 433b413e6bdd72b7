/** What the operations on trips answer, and what they leave in the rows, written out on the tables. */
module TripOutcomes {
  import opened Schema
  import opened Quota
  import opened Ledger
  import opened TripSubmission
  import Sse
  import Relay
  import History

  // ---- Reservations --------------------------------------------------------------------------

  ghost predicate ActiveUser(db: Db, u: Id) {
    u in db.users && db.users[u].status == Active
  }

  ghost predicate Asked(trips: map<Id, Trip>, r: Request, t: Id) {
    t in trips && trips[t].owner == Some(r.user) && trips[t].request == Client(r.key)
  }

  ghost predicate UnderWay(trips: map<Id, Trip>, u: Id, t: Id) {
    t in trips && trips[t].owner == Some(u) && trips[t].status in {SUBMITTING, PENDING, RUNNING}
  }

  /** Each answer of a reservation, by the user, the user's trips and the balance read. */
  lemma ReservationAnswers(
    db: Db, r: Request, read: QuotaSnapshot, trip: Id, entry: Id, window: Time, now: Time)
    requires OneActiveTrip(db.trips) && OneTripPerRequest(db.trips)
    ensures var answer := ReserveWith(db, r, read, trip, entry, window, now).1;
            && (answer == OwnershipError <==> !ActiveUser(db, r.user))
            && (forall t | ActiveUser(db, r.user) && Asked(db.trips, r, t) ::
                  answer == if db.trips[t].requestHash == r.hash then AlreadyReserved(t, read) else RequestIdConflict)
            && (forall t | ActiveUser(db, r.user) && !(exists k :: Asked(db.trips, r, k))
                && UnderWay(db.trips, r.user, t) ::
                  answer == ActiveTripConflict(t))
            && (answer == QuotaExhausted <==> MayAsk(db, r) && read.Remaining() == 0)
            && (answer.Reserved? <==> MayAsk(db, r) && read.Remaining() >= 1)
  {
    forall t: Id | Asked(db.trips, r, t)
      ensures First(SameRequest(db.trips, r)) == Some(t)
    {
      assert t in SameRequest(db.trips, r);
    }
    forall t: Id | UnderWay(db.trips, r.user, t)
      ensures First(ActiveTrips(db.trips, r.user)) == Some(t)
    {
      assert t in ActiveTrips(db.trips, r.user);
    }
    NoneIsNone(db, r);
  }

  /** An active user without a trip for this request and without a trip under way. */
  ghost predicate MayAsk(db: Db, r: Request) {
    && ActiveUser(db, r.user)
    && forall t :: !Asked(db.trips, r, t) && !UnderWay(db.trips, r.user, t)
  }

  lemma NoneIsNone(db: Db, r: Request)
    ensures (forall t :: !Asked(db.trips, r, t)) <==> First(SameRequest(db.trips, r)).None?
    ensures (forall t :: !UnderWay(db.trips, r.user, t)) <==> First(ActiveTrips(db.trips, r.user)).None?
  {
    assert forall t :: Asked(db.trips, r, t) <==> t in SameRequest(db.trips, r);
    assert forall t :: UnderWay(db.trips, r.user, t) <==> t in ActiveTrips(db.trips, r.user);
  }

  /** A reservation adds one fresh trip with one reserved unit; any other answer changes nothing. */
  lemma ReservedRows(db: Db, r: Request, read: QuotaSnapshot, t: Id, e: Id, window: Time, now: Time)
    ensures var (after, answer) := ReserveWith(db, r, read, t, e, window, now);
            if answer.Reserved? then
              && t in after.trips && after.trips == db.trips[t := after.trips[t]]
              && after.entries == db.entries[e := Entry(r.user, t, 1, RESERVED)]
              && after == db.(trips := after.trips, entries := after.entries)
              && var row := after.trips[t];
                 && row.owner == Some(r.user) && row.request == Client(r.key) && row.requestHash == r.hash
                 && row.status == SUBMITTING && row.jobId.None? && row.resultId.None? && row.errorCode.None?
                 && row.entryId == Some(e) && row.attempts == 0 && row.createdAt == now
                 && row.visibleUntil == now + window
                 && row.erasedAt.None? && row.archivedAt.None? && row.startedAt.None? && row.finishedAt.None?
            else after == db
  {
  }

  // ---- Acceptance and progress ---------------------------------------------------------------

  /** One trip differs, and only in the columns of its upstream state. */
  ghost predicate OnlyUpstreamState(before: map<Id, Trip>, after: map<Id, Trip>, t: Id) {
    && t in before && t in after && after == before[t := after[t]]
    && after[t] == before[t].(jobId := after[t].jobId, status := after[t].status, startedAt := after[t].startedAt,
                              assocVersion := after[t].assocVersion)
  }

  ghost predicate StartsRunning(before: Trip, after: Trip, now: Time) {
    after.startedAt == if before.startedAt.Some? then before.startedAt
                       else if after.status == RUNNING then Some(now) else None
  }

  /** A job is accepted if and only if the trip is active, bound to no other job, and nobody else has the job. */
  lemma AcceptedExactly(db: Db, t: Id, job: Id, reported: string, now: Time)
    ensures var (after, answer) := AcceptOutcome(db, t, job, reported, now);
            && (answer == Accepted <==>
                  && t in db.trips && db.trips[t].status in {SUBMITTING, PENDING, RUNNING}
                  && (db.trips[t].jobId == None || db.trips[t].jobId == Some(job))
                  && forall k | k in db.trips && k != t :: db.trips[k].jobId != Some(job))
            && (answer == AcceptedTerminal ==> t in db.trips && db.trips[t].status !in {SUBMITTING, PENDING, RUNNING})
            && (answer != Accepted ==> after == db)
  {
  }

  lemma AcceptedRow(db: Db, t: Id, job: Id, reported: string, now: Time)
    requires AcceptOutcome(db, t, job, reported, now).1 == Accepted
    ensures var after := AcceptOutcome(db, t, job, reported, now).0;
            && OnlyUpstreamState(db.trips, after.trips, t) && after.entries == db.entries && after.users == db.users
            && after.trips[t].jobId == Some(job)
            && after.trips[t].status == (if Upper(reported) == "RUNNING" then RUNNING else PENDING)
            && StartsRunning(db.trips[t], after.trips[t], now)
            && after.trips[t].assocVersion == db.trips[t].assocVersion + if db.trips[t].jobId.None? then 1 else 0
  {
    AcceptWriteTrips(db, t, job, reported, now);
  }

  ghost predicate OwnedBy(trips: map<Id, Trip>, t: Id, owner: Option<Id>) {
    t in trips && (owner == None || trips[t].owner == owner)
  }

  /** A report of progress moves an active trip on, never back, and a finished one not at all. */
  lemma ProgressedRow(db: Db, t: Id, status: TripStatus, owner: Option<Id>, now: Time)
    ensures var (after, answer) := ActiveOutcome(db, t, status, owner, now);
            && (answer == Current <==> status in {SUBMITTING, PENDING, RUNNING} && OwnedBy(db.trips, t, owner))
            && (answer != Current ==> after == db)
            && (answer == Current && db.trips[t].status !in {SUBMITTING, PENDING, RUNNING} ==> after == db)
            && (answer == Current && db.trips[t].status in {SUBMITTING, PENDING, RUNNING} ==>
                  && OnlyUpstreamState(db.trips, after.trips, t) && after == db.(trips := after.trips)
                  && after.trips[t].status == Later(db.trips[t].status, status)
                  && after.trips[t].jobId == db.trips[t].jobId
                  && after.trips[t].assocVersion == db.trips[t].assocVersion
                  && (after.trips[t].status == status ==> StartsRunning(db.trips[t], after.trips[t], now))
                  && (after.trips[t].status != status ==> after.trips[t] == db.trips[t]))
  {
    ProgressCases(db, t, status, owner, now);
    if t in db.trips {
      assert db.trips == db.trips[t := db.trips[t]];
    }
  }

  /** The later of two active states. */
  function Later(a: TripStatus, b: TripStatus): TripStatus {
    match (a, b)
    case (RUNNING, _) => RUNNING
    case (_, RUNNING) => RUNNING
    case (PENDING, _) => PENDING
    case (_, PENDING) => PENDING
    case _ => SUBMITTING
  }

  // ---- Settlement ----------------------------------------------------------------------------

  /** The trip has ended so, its unit with it, and nothing else has changed. */
  ghost predicate Ended(
    before: Db, after: Db, t: Id, status: TripStatus, resultId: Option<nat>, errorCode: Option<string>, now: Time) {
    && t in before.trips && t in after.trips && before.trips[t].entryId.Some?
    && after.trips[t] == before.trips[t].(status := status, resultId := resultId, errorCode := errorCode,
        finishedAt := Some(now))
    && after.trips == before.trips[t := after.trips[t]]
    && var e := before.trips[t].entryId.value;
       && e in before.entries && e in after.entries && after.entries == before.entries[e := after.entries[e]]
       && after.entries[e] == before.entries[e].(status := if status == SUCCESS then CONSUMED else RELEASED)
       && after == before.(trips := after.trips, entries := after.entries)
  }

  ghost predicate ResultFree(trips: map<Id, Trip>, t: Id, resultId: Option<nat>) {
    resultId == None || forall k | k in trips && k != t :: trips[k].resultId != resultId
  }

  /** An active trip is settled by any final report of its owner, unless its result is another trip's. */
  lemma SettledExactly(db: Db, t: Id, r: Terminal, owner: Option<Id>, now: Time)
    requires LedgerOk(db)
    ensures var (after, answer) := SettleOutcome(db, t, r, owner, now);
            var final := r.status in {SUCCESS, FAILED, TIMEOUT, REJECTED} && OwnedBy(db.trips, t, owner);
            && (answer == Settled <==>
                  && final && db.trips[t].status in {SUBMITTING, PENDING, RUNNING}
                  && (r.status == SUCCESS ==> ResultFree(db.trips, t, r.resultId)))
            && (answer == AlreadyTerminal <==> final && db.trips[t].status !in {SUBMITTING, PENDING, RUNNING})
            && (answer != Settled ==> after == db)
  {
    SettlementNeverFails(db, t, r, owner);
  }

  lemma SettledRow(db: Db, t: Id, r: Terminal, owner: Option<Id>, now: Time)
    requires SettleOutcome(db, t, r, owner, now).1 == Settled
    ensures var after := SettleOutcome(db, t, r, owner, now).0;
            Ended(db, after, t, r.status, if r.status == SUCCESS then r.resultId else None,
                  if r.status == SUCCESS then None else r.errorCode, now)
  {
  }

  // ---- Reports of the upstream ---------------------------------------------------------------

  /** A report for the job that the caller has read from the trip. */
  ghost predicate ReportFor(db: Db, t: Id, s: JobStatus, owner: Option<Id>) {
    OwnedBy(db.trips, t, owner) && db.trips[t].jobId == Some(s.job)
  }

  /** A successful report on an active trip ends it with its result and consumes its unit. */
  lemma SuccessIsApplied(db: Db, t: Id, s: JobStatus, owner: Option<Id>, now: Time)
    requires LedgerOk(db) && ReportFor(db, t, s, owner) && db.trips[t].status in {SUBMITTING, PENDING, RUNNING}
    requires s.status == SUCCESS && s.resultId.Some? && ResultFree(db.trips, t, s.resultId)
    ensures var (after, answer) := StatusOutcome(db, t, Some(s.job), s, owner, now);
            answer == Applied && Ended(db, after, t, SUCCESS, s.resultId, None, now)
  {
    SettledExactly(db, t, Terminal(SUCCESS, s.resultId, None), owner, now);
    SettledRow(db, t, Terminal(SUCCESS, s.resultId, None), owner, now);
  }

  /** Any other final report ends it as reported, with a safe code and no result, and releases its unit. */
  lemma FailureIsApplied(db: Db, t: Id, s: JobStatus, owner: Option<Id>, now: Time)
    requires LedgerOk(db) && ReportFor(db, t, s, owner) && db.trips[t].status in {SUBMITTING, PENDING, RUNNING}
    requires s.status in {FAILED, TIMEOUT, REJECTED}
    ensures var (after, answer) := StatusOutcome(db, t, Some(s.job), s, owner, now);
            answer == Applied && Ended(db, after, t, s.status, None, Some(SafeCode(s.errorCode)), now)
  {
    SettledExactly(db, t, Terminal(s.status, None, Some(SafeCode(s.errorCode))), owner, now);
    SettledRow(db, t, Terminal(s.status, None, Some(SafeCode(s.errorCode))), owner, now);
  }

  /** A report of progress does what progress does. */
  lemma ProgressIsApplied(db: Db, t: Id, s: JobStatus, owner: Option<Id>, now: Time)
    requires ReportFor(db, t, s, owner) && s.status in {SUBMITTING, PENDING, RUNNING}
    ensures StatusOutcome(db, t, Some(s.job), s, owner, now) == (ActiveOutcome(db, t, s.status, owner, now).0, Applied)
  {
  }

  /** When a report is applied at all, and that otherwise nothing changes. */
  lemma AppliedExactly(db: Db, t: Id, seen: Option<Id>, s: JobStatus, owner: Option<Id>, now: Time)
    requires LedgerOk(db)
    ensures var (after, answer) := StatusOutcome(db, t, seen, s, owner, now);
            && (answer == Protocol <==> seen != Some(s.job) || (s.status == SUCCESS && s.resultId == None))
            && (answer == TripNotOwned <==> answer != Protocol && !OwnedBy(db.trips, t, owner))
            && (answer == Applied <==>
                  && answer != Protocol && OwnedBy(db.trips, t, owner)
                  && (s.status == SUCCESS && db.trips[t].status in {SUBMITTING, PENDING, RUNNING} ==>
                        ResultFree(db.trips, t, s.resultId)))
            && (answer != Applied ==> after == db)
            && (answer == Applied && db.trips[t].status !in {SUBMITTING, PENDING, RUNNING} ==> after == db)
  {
    if !s.status.Terminal() {
      ProgressedRow(db, t, s.status, owner, now);
    } else {
      SettledExactly(db, t, Terminal(SUCCESS, s.resultId, None), owner, now);
      SettledExactly(db, t, Terminal(s.status, None, Some(SafeCode(s.errorCode))), owner, now);
    }
  }

  // ---- What each fate of a post leaves -------------------------------------------------------

  /** A trip that awaits submission, an upstream with one job per trip, and a fresh offer. */
  ghost predicate Posting(db: Db, jobs: Jobs, t: Id, fate: Fate) {
    && LedgerOk(db) && Bound(db.trips, jobs) && OffersFresh(jobs, fate)
    && t in db.trips && db.trips[t].status == SUBMITTING && db.trips[t].jobId == None
  }

  /** One more attempt is counted on the trip, and nothing else changes. */
  ghost predicate Counted(before: Db, after: Db, t: Id) {
    && t in before.trips
    && after.trips == before.trips[t := before.trips[t].(attempts := before.trips[t].attempts + 1)]
    && after == before.(trips := after.trips)
  }

  /** A reply with a job binds the trip to the job that the upstream holds for it. */
  lemma ServedIsBound(db: Db, jobs: Jobs, t: Id, fate: Fate, now: Time)
    requires Posting(db, jobs, t, fate) && fate.Served? && (if t in jobs then jobs[t] else fate.offered) != NO_JOB
    ensures var (jobs', reply) := Create(jobs, t, fate);
            var (after, told) := Replied(db, t, reply, now);
            && told == Submitted && t in jobs' && jobs'[t] == (if t in jobs then jobs[t] else fate.offered)
            && OnlyUpstreamState(db.trips, after.trips, t) && after.entries == db.entries
            && after.trips[t].jobId == Some(jobs'[t])
            && after.trips[t].status == (if Upper(fate.status) == "RUNNING" then RUNNING else PENDING)
  {
    CreateKeepsBound(db.trips, jobs, t, fate);
    var job := Create(jobs, t, fate).0[t];
    AcceptedExactly(db, t, job, fate.status, now);
    AcceptedRow(db, t, job, fate.status, now);
  }

  /** A doubtful reply counts an attempt; the trip and its unit wait for the next one. */
  lemma DoubtIsCounted(db: Db, jobs: Jobs, t: Id, fate: Fate, now: Time)
    requires Posting(db, jobs, t, fate)
    requires || fate.ReplyLost? || fate.NotProcessed?
             || (fate.Served? && (if t in jobs then jobs[t] else fate.offered) == NO_JOB)
    ensures var (after, told) := Replied(db, t, Create(jobs, t, fate).1, now);
            && Counted(db, after, t)
            && told == if !fate.Served? && fate.unavailable then ServiceUnavailable else ServiceError
  {
  }

  /** A definite failure ends the trip and gives the unit back. */
  lemma FailureIsFinal(db: Db, jobs: Jobs, t: Id, fate: Fate, now: Time)
    requires Posting(db, jobs, t, fate) && (fate.NotReached? || fate.CityRefused?)
    ensures var (after, told) := Replied(db, t, Create(jobs, t, fate).1, now);
            if fate.NotReached? then
              told == ServiceUnavailable
                && Ended(db, after, t, FAILED, None, Some("GENERATION_SERVICE_UNAVAILABLE"), now)
            else
              told == CityNotSupported && Ended(db, after, t, REJECTED, None, Some("CITY_NOT_SUPPORTED"), now)
  {
    SettledExactly(db, t, UNREACHABLE, None, now);
    SettledExactly(db, t, CITY, None, now);
    if fate.NotReached? {
      SettledRow(db, t, UNREACHABLE, None, now);
    } else {
      SettledRow(db, t, CITY, None, now);
    }
  }

  /** A submission reserves, posts what it has reserved, and reports; without a reservation it posts nothing. */
  lemma NewTripIsPosted(
    db: Db, jobs: Jobs, r: Request, ids: NewIds, window: Time, fate: Fate, now: Time, read: QuotaSnapshot)
    requires read == Snapshot(db, r.user)
    ensures var (reserved, answer) := ReserveWith(db, r, read, ids.trip, ids.entry, window, now);
            var (after, jobs', told) := SubmitOutcome(db, jobs, r, ids, window, fate, now);
            var (jobs'', reply) := Create(jobs, ids.trip, fate);
            && (answer.Reserved? ==>
                  && jobs' == jobs'' && after == Replied(reserved, ids.trip, reply, now).0
                  && (told.Submission? <==> Replied(reserved, ids.trip, reply, now).1 == Submitted)
                  && (told.NotSubmitted? ==> told.problem == Replied(reserved, ids.trip, reply, now).1))
            && (!answer.Reserved? && !answer.AlreadyReserved? ==>
                  after == db && jobs' == jobs && told == NotReserved(answer))
  {
    ReservedRows(db, r, read, ids.trip, ids.entry, window, now);
    var (reserved, answer) := ReserveWith(db, r, read, ids.trip, ids.entry, window, now);
    RepliedChangesOneTrip(reserved, ids.trip, Create(jobs, ids.trip, fate).1, now);
  }

  // ---- Reconciliation ------------------------------------------------------------------------

  /** The oldest eligible trips are claimed: one is passed over only when the batch is full of earlier ones. */
  lemma {:induction false} OldestFirst(trips: map<Id, Trip>, order: seq<Id>, maxAttempts: nat, k: nat)
    requires Distinct(order) && k < |order|
    requires order[k] in trips && trips[order[k]].status in {SUBMITTING, PENDING, RUNNING}
    requires trips[order[k]].attempts < maxAttempts
    ensures EligibleIn(trips, order[..k], maxAttempts) + [order[k]] <= EligibleIn(trips, order, maxAttempts)
  {
    if k > 0 {
      var rest := order[1..];
      assert Distinct(rest);
      OldestFirst(trips, rest, maxAttempts, k - 1);
      assert order[..k][1..] == rest[..k - 1] && order[..k][0] == order[0];
    } else {
      assert order[..0] == [];
    }
  }

  lemma ClaimedExactly(trips: map<Id, Trip>, order: seq<Id>, maxAttempts: nat, limit: nat, k: nat)
    requires Distinct(order) && k < |order|
    requires order[k] in trips && trips[order[k]].status in {SUBMITTING, PENDING, RUNNING}
    requires trips[order[k]].attempts < maxAttempts
    ensures order[k] in Claimable(trips, order, maxAttempts, limit)
       <==> |EligibleIn(trips, order[..k], maxAttempts)| < limit
  {
    OldestFirst(trips, order, maxAttempts, k);
    EligibleInIsDistinct(trips, order, maxAttempts);
    var all, before := EligibleIn(trips, order, maxAttempts), EligibleIn(trips, order[..k], maxAttempts);
    assert all[|before|] == order[k];
    var claimed := Claimable(trips, order, maxAttempts, limit);
    if |before| < limit {
      assert claimed[|before|] == order[k];
    }
  }

  /** A claim counts one attempt on each trip it picks, and nothing else. */
  lemma ClaimedRows(trips: map<Id, Trip>, ids: set<Id>)
    ensures ClaimedTrips(trips, ids).Keys == trips.Keys
    ensures forall t | t in trips ::
              ClaimedTrips(trips, ids)[t] == trips[t].(attempts := trips[t].attempts + if t in ids then 1 else 0)
  {
  }

  /** A claimed trip without a job is recovered by a reply, and left for later otherwise. */
  lemma PostedAgain(db: Db, jobs: Jobs, t: Id, weather: Weather, now: Time)
    requires LedgerOk(db) && Bound(db.trips, jobs) && OffersFresh(jobs, weather.fate) && t in db.trips
    ensures var (after, jobs', answer) := ItemOutcome(db, jobs, t, None, weather, now);
            match Create(jobs, t, weather.fate).1
            case Created(job, status) =>
              && answer == Recovered && t in jobs' && job == jobs'[t]
              && (if db.trips[t].status !in {SUBMITTING, PENDING, RUNNING} then after == db
                  else
                    && OnlyUpstreamState(db.trips, after.trips, t) && after.entries == db.entries
                    && after.trips[t].jobId == Some(job))
            case Business(_) => answer == Raised && after == db
            case Integration(_, _) => answer == Unresolved && after == db
  {
    CreateKeepsBound(db.trips, jobs, t, weather.fate);
    match Create(jobs, t, weather.fate).1
    case Created(job, status) =>
      AcceptedExactly(db, t, job, status, now);
      DifferentJobUnreachable(db, Create(jobs, t, weather.fate).0, t);
      if AcceptOutcome(db, t, job, status, now).1 == Accepted {
        AcceptedRow(db, t, job, status, now);
      }
    case Business(_) =>
    case Integration(_, _) =>
  }

  /** A claimed trip with a job is asked about, and a report is applied as any other. */
  lemma AskedAbout(db: Db, jobs: Jobs, t: Id, job: Id, weather: Weather, now: Time)
    requires t in db.trips
    ensures var (after, jobs', answer) := ItemOutcome(db, jobs, t, Some(job), weather, now);
            && jobs' == jobs
            && (weather.status == None ==> answer == Unresolved && after == db)
            && (weather.status.Some? ==>
                  var (reported, applied) := StatusOutcome(db, t, db.trips[t].jobId, weather.status.value, None, now);
                  after == reported && (answer == Recovered <==> applied == Applied)
                  && (answer == Unresolved <==> applied == Protocol))
  {
  }

  // ---- The relay -----------------------------------------------------------------------------

  /** An active trip of this user. */
  ghost predicate Relayable(db: Db, t: Id, u: Id) {
    LedgerOk(db) && OwnedBy(db.trips, t, Some(u)) && db.trips[t].status in {SUBMITTING, PENDING, RUNNING}
  }

  /** The event that completes a trip ends it with its result before it is forwarded. */
  lemma CompletionIsRelayed(db: Db, t: Id, u: Id, item: Sse.Item, now: Time)
    requires Relayable(db, t, u) && item.kind == Sse.COMPLETE && ResultFree(db.trips, t, item.payload.resultId)
    ensures var (after, frame) := Relay.RelayItem(db, t, u, item, now);
            frame == Some(Relay.Forwarded(item)) && Ended(db, after, t, SUCCESS, item.payload.resultId, None, now)
  {
    SettledExactly(db, t, Terminal(SUCCESS, item.payload.resultId, None), Some(u), now);
    SettledRow(db, t, Terminal(SUCCESS, item.payload.resultId, None), Some(u), now);
  }

  /** A failure ends it as reported, with the safe code that is forwarded. */
  lemma FailureIsRelayed(db: Db, t: Id, u: Id, item: Sse.Item, now: Time)
    requires Relayable(db, t, u) && item.kind == Sse.FAILURE && item.payload.status in {FAILED, TIMEOUT, REJECTED}
    ensures var (after, frame) := Relay.RelayItem(db, t, u, item, now);
            var code := SafeCode(item.payload.errorCode);
            && frame == Some(Relay.Forwarded(item.(payload := item.payload.(errorCode := Some(code)))))
            && Ended(db, after, t, item.payload.status, None, Some(code), now)
  {
    var r := Terminal(item.payload.status, None, Some(SafeCode(item.payload.errorCode)));
    SettledExactly(db, t, r, Some(u), now);
    SettledRow(db, t, r, Some(u), now);
  }

  lemma ProgressIsRelayed(db: Db, t: Id, u: Id, item: Sse.Item, now: Time)
    requires Relayable(db, t, u) && item.kind == Sse.PROGRESS && item.payload.status in {SUBMITTING, PENDING, RUNNING}
    ensures var (after, frame) := Relay.RelayItem(db, t, u, item, now);
            && frame == Some(Relay.Forwarded(item)) && OnlyUpstreamState(db.trips, after.trips, t)
            && after.entries == db.entries && after.trips[t].status == Later(db.trips[t].status, item.payload.status)
  {
    ProgressedRow(db, t, item.payload.status, Some(u), now);
  }

  // ---- History -------------------------------------------------------------------------------

  /** What an account's history shows: its own finished trips that are neither archived nor past their date. */
  lemma HistoryShowsExactly(trips: map<Id, Trip>, u: Id, limit: nat, status: Option<TripStatus>, now: Time, t: Id)
    ensures var page := History.OwnHistory(trips, u, None, limit, status, now);
            && page.HistoryPage? && |page.items| <= limit
            && (t in page.items ==> InHistory(trips, u, status, now, t))
            && (page.nextCursor == None && limit >= 1 && InHistory(trips, u, status, now, t) ==> t in page.items)
  {
    var all := History.Listing(trips, History.Matching(trips, u, None, status, now));
    assert t in all <==> InHistory(trips, u, status, now, t);
    if |all| > limit {
      assert forall k | k in all[..limit] :: k in all;
    }
  }

  ghost predicate InHistory(trips: map<Id, Trip>, u: Id, status: Option<TripStatus>, now: Time, t: Id) {
    && t in trips && trips[t].owner == Some(u) && trips[t].status in {SUCCESS, FAILED, TIMEOUT, REJECTED}
    && now < trips[t].visibleUntil && trips[t].archivedAt == None
    && (status == None || status == Some(trips[t].status))
  }
}
