/**
  Submitting trips to an upstream that is idempotent on the request id, over a network that loses
  requests and replies (src/trips/service.py, src/trips/reconciliation.py).
  */
module TripSubmission {
  import opened Schema
  import opened Finite
  import opened Quota
  import opened Ledger

  // ---- The upstream --------------------------------------------------------------------------

  datatype Reply =
    | Created(job: Id, status: string)
    | Business(code: string)
    | Integration(uncertain: bool, unavailable: bool)

  /** What becomes of one request. A job id offered by an accepting upstream is fresh. */
  datatype Fate =
    | Served(offered: Id, status: string)
    | ReplyLost(offered: Id, unavailable: bool)
    | NotProcessed(unavailable: bool)
    | NotReached
    | CityRefused

  /** upstream_request_id prefixes the public id, so the job of a request is the job of its trip. */
  type Jobs = map<Id, Id>

  /** The empty job id. The client's reply model refuses it, as a protocol error after a possible acceptance. */
  const NO_JOB: Id := 0

  function JobFor(jobs: Jobs, t: Id, offered: Id): Id {
    if t in jobs then jobs[t] else offered
  }

  /** One POST under the trip's request id: a repeated request gets the job of the first. */
  function Create(jobs: Jobs, t: Id, fate: Fate): (Jobs, Reply) {
    match fate
    case Served(offered, status) =>
      var job := JobFor(jobs, t, offered);
      (jobs[t := job], if job == NO_JOB then Integration(true, false) else Created(job, status))
    case ReplyLost(offered, unavailable) => (jobs[t := JobFor(jobs, t, offered)], Integration(true, unavailable))
    case NotProcessed(unavailable) => (jobs, Integration(true, unavailable))
    case NotReached => (jobs, Integration(false, true))
    case CityRefused => (jobs, Business("CITY_NOT_SUPPORTED"))
  }

  predicate OffersFresh(jobs: Jobs, fate: Fate) {
    (fate.Served? || fate.ReplyLost?) ==> fate.offered !in jobs.Values
  }

  class HermesJobs {
    var jobs: Jobs

    method CreateTrip(t: Id, fate: Fate) returns (reply: Reply)
      modifies this
      ensures (jobs, reply) == Create(old(jobs), t, fate)
    {
      match fate {
        case Served(offered, status) =>
          jobs := jobs[t := JobFor(jobs, t, offered)];
          return if jobs[t] == NO_JOB then Integration(true, false) else Created(jobs[t], status);
        case ReplyLost(offered, unavailable) =>
          jobs := jobs[t := JobFor(jobs, t, offered)];
          return Integration(true, unavailable);
        case NotProcessed(unavailable) => return Integration(true, unavailable);
        case NotReached => return Integration(false, true);
        case CityRefused => return Business("CITY_NOT_SUPPORTED");
      }
    }
  }

  // ---- _submit_reserved ----------------------------------------------------------------------

  datatype SubmitAnswer = Submitted | CityNotSupported | ServiceUnavailable | ServiceError | Internal

  const CITY := Terminal(REJECTED, None, Some("CITY_NOT_SUPPORTED"))
  const UNREACHABLE := Terminal(FAILED, None, Some("GENERATION_SERVICE_UNAVAILABLE"))

  /** What is written for a reply, and what the caller is told. */
  function Replied(db: Db, t: Id, reply: Reply, now: Time): (Db, SubmitAnswer) {
    match reply
    case Created(job, status) =>
      if job == NO_JOB then (UncertainWrite(db, t), ServiceError)
      else
        var (after, answer) := AcceptOutcome(db, t, job, status, now);
        (after, if answer in {Accepted, AcceptedTerminal} then Submitted else Internal)
    case Business(code) =>
      if code != "CITY_NOT_SUPPORTED" then (db, ServiceError)
      else
        var (after, answer) := SettleOutcome(db, t, CITY, None, now);
        (after, if answer in {Settled, AlreadyTerminal} then CityNotSupported else Internal)
    case Integration(uncertain, unavailable) =>
      var told := if unavailable then ServiceUnavailable else ServiceError;
      if uncertain then (UncertainWrite(db, t), told)
      else
        var (after, answer) := SettleOutcome(db, t, UNREACHABLE, None, now);
        (after, if answer in {Settled, AlreadyTerminal} then told else Internal)
  }

  method SubmitReserved(db: Database, hermes: HermesJobs, t: Id, fate: Fate, now: Time) returns (answer: SubmitAnswer)
    modifies db, hermes
    ensures hermes.jobs == Create(old(hermes.jobs), t, fate).0
    ensures (db.tables, answer) == Replied(old(db.tables), t, Create(old(hermes.jobs), t, fate).1, now)
  {
    var reply := hermes.CreateTrip(t, fate);
    answer := ActOnReply(db, t, reply, now);
  }

  method ActOnReply(db: Database, t: Id, reply: Reply, now: Time) returns (answer: SubmitAnswer)
    modifies db
    ensures (db.tables, answer) == Replied(old(db.tables), t, reply, now)
  {
    match reply {
      case Business(code) =>
        if code == "CITY_NOT_SUPPORTED" {
          var settled := SettleTrip(db, t, CITY, None, now);
          return if settled in {Settled, AlreadyTerminal} then CityNotSupported else Internal;
        }
        return ServiceError;
      case Integration(uncertain, unavailable) =>
        if uncertain {
          MarkUpstreamUncertain(db, t);
        } else {
          var settled := SettleTrip(db, t, UNREACHABLE, None, now);
          if settled !in {Settled, AlreadyTerminal} {
            return Internal;
          }
        }
        return if unavailable then ServiceUnavailable else ServiceError;
      case Created(job, status) =>
        if job == NO_JOB {
          MarkUpstreamUncertain(db, t);
          return ServiceError;
        }
        var saved := SaveUpstreamAcceptance(db, t, job, status, now);
        return if saved in {Accepted, AcceptedTerminal} then Submitted else Internal;
    }
  }

  // ---- submit_trip ---------------------------------------------------------------------------

  datatype TripAnswer =
    | Submission(trip: Id, remaining: int, quotaState: EntryStatus)
    | NotReserved(why: ReserveAnswer)
    | NotSubmitted(problem: SubmitAnswer)

  /** What uuid4 draws for a new trip. */
  datatype NewIds = NewIds(trip: Id, entry: Id)

  function TripOf(answer: ReserveAnswer, ids: NewIds): Option<Id> {
    match answer
    case Reserved(_) => Some(ids.trip)
    case AlreadyReserved(t, _) => Some(t)
    case _ => None
  }

  predicate AwaitsSubmission(trip: Trip) {
    trip.jobId.None? && trip.status == SUBMITTING
  }

  function QuotaState(status: TripStatus): EntryStatus {
    match status
    case SUCCESS => CONSUMED
    case FAILED => RELEASED
    case TIMEOUT => RELEASED
    case REJECTED => RELEASED
    case _ => RESERVED
  }

  /** The rest of a submission, once trip `t` is reserved or found. */
  function SubmitFor(db: Db, jobs: Jobs, u: Id, t: Id, fate: Fate, now: Time): (Db, Jobs, TripAnswer) {
    if t !in db.trips then (db, jobs, NotSubmitted(Internal))
    else if !AwaitsSubmission(db.trips[t]) then
      (db, jobs, Submission(t, Snapshot(db, u).Remaining(), QuotaState(db.trips[t].status)))
    else
      var (jobs', reply) := Create(jobs, t, fate);
      var (after, told) := Replied(db, t, reply, now);
      (after, jobs',
       if told != Submitted || t !in after.trips then NotSubmitted(told)
       else Submission(t, Snapshot(after, u).Remaining(), QuotaState(after.trips[t].status)))
  }

  function SubmitOutcome(
    db: Db, jobs: Jobs, r: Request, ids: NewIds, window: Time, fate: Fate, now: Time): (Db, Jobs, TripAnswer) {
    var (reserved, answer) := ReserveOutcome(db, r, ids.trip, ids.entry, window, now);
    var t := TripOf(answer, ids);
    if t.None? then (reserved, jobs, NotReserved(answer)) else SubmitFor(reserved, jobs, r.user, t.value, fate, now)
  }

  method SubmitTrip(db: Database, hermes: HermesJobs, r: Request, ids: NewIds, window: Time, fate: Fate, now: Time)
    returns (answer: TripAnswer)
    modifies db, hermes
    ensures (db.tables, hermes.jobs, answer)
            == SubmitOutcome(old(db.tables), old(hermes.jobs), r, ids, window, fate, now)
  {
    var reservation := ReserveTrip(db, r, ids.trip, ids.entry, window, now);
    var t := TripOf(reservation, ids);
    if t.None? {
      return NotReserved(reservation);
    }
    if t.value !in db.tables.trips {
      return NotSubmitted(Internal);
    }
    if AwaitsSubmission(db.tables.trips[t.value]) {
      var told := SubmitReserved(db, hermes, t.value, fate, now);
      if told != Submitted || t.value !in db.tables.trips {
        return NotSubmitted(told);
      }
    }
    return Submission(t.value, Snapshot(db.tables, r.user).Remaining(), QuotaState(db.tables.trips[t.value].status));
  }

  // ---- apply_job_status ----------------------------------------------------------------------

  datatype JobStatus = JobStatus(job: Id, status: TripStatus, resultId: Option<nat>, errorCode: Option<string>)

  datatype StatusAnswer = Applied | Protocol | TripNotOwned | StatusInternal

  const SAFE_CODES: map<string, string> := map[
    "CITY_NOT_SUPPORTED" := "CITY_NOT_SUPPORTED", "NO_FEASIBLE_PLAN" := "NO_FEASIBLE_PLAN",
    "CONTENT_REJECTED" := "CONTENT_REJECTED", "GENERATION_TIMEOUT" := "GENERATION_TIMEOUT",
    "GENERATION_FAILED" := "GENERATION_FAILED", "WRITER_CAPACITY_BUSY" := "SERVICE_UNAVAILABLE",
    "WRITER_ENDPOINTS_UNAVAILABLE" := "SERVICE_UNAVAILABLE"]

  /** safe_failure: no raw code reaches a caller. */
  function SafeCode(raw: Option<string>): (code: string)
    ensures code in SAFE_CODES.Values
    ensures raw.Some? && Upper(raw.value) in SAFE_CODES ==> code == SAFE_CODES[Upper(raw.value)]
    ensures !(raw.Some? && Upper(raw.value) in SAFE_CODES) ==> code == "GENERATION_FAILED"
  {
    assert SAFE_CODES["GENERATION_FAILED"] == "GENERATION_FAILED";
    var key := if raw.Some? then Upper(raw.value) else "";
    if key in SAFE_CODES then SAFE_CODES[key] else "GENERATION_FAILED"
  }

  function ReportOf(s: JobStatus): Terminal {
    if s.status == SUCCESS then Terminal(SUCCESS, s.resultId, None)
      else Terminal(s.status, None, Some(SafeCode(s.errorCode)))
  }

  /** `seen` is the job the caller read from the trip earlier. */
  function StatusOutcome(
    db: Db, t: Id, seen: Option<Id>, s: JobStatus, owner: Option<Id>, now: Time): (Db, StatusAnswer) {
    if seen != Some(s.job) then (db, Protocol)
    else if !s.status.Terminal() then
      var (after, answer) := ActiveOutcome(db, t, s.status, owner, now);
      (after, if answer == Current then Applied else TripNotOwned)
    else if s.status == SUCCESS && s.resultId.None? then (db, Protocol)
    else
      var (after, answer) := SettleOutcome(db, t, ReportOf(s), owner, now);
      (after, if answer in {Settled, AlreadyTerminal} then Applied else if answer == NotOwned then TripNotOwned
          else StatusInternal)
  }

  method ApplyJobStatus(
    db: Database, t: Id, seen: Option<Id>, s: JobStatus, owner: Option<Id>, now: Time)
    returns (answer: StatusAnswer)
    modifies db
    ensures (db.tables, answer) == StatusOutcome(old(db.tables), t, seen, s, owner, now)
  {
    if seen != Some(s.job) {
      return Protocol;
    }
    if !s.status.Terminal() {
      var current := UpdateActiveStatus(db, t, s.status, owner, now);
      return if current == Current then Applied else TripNotOwned;
    }
    if s.status == SUCCESS && s.resultId.None? {
      return Protocol;
    }
    var settled := SettleTrip(db, t, ReportOf(s), owner, now);
    return if settled in {Settled, AlreadyTerminal} then Applied else if settled == NotOwned then TripNotOwned
      else StatusInternal;
  }

  // ---- reconcile_bounded ---------------------------------------------------------------------

  predicate Eligible(trips: map<Id, Trip>, t: Id, maxAttempts: nat) {
    t in trips && !trips[t].status.Terminal() && trips[t].attempts < maxAttempts
  }

  function EligibleIn(trips: map<Id, Trip>, order: seq<Id>, maxAttempts: nat): (r: seq<Id>)
    ensures forall t :: t in r <==> t in order && Eligible(trips, t, maxAttempts)
  {
    if order == [] then []
    else
      var rest := EligibleIn(trips, order[1..], maxAttempts);
      (if Eligible(trips, order[0], maxAttempts) then [order[0]] else []) + rest
  }

  /** `order` lists the trips that no other transaction has locked, by age of their last change. */
  function Claimable(trips: map<Id, Trip>, order: seq<Id>, maxAttempts: nat, limit: nat): (r: seq<Id>)
    ensures |r| <= limit && forall t | t in r :: Eligible(trips, t, maxAttempts)
  {
    var all := EligibleIn(trips, order, maxAttempts);
    if |all| > limit then all[..limit] else all
  }

  function ClaimedTrips(trips: map<Id, Trip>, ids: set<Id>): map<Id, Trip> {
    map t | t in trips :: if t in ids then trips[t].(attempts := trips[t].attempts + 1) else trips[t]
  }

  ghost predicate Distinct(ids: seq<Id>) {
    forall i, j | 0 <= i < j < |ids| :: ids[i] != ids[j]
  }

  lemma {:induction false} EligibleInIsDistinct(trips: map<Id, Trip>, order: seq<Id>, maxAttempts: nat)
    requires Distinct(order)
    ensures Distinct(EligibleIn(trips, order, maxAttempts))
  {
    if order != [] {
      assert Distinct(order[1..]);
      EligibleInIsDistinct(trips, order[1..], maxAttempts);
      assert order[0] !in order[1..];
    }
  }

  /** The claim transaction counts one attempt on each trip it picks, before anything is tried. */
  method ClaimTrips(db: Database, order: seq<Id>, maxAttempts: nat, limit: nat) returns (claimed: seq<Id>)
    requires Distinct(order)
    modifies db
    ensures claimed == Claimable(old(db.tables.trips), order, maxAttempts, limit) && Distinct(claimed)
    ensures db.tables == old(db.tables).(trips := ClaimedTrips(old(db.tables.trips), Elements(claimed)))
  {
    db.Begin();
    ghost var trips := db.tables.trips;
    claimed := Claimable(db.tables.trips, order, maxAttempts, limit);
    EligibleInIsDistinct(db.tables.trips, order, maxAttempts);
    ClaimNone(trips);
    for i := 0 to |claimed|
      invariant db.tables == old(db.tables).(trips := ClaimedTrips(trips, Elements(claimed[..i])))
    {
      ClaimOneMore(trips, claimed, i);
      var trip := db.tables.trips[claimed[i]];
      db.tables := db.tables.(trips := db.tables.trips[claimed[i] := trip.(attempts := trip.attempts + 1)]);
    }
    assert claimed[..|claimed|] == claimed;
  }

  lemma ClaimNone(trips: map<Id, Trip>)
    ensures ClaimedTrips(trips, Elements([])) == trips
  {
  }

  lemma ClaimOneMore(trips: map<Id, Trip>, ids: seq<Id>, i: nat)
    requires Distinct(ids) && i < |ids| && forall t | t in ids :: t in trips
    ensures var before := ClaimedTrips(trips, Elements(ids[..i]));
            && ids[i] in before
            && ClaimedTrips(trips, Elements(ids[..i + 1]))
                == before[ids[i] := before[ids[i]].(attempts := before[ids[i]].attempts + 1)]
  {
    assert ids[i] in ids && ids[i] !in ids[..i];
    assert ids[..i + 1] == ids[..i] + [ids[i]];
  }

  datatype ItemAnswer = Recovered | Unresolved | Raised

  /** What the network does for one claimed trip; no status is an integration error. */
  datatype Weather = Weather(fate: Fate, status: Option<JobStatus>)

  /** One claimed trip; `seen` is the job it had when it was claimed. */
  function ItemOutcome(db: Db, jobs: Jobs, t: Id, seen: Option<Id>, w: Weather, now: Time): (Db, Jobs, ItemAnswer) {
    if seen.None? then
      var (jobs', reply) := Create(jobs, t, w.fate);
      match reply
      case Created(job, status) =>
        var (after, answer) := AcceptOutcome(db, t, job, status, now);
        (after, jobs', if answer in {Accepted, AcceptedTerminal} then Recovered else Raised)
      case Business(_) => (db, jobs', Raised)
      case Integration(_, _) => (db, jobs', Unresolved)
    else if t !in db.trips || w.status.None? then (db, jobs, Unresolved)
    else
      var (after, answer) := StatusOutcome(db, t, db.trips[t].jobId, w.status.value, None, now);
      (after, jobs, if answer == Applied then Recovered else if answer == Protocol then Unresolved else Raised)
  }

  method ReconcileItem(
    db: Database, hermes: HermesJobs, t: Id, seen: Option<Id>, w: Weather, now: Time)
    returns (answer: ItemAnswer)
    modifies db, hermes
    ensures (db.tables, hermes.jobs, answer) == ItemOutcome(old(db.tables), old(hermes.jobs), t, seen, w, now)
  {
    if seen.None? {
      var reply := hermes.CreateTrip(t, w.fate);
      match reply {
        case Created(job, status) =>
          var saved := SaveUpstreamAcceptance(db, t, job, status, now);
          return if saved in {Accepted, AcceptedTerminal} then Recovered else Raised;
        case Business(_) => return Raised;
        case Integration(_, _) => return Unresolved;
      }
    }
    if t !in db.tables.trips || w.status.None? {
      return Unresolved;
    }
    var applied := ApplyJobStatus(db, t, db.tables.trips[t].jobId, w.status.value, None, now);
    return if applied == Applied then Recovered else if applied == Protocol then Unresolved else Raised;
  }

  datatype Claim = Claim(trip: Id, seen: Option<Id>)
  datatype Pass = Pass(db: Db, jobs: Jobs, recovered: nat, unresolved: nat, raised: bool)

  /** The claimed trips in order; an error that is not an integration error ends the pass. */
  function PassAfter(db: Db, jobs: Jobs, claims: seq<Claim>, weather: Id -> Weather, now: Time): Pass {
    if claims == [] then Pass(db, jobs, 0, 0, false)
    else
      var before, last := PassAfter(db, jobs, claims[..|claims| - 1], weather, now), claims[|claims| - 1];
      if before.raised then before
      else
        var (after, jobs', answer) :=
            ItemOutcome(before.db, before.jobs, last.trip, last.seen, weather(last.trip), now);
        Pass(after, jobs', before.recovered + if answer == Recovered then 1 else 0,
             before.unresolved + if answer == Unresolved then 1 else 0, answer == Raised)
  }

  function Claims(trips: map<Id, Trip>, ids: seq<Id>): (r: seq<Claim>)
    requires forall t | t in ids :: t in trips
    ensures |r| == |ids| && forall k | 0 <= k < |ids| :: r[k] == Claim(ids[k], trips[ids[k]].jobId)
  {
    seq(|ids|, k requires 0 <= k < |ids| => Claim(ids[k], trips[ids[k]].jobId))
  }

  lemma {:induction false} RaisedEnds(db: Db, jobs: Jobs, claims: seq<Claim>, weather: Id -> Weather, now: Time, i: nat)
    requires i <= |claims| && PassAfter(db, jobs, claims[..i], weather, now).raised
    ensures PassAfter(db, jobs, claims, weather, now) == PassAfter(db, jobs, claims[..i], weather, now)
    decreases |claims| - i
  {
    if i == |claims| {
      assert claims[..i] == claims;
    } else {
      assert claims[..i + 1][..i] == claims[..i];
      RaisedEnds(db, jobs, claims, weather, now, i + 1);
    }
  }

  lemma {:induction false} EveryClaimCounts(db: Db, jobs: Jobs, claims: seq<Claim>, weather: Id -> Weather, now: Time)
    ensures var p := PassAfter(db, jobs, claims, weather, now);
            !p.raised ==> p.recovered + p.unresolved == |claims|
  {
    if claims != [] {
      EveryClaimCounts(db, jobs, claims[..|claims| - 1], weather, now);
    }
  }

  /** The loop over the claimed trips. */
  method ReconcileEach(db: Database, hermes: HermesJobs, claims: seq<Claim>, weather: Id -> Weather, now: Time)
    returns (recovered: nat, unresolved: nat, raised: bool)
    modifies db, hermes
    ensures Pass(db.tables, hermes.jobs, recovered, unresolved, raised)
         == PassAfter(old(db.tables), old(hermes.jobs), claims, weather, now)
  {
    ghost var first, jobs := db.tables, hermes.jobs;
    recovered, unresolved, raised := 0, 0, false;
    for i := 0 to |claims|
      invariant Pass(db.tables, hermes.jobs, recovered, unresolved, false)
                == PassAfter(first, jobs, claims[..i], weather, now)
    {
      assert claims[..i + 1][..i] == claims[..i];
      var answer := ReconcileItem(db, hermes, claims[i].trip, claims[i].seen, weather(claims[i].trip), now);
      match answer {
        case Recovered => recovered := recovered + 1;
        case Unresolved => unresolved := unresolved + 1;
        case Raised =>
          RaisedEnds(first, jobs, claims, weather, now, i + 1);
          raised := true;
          return;
      }
    }
    assert claims[..|claims|] == claims;
  }

  /** reconcile_bounded. Every claimed trip is counted, unless an error ends the pass. */
  method ReconcileBounded(
    db: Database, hermes: HermesJobs, order: seq<Id>, maxAttempts: nat, limit: nat,
    weather: Id -> Weather, now: Time)
    returns (claimed: nat, recovered: nat, unresolved: nat, raised: bool)
    requires Distinct(order)
    modifies db, hermes
    ensures claimed <= limit && (!raised ==> recovered + unresolved == claimed)
    ensures var ids := Claimable(old(db.tables.trips), order, maxAttempts, limit);
            var started := old(db.tables).(trips := ClaimedTrips(old(db.tables.trips), Elements(ids)));
            Pass(db.tables, hermes.jobs, recovered, unresolved, raised)
              == PassAfter(started, old(hermes.jobs), Claims(old(db.tables.trips), ids), weather, now)
  {
    var claims := Claims(db.tables.trips, Claimable(db.tables.trips, order, maxAttempts, limit));
    var ids := ClaimTrips(db, order, maxAttempts, limit);
    EveryClaimCounts(db.tables, hermes.jobs, claims, weather, now);
    claimed := |ids|;
    recovered, unresolved, raised := ReconcileEach(db, hermes, claims, weather, now);
  }

  // ---- One trip, one unit, one job -----------------------------------------------------------

  /** Every job bound to a trip is the one the upstream holds for it, and no two trips share one. */
  ghost predicate Bound(trips: map<Id, Trip>, jobs: Jobs) {
    && (forall t | t in trips && trips[t].jobId.Some? :: t in jobs && jobs[t] == trips[t].jobId.value)
    && (forall s, t | s in jobs && t in jobs && jobs[s] == jobs[t] :: s == t)
  }

  lemma CreateKeepsBound(trips: map<Id, Trip>, jobs: Jobs, t: Id, fate: Fate)
    requires Bound(trips, jobs) && OffersFresh(jobs, fate)
    ensures var (jobs', reply) := Create(jobs, t, fate);
            && Bound(trips, jobs') && (forall s | s in jobs :: s in jobs' && jobs'[s] == jobs[s])
            && (reply.Created? ==> t in jobs' && jobs'[t] == reply.job)
            && jobs'.Keys <= jobs.Keys + {t}
  {
  }

  /** With an idempotent upstream, a late or repeated reply always names the job already bound. */
  lemma DifferentJobUnreachable(db: Db, jobs: Jobs, t: Id)
    requires Bound(db.trips, jobs) && t in jobs
    ensures AcceptRefusal(db, t, jobs[t]) !in {Some(DifferentJob), Some(JobBoundElsewhere)}
  {
  }

  lemma AcceptKeepsBound(db: Db, jobs: Jobs, t: Id, reported: string, now: Time)
    requires Bound(db.trips, jobs) && t in jobs
    ensures Bound(AcceptOutcome(db, t, jobs[t], reported, now).0.trips, jobs)
  {
  }

  /** Whatever becomes of the request, the answer is never an internal error. */
  lemma SubmissionNeverBreaks(db: Db, jobs: Jobs, t: Id, fate: Fate, now: Time)
    requires LedgerOk(db) && Bound(db.trips, jobs) && OffersFresh(jobs, fate) && t in db.trips
    ensures Replied(db, t, Create(jobs, t, fate).1, now).1 != Internal
  {
    CreateKeepsBound(db.trips, jobs, t, fate);
    var (jobs', reply) := Create(jobs, t, fate);
    match reply
    case Created(job, _) => DifferentJobUnreachable(db, jobs', t);
    case Business(_) => SettlementNeverFails(db, t, CITY, None);
    case Integration(_, _) => SettlementNeverFails(db, t, UNREACHABLE, None);
  }

  lemma UncertainKeepsLedger(db: Db, t: Id)
    requires LedgerOk(db)
    ensures LedgerOk(UncertainWrite(db, t))
  {
    if t in db.trips {
      StatusStepKeepsLedger(db, t, db.trips[t].(attempts := db.trips[t].attempts + 1));
    }
  }

  lemma RepliedKeepsLedger(db: Db, t: Id, reply: Reply, now: Time)
    requires LedgerOk(db)
    ensures LedgerOk(Replied(db, t, reply, now).0)
  {
    match reply
    case Created(job, status) =>
      UncertainKeepsLedger(db, t);
      AcceptKeepsLedger(db, t, job, status, now);
    case Business(_) => SettleKeepsLedger(db, t, CITY, None, now);
    case Integration(_, _) =>
      UncertainKeepsLedger(db, t);
      SettleKeepsLedger(db, t, UNREACHABLE, None, now);
  }

  /** At most one trip differs, and who asked for it does not. */
  ghost predicate OnlyTrip(before: map<Id, Trip>, after: map<Id, Trip>, t: Id) {
    before == after || (t in before && t in after && after == before[t := after[t]]
        && SameRequester(before[t], after[t]))
  }

  predicate SameRequester(before: Trip, after: Trip) {
    after.owner == before.owner && after.request == before.request && after.requestHash == before.requestHash
  }

  lemma AcceptChangesOneTrip(db: Db, t: Id, job: Id, reported: string, now: Time)
    ensures var (after, answer) := AcceptOutcome(db, t, job, reported, now);
            && after.users == db.users && after.entries == db.entries && OnlyTrip(db.trips, after.trips, t)
            && (answer in {Accepted, AcceptedTerminal} ==> t in after.trips && !AwaitsSubmission(after.trips[t]))
  {
    if AcceptRefusal(db, t, job).None? {
      AcceptWriteTrips(db, t, job, reported, now);
    }
  }

  lemma AcceptWriteTrips(db: Db, t: Id, job: Id, reported: string, now: Time)
    requires t in db.trips
    ensures var after := AcceptWrite(db, t, job, reported, now);
            && after.users == db.users && after.entries == db.entries
            && after.trips == db.trips[t := BoundTrip(db.trips[t], job, reported, now)]
  {
  }

  lemma SettleChangesOneTrip(db: Db, t: Id, r: Terminal, owner: Option<Id>, now: Time)
    ensures var after := SettleOutcome(db, t, r, owner, now).0;
            && after.users == db.users && after.entries.Keys == db.entries.Keys && OnlyTrip(db.trips, after.trips, t)
  {
  }

  lemma UncertainChangesOneTrip(db: Db, t: Id)
    ensures var after := UncertainWrite(db, t);
            after.users == db.users && after.entries == db.entries && OnlyTrip(db.trips, after.trips, t)
  {
  }

  lemma RepliedChangesOneTrip(db: Db, t: Id, reply: Reply, now: Time)
    ensures var (after, answer) := Replied(db, t, reply, now);
            && after.users == db.users && after.entries.Keys == db.entries.Keys && OnlyTrip(db.trips, after.trips, t)
            && (answer == Submitted ==> t in after.trips && !AwaitsSubmission(after.trips[t]))
  {
    match reply
    case Created(job, status) =>
      UncertainChangesOneTrip(db, t);
      AcceptChangesOneTrip(db, t, job, status, now);
    case Business(_) => SettleChangesOneTrip(db, t, CITY, None, now);
    case Integration(_, _) =>
      UncertainChangesOneTrip(db, t);
      SettleChangesOneTrip(db, t, UNREACHABLE, None, now);
  }

  /** A definite failure fails the trip and releases its unit, whatever became of earlier attempts. */
  lemma FailureReleases(db: Db, t: Id, now: Time)
    requires LedgerOk(db) && t in db.trips && !db.trips[t].status.Terminal()
    ensures Released(Replied(db, t, Integration(false, true), now).0, t)
    ensures Released(SettleOutcome(db, t, UNREACHABLE, None, now).0, t)
  {
    SettlementNeverFails(db, t, UNREACHABLE, None);
    FailedSettlement(db, t, now);
  }

  predicate Released(db: Db, t: Id) {
    t in db.trips && db.trips[t].status == FAILED && Holds(db.entries, db.trips[t].entryId, RELEASED)
  }

  lemma FailedSettlement(db: Db, t: Id, now: Time)
    requires t in db.trips && !db.trips[t].status.Terminal() && Holds(db.entries, db.trips[t].entryId, RESERVED)
    ensures Released(SettleOutcome(db, t, UNREACHABLE, None, now).0, t)
  {
  }

  /** So a released unit can belong to a job that the upstream is working on. */
  lemma ReleasedYetAccepted(db: Db, t: Id, job: Id, now: Time)
    requires LedgerOk(db) && t in db.trips && AwaitsSubmission(db.trips[t])
    ensures var (jobs, lost) := Create(map[], t, ReplyLost(job, true));
            var (jobs', refused) := Create(jobs, t, NotReached);
            t in jobs' && jobs'[t] == job && Released(Replied(Replied(db, t, lost, now).0, t, refused, now).0, t)
  {
    var (jobs, lost) := Create(map[], t, ReplyLost(job, true));
    RepliedKeepsLedger(db, t, lost, now);
    FailureReleases(Replied(db, t, lost, now).0, t, now);
  }

  // ---- Repeated submissions ------------------------------------------------------------------

  lemma SubmitKeepsLedger(db: Db, jobs: Jobs, r: Request, ids: NewIds, window: Time, fate: Fate, now: Time)
    requires LedgerOk(db) && ids.trip !in db.trips && ids.entry !in db.entries
    ensures LedgerOk(SubmitOutcome(db, jobs, r, ids, window, fate, now).0)
  {
    ReserveKeepsLedger(db, r, ids.trip, ids.entry, window, now);
    var (reserved, answer) := ReserveOutcome(db, r, ids.trip, ids.entry, window, now);
    var t := TripOf(answer, ids);
    if t.Some? {
      SubmitForKeepsLedger(reserved, jobs, r.user, t.value, fate, now);
    }
  }

  lemma SubmitForKeepsLedger(db: Db, jobs: Jobs, u: Id, t: Id, fate: Fate, now: Time)
    requires LedgerOk(db)
    ensures LedgerOk(SubmitFor(db, jobs, u, t, fate, now).0)
  {
    RepliedKeepsLedger(db, t, Create(jobs, t, fate).1, now);
  }

  /** `t` serves request `r`: found or reserved, its next reservation finds it again. */
  ghost predicate Serves(users: map<Id, User>, trips: map<Id, Trip>, r: Request, t: Id) {
    && t in SameRequest(trips, r) && trips[t].requestHash == r.hash
    && r.user in users && users[r.user].status == Active
  }

  lemma ReservedForRequest(db: Db, r: Request, ids: NewIds, window: Time, now: Time)
    ensures var (after, answer) := ReserveOutcome(db, r, ids.trip, ids.entry, window, now);
            var t := TripOf(answer, ids);
            t.Some? ==> Serves(after.users, after.trips, r, t.value)
  {
    ReservedWith(db, r, Snapshot(db, r.user), ids, window, now);
  }

  lemma ReservedWith(db: Db, r: Request, read: QuotaSnapshot, ids: NewIds, window: Time, now: Time)
    ensures var (after, answer) := ReserveWith(db, r, read, ids.trip, ids.entry, window, now);
            var t := TripOf(answer, ids);
            t.Some? ==> Serves(after.users, after.trips, r, t.value)
  {
    if ReserveRefusalWith(db, r, read).None? {
      NewTripServes(db.users, db.trips, r, ids.trip, NewTrip(r, ids.entry, window, now));
    }
  }

  lemma NewTripServes(users: map<Id, User>, trips: map<Id, Trip>, r: Request, t: Id, trip: Trip)
    requires r.user in users && users[r.user].status == Active
    requires trip.owner == Some(r.user) && trip.request == Client(r.key) && trip.requestHash == r.hash
    ensures Serves(users, trips[t := trip], r, t)
  {
  }

  lemma StillServes(users: map<Id, User>, before: map<Id, Trip>, after: map<Id, Trip>, r: Request, t: Id, s: Id)
    requires Serves(users, before, r, t) && OnlyTrip(before, after, s)
    ensures Serves(users, after, r, t)
  {
    assert SameRequester(before[t], after[t]);
  }

  /** Reserving again finds the one trip of the request and writes nothing. */
  lemma ReserveAgain(db: Db, r: Request, t: Id, ids: NewIds, window: Time, now: Time)
    requires LedgerOk(db) && Serves(db.users, db.trips, r, t)
    ensures ReserveOutcome(db, r, ids.trip, ids.entry, window, now) == (db, AlreadyReserved(t, Snapshot(db, r.user)))
  {
    var found := First(SameRequest(db.trips, r));
    assert found == Some(t);
  }

  /** Submitting again goes straight to what its trip still awaits. */
  lemma Resubmission(db: Db, jobs: Jobs, r: Request, t: Id, ids: NewIds, fate: Fate, window: Time, now: Time)
    requires LedgerOk(db) && Serves(db.users, db.trips, r, t)
    ensures var (again, jobs', answer) := SubmitOutcome(db, jobs, r, ids, window, fate, now);
            if AwaitsSubmission(db.trips[t]) then
              jobs' == Create(jobs, t, fate).0 && again == Replied(db, t, Create(jobs, t, fate).1, now).0
            else
              again == db && jobs' == jobs
              && answer == Submission(t, Snapshot(db, r.user).Remaining(), QuotaState(db.trips[t].status))
  {
    ReserveAgain(db, r, t, ids, window, now);
  }

  /**
    A request that got as far as a trip keeps it: another submission reserves nothing, whatever became of
    the first.
    */
  lemma ResubmissionReservesNothing(
    db: Db, jobs: Jobs, r: Request, t: Id, ids: NewIds, fate: Fate, window: Time, now: Time)
    requires LedgerOk(db) && Serves(db.users, db.trips, r, t)
    ensures var (again, jobs', answer) := SubmitOutcome(db, jobs, r, ids, window, fate, now);
            again.trips.Keys == db.trips.Keys && again.entries.Keys == db.entries.Keys && jobs'.Keys <= jobs.Keys + {t}
  {
    Resubmission(db, jobs, r, t, ids, fate, window, now);
    RepliedKeepsKeys(db, t, Create(jobs, t, fate).1, now);
    CreateKeepsOthers(jobs, t, fate);
  }

  lemma RepliedKeepsKeys(db: Db, t: Id, reply: Reply, now: Time)
    ensures var after := Replied(db, t, reply, now).0;
            after.trips.Keys == db.trips.Keys && after.entries.Keys == db.entries.Keys
  {
    RepliedChangesOneTrip(db, t, reply, now);
  }

  lemma CreateKeepsOthers(jobs: Jobs, t: Id, fate: Fate)
    ensures Create(jobs, t, fate).0.Keys <= jobs.Keys + {t}
  {
  }

  /** Once answered with a submission, the answer is repeated and the upstream is not asked again. */
  lemma ResubmissionIsIdempotent(
    db: Db, jobs: Jobs, r: Request, ids: NewIds, fate: Fate, ids': NewIds, fate': Fate, window: Time, now: Time,
    later: Time)
    requires LedgerOk(db) && ids.trip !in db.trips && ids.entry !in db.entries
    requires SubmitOutcome(db, jobs, r, ids, window, fate, now).2.Submission?
    ensures var (after, jobs', answer) := SubmitOutcome(db, jobs, r, ids, window, fate, now);
            SubmitOutcome(after, jobs', r, ids', window, fate', later) == (after, jobs', answer)
  {
    var (after, jobs', answer) := SubmitOutcome(db, jobs, r, ids, window, fate, now);
    SubmitKeepsLedger(db, jobs, r, ids, window, fate, now);
    SubmittedServes(db, jobs, r, ids, window, fate, now);
    Resubmission(after, jobs', r, answer.trip, ids', fate', window, later);
  }

  /** After any submission that got as far as a trip, that trip serves the request. */
  lemma SubmittedServes(db: Db, jobs: Jobs, r: Request, ids: NewIds, window: Time, fate: Fate, now: Time)
    ensures var (after, _, answer) := SubmitOutcome(db, jobs, r, ids, window, fate, now);
            var t := TripOf(ReserveOutcome(db, r, ids.trip, ids.entry, window, now).1, ids);
            && (t.Some? ==> Serves(after.users, after.trips, r, t.value))
            && (answer.Submission? ==>
                  && t == Some(answer.trip) && answer.trip in after.trips && !AwaitsSubmission(after.trips[answer.trip])
                  && answer.quotaState == QuotaState(after.trips[answer.trip].status)
                  && answer.remaining == Snapshot(after, r.user).Remaining())
  {
    var (reserved, first) := ReserveOutcome(db, r, ids.trip, ids.entry, window, now);
    ReservedForRequest(db, r, ids, window, now);
    var t := TripOf(first, ids);
    if t.Some? && AwaitsSubmission(reserved.trips[t.value]) {
      var reply := Create(jobs, t.value, fate).1;
      RepliedChangesOneTrip(reserved, t.value, reply, now);
      StillServes(reserved.users, reserved.trips, Replied(reserved, t.value, reply, now).0.trips, r, t.value, t.value);
    }
  }

  /** The quota state that a submission reports is the one its entry has. */
  lemma ReportedStateIsTheEntrys(db: Db, jobs: Jobs, r: Request, ids: NewIds, window: Time, fate: Fate, now: Time)
    requires LedgerOk(db) && ids.trip !in db.trips && ids.entry !in db.entries
    ensures var (after, _, answer) := SubmitOutcome(db, jobs, r, ids, window, fate, now);
            answer.Submission? ==>
              && answer.trip in after.trips && Holds(after.entries, after.trips[answer.trip].entryId, answer.quotaState)
              && after.entries[after.trips[answer.trip].entryId.value].user == r.user
              && after.entries[after.trips[answer.trip].entryId.value].units == 1
  {
    var (after, _, answer) := SubmitOutcome(db, jobs, r, ids, window, fate, now);
    SubmitKeepsLedger(db, jobs, r, ids, window, fate, now);
    SubmittedServes(db, jobs, r, ids, window, fate, now);
    if answer.Submission? {
      assert TripOk(after.users.Keys, after.entries, answer.trip, after.trips[answer.trip]);
    }
  }
}
