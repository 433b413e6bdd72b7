/**
  The tables of the service, one map per table, and the locks its transactions take.
  Identifiers are naturals: only their equality and their column order matter.
  */
module Schema {
  import Finite

  datatype Option<T> = None | Some(value: T) {
    /** Python's `or` on an optional column. */
    function Or(other: Option<T>): Option<T> {
      if Some? then this else other
    }
  }

  type Id = nat
  type Time = nat

  const DAY: Time := 86400

  datatype UserStatus = Active | Disabled
  datatype Role = Member | Administrator
  datatype User = User(
    status: UserStatus, role: Role,
    displayName: string, nameKey: string, nameChangedAt: Option<Time>)

  datatype Session = Session(user: Id, revoked: bool)

  datatype Mode = Login | Register | Closure
  datatype Purpose = EmailAuth | AccountClosure
  datatype Delivery = Pending | Sent | Failed
  datatype Challenge = Challenge(
    email: string, mode: Mode, purpose: Purpose, invitation: Option<Id>, user: Option<Id>,
    code: string, attempts: nat, maxAttempts: nat, delivery: Delivery,
    expiresAt: Time, consumedAt: Option<Time>)

  datatype Invitation = Invitation(expiresAt: Option<Time>, disabledAt: Option<Time>, redeemedAt: Option<Time>)

  datatype Grant = Grant(user: Id, units: nat)

  datatype TripStatus = SUBMITTING | PENDING | RUNNING | SUCCESS | FAILED | TIMEOUT | REJECTED {
    predicate Terminal() { SUCCESS? || FAILED? || TIMEOUT? || REJECTED? }

    /** What no transaction lowers; PENDING and RUNNING may alternate. */
    function Rank(): nat { if SUBMITTING? then 0 else if PENDING? || RUNNING? then 1 else 2 }
  }

  datatype RequestRef = Client(key: string) | Erased(trip: Id)

  datatype Trip = Trip(
    owner: Option<Id>, request: RequestRef, requestHash: string, status: TripStatus,
    jobId: Option<Id>, resultId: Option<nat>, entryId: Option<Id>, errorCode: Option<string>,
    attempts: nat, assocVersion: nat, erasedAt: Option<Time>, archivedAt: Option<Time>,
    createdAt: Time, visibleUntil: Time, startedAt: Option<Time>, finishedAt: Option<Time>)

  datatype EntryStatus = RESERVED | CONSUMED | RELEASED
  datatype Entry = Entry(user: Id, trip: Id, units: nat, status: EntryStatus)

  /** An actor is known to the record only by a keyed, injective hash of its id. */
  datatype IdemKey = IdemKey(actorHash: Id, key: Id)
  datatype Action = DisableUser | RestoreUser | GrantAdmin | RevokeAdmin
  datatype AdminRequest =
    | MutateUser(action: Action, target: Id, reason: string)
    | AdjustQuota(adjustTarget: Id, delta: int, note: string, reverses: Option<nat>)
  datatype AdminResponse =
    | UserView(user: Id, status: UserStatus, role: Role)
    | AdjustmentView(adjustment: nat, target: Id, change: int, before: int, after: int)
  datatype Record = InProgress(request: AdminRequest) | Succeeded(request: AdminRequest, response: AdminResponse)

  /** Append-only, so an adjustment's id is its position. */
  datatype Adjustment = Adjustment(
    target: Option<Id>, actor: Option<Id>, delta: int, before: int, after: int,
    key: IdemKey, reverses: Option<nat>)

  datatype Columns = Columns(text: map<string, string>)
  datatype JobSnapshot = JobSnapshot(jobId: Id, sourceId: nat, version: nat, columns: Columns)
  datatype StepSnapshot = StepSnapshot(stepId: Id, jobId: Id, version: nat, columns: Columns)

  datatype Association = Linked | Deidentified | Unlinked
  datatype JobRow = JobRow(
    sourceId: nat, version: nat, columns: Columns,
    association: Association, assocVersion: nat, erasedAt: Option<Time>,
    tripId: Option<Id>, userId: Option<Id>, syncedAt: Time)
  datatype StepRow = StepRow(jobId: Id, version: nat, columns: Columns)

  datatype Event = Event(
    eventId: Id, sequence: nat, aggregateId: Id, aggregateVersion: nat,
    job: JobSnapshot, steps: seq<StepSnapshot>)
  {
    /** TripProjectionCommitEvent.model_validate, on the fields kept here. */
    predicate Valid() {
      && 1 <= sequence && aggregateId == job.jobId && aggregateVersion == job.version
      && 1 <= job.sourceId && 1 <= job.version && |steps| <= 500
      && forall s | s in steps :: s.jobId == job.jobId && 1 <= s.stepId && 1 <= s.version
    }
  }
  /** The payload hash is injective, so the record keeps the payload itself. */
  datatype EventRow = EventRow(sequence: nat, payload: Event)

  datatype StreamState = ACTIVE | PAUSED_POISON
  datatype Consumer = Consumer(
    applied: nat, next: nat, stream: StreamState,
    heartbeat: Option<nat>, observedAt: Option<Time>, initialized: bool)

  datatype Entity = TRIP_JOB | TRIP_STEP
  datatype Checkpoint = Checkpoint(snapshotMax: Option<nat>, lastId: nat, completedAt: Option<Time>)

  /** The committed contents of the database. `identities` maps a user to its verified email. */
  datatype Db = Db(
    users: map<Id, User>, quarantine: map<string, Time>, identities: map<Id, string>,
    sessions: map<Id, Session>, challenges: map<Id, Challenge>,
    invitations: map<Id, Invitation>, redemptions: map<Id, Id>, grants: map<Id, Grant>,
    trips: map<Id, Trip>, entries: map<Id, Entry>,
    records: map<IdemKey, Record>, adjustments: seq<Adjustment>,
    jobs: map<Id, JobRow>, steps: map<Id, StepRow>,
    events: map<Id, EventRow>, consumer: Option<Consumer>, checkpoints: map<Entity, Checkpoint>)

  datatype Table = IdempotencyT | ConsumerT | UserT | ChallengeT | TripT | ProjectionT | StepT | AdjustmentT {
    function Rank(): nat {
      match this
      case IdempotencyT => 0
      case ConsumerT => 1
      case UserT => 2
      case ChallengeT => 3
      case TripT => 4
      case ProjectionT => 5
      case StepT => 6
      case AdjustmentT => 7
    }
  }
  /** A row locked by SELECT ... FOR UPDATE. */
  datatype Lock = Lock(table: Table, row: Id) {
    predicate Before(other: Lock) {
      table.Rank() < other.table.Rank() || (table == other.table && row < other.row)
    }
  }

  /**
    One session on the database. `tables` holds what the open transaction sees and has written;
    `locks` records the explicit row locks it has taken so far.
    */
  class Database {
    var tables: Db
    ghost var locks: seq<Lock>

    constructor (initial: Db)
      ensures tables == initial && locks == []
    {
      tables := initial;
      locks := [];
    }

    /** session.begin() */
    ghost method Begin()
      modifies this`locks
      ensures locks == []
    {
      locks := [];
    }

    /** with_for_update(): waits until the row is free, then holds it until the transaction ends. */
    ghost method ForUpdate(table: Table, row: Id)
      modifies this`locks
      ensures locks == old(locks) + [Lock(table, row)]
    {
      locks := locks + [Lock(table, row)];
    }
  }

  /** The row of a query without ORDER BY is modelled as the least matching one. */
  function First(s: set<Id>): (k: Option<Id>)
    ensures s == {} <==> k == None
    ensures k.Some? ==> k.value in s
  {
    if s == {} then None else Some(Finite.Least(s))
  }
}
