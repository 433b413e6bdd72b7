/**
  The whole service as one state machine: every transaction is a step, in any order and with any
  arguments. What the database itself forgets is remembered in `past`.
  */
module World {
  import opened Schema
  import opened Finite
  import opened Projection
  import opened ProjectionSync
  import opened Quota
  import opened TripSubmission
  import opened AccountClosure
  import opened Admin
  import opened Profile
  import opened Auth

  datatype Rename = Rename(user: Id, at: Time)
  datatype Registration = Registration(invitation: Id, user: Id)

  /** Ghost history. */
  datatype Past = Past(
    born: map<Id, Request>, claims: map<Id, nat>, effects: seq<IdemKey>, renames: seq<Rename>,
    registrations: seq<Registration>, openings: seq<Id>, users: set<Id>, challenges: set<Id>)

  /** `jobs` is the upstream's memory of request ids. */
  datatype World = World(db: Db, jobs: Jobs, now: Time, maxAttempts: nat, past: Past)

  datatype Op =
    | Reserve(request: Request, ids: NewIds, window: Time)
    | Post(trip: Id, fate: Fate)
    | Accept(trip: Id, reported: string)
    | Uncertain(trip: Id)
    | Claim(order: seq<Id>, limit: nat)
    | Settle(trip: Id, report: Terminal, owner: Option<Id>)
    | Progress(trip: Id, status: TripStatus, owner: Option<Id>)
    | Deliver(event: Event, repair: bool)
    | MergePage(entity: Entity, items: seq<Item>)
    | Beat(watermark: nat)
    | Pause
    | Close(user: Id, challenge: Id, code: string)
    | Mutate(caller: Context, action: Action, target: Id, reason: string, key: Id)
    | Adjust(caller: Context, change: Change, key: Id)
    | Reverse(caller: Context, original: nat, note: string, key: Id)
    | RenameTo(user: Id, name: Name)
    | Verify(challenge: Id, code: string, drawn: Drawn, draws: seq<string>, units: nat)
    | SendLogin(challenge: Id, email: string, mode: Mode, invitedBy: Option<Id>, code: string, maxCodes: nat,
        expiresAt: Time)
    | SendClosure(challenge: Id, user: Id, email: string, code: string, maxCodes: nat, expiresAt: Time)
    | Mailed(challenge: Id, sent: bool)
    | Invite(invited: Id, until: Option<Time>)
    | Disinvite(invited: Id)
    | Tick(passed: Time)

  /** uuid4 draws unused identifiers, and an upstream reply names the job of its request. */
  ghost predicate Enabled(w: World, op: Op) {
    match op
    case Reserve(_, ids, _) => ids.trip !in w.db.trips && ids.entry !in w.db.entries
    case Post(t, fate) => t in w.db.trips && OffersFresh(w.jobs, fate)
    case Accept(t, _) => t in w.jobs
    case Claim(order, _) => Distinct(order)
    case Verify(_, _, drawn, _, _) =>
        drawn.user !in w.past.users && drawn.session !in w.db.sessions && drawn.grant !in w.db.grants
    case SendLogin(c, _, _, _, _, _, _) => c !in w.past.challenges
    case SendClosure(c, _, _, _, _, _) => c !in w.past.challenges
    case Invite(i, _) => i !in w.db.invitations
    case _ => true
  }

  function Withdrawn(db: Db, i: Id, now: Time): Db {
    db.(invitations := if i in db.invitations then db.invitations[i := db.invitations[i].(disabledAt := Some(now))]
        else db.invitations)
  }

  /** The database after a step. */
  function After(w: World, op: Op): Db {
    match op
    case Reserve(r, ids, window) => ReserveOutcome(w.db, r, ids.trip, ids.entry, window, w.now).0
    case Post(_, _) => w.db
    case Accept(t, reported) => if t in w.jobs then AcceptOutcome(w.db, t, w.jobs[t], reported, w.now).0 else w.db
    case Uncertain(t) => UncertainWrite(w.db, t)
    case Claim(order, limit) =>
      w.db.(trips := ClaimedTrips(w.db.trips, Elements(Claimable(w.db.trips, order, w.maxAttempts, limit))))
    case Settle(t, report, owner) => SettleOutcome(w.db, t, report, owner, w.now).0
    case Progress(t, status, owner) => ActiveOutcome(w.db, t, status, owner, w.now).0
    case Deliver(e, repair) => EventOutcome(w.db, e, repair, w.now).0
    case MergePage(entity, items) =>
      var after := PageAfter(w.db, entity, items, w.now);
      if after.None? then w.db else after.value
    case Beat(watermark) => HeartbeatOutcome(w.db, watermark, w.now).0
    case Pause => Paused(w.db)
    case Close(u, c, code) => CloseOutcome(w.db, u, c, code, w.now).0
    case Mutate(caller, action, target, reason, key) => MutateOutcome(w.db, caller, action, target, reason, key).0
    case Adjust(caller, c, key) => AdjustOutcome(w.db, caller, c, key).0
    case Reverse(caller, original, note, key) => ReverseOutcome(w.db, caller, original, note, key).0
    case RenameTo(u, name) => RenameOutcome(w.db, u, name, w.now).0
    case Verify(c, code, drawn, draws, units) => VerifyOutcome(w.db, c, code, drawn, draws, units, w.now).0
    case SendLogin(c, email, mode, invitation, code, maxCodes, expiresAt) =>
      SendAuthCode(w.db, c, email, mode, invitation, code, maxCodes, expiresAt, w.now)
    case SendClosure(c, u, email, code, maxCodes, expiresAt) =>
        SendClosureCode(w.db, c, u, email, code, maxCodes, expiresAt)
    case Mailed(c, sent) => Delivered(w.db, c, sent)
    case Invite(i, expiresAt) => w.db.(invitations := w.db.invitations[i := Invitation(expiresAt, None, None)])
    case Disinvite(i) => Withdrawn(w.db, i, w.now)
    case Tick(_) => w.db
  }

  function Times(claims: map<Id, nat>, t: Id): nat {
    if t in claims then claims[t] else 0
  }

  function Counted(claims: map<Id, nat>, trips: map<Id, Trip>, ids: set<Id>): map<Id, nat> {
    map t | t in trips :: Times(claims, t) + if t in ids then 1 else 0
  }

  /** What is remembered of a step. */
  function Remember(w: World, op: Op): Past {
    match op
    case Reserve(r, ids, window) =>
      if ReserveOutcome(w.db, r, ids.trip, ids.entry, window, w.now).1.Reserved?
      then w.past.(born := w.past.born[ids.trip := r]) else w.past
    case Claim(order, limit) =>
      w.past.(claims := Counted(w.past.claims, w.db.trips,
          Elements(Claimable(w.db.trips, order, w.maxAttempts, limit))))
    case Mutate(caller, action, target, reason, key) =>
      if MutateOutcome(w.db, caller, action, target, reason, key).1.Done?
      then w.past.(effects := w.past.effects + [KeyOf(caller.actor, key)]) else w.past
    case Adjust(caller, c, key) =>
      if AdjustOutcome(w.db, caller, c, key).1.Done?
      then w.past.(effects := w.past.effects + [KeyOf(caller.actor, key)]) else w.past
    case Reverse(caller, original, note, key) =>
      if ReverseOutcome(w.db, caller, original, note, key).1.Done?
      then w.past.(effects := w.past.effects + [KeyOf(caller.actor, key)]) else w.past
    case RenameTo(u, name) =>
      if RenameOutcome(w.db, u, name, w.now).1 == Renamed then w.past.(renames := w.past.renames + [Rename(u, w.now)])
        else w.past
    case Verify(c, code, drawn, draws, units) =>
      (match VerifyOutcome(w.db, c, code, drawn, draws, units, w.now).1
       case LoggedIn(_) => w.past.(openings := w.past.openings + [c])
       case Registered(u) =>
         w.past.(openings := w.past.openings + [c], users := w.past.users + {u},
                 registrations := w.past.registrations + InvitationOf(w.db, c, u))
       case _ => w.past)
    case SendLogin(c, _, _, _, _, _, _) => w.past.(challenges := w.past.challenges + {c})
    case SendClosure(c, _, _, _, _, _) => w.past.(challenges := w.past.challenges + {c})
    case _ => w.past
  }

  function InvitationOf(db: Db, c: Id, u: Id): seq<Registration> {
    if c in db.challenges && db.challenges[c].invitation.Some? then [Registration(db.challenges[c].invitation.value,
        u)] else []
  }

  function Next(w: World, op: Op): World {
    World(After(w, op), if op.Post? then Create(w.jobs, op.trip, op.fate).0 else w.jobs,
          if op.Tick? then w.now + op.passed else w.now, w.maxAttempts, Remember(w, op))
  }

  function Run(w: World, ops: seq<Op>): World {
    if ops == [] then w else Next(Run(w, ops[..|ops| - 1]), ops[|ops| - 1])
  }

  ghost predicate Possible(w: World, ops: seq<Op>) {
    ops != [] ==> Possible(w, ops[..|ops| - 1]) && Enabled(Run(w, ops[..|ops| - 1]), ops[|ops| - 1])
  }

  /** A verification, by its answer. */
  lemma NextAfterVerify(w: World, op: Op)
    requires op.Verify?
    ensures var (after, answer) := VerifyOutcome(w.db, op.challenge, op.code, op.drawn, op.draws, op.units, w.now);
            var next := Next(w, op);
            && next.db == after && next.now == w.now && next.jobs == w.jobs
            && next.past == match answer
                            case LoggedIn(_) => w.past.(openings := w.past.openings + [op.challenge])
                            case Registered(u) =>
                              w.past.(openings := w.past.openings + [op.challenge],
                                  users := w.past.users + {op.drawn.user},
                                      registrations := w.past.registrations
                                        + InvitationOf(w.db, op.challenge, op.drawn.user))
                            case _ => w.past
  {
    if VerifyOutcome(w.db, op.challenge, op.code, op.drawn, op.draws, op.units, w.now).1.Registered? {
      var _ := VerifyRegisters(w.db, op.challenge, op.code, op.drawn, op.draws, op.units, w.now);
    }
  }
}
