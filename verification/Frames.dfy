/** Which tables each transaction may write. */
module Frames {
  import opened Schema
  import opened Projection
  import opened ProjectionSync
  import opened Quota
  import opened TripSubmission
  import opened AccountClosure
  import opened Admin
  import opened Profile
  import opened Auth
  import opened World

  datatype Kind =
    | Users | Quarantine | Identities | Sessions | Challenges | Invitations | Redemptions | Grants | Trips | Entries
    | Records | Adjustments | JobRows | StepRows | Events | ConsumerState | Checkpoints

  /** Tables outside `changed` are the same. */
  ghost predicate Only(a: Db, b: Db, changed: set<Kind>) {
    && (Users !in changed ==> b.users == a.users)
    && (Quarantine !in changed ==> b.quarantine == a.quarantine)
    && (Identities !in changed ==> b.identities == a.identities)
    && (Sessions !in changed ==> b.sessions == a.sessions)
    && (Challenges !in changed ==> b.challenges == a.challenges)
    && (Invitations !in changed ==> b.invitations == a.invitations)
    && (Redemptions !in changed ==> b.redemptions == a.redemptions)
    && (Grants !in changed ==> b.grants == a.grants)
    && (Trips !in changed ==> b.trips == a.trips)
    && (Entries !in changed ==> b.entries == a.entries)
    && (Records !in changed ==> b.records == a.records)
    && (Adjustments !in changed ==> b.adjustments == a.adjustments)
    && (JobRows !in changed ==> b.jobs == a.jobs)
    && (StepRows !in changed ==> b.steps == a.steps)
    && (Events !in changed ==> b.events == a.events)
    && (ConsumerState !in changed ==> b.consumer == a.consumer)
    && (Checkpoints !in changed ==> b.checkpoints == a.checkpoints)
  }

  function Touches(op: Op): set<Kind> {
    match op
    case Reserve(_, _, _) => {Trips, Entries}
    case Post(_, _) => {}
    case Accept(_, _) => {Trips, JobRows}
    case Uncertain(_) => {Trips}
    case Claim(_, _) => {Trips}
    case Settle(_, _, _) => {Trips, Entries}
    case Progress(_, _, _) => {Trips}
    case Deliver(_, _) => {JobRows, StepRows, Events, ConsumerState}
    case MergePage(_, _) => {JobRows, StepRows}
    case Beat(_) => {ConsumerState}
    case Pause => {ConsumerState}
    case Close(_, _, _) => {Users, Quarantine, Identities, Sessions, Challenges, Redemptions, Grants, Trips, Entries,
        Adjustments, JobRows}
    case Mutate(_, _, _, _, _) => {Users, Sessions, Records}
    case Adjust(_, _, _) => {Adjustments, Records}
    case Reverse(_, _, _, _) => {Adjustments, Records}
    case RenameTo(_, _) => {Users, Quarantine}
    case Verify(_, _, _, _, _) => {Users, Identities, Sessions, Challenges, Invitations, Redemptions, Grants}
    case SendLogin(_, _, _, _, _, _, _) => {Challenges}
    case SendClosure(_, _, _, _, _, _) => {Challenges}
    case Mailed(_, _) => {Challenges}
    case Invite(_, _) => {Invitations}
    case Disinvite(_) => {Invitations}
    case Tick(_) => {}
  }

  lemma KeptNames(a: Db, b: Db, changed: set<Kind>)
    requires Only(a, b, changed) && Quarantine !in changed
    ensures b.quarantine == a.quarantine
    ensures Users !in changed ==> b.users == a.users
  {
  }

  lemma KeptAccounts(a: Db, b: Db, changed: set<Kind>)
    requires Only(a, b, changed)
    requires changed !! {Users, Identities, Sessions, Challenges, Invitations, Redemptions, Grants, Adjustments}
    ensures b.users == a.users && b.identities == a.identities && b.sessions == a.sessions
            && b.challenges == a.challenges
    ensures b.invitations == a.invitations && b.redemptions == a.redemptions && b.grants == a.grants
            && b.adjustments == a.adjustments
  {
  }

  lemma Chain(a: Db, b: Db, c: Db, s: set<Kind>, t: set<Kind>)
    requires Only(a, b, s) && Only(b, c, t)
    ensures Only(a, c, s + t)
  {
  }

  lemma Same(a: Db, changed: set<Kind>)
    ensures Only(a, a, changed)
  {
  }

  predicate OfTrips(op: Op) {
    op.Reserve? || op.Accept? || op.Uncertain? || op.Claim? || op.Settle? || op.Progress? || op.Post? || op.Tick?
  }

  predicate OfProjection(op: Op) {
    op.Deliver? || op.MergePage? || op.Beat? || op.Pause?
  }

  predicate OfAdministrators(op: Op) {
    op.Mutate? || op.Adjust? || op.Reverse?
  }

  lemma StepTouches(w: World, op: Op)
    ensures Only(w.db, After(w, op), Touches(op))
  {
    if OfTrips(op) {
      TripStepTouches(w, op);
    } else if OfProjection(op) {
      ProjectionStepTouches(w, op);
    } else if OfAdministrators(op) {
      AdministratorStepTouches(w, op);
    } else {
      AccountStepTouches(w, op);
    }
  }

  lemma TripStepTouches(w: World, op: Op)
    requires OfTrips(op)
    ensures Only(w.db, After(w, op), Touches(op))
  {
    match op
    case Reserve(r, ids, window) => ReserveTouches(w.db, r, ids, window, w.now);
    case Accept(t, reported) =>
      AcceptTouches(w.db, w.jobs, t, reported, w.now);
      Same(w.db, {Trips, JobRows});
    case Uncertain(t) => UncertainTouches(w.db, t);
    case Claim(_, _) => TripsTouched(w.db, After(w, op).trips);
    case Settle(t, report, owner) => SettleTouches(w.db, t, report, owner, w.now);
    case Progress(t, status, owner) => ProgressTouches(w.db, t, status, owner, w.now);
    case _ => Same(w.db, {});
  }

  lemma ProjectionStepTouches(w: World, op: Op)
    requires OfProjection(op)
    ensures Only(w.db, After(w, op), Touches(op))
  {
    match op
    case Deliver(e, repair) => EventTouches(w.db, e, repair, w.now);
    case MergePage(entity, items) =>
      PageTouches(w.db, entity, items, w.now);
      Same(w.db, {JobRows, StepRows});
    case Beat(watermark) => BeatTouches(w.db, watermark, w.now);
    case Pause => PauseTouches(w.db);
  }

  lemma AdministratorStepTouches(w: World, op: Op)
    requires OfAdministrators(op)
    ensures Only(w.db, After(w, op), Touches(op))
  {
    match op
    case Mutate(caller, action, target, reason, key) => MutateTouches(w.db, caller, action, target, reason, key);
    case Adjust(caller, c, key) => AdjustTouches(w.db, caller, c, key);
    case Reverse(caller, original, note, key) => ReverseTouches(w.db, caller, original, note, key);
  }

  lemma AccountStepTouches(w: World, op: Op)
    requires !OfTrips(op) && !OfProjection(op) && !OfAdministrators(op)
    ensures Only(w.db, After(w, op), Touches(op))
  {
    match op
    case Close(u, c, code) => CloseTouches(w.db, u, c, code, w.now);
    case RenameTo(u, name) => RenameTouches(w.db, u, name, w.now);
    case Verify(c, code, drawn, draws, units) => VerifyTouches(w.db, c, code, drawn, draws, units, w.now);
    case SendLogin(_, _, _, _, _, _, _) => SendTouches(w, op);
    case SendClosure(_, _, _, _, _, _) => SendTouches(w, op);
    case Mailed(_, _) => SendTouches(w, op);
    case Invite(_, _) => InviteTouches(w, op);
    case Disinvite(_) => InviteTouches(w, op);
  }

  lemma ReserveTouches(db: Db, r: Request, ids: NewIds, window: Time, now: Time)
    ensures Only(db, ReserveOutcome(db, r, ids.trip, ids.entry, window, now).0, {Trips, Entries})
  {
    if ReserveRefusal(db, r).None? {
      ReserveWriteTouches(db, r, ids, window, now);
    } else {
      Same(db, {Trips, Entries});
    }
  }

  lemma ReserveWriteTouches(db: Db, r: Request, ids: NewIds, window: Time, now: Time)
    ensures Only(db, ReserveWrite(db, r, ids.trip, ids.entry, window, now), {Trips, Entries})
  {
  }

  /** A write to the trips alone. */
  lemma TripsTouched(db: Db, trips: map<Id, Trip>)
    ensures Only(db, db.(trips := trips), {Trips})
  {
  }

  lemma AcceptTouches(db: Db, jobs: Jobs, t: Id, reported: string, now: Time)
    ensures t in jobs ==> Only(db, AcceptOutcome(db, t, jobs[t], reported, now).0, {Trips, JobRows})
  {
    if t in jobs && AcceptRefusal(db, t, jobs[t]).None? {
      AcceptWriteTouches(db, t, jobs[t], reported, now);
    }
  }

  lemma AcceptWriteTouches(db: Db, t: Id, job: Id, reported: string, now: Time)
    requires t in db.trips
    ensures Only(db, AcceptWrite(db, t, job, reported, now), {Trips, JobRows})
  {
  }

  lemma UncertainTouches(db: Db, t: Id)
    ensures Only(db, UncertainWrite(db, t), {Trips})
  {
    TripsTouched(db, UncertainWrite(db, t).trips);
    Same(db, {Trips});
  }

  lemma SettleTouches(db: Db, t: Id, r: Terminal, owner: Option<Id>, now: Time)
    ensures Only(db, SettleOutcome(db, t, r, owner, now).0, {Trips, Entries})
  {
    if SettleRefusal(db, t, r, owner).None? {
      SettleWriteTouches(db, t, r, now);
    }
  }

  lemma SettleWriteTouches(db: Db, t: Id, r: Terminal, now: Time)
    requires t in db.trips && db.trips[t].entryId.Some? && db.trips[t].entryId.value in db.entries
    ensures Only(db, SettleWrite(db, t, r, now), {Trips, Entries})
  {
  }

  lemma ProgressTouches(db: Db, t: Id, status: TripStatus, owner: Option<Id>, now: Time)
    ensures Only(db, ActiveOutcome(db, t, status, owner, now).0, {Trips})
  {
    var after := ActiveOutcome(db, t, status, owner, now).0;
    TripsTouched(db, after.trips);
    assert after == db.(trips := after.trips);
  }

  lemma ProjectionsTouch(db: Db, e: Event, now: Time)
    ensures ProjectionsAfter(db, e, now).Some? ==> Only(db, ProjectionsAfter(db, e, now).value, {JobRows, StepRows})
  {
  }

  lemma RecordedTouches(db: Db, e: Event, repair: bool)
    requires db.consumer.Some?
    ensures Only(db, Recorded(db, e, repair), {Events, ConsumerState})
  {
  }

  lemma AppliedTouches(db: Db, e: Event, repair: bool, now: Time)
    requires ProjectionsAfter(db, e, now).Some? && db.consumer.Some?
    ensures Only(db, Recorded(ProjectionsAfter(db, e, now).value, e, repair),
              {JobRows, StepRows, Events, ConsumerState})
  {
    ProjectionsTouch(db, e, now);
    var after := ProjectionsAfter(db, e, now).value;
    RecordedTouches(after, e, repair);
    Chain(db, after, Recorded(after, e, repair), {JobRows, StepRows}, {Events, ConsumerState});
  }

  lemma EventTouches(db: Db, e: Event, repair: bool, now: Time)
    ensures Only(db, EventOutcome(db, e, repair, now).0, {JobRows, StepRows, Events, ConsumerState})
  {
    if EventOutcome(db, e, repair, now).1 == APPLIED {
      AppliedTouches(db, e, repair, now);
    } else {
      Same(db, {JobRows, StepRows, Events, ConsumerState});
      assert EventOutcome(db, e, repair, now).0 == db;
    }
  }

  lemma PageTouches(db: Db, entity: Entity, items: seq<Item>, now: Time)
    ensures PageAfter(db, entity, items, now).Some? ==>
              Only(db, PageAfter(db, entity, items, now).value, {JobRows, StepRows})
  {
  }

  lemma BeatTouches(db: Db, watermark: nat, now: Time)
    ensures Only(db, HeartbeatOutcome(db, watermark, now).0, {ConsumerState})
  {
    var after := HeartbeatOutcome(db, watermark, now).0;
    if after == db {
      Same(db, {ConsumerState});
    } else {
      assert Only(db, db.(consumer := after.consumer), {ConsumerState});
    }
  }

  lemma PauseTouches(db: Db)
    ensures Only(db, Paused(db), {ConsumerState})
  {
    if db.consumer.None? {
      Same(db, {ConsumerState});
    } else {
      assert Only(db, db.(consumer := Paused(db).consumer), {ConsumerState});
    }
  }

  lemma CloseTouches(db: Db, u: Id, c: Id, code: string, now: Time)
    ensures Only(db, CloseOutcome(db, u, c, code, now).0,
                 {Users, Quarantine, Identities, Sessions, Challenges, Redemptions, Grants, Trips, Entries,
                     Adjustments, JobRows})
  {
    CloseIsAllOrAttempt(db, u, c, code, now);
  }

  lemma AdjustTouches(db: Db, caller: Context, c: Change, key: Id)
    ensures Only(db, AdjustOutcome(db, caller, c, key).0, {Adjustments, Records})
  {
    AdjustCases(db, caller, c, key, Snapshot(db, c.target));
  }

  lemma ReverseTouches(db: Db, caller: Context, original: nat, note: string, key: Id)
    ensures Only(db, ReverseOutcome(db, caller, original, note, key).0, {Adjustments, Records})
  {
    var c := ReversalOf(db, original, note);
    if c.Some? {
      AdjustTouches(db, caller, c.value, key);
    }
  }

  lemma MutateWriteTouches(db: Db, action: Action, target: Id)
    requires target in db.users
    ensures Only(db, MutateWrite(db, action, target), {Users, Sessions})
  {
  }

  lemma CompletedTouches(db: Db, k: IdemKey, request: AdminRequest, response: AdminResponse)
    ensures Only(db, Admin.Completed(db, k, request, response), {Records})
  {
  }

  lemma MutateTouches(db: Db, caller: Context, action: Action, target: Id, reason: string, key: Id)
    ensures Only(db, MutateOutcome(db, caller, action, target, reason, key).0, {Users, Sessions, Records})
  {
    var (after, answer) := MutateOutcome(db, caller, action, target, reason, key);
    if answer.Done? && target in db.users {
      var written := MutateWrite(db, action, target);
      MutateWriteTouches(db, action, target);
      CompletedTouches(written, KeyOf(caller.actor, key), MutateUser(action, target, reason), answer.response);
      Chain(db, written, after, {Users, Sessions}, {Records});
    }
  }

  lemma RenameWriteTouches(db: Db, u: Id, name: Name, now: Time)
    requires u in db.users
    ensures Only(db, RenameWrite(db, u, name, now), {Users, Quarantine})
  {
  }

  lemma RenameTouches(db: Db, u: Id, name: Name, now: Time)
    ensures Only(db, RenameOutcome(db, u, name, now).0, {Users, Quarantine})
  {
    if RenameRefusal(db, u, name, now).None? {
      RenameWriteTouches(db, u, name, now);
    } else {
      Same(db, {Users, Quarantine});
    }
  }

  lemma ConsumeTouches(db: Db, c: Id, now: Time)
    requires c in db.challenges
    ensures Only(db, Consume(db, c, now), {Challenges}) && Only(db, Auth.WrongCode(db, c), {Challenges})
  {
  }

  lemma OpenTouches(db: Db, session: Id, u: Id)
    ensures Only(db, OpenSession(db, session, u), {Sessions})
  {
  }

  lemma WelcomeTouches(db: Db, challenge: Challenge, drawn: Drawn, name: string, units: nat, now: Time)
    requires challenge.invitation.Some? && challenge.invitation.value in db.invitations
    ensures Only(db, Welcome(db, challenge, drawn, name, units, now),
              {Users, Identities, Sessions, Invitations, Redemptions, Grants})
  {
    var created := CreateUser(db, drawn, name, challenge.email, challenge.invitation.value, units, now);
    CreateTouches(db, drawn, name, challenge.email, challenge.invitation.value, units, now);
    OpenTouches(created, drawn.session, drawn.user);
    Chain(db, created, Welcome(db, challenge, drawn, name, units, now),
          {Users, Identities, Invitations, Redemptions, Grants}, {Sessions});
  }

  lemma CreateTouches(db: Db, drawn: Drawn, name: string, email: string, invitation: Id, units: nat, now: Time)
    requires invitation in db.invitations
    ensures Only(db, CreateUser(db, drawn, name, email, invitation, units, now),
              {Users, Identities, Invitations, Redemptions, Grants})
  {
  }

  lemma LoginTouches(db: Db, c: Id, drawn: Drawn, u: Id, now: Time)
    requires c in db.challenges
    ensures Only(db, OpenSession(Consume(db, c, now), drawn.session, u), {Challenges, Sessions})
  {
    ConsumeTouches(db, c, now);
    OpenTouches(Consume(db, c, now), drawn.session, u);
    Chain(db, Consume(db, c, now), OpenSession(Consume(db, c, now), drawn.session, u), {Challenges}, {Sessions});
  }

  lemma RegistrationTouches(db: Db, c: Id, drawn: Drawn, name: string, units: nat, now: Time)
    requires c in db.challenges && db.challenges[c].invitation.Some?
             && db.challenges[c].invitation.value in db.invitations
    ensures Only(db, Welcome(Consume(db, c, now), db.challenges[c], drawn, name, units, now),
                 {Users, Identities, Sessions, Challenges, Invitations, Redemptions, Grants})
  {
    ConsumeTouches(db, c, now);
    WelcomeTouches(Consume(db, c, now), db.challenges[c], drawn, name, units, now);
    Chain(db, Consume(db, c, now), Welcome(Consume(db, c, now), db.challenges[c], drawn, name, units, now),
          {Challenges}, {Users, Identities, Sessions, Invitations, Redemptions, Grants});
  }

  lemma FailureTouches(db: Db, c: Id, code: string, drawn: Drawn, draws: seq<string>, units: nat, now: Time)
    requires !VerifyOutcome(db, c, code, drawn, draws, units, now).1.LoggedIn?
    requires !VerifyOutcome(db, c, code, drawn, draws, units, now).1.Registered?
    ensures Only(db, VerifyOutcome(db, c, code, drawn, draws, units, now).0, {Challenges})
  {
    var after := VerifyOutcome(db, c, code, drawn, draws, units, now).0;
    VerifyFails(db, c, code, drawn, draws, units, now);
    if after == db {
      Same(db, {Challenges});
    } else {
      ConsumeTouches(db, c, now);
    }
  }

  lemma VerifyTouches(db: Db, c: Id, code: string, drawn: Drawn, draws: seq<string>, units: nat, now: Time)
    ensures Only(db, VerifyOutcome(db, c, code, drawn, draws, units, now).0,
                 {Users, Identities, Sessions, Challenges, Invitations, Redemptions, Grants})
  {
    var (after, answer) := VerifyOutcome(db, c, code, drawn, draws, units, now);
    if answer.LoggedIn? {
      VerifyLogsIn(db, c, code, drawn, draws, units, now);
      LoginTouches(db, c, drawn, answer.user, now);
    } else if answer.Registered? {
      var name := VerifyRegisters(db, c, code, drawn, draws, units, now);
      RegistrationTouches(db, c, drawn, name, units, now);
    } else {
      FailureTouches(db, c, code, drawn, draws, units, now);
    }
  }

  lemma SendAuthTouches(
    db: Db, c: Id, email: string, mode: Mode, invitation: Option<Id>, code: string, maxCodes: nat,
    expiresAt: Time, now: Time)
    ensures Only(db, SendAuthCode(db, c, email, mode, invitation, code, maxCodes, expiresAt, now), {Challenges})
  {
  }

  lemma SendClosureTouches(db: Db, c: Id, u: Id, email: string, code: string, maxCodes: nat, expiresAt: Time)
    ensures Only(db, SendClosureCode(db, c, u, email, code, maxCodes, expiresAt), {Challenges})
  {
  }

  lemma DeliveredTouches(db: Db, c: Id, sent: bool)
    ensures Only(db, Delivered(db, c, sent), {Challenges})
  {
  }

  lemma InvitationsTouched(db: Db, invitations: map<Id, Invitation>)
    ensures Only(db, db.(invitations := invitations), {Invitations})
  {
  }

  lemma SendTouches(w: World, op: Op)
    requires op.SendLogin? || op.SendClosure? || op.Mailed?
    ensures Only(w.db, After(w, op), {Challenges})
  {
    if op.SendLogin? {
      LoginCodeTouches(w, op);
    } else {
      ClosureCodeTouches(w, op);
    }
  }

  lemma LoginCodeTouches(w: World, op: Op)
    requires op.SendLogin?
    ensures Only(w.db, After(w, op), {Challenges})
  {
    SendAuthTouches(w.db, op.challenge, op.email, op.mode, op.invitedBy, op.code, op.maxCodes, op.expiresAt, w.now);
  }

  lemma ClosureCodeTouches(w: World, op: Op)
    requires op.SendClosure? || op.Mailed?
    ensures Only(w.db, After(w, op), {Challenges})
  {
    match op
    case SendClosure(c, u, email, code, maxCodes, expiresAt) =>
      SendClosureTouches(w.db, c, u, email, code, maxCodes, expiresAt);
    case Mailed(c, sent) => DeliveredTouches(w.db, c, sent);
  }

  lemma InviteTouches(w: World, op: Op)
    requires op.Invite? || op.Disinvite?
    ensures Only(w.db, After(w, op), {Invitations})
  {
    match op
    case Invite(i, until) => InvitationsTouched(w.db, w.db.invitations[i := Invitation(until, None, None)]);
    case Disinvite(i) => InvitationsTouched(w.db, Withdrawn(w.db, i, w.now).invitations);
  }
}
