/** What the operations on accounts answer, and what they leave in the rows, written out on the tables. */
module AccountOutcomes {
  import opened Schema
  import opened Quota
  import opened AccountClosure
  import opened Admin
  import opened Profile
  import opened Auth

  // ---- Closure -------------------------------------------------------------------------------

  /** A code was sent for closing this account, and it may still be tried. */
  ghost predicate CodePending(db: Db, u: Id, c: Id, now: Time) {
    && u in db.users && u in db.identities && c in db.challenges
    && var challenge := db.challenges[c];
       && challenge.purpose == Purpose.AccountClosure && challenge.mode == Closure && challenge.user == Some(u)
       && challenge.email == db.identities[u] && challenge.delivery == Sent && challenge.consumedAt == None
       && now < challenge.expiresAt && challenge.attempts < challenge.maxAttempts
  }

  ghost predicate SomeTripActive(trips: map<Id, Trip>, u: Id) {
    exists t :: t in trips && trips[t].owner == Some(u) && trips[t].status in {SUBMITTING, PENDING, RUNNING}
  }

  /** An account is closed if and only if its pending code is presented while no trip is under way. */
  lemma ClosedExactly(db: Db, u: Id, c: Id, code: string, now: Time)
    ensures var answer := CloseOutcome(db, u, c, code, now).1;
            && (answer == Closed <==>
                  CodePending(db, u, c, now) && code == db.challenges[c].code && !SomeTripActive(db.trips, u))
            && (answer == ActiveTripInProgress <==>
                  CodePending(db, u, c, now) && code == db.challenges[c].code && SomeTripActive(db.trips, u))
  {
    assert SomeTripActive(db.trips, u) <==> ActiveTrips(db.trips, u) != {} by {
      if t :| t in db.trips && db.trips[t].owner == Some(u) && db.trips[t].status in {SUBMITTING, PENDING, RUNNING} {
        assert t in ActiveTrips(db.trips, u);
      }
      if t :| t in ActiveTrips(db.trips, u) {
        assert t in db.trips && db.trips[t].status in {SUBMITTING, PENDING, RUNNING};
      }
    }
  }

  /** A wrong code for a pending closure counts one attempt, and changes nothing else. */
  lemma WrongClosureCode(db: Db, u: Id, c: Id, code: string, now: Time)
    requires CodePending(db, u, c, now) && code != db.challenges[c].code
    ensures var (after, answer) := CloseOutcome(db, u, c, code, now);
            && after == db.(challenges := db.challenges[c := db.challenges[c].(attempts := db.challenges[c].attempts
                + 1)])
            && answer == if db.challenges[c].attempts + 1
                == db.challenges[c].maxAttempts then CloseAnswer.OtpAttemptsExceeded else CloseAnswer.OtpInvalid
  {
  }

  /** Without a pending code nothing changes, and a code that was pending once gets its own answer. */
  lemma NoClosureCode(db: Db, u: Id, c: Id, code: string, now: Time)
    requires !CodePending(db, u, c, now)
    ensures var (after, answer) := CloseOutcome(db, u, c, code, now);
            && after == db
            && (answer == NoSuchUser <==> u !in db.users)
            && (answer in {CloseAnswer.OtpUsed, CloseAnswer.OtpExpired, CloseAnswer.OtpAttemptsExceeded}
                <==> SentForClosure(db, u, c))
            && (answer == CloseAnswer.OtpUsed <==> SentForClosure(db, u, c) && db.challenges[c].consumedAt.Some?)
            && (answer == CloseAnswer.OtpExpired <==>
                  SentForClosure(db, u, c) && db.challenges[c].consumedAt == None && db.challenges[c].expiresAt <= now)
  {
  }

  ghost predicate SentForClosure(db: Db, u: Id, c: Id) {
    && u in db.users && u in db.identities && c in db.challenges
    && var challenge := db.challenges[c];
       && challenge.purpose == Purpose.AccountClosure && challenge.mode == Closure && challenge.user == Some(u)
       && challenge.email == db.identities[u] && challenge.delivery == Sent
  }

  /** A closure removes the rows of its account and leaves all other accounts' rows as they were. */
  lemma ClosureKeepsOthers(db: Db, u: Id, c: Id, code: string, now: Time)
    requires CloseOutcome(db, u, c, code, now).1 == Closed
    ensures var after := CloseOutcome(db, u, c, code, now).0;
            && after.users == db.users - {u} && after.identities == db.identities - {u}
            && (forall s :: s in after.sessions <==> s in db.sessions && db.sessions[s].user != u)
            && (forall s | s in after.sessions :: after.sessions[s] == db.sessions[s])
            && (forall g :: g in after.grants <==> g in db.grants && db.grants[g].user != u)
            && (forall g | g in after.grants :: after.grants[g] == db.grants[g])
            && (forall e :: e in after.entries <==> e in db.entries && db.entries[e].user != u)
            && (forall e | e in after.entries :: after.entries[e] == db.entries[e])
            && (forall i :: i in after.redemptions <==> i in db.redemptions && db.redemptions[i] != u)
            && (forall i | i in after.redemptions :: after.redemptions[i] == db.redemptions[i])
  {
    CloseIsAllOrAttempt(db, u, c, code, now);
  }

  /** Challenges go with the account or its email; a name goes into quarantine; what is nobody's stays. */
  lemma ClosureLeaves(db: Db, u: Id, c: Id, code: string, now: Time)
    requires CloseOutcome(db, u, c, code, now).1 == Closed
    ensures var after := CloseOutcome(db, u, c, code, now).0;
            && (forall k :: k in after.challenges <==>
                  k in db.challenges && db.challenges[k].user != Some(u) && db.challenges[k].email != db.identities[u])
            && (forall k | k in after.challenges :: after.challenges[k] == db.challenges[k])
            && after.quarantine == db.quarantine[db.users[u].nameKey := now + 15 * DAY]
            && after.invitations == db.invitations && after.records == db.records && after.steps == db.steps
            && after.events == db.events && after.consumer == db.consumer && after.checkpoints == db.checkpoints
  {
    CloseIsAllOrAttempt(db, u, c, code, now);
  }

  /** The account's trips and their rows lose their owner for good; its adjustments lose its name alone. */
  lemma ClosureErases(db: Db, u: Id, c: Id, code: string, now: Time)
    requires CloseOutcome(db, u, c, code, now).1 == Closed
    ensures var after := CloseOutcome(db, u, c, code, now).0;
            && after.trips.Keys == db.trips.Keys
            && (forall t | t in db.trips ::
                  after.trips[t] == if db.trips[t].owner != Some(u) then db.trips[t]
                                    else db.trips[t].(owner := None, entryId := None, request := Erased(t),
                                           erasedAt := Some(now), archivedAt := Some(now),
                                           assocVersion := db.trips[t].assocVersion + 1))
            && |after.adjustments| == |db.adjustments|
            && forall i | 0 <= i < |db.adjustments| ::
                 after.adjustments[i] == db.adjustments[i].(
                   target := if db.adjustments[i].target == Some(u) then None else db.adjustments[i].target,
                   actor := if db.adjustments[i].actor == Some(u) then None else db.adjustments[i].actor)
  {
    CloseIsAllOrAttempt(db, u, c, code, now);
    CloseWriteTables(db, u, now);
  }

  lemma ClosureUnlinks(db: Db, u: Id, c: Id, code: string, now: Time, t: Id, j: Id)
    requires CloseOutcome(db, u, c, code, now).1 == Closed && UniqueJobs(db.trips)
    requires t in db.trips && db.trips[t].jobId == Some(j) && j in db.jobs
    ensures var after, row := CloseOutcome(db, u, c, code, now).0, db.jobs[j];
            && after.jobs.Keys == db.jobs.Keys
            && after.jobs[j] == if db.trips[t].owner != Some(u) then row
                 else row.(association := Deidentified, tripId := None, userId := None, syncedAt := now,
                           erasedAt := if row.erasedAt.Some? then row.erasedAt else Some(now),
                           assocVersion := if row.assocVersion <= db.trips[t].assocVersion
                                           then db.trips[t].assocVersion + 1 else row.assocVersion)
  {
    CloseIsAllOrAttempt(db, u, c, code, now);
    CloseWriteTables(db, u, now);
  }

  // ---- Codes ---------------------------------------------------------------------------------

  ghost predicate SentForAuth(db: Db, c: Id) {
    c in db.challenges && db.challenges[c].purpose == EmailAuth && db.challenges[c].delivery == Sent
  }

  /** A code that may still be tried. */
  ghost predicate CodeOpen(db: Db, c: Id, now: Time) {
    && SentForAuth(db, c) && db.challenges[c].consumedAt == None && now < db.challenges[c].expiresAt
    && db.challenges[c].attempts < db.challenges[c].maxAttempts
  }

  lemma CodeNotOpen(db: Db, c: Id, code: string, drawn: Drawn, draws: seq<string>, units: nat, now: Time)
    requires !CodeOpen(db, c, now)
    ensures var (after, answer) := VerifyOutcome(db, c, code, drawn, draws, units, now);
            && after == db
            && answer == if !SentForAuth(db, c) then VerifyAnswer.OtpInvalid
                         else if db.challenges[c].consumedAt.Some? then VerifyAnswer.OtpUsed
                         else if db.challenges[c].expiresAt <= now then VerifyAnswer.OtpExpired
                         else VerifyAnswer.OtpAttemptsExceeded
  {
  }

  lemma WrongAuthCode(db: Db, c: Id, code: string, drawn: Drawn, draws: seq<string>, units: nat, now: Time)
    requires CodeOpen(db, c, now) && code != db.challenges[c].code
    ensures var (after, answer) := VerifyOutcome(db, c, code, drawn, draws, units, now);
            && after == db.(challenges := db.challenges[c := db.challenges[c].(attempts := db.challenges[c].attempts
                + 1)])
            && answer == if db.challenges[c].attempts + 1
                == db.challenges[c].maxAttempts then VerifyAnswer.OtpAttemptsExceeded
                         else VerifyAnswer.OtpInvalid
  {
  }

  ghost predicate HasEmail(db: Db, u: Id, email: string) {
    u in db.identities && db.identities[u] == email
  }

  ghost predicate EmailsUnique(db: Db) {
    forall u, v | u in db.identities && v in db.identities && db.identities[u] == db.identities[v] :: u == v
  }

  lemma WhoseEmail(db: Db, email: string)
    ensures IdentityOf(db, email).None? <==> forall u :: !HasEmail(db, u, email)
    ensures IdentityOf(db, email).Some? ==> HasEmail(db, IdentityOf(db, email).value, email)
    ensures EmailsUnique(db) ==> forall u: Id | HasEmail(db, u, email) :: IdentityOf(db, email) == Some(u)
  {
    var owners := set u | u in db.identities && db.identities[u] == email;
    assert IdentityOf(db, email) == First(owners);
    assert forall u :: HasEmail(db, u, email) <==> u in owners;
  }

  /** Everything but the challenge, which is spent, and one new session of the user. */
  ghost predicate SignedIn(db: Db, after: Db, c: Id, session: Id, u: Id, now: Time) {
    && c in db.challenges
    && after.challenges == db.challenges[c := db.challenges[c].(consumedAt := Some(now))]
    && after.sessions == db.sessions[session := Session(u, false)]
    && after == db.(challenges := after.challenges, sessions := after.sessions)
  }

  ghost predicate Spent(db: Db, after: Db, c: Id, now: Time) {
    && c in db.challenges
    && after == db.(challenges := db.challenges[c := db.challenges[c].(consumedAt := Some(now))])
  }

  /** The right code logs in whoever owns the challenge's email, if that is an active user. */
  lemma LoginAnswers(db: Db, c: Id, drawn: Drawn, draws: seq<string>, units: nat, now: Time, u: Id)
    requires CodeOpen(db, c, now) && db.challenges[c].mode == Login && EmailsUnique(db)
    ensures var (after, answer) := VerifyOutcome(db, c, db.challenges[c].code, drawn, draws, units, now);
            var email := db.challenges[c].email;
            && (answer == RegistrationRequired <==> forall v :: !HasEmail(db, v, email))
            && (answer == LoggedIn(u) <==> HasEmail(db, u, email) && u in db.users && db.users[u].status == Active)
            && (answer == LoggedIn(u) ==> SignedIn(db, after, c, drawn.session, u, now))
            && (HasEmail(db, u, email) && answer != LoggedIn(u) ==> answer == NotAuthorized)
            && (!answer.LoggedIn? ==> Spent(db, after, c, now))
  {
    WhoseEmail(db, db.challenges[c].email);
  }

  ghost predicate NameIsFree(db: Db, name: string, now: Time) {
    && (forall v | v in db.users :: db.users[v].nameKey != name)
    && (name in db.quarantine ==> db.quarantine[name] <= now)
  }

  ghost predicate InvitationOpen(db: Db, invitation: Option<Id>, now: Time) {
    && invitation.Some? && invitation.value in db.invitations
    && db.invitations[invitation.value].disabledAt == None && db.invitations[invitation.value].redeemedAt == None
    && (db.invitations[invitation.value].expiresAt.Some? ==> now < db.invitations[invitation.value].expiresAt.value)
  }

  /** One of the first draws is free. */
  ghost predicate SomeDrawFree(db: Db, draws: seq<string>, attempts: nat, now: Time) {
    exists i :: 0 <= i < |draws| && i < attempts && NameIsFree(db, draws[i], now)
  }

  lemma {:induction false} DefaultNameExactly(db: Db, draws: seq<string>, attempts: nat, now: Time)
    ensures DefaultName(db, draws, attempts, now).Some? <==> SomeDrawFree(db, draws, attempts, now)
    decreases attempts
  {
    if attempts > 0 && draws != [] {
      FreeIsFree(db, draws[0], now);
      if !NameFree(db, draws[0], now) {
        DefaultNameExactly(db, draws[1..], attempts - 1, now);
        if i :| 0 <= i < |draws| && i < attempts && NameIsFree(db, draws[i], now) {
          assert draws[1..][i - 1] == draws[i];
        }
        if i :| 0 <= i < |draws[1..]| && i < attempts - 1 && NameIsFree(db, draws[1..][i], now) {
          assert draws[i + 1] == draws[1..][i];
        }
      }
    }
  }

  /** And the first free draw is the one. */
  lemma {:induction false} FirstFreeDraw(db: Db, draws: seq<string>, attempts: nat, now: Time, i: nat)
    requires i < |draws| && i < attempts && NameIsFree(db, draws[i], now)
    requires forall k | 0 <= k < i :: !NameIsFree(db, draws[k], now)
    ensures DefaultName(db, draws, attempts, now) == Some(draws[i])
    decreases attempts
  {
    FreeIsFree(db, draws[0], now);
    if i > 0 {
      FirstFreeDraw(db, draws[1..], attempts - 1, now, i - 1);
    }
  }

  lemma FreeIsFree(db: Db, name: string, now: Time)
    ensures NameFree(db, name, now) <==> NameIsFree(db, name, now)
  {
  }

  /** The right code registers a new email on an open invitation, if a default name can be found. */
  lemma RegistrationAnswers(db: Db, c: Id, drawn: Drawn, draws: seq<string>, units: nat, now: Time)
    requires CodeOpen(db, c, now) && db.challenges[c].mode != Login
    ensures var (after, answer) := VerifyOutcome(db, c, db.challenges[c].code, drawn, draws, units, now);
            var challenge := db.challenges[c];
            && (answer == LoginRequired <==> exists v :: HasEmail(db, v, challenge.email))
            && (answer == InvitationInvalid <==>
                  (forall v :: !HasEmail(db, v, challenge.email)) && !InvitationOpen(db, challenge.invitation, now))
            && (answer == Registered(drawn.user) <==>
                  && (forall v :: !HasEmail(db, v, challenge.email)) && InvitationOpen(db, challenge.invitation, now)
                  && SomeDrawFree(db, draws, 32, now))
            && (answer in {LoginRequired, InvitationInvalid} ==> Spent(db, after, c, now))
            && (answer == NoDefaultName ==> after == db)
  {
    WhoseEmail(db, db.challenges[c].email);
    DefaultNameExactly(db, draws, 32, now);
    SameNames(db, Consume(db, c, now), draws, now);
  }

  lemma {:induction false} SameDefaultName(a: Db, b: Db, draws: seq<string>, attempts: nat, now: Time)
    requires a.users == b.users && a.quarantine == b.quarantine
    ensures DefaultName(a, draws, attempts, now) == DefaultName(b, draws, attempts, now)
    decreases attempts
  {
    if attempts > 0 && draws != [] {
      SameDefaultName(a, b, draws[1..], attempts - 1, now);
    }
  }

  lemma SameNames(a: Db, b: Db, draws: seq<string>, now: Time)
    requires a.users == b.users && a.quarantine == b.quarantine
    ensures DefaultName(a, draws, 32, now) == DefaultName(b, draws, 32, now)
  {
    SameDefaultName(a, b, draws, 32, now);
  }

  /** A registration adds one active member with a name, the email, the initial units and a session. */
  lemma RegisteredRows(db: Db, c: Id, code: string, drawn: Drawn, draws: seq<string>, units: nat, now: Time)
    requires VerifyOutcome(db, c, code, drawn, draws, units, now).1 == Registered(drawn.user)
    ensures var after, u := VerifyOutcome(db, c, code, drawn, draws, units, now).0, drawn.user;
            && u in after.users && after.users == db.users[u := after.users[u]]
            && after.users[u].status == Active && after.users[u].role == Member && after.users[u].nameChangedAt == None
            && NameIsFree(db, after.users[u].nameKey, now) && after.users[u].displayName == after.users[u].nameKey
            && after.identities == db.identities[u := db.challenges[c].email]
            && after.sessions == db.sessions[drawn.session := Session(u, false)]
            && after.grants == db.grants[drawn.grant := Grant(u, units)]
            && after.challenges == db.challenges[c := db.challenges[c].(consumedAt := Some(now))]
  {
    var name := VerifyRegisters(db, c, code, drawn, draws, units, now);
    FreeIsFree(db, name, now);
  }

  // ---- Renaming ------------------------------------------------------------------------------

  ghost predicate CoolingDown(user: User, now: Time) {
    user.nameChangedAt.Some? && now < user.nameChangedAt.value + 7 * DAY
  }

  ghost predicate MayTake(db: Db, u: Id, key: string, now: Time)
    requires u in db.users
  {
    key == db.users[u].nameKey || NameIsFree(db, key, now)
  }

  /** Each answer of a rename, and the rows it leaves. */
  lemma RenameAnswers(db: Db, u: Id, name: Name, now: Time)
    ensures var answer := RenameOutcome(db, u, name, now).1;
            if u !in db.users || db.users[u].status != Active then answer == AuthRequired
            else if db.users[u].displayName == name.presentation then answer == Unchanged
            else if CoolingDown(db.users[u], now) then answer == Cooldown
            else answer == if MayTake(db, u, name.key, now) then Renamed else Unavailable
  {
    FreeIsFree(db, name.key, now);
  }

  lemma RenamedRows(db: Db, u: Id, name: Name, now: Time)
    ensures var (after, answer) := RenameOutcome(db, u, name, now);
            if answer == Renamed then
              && u in db.users
              && after.users == db.users[u := db.users[u].(displayName := name.presentation, nameKey := name.key,
                                                           nameChangedAt := Some(now))]
              && after.quarantine == (if name.key == db.users[u].nameKey then db.quarantine
                                      else db.quarantine[db.users[u].nameKey := now + 15 * DAY])
              && after == db.(users := after.users, quarantine := after.quarantine)
            else after == db
  {
  }

  // ---- Administrators ------------------------------------------------------------------------

  /** The owner may act on anybody; another administrator on members other than the owner and itself. */
  ghost predicate MayActOn(db: Db, caller: Context, target: Id)
    requires target in db.users
  {
    caller.isOwner
    || (target != caller.actor && db.users[target].role != Administrator && caller.owner != Some(target))
  }

  ghost predicate KeyUnused(db: Db, caller: Context, key: Id) {
    IdemKey(caller.actor, key) !in db.records
  }

  /** The reversed adjustment exists, is the target's, was not reversed before, and has the opposite amount. */
  ghost predicate Reversible(adjustments: seq<Adjustment>, c: Change) {
    c.reverses.Some? ==>
      && c.reverses.value < |adjustments| && adjustments[c.reverses.value].target == Some(c.target)
      && adjustments[c.reverses.value].delta == -c.delta
      && forall i | 0 <= i < |adjustments| :: adjustments[i].reverses != c.reverses
  }

  /** An adjustment is made if and only if its key is unused, its caller may act on the target, and it fits. */
  lemma AdjustedExactly(db: Db, caller: Context, c: Change, key: Id, read: QuotaSnapshot)
    ensures AdjustWith(db, caller, c, key, read).1.Done?
       <==> && KeyUnused(db, caller, key) && c.target in db.users && MayActOn(db, caller, c.target)
            && read.Remaining() + c.delta >= 0 && c.delta != 0 && Reversible(db.adjustments, c)
    ensures KeyUnused(db, caller, key) && c.target !in db.users ==>
              AdjustWith(db, caller, c, key, read) == (db, NotFound)
    ensures KeyUnused(db, caller, key) && c.target in db.users && !MayActOn(db, caller, c.target) ==>
              AdjustWith(db, caller, c, key, read) == (db, Forbidden)
    ensures KeyUnused(db, caller, key) && c.target in db.users && MayActOn(db, caller, c.target)
            && read.Remaining() + c.delta < 0 ==>
              AdjustWith(db, caller, c, key, read) == (db, BalanceInsufficient)
  {
  }

  /** So is a reversal, on the account of its original. */
  lemma ReversedExactly(db: Db, caller: Context, original: nat, note: string, key: Id)
    ensures ReverseOutcome(db, caller, original, note, key).1.Done?
       <==> && original < |db.adjustments| && db.adjustments[original].target.Some?
            && var u, delta := db.adjustments[original].target.value, db.adjustments[original].delta;
               && KeyUnused(db, caller, key) && u in db.users && MayActOn(db, caller, u)
               && Snapshot(db, u).Remaining() >= delta && delta != 0
               && forall i | 0 <= i < |db.adjustments| :: db.adjustments[i].reverses != Some(original)
  {
    var c := ReversalOf(db, original, note);
    if c.Some? {
      AdjustedExactly(db, caller, c.value, key, Snapshot(db, c.value.target));
    }
  }

  /** The new adjustment's row, and the record of its key. */
  lemma AdjustedRows(db: Db, caller: Context, c: Change, key: Id, read: QuotaSnapshot)
    requires AdjustWith(db, caller, c, key, read).1.Done?
    ensures var (after, answer) := AdjustWith(db, caller, c, key, read);
            var n := |db.adjustments|;
            && after == db.(adjustments := after.adjustments, records := after.records)
            && |after.adjustments| == n + 1 && after.adjustments[..n] == db.adjustments
            && var row := after.adjustments[n];
               && row.target == Some(c.target) && row.actor == Some(caller.actor) && row.delta == c.delta
               && row.before == read.Remaining() && row.after == read.Remaining() + c.delta
               && row.reverses == c.reverses
               && row.key == IdemKey(caller.actor, key)
               && answer.response == AdjustmentView(n, c.target, c.delta, row.before, row.after)
  {
    AdjustCases(db, caller, c, key, read);
    AdjustWriteTables(db, caller, c, key, read);
  }

  /** A mutation is made if and only if its key is unused and its caller may do this to the target. */
  lemma MutatedExactly(db: Db, caller: Context, action: Action, target: Id, reason: string, key: Id)
    requires KeyUnused(db, caller, key)
    ensures var (after, answer) := MutateOutcome(db, caller, action, target, reason, key);
            && (target !in db.users ==> answer == NotFound)
            && (target in db.users && action in {GrantAdmin, RevokeAdmin} && !caller.isOwner ==>
                answer == OwnerRequired)
            && (target in db.users && action == DisableUser && caller.isOwner && caller.owner == Some(target) ==>
                  answer == LastOwnerProtected)
            && (target in db.users && action in {DisableUser, RestoreUser} && !MayActOn(db, caller, target) ==>
                  answer == Forbidden)
            && (answer.Done? <==>
                  && target in db.users && MayActOn(db, caller, target)
                  && (action in {GrantAdmin, RevokeAdmin} ==> caller.isOwner)
                  && !(action == DisableUser && caller.isOwner && caller.owner == Some(target)))
            && (!answer.Done? ==> after == db)
  {
  }

  /** The user's row after each action; sessions are dealt with separately. */
  lemma MutatedRow(db: Db, caller: Context, action: Action, target: Id, reason: string, key: Id)
    requires MutateOutcome(db, caller, action, target, reason, key).1.Done?
    ensures var (after, answer) := MutateOutcome(db, caller, action, target, reason, key);
            && after == db.(users := after.users, sessions := after.sessions, records := after.records)
            && target in db.users && target in after.users && after.users == db.users[target := after.users[target]]
            && var user, row := db.users[target], after.users[target];
               && (action == DisableUser ==> row == user.(status := Disabled))
               && (action == RestoreUser ==> row == user.(status := Active))
               && (action == GrantAdmin ==> row == user.(role := Administrator))
               && (action == RevokeAdmin ==> row == user.(role := Member))
               && answer.response == UserView(target, row.status, row.role)
  {
    MutationRevokesSessions(db, caller, action, target, reason, key);
  }
}
