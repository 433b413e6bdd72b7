/**
  Accounts over whole runs: every reference to a user is to an existing one, an invitation registers
  one user, a challenge opens one session, and wrong codes are bounded.
  */
module Accounts {
  import opened Schema
  import opened Quota
  import opened Profile
  import opened AccountClosure
  import opened Admin
  import opened Auth
  import opened World
  import opened Frames

  /** Every reference to a user outside the trips and their projection. */
  ghost predicate RefsOk(users: set<Id>, identities: map<Id, string>, sessions: map<Id, Session>,
      grants: map<Id, Grant>,
                         redemptions: map<Id, Id>, challenges: map<Id, Challenge>, adjustments: seq<Adjustment>) {
    && identities.Keys == users
    && (forall s | s in sessions :: sessions[s].user in users)
    && (forall g | g in grants :: grants[g].user in users)
    && (forall i | i in redemptions :: redemptions[i] in users)
    && (forall c | c in challenges && challenges[c].user.Some? :: challenges[c].user.value in users)
    && (forall i | 0 <= i < |adjustments| && adjustments[i].target.Some? :: adjustments[i].target.value in users)
  }

  ghost predicate DbRefsOk(db: Db) {
    RefsOk(db.users.Keys, db.identities, db.sessions, db.grants, db.redemptions, db.challenges, db.adjustments)
  }

  /** One initial grant and one verified email each. */
  ghost predicate UsersOk(users: set<Id>, grants: map<Id, Grant>, identities: map<Id, string>) {
    && (forall g, h | g in grants && h in grants && grants[g].user == grants[h].user :: g == h)
    && (forall u | u in users :: exists g :: g in grants && grants[g].user == u)
    && (forall u, v | u in identities && v in identities && identities[u] == identities[v] :: u == v)
  }

  /** An invitation that has registered somebody is spent, and no two registrations share one. */
  ghost predicate RegistrationsOk(invitations: map<Id, Invitation>, registrations: seq<Registration>) {
    && (forall i | 0 <= i < |registrations| ::
          registrations[i].invitation in invitations && invitations[registrations[i].invitation].redeemedAt.Some?)
    && (forall i, j | 0 <= i < j < |registrations| :: registrations[i].invitation != registrations[j].invitation)
  }

  /** A challenge that has opened a session is consumed or gone, and no two sessions share one. */
  ghost predicate OpeningsOk(challenges: map<Id, Challenge>, openings: seq<Id>, known: set<Id>) {
    && challenges.Keys <= known
    && (forall i | 0 <= i < |openings| ::
          openings[i] in known && (openings[i] in challenges ==> challenges[openings[i]].consumedAt.Some?))
    && (forall i, j | 0 <= i < j < |openings| :: openings[i] != openings[j])
    && (forall c | c in challenges :: challenges[c].attempts <= challenges[c].maxAttempts)
  }

  ghost predicate AccountsInv(w: World) {
    && DbRefsOk(w.db) && UsersOk(w.db.users.Keys, w.db.grants, w.db.identities)
    && RegistrationsOk(w.db.invitations, w.past.registrations)
    && OpeningsOk(w.db.challenges, w.past.openings, w.past.challenges)
    && w.db.users.Keys <= w.past.users
  }

  // ---- Closing -------------------------------------------------------------------------------

  lemma PurgedTables(db: Db, u: Id, now: Time)
    requires u in db.users && u in db.identities
    ensures var after := CloseWrite(db, u, now);
            && after.users == db.users - {u} && after.identities == db.identities - {u}
            && after.sessions == SessionsWithout(db.sessions, u) && after.grants == GrantsWithout(db.grants, u)
            && after.redemptions == RedemptionsWithout(db.redemptions, u)
            && after.challenges == ChallengesWithout(db.challenges, u, db.identities[u])
            && after.adjustments == ForgetIn(db.adjustments, u)
  {
  }

  lemma PurgeKeepsRefs(db: Db, u: Id)
    requires DbRefsOk(db) && u in db.users
    ensures RefsOk(db.users.Keys - {u}, db.identities - {u}, SessionsWithout(db.sessions, u),
              GrantsWithout(db.grants, u),
                   RedemptionsWithout(db.redemptions, u), ChallengesWithout(db.challenges, u, db.identities[u]),
                       ForgetIn(db.adjustments, u))
  {
  }

  lemma PurgeKeepsUsers(users: set<Id>, grants: map<Id, Grant>, identities: map<Id, string>, u: Id)
    requires UsersOk(users, grants, identities)
    ensures UsersOk(users - {u}, GrantsWithout(grants, u), identities - {u})
  {
    forall v | v in users - {u}
      ensures exists g :: g in GrantsWithout(grants, u) && GrantsWithout(grants, u)[g].user == v
    {
      var g :| g in grants && grants[g].user == v;
      assert g in GrantsWithout(grants, u) && GrantsWithout(grants, u)[g].user == v;
    }
  }

  /** Challenges may be removed, consumed or count an attempt. */
  ghost predicate Spends(before: map<Id, Challenge>, after: map<Id, Challenge>) {
    && after.Keys <= before.Keys
    && forall c | c in after ::
         && (before[c].consumedAt.Some? ==> after[c].consumedAt.Some?)
         && after[c].maxAttempts == before[c].maxAttempts && after[c].user == before[c].user
         && after[c].attempts <= after[c].maxAttempts
  }

  lemma SpendingKeepsOpenings(before: map<Id, Challenge>, after: map<Id, Challenge>, openings: seq<Id>, known: set<Id>)
    requires OpeningsOk(before, openings, known) && Spends(before, after)
    ensures OpeningsOk(after, openings, known)
  {
  }

  lemma CloseKeepsAccounts(db: Db, u: Id, c: Id, code: string, now: Time, openings: seq<Id>, known: set<Id>)
    requires DbRefsOk(db) && UsersOk(db.users.Keys, db.grants, db.identities)
             && OpeningsOk(db.challenges, openings, known)
    ensures var after := CloseOutcome(db, u, c, code, now).0;
            && DbRefsOk(after) && UsersOk(after.users.Keys, after.grants, after.identities)
            && OpeningsOk(after.challenges, openings, known) && after.users.Keys <= db.users.Keys
  {
    CloseIsAllOrAttempt(db, u, c, code, now);
    var (after, answer) := CloseOutcome(db, u, c, code, now);
    if answer == Closed {
      PurgedTables(db, u, now);
      PurgeKeepsRefs(db, u);
      PurgeKeepsUsers(db.users.Keys, db.grants, db.identities, u);
      SpendingKeepsOpenings(db.challenges, after.challenges, openings, known);
    } else if after != db {
      AttemptKeepsAccounts(db, c, openings, known);
    }
  }

  lemma AttemptKeepsAccounts(db: Db, c: Id, openings: seq<Id>, known: set<Id>)
    requires DbRefsOk(db) && UsersOk(db.users.Keys, db.grants, db.identities)
             && OpeningsOk(db.challenges, openings, known)
    requires c in db.challenges && db.challenges[c].attempts < db.challenges[c].maxAttempts
    ensures var after := Auth.WrongCode(db, c);
            && DbRefsOk(after) && UsersOk(after.users.Keys, after.grants, after.identities)
            && OpeningsOk(after.challenges, openings, known) && after.users == db.users
  {
    SpendingKeepsOpenings(db.challenges, Auth.WrongCode(db, c).challenges, openings, known);
  }

  // ---- Verifying -----------------------------------------------------------------------------

  function Redeemed(invitations: map<Id, Invitation>, i: Id, now: Time): map<Id, Invitation>
    requires i in invitations
  {
    invitations[i := invitations[i].(redeemedAt := Some(now))]
  }

  lemma WelcomeTables(db: Db, c: Id, drawn: Drawn, name: string, units: nat, now: Time)
    requires c in db.challenges && db.challenges[c].invitation.Some?
             && db.challenges[c].invitation.value in db.invitations
    ensures var after, challenge :=
              Welcome(Consume(db, c, now), db.challenges[c], drawn, name, units, now), db.challenges[c];
            && after.users == db.users[drawn.user := User(Active, Member, name, name, None)]
            && after.users.Keys == db.users.Keys + {drawn.user}
            && after.identities == db.identities[drawn.user := challenge.email]
            && after.sessions == db.sessions[drawn.session := Session(drawn.user, false)]
            && after.grants == db.grants[drawn.grant := Grant(drawn.user, units)]
            && after.redemptions == db.redemptions[challenge.invitation.value := drawn.user]
            && after.invitations == Redeemed(db.invitations, challenge.invitation.value, now)
            && after.challenges == db.challenges[c := challenge.(consumedAt := Some(now))]
            && after.adjustments == db.adjustments
  {
  }

  lemma WelcomeKeepsRefs(db: Db, c: Id, drawn: Drawn, name: string, units: nat, now: Time)
    requires DbRefsOk(db) && c in db.challenges && db.challenges[c].invitation.Some?
             && db.challenges[c].invitation.value in db.invitations
    ensures DbRefsOk(Welcome(Consume(db, c, now), db.challenges[c], drawn, name, units, now))
  {
    WelcomeTables(db, c, drawn, name, units, now);
  }

  lemma WelcomeKeepsUsers(db: Db, drawn: Drawn, email: string, units: nat)
    requires UsersOk(db.users.Keys, db.grants, db.identities) && DbRefsOk(db)
    requires drawn.user !in db.users && drawn.grant !in db.grants && IdentityOf(db, email).None?
    ensures UsersOk(db.users.Keys + {drawn.user}, db.grants[drawn.grant := Grant(drawn.user, units)],
              db.identities[drawn.user := email])
  {
    var grants := db.grants[drawn.grant := Grant(drawn.user, units)];
    forall u | u in db.users.Keys + {drawn.user}
      ensures exists g :: g in grants && grants[g].user == u
    {
      if u in db.users.Keys {
        var g :| g in db.grants && db.grants[g].user == u;
        assert g in grants && grants[g].user == u;
      } else {
        assert drawn.grant in grants && grants[drawn.grant].user == u;
      }
    }
    NobodyHas(db, email);
  }

  lemma NobodyHas(db: Db, email: string)
    requires IdentityOf(db, email).None?
    ensures forall u | u in db.identities :: db.identities[u] != email
  {
    var owners := set u | u in db.identities && db.identities[u] == email;
    assert IdentityOf(db, email) == First(owners);
    assert forall u | u in db.identities && db.identities[u] == email :: u in owners;
  }

  /** A registration is the first for its invitation: a redeemed one is not usable. */
  lemma WelcomeKeepsRegistrations(
    invitations: map<Id, Invitation>, registrations: seq<Registration>, i: Id, u: Id, now: Time)
    requires RegistrationsOk(invitations, registrations) && i in invitations && Usable(invitations[i], now)
    ensures RegistrationsOk(invitations[i := invitations[i].(redeemedAt := Some(now))],
              registrations + [Registration(i, u)])
  {
  }

  /** Opening a session spends the challenge: a consumed one is not open. */
  lemma OpeningKeepsOpenings(challenges: map<Id, Challenge>, openings: seq<Id>, known: set<Id>, c: Id, now: Time)
    requires OpeningsOk(challenges, openings, known) && c in challenges && challenges[c].consumedAt.None?
    ensures OpeningsOk(challenges[c := challenges[c].(consumedAt := Some(now))], openings + [c], known)
  {
  }

  lemma LoginTables(db: Db, c: Id, session: Id, u: Id, now: Time)
    requires c in db.challenges
    ensures var after := OpenSession(Consume(db, c, now), session, u);
            && after.sessions == db.sessions[session := Session(u, false)]
            && after.challenges == db.challenges[c := db.challenges[c].(consumedAt := Some(now))]
            && after.users == db.users && after.identities == db.identities && after.grants == db.grants
            && after.redemptions == db.redemptions && after.adjustments == db.adjustments
            && after.invitations == db.invitations
  {
  }

  lemma LoginKeepsAccounts(w: World, op: Op, u: Id)
    requires op.Verify? && AccountsInv(w) && Auth.Open(w.db, op.challenge, w.now) && u in w.db.users
    requires Next(w, op).db == OpenSession(Consume(w.db, op.challenge, w.now), op.drawn.session, u)
    requires Next(w, op).past == w.past.(openings := w.past.openings + [op.challenge])
    ensures AccountsInv(Next(w, op))
  {
    LoginTables(w.db, op.challenge, op.drawn.session, u, w.now);
    OpeningKeepsOpenings(w.db.challenges, w.past.openings, w.past.challenges, op.challenge, w.now);
  }

  /** The world after a registration. */
  ghost predicate Registers(w: World, next: World, c: Id, drawn: Drawn, name: string, units: nat)
    requires c in w.db.challenges && w.db.challenges[c].invitation.Some?
             && w.db.challenges[c].invitation.value in w.db.invitations
  {
    && next.db == Welcome(Consume(w.db, c, w.now), w.db.challenges[c], drawn, name, units, w.now)
    && next.past == w.past.(openings := w.past.openings + [c], users := w.past.users + {drawn.user},
                            registrations := w.past.registrations
                              + [Registration(w.db.challenges[c].invitation.value, drawn.user)])
  }

  lemma RegistrationKeepsAccounts(w: World, next: World, c: Id, drawn: Drawn, name: string, units: nat)
    requires AccountsInv(w) && Auth.Open(w.db, c, w.now) && IdentityOf(w.db, w.db.challenges[c].email).None?
    requires w.db.challenges[c].invitation.Some? && w.db.challenges[c].invitation.value in w.db.invitations
    requires Usable(w.db.invitations[w.db.challenges[c].invitation.value], w.now)
    requires drawn.user !in w.past.users && drawn.grant !in w.db.grants && Registers(w, next, c, drawn, name, units)
    ensures AccountsInv(next)
  {
    WelcomeKeepsDb(w.db, c, drawn, name, units, w.now);
    RegistrationKeepsLists(w, next, c, drawn, name, units);
  }

  lemma WelcomeKeepsDb(db: Db, c: Id, drawn: Drawn, name: string, units: nat, now: Time)
    requires DbRefsOk(db) && UsersOk(db.users.Keys, db.grants, db.identities)
    requires Auth.Open(db, c, now) && IdentityOf(db, db.challenges[c].email).None?
    requires db.challenges[c].invitation.Some? && db.challenges[c].invitation.value in db.invitations
    requires drawn.user !in db.users && drawn.grant !in db.grants
    ensures var after := Welcome(Consume(db, c, now), db.challenges[c], drawn, name, units, now);
            && DbRefsOk(after) && UsersOk(after.users.Keys, after.grants, after.identities)
            && after.users.Keys == db.users.Keys + {drawn.user}
  {
    WelcomeKeepsRefs(db, c, drawn, name, units, now);
    WelcomeTables(db, c, drawn, name, units, now);
    WelcomeKeepsUsers(db, drawn, db.challenges[c].email, units);
  }

  lemma RegistrationKeepsLists(w: World, next: World, c: Id, drawn: Drawn, name: string, units: nat)
    requires AccountsInv(w) && Auth.Open(w.db, c, w.now)
    requires w.db.challenges[c].invitation.Some? && w.db.challenges[c].invitation.value in w.db.invitations
    requires Usable(w.db.invitations[w.db.challenges[c].invitation.value], w.now)
             && Registers(w, next, c, drawn, name, units)
    ensures RegistrationsOk(next.db.invitations, next.past.registrations)
    ensures OpeningsOk(next.db.challenges, next.past.openings, next.past.challenges)
  {
    WelcomeTables(w.db, c, drawn, name, units, w.now);
    WelcomeKeepsRegistrations(w.db.invitations, w.past.registrations, w.db.challenges[c].invitation.value, drawn.user,
        w.now);
    OpeningKeepsOpenings(w.db.challenges, w.past.openings, w.past.challenges, c, w.now);
  }

  lemma FailureKeepsAccounts(
    db: Db, c: Id, code: string, drawn: Drawn, draws: seq<string>, units: nat, now: Time, openings: seq<Id>,
    known: set<Id>)
    requires DbRefsOk(db) && OpeningsOk(db.challenges, openings, known)
    requires !VerifyOutcome(db, c, code, drawn, draws, units, now).1.LoggedIn?
    requires !VerifyOutcome(db, c, code, drawn, draws, units, now).1.Registered?
    ensures var after := VerifyOutcome(db, c, code, drawn, draws, units, now).0;
            && Only(db, after, {Challenges}) && Spends(db.challenges, after.challenges) && DbRefsOk(after)
            && OpeningsOk(after.challenges, openings, known)
  {
    FailureTouches(db, c, code, drawn, draws, units, now);
    VerifyFails(db, c, code, drawn, draws, units, now);
    var after := VerifyOutcome(db, c, code, drawn, draws, units, now).0;
    if after != db {
      SpentOrCounted(db, c, now);
    }
    SpendingKeepsOpenings(db.challenges, after.challenges, openings, known);
    SpendingKeepsRefs(db, after);
  }

  lemma SpentOrCounted(db: Db, c: Id, now: Time)
    requires c in db.challenges && db.challenges[c].attempts < db.challenges[c].maxAttempts
    requires forall k | k in db.challenges :: db.challenges[k].attempts <= db.challenges[k].maxAttempts
    ensures Spends(db.challenges, Consume(db, c, now).challenges)
            && Spends(db.challenges, Auth.WrongCode(db, c).challenges)
  {
  }

  lemma SpendingKeepsRefs(db: Db, after: Db)
    requires DbRefsOk(db) && Only(db, after, {Challenges}) && Spends(db.challenges, after.challenges)
    ensures DbRefsOk(after)
  {
  }

  // ---- Every step ----------------------------------------------------------------------------

  lemma VerifyStepKeepsAccounts(w: World, op: Op)
    requires op.Verify? && AccountsInv(w) && Enabled(w, op)
    ensures AccountsInv(Next(w, op))
  {
    NextAfterVerify(w, op);
    var (after, answer) := VerifyOutcome(w.db, op.challenge, op.code, op.drawn, op.draws, op.units, w.now);
    if answer.LoggedIn? {
      VerifyLogsIn(w.db, op.challenge, op.code, op.drawn, op.draws, op.units, w.now);
      LoginKeepsAccounts(w, op, answer.user);
    } else if answer.Registered? {
      var name := VerifyRegisters(w.db, op.challenge, op.code, op.drawn, op.draws, op.units, w.now);
      RegistrationKeepsAccounts(w, Next(w, op), op.challenge, op.drawn, name, op.units);
    } else {
      FailureKeepsAccounts(w.db, op.challenge, op.code, op.drawn, op.draws, op.units, w.now, w.past.openings,
          w.past.challenges);
      FailedStepKeepsAccounts(w, Next(w, op));
    }
  }

  lemma FailedStepKeepsAccounts(w: World, next: World)
    requires AccountsInv(w) && Only(w.db, next.db, {Challenges}) && next.past == w.past
    requires DbRefsOk(next.db) && OpeningsOk(next.db.challenges, w.past.openings, w.past.challenges)
    ensures AccountsInv(next)
  {
  }

  lemma CloseStepKeepsAccounts(w: World, op: Op)
    requires op.Close? && AccountsInv(w)
    ensures AccountsInv(Next(w, op))
  {
    CloseKeepsAccounts(w.db, op.user, op.challenge, op.code, w.now, w.past.openings, w.past.challenges);
    CloseKeepsInvitations(w.db, op.user, op.challenge, op.code, w.now);
  }

  lemma CloseKeepsInvitations(db: Db, u: Id, c: Id, code: string, now: Time)
    ensures CloseOutcome(db, u, c, code, now).0.invitations == db.invitations
  {
    CloseIsAllOrAttempt(db, u, c, code, now);
    if CloseOutcome(db, u, c, code, now).1 == Closed {
      ErasureKeepsInvitations(db, u, now);
    }
  }

  lemma ErasureKeepsInvitations(db: Db, u: Id, now: Time)
    requires u in db.users && u in db.identities
    ensures CloseWrite(db, u, now).invitations == db.invitations
  {
  }

  /** Adding a challenge under a new id. */
  lemma NewChallengeKeepsAccounts(w: World, next: World, c: Id, challenge: Challenge)
    requires AccountsInv(w) && c !in w.past.challenges && challenge.attempts == 0
    requires challenge.user.Some? ==> challenge.user.value in w.db.users
    requires Only(w.db, next.db, {Challenges}) && next.db.challenges == w.db.challenges[c := challenge]
    requires next.past == w.past.(challenges := w.past.challenges + {c})
    ensures AccountsInv(next)
  {
  }

  lemma MoreKnownKeepsAccounts(w: World, next: World, c: Id)
    requires AccountsInv(w) && next.db == w.db && next.past == w.past.(challenges := w.past.challenges + {c})
    ensures AccountsInv(next)
  {
  }

  lemma SendStepKeepsAccounts(w: World, op: Op)
    requires (op.SendLogin? || op.SendClosure?) && AccountsInv(w) && Enabled(w, op)
    ensures AccountsInv(Next(w, op))
  {
    SendTouches(w, op);
    var next := Next(w, op);
    if next.db == w.db {
      MoreKnownKeepsAccounts(w, next, op.challenge);
    } else {
      NewChallengeKeepsAccounts(w, next, op.challenge, next.db.challenges[op.challenge]);
    }
  }

  lemma MailedStepKeepsAccounts(w: World, op: Op)
    requires op.Mailed? && AccountsInv(w)
    ensures AccountsInv(Next(w, op))
  {
    SendTouches(w, op);
    SpendingKeepsOpenings(w.db.challenges, After(w, op).challenges, w.past.openings, w.past.challenges);
    SpendingKeepsRefs(w.db, After(w, op));
    FailedStepKeepsAccounts(w, Next(w, op));
  }

  lemma AdjustKeepsTargets(db: Db, caller: Context, c: Change, key: Id)
    requires DbRefsOk(db)
    ensures DbRefsOk(AdjustOutcome(db, caller, c, key).0)
  {
    var read := Snapshot(db, c.target);
    AdjustCases(db, caller, c, key, read);
    AdjustTouches(db, caller, c, key);
    if AdjustOutcome(db, caller, c, key).1.Done? {
      AdjustWriteTables(db, caller, c, key, read);
      TargetAdded(db, AdjustOutcome(db, caller, c, key).0, NewAdjustment(caller, c, KeyOf(caller.actor, key), read));
    }
  }

  lemma TargetAdded(db: Db, after: Db, a: Adjustment)
    requires DbRefsOk(db) && Only(db, after, {Adjustments, Records}) && after.adjustments == db.adjustments + [a]
    requires a.target.Some? && a.target.value in db.users
    ensures DbRefsOk(after)
  {
  }

  lemma AdjustStepKeepsAccounts(w: World, op: Op)
    requires (op.Adjust? || op.Reverse?) && AccountsInv(w)
    ensures AccountsInv(Next(w, op))
  {
    if op.Adjust? {
      AdjustKeepsTargets(w.db, op.caller, op.change, op.key);
      AdjustTouches(w.db, op.caller, op.change, op.key);
    } else {
      ReverseKeepsTargets(w.db, op.caller, op.original, op.note, op.key);
      ReverseTouches(w.db, op.caller, op.original, op.note, op.key);
    }
    LedgerStepKeepsAccounts(w, Next(w, op));
  }

  lemma ReverseKeepsTargets(db: Db, caller: Context, original: nat, note: string, key: Id)
    requires DbRefsOk(db)
    ensures DbRefsOk(ReverseOutcome(db, caller, original, note, key).0)
  {
    var c := ReversalOf(db, original, note);
    if c.Some? {
      AdjustKeepsTargets(db, caller, c.value, key);
    }
  }

  lemma LedgerStepKeepsAccounts(w: World, next: World)
    requires AccountsInv(w) && DbRefsOk(next.db) && Only(w.db, next.db, {Adjustments, Records})
    requires next.past == w.past.(effects := next.past.effects)
    ensures AccountsInv(next)
  {
  }

  /** Sessions may be revoked and users changed in place. */
  lemma InPlaceKeepsAccounts(w: World, next: World)
    requires AccountsInv(w) && next.db.users.Keys == w.db.users.Keys && next.db.sessions.Keys == w.db.sessions.Keys
    requires forall s | s in w.db.sessions :: next.db.sessions[s].user == w.db.sessions[s].user
    requires next.db.identities == w.db.identities && next.db.challenges == w.db.challenges
             && next.db.invitations == w.db.invitations
    requires next.db.redemptions == w.db.redemptions && next.db.grants == w.db.grants
             && next.db.adjustments == w.db.adjustments
    requires next.past.users == w.past.users && next.past.challenges == w.past.challenges
    requires next.past.registrations == w.past.registrations && next.past.openings == w.past.openings
    ensures AccountsInv(next)
  {
  }

  lemma MutateInPlace(db: Db, caller: Context, action: Action, target: Id, reason: string, key: Id)
    ensures var after := MutateOutcome(db, caller, action, target, reason, key).0;
            && after.users.Keys == db.users.Keys && after.sessions.Keys == db.sessions.Keys
            && forall s | s in db.sessions :: after.sessions[s].user == db.sessions[s].user
  {
    var (after, answer) := MutateOutcome(db, caller, action, target, reason, key);
    if answer.Done? && target in db.users {
      assert after.users == db.users[target := Mutated(db.users[target], action)];
      assert after.sessions == if action.RestoreUser? then db.sessions else RevokedSessions(db.sessions, target);
    }
  }

  lemma KeptByUserSteps(a: Db, b: Db, changed: set<Kind>)
    requires Only(a, b, changed) && changed <= {Users, Sessions, Records, Quarantine}
    ensures b.identities == a.identities && b.challenges == a.challenges && b.invitations == a.invitations
    ensures b.redemptions == a.redemptions && b.grants == a.grants && b.adjustments == a.adjustments
  {
  }

  lemma MutateStepKeepsAccounts(w: World, op: Op)
    requires op.Mutate? && AccountsInv(w)
    ensures AccountsInv(Next(w, op))
  {
    MutateTouches(w.db, op.caller, op.action, op.target, op.reason, op.key);
    MutateInPlace(w.db, op.caller, op.action, op.target, op.reason, op.key);
    KeptByUserSteps(w.db, MutateOutcome(w.db, op.caller, op.action, op.target, op.reason, op.key).0,
        {Users, Sessions, Records});
    InPlaceKeepsAccounts(w, Next(w, op));
  }

  lemma RenameInPlace(db: Db, u: Id, name: Name, now: Time)
    ensures var after := RenameOutcome(db, u, name, now).0;
            after.users.Keys == db.users.Keys && after.sessions == db.sessions
  {
    if RenameRefusal(db, u, name, now).None? {
      assert RenameWrite(db, u, name, now).users.Keys == db.users.Keys;
    }
  }

  lemma RenameStepKeepsAccounts(w: World, op: Op)
    requires op.RenameTo? && AccountsInv(w)
    ensures AccountsInv(Next(w, op))
  {
    RenameTouches(w.db, op.user, op.name, w.now);
    RenameInPlace(w.db, op.user, op.name, w.now);
    KeptByUserSteps(w.db, RenameOutcome(w.db, op.user, op.name, w.now).0, {Users, Quarantine});
    InPlaceKeepsAccounts(w, Next(w, op));
  }

  lemma InviteStepKeepsAccounts(w: World, op: Op)
    requires (op.Invite? || op.Disinvite?) && AccountsInv(w) && Enabled(w, op)
    ensures AccountsInv(Next(w, op))
  {
    InviteTouches(w, op);
    InvitationsMayGrow(w, Next(w, op));
  }

  lemma InvitationsMayGrow(w: World, next: World)
    requires AccountsInv(w) && Only(w.db, next.db, {Invitations}) && next.past == w.past
    requires forall i | i in w.db.invitations ::
               i in next.db.invitations && next.db.invitations[i].redeemedAt == w.db.invitations[i].redeemedAt
    ensures AccountsInv(next)
  {
  }

  predicate ForAccounts(op: Op) {
    op.Verify? || op.Close? || op.SendLogin? || op.SendClosure? || op.Mailed? || op.Adjust? || op.Reverse?
    || op.Mutate? || op.RenameTo? || op.Invite? || op.Disinvite?
  }

  lemma OthersTouchNoAccount(op: Op)
    requires !ForAccounts(op)
    ensures Touches(op) !! {Users, Identities, Sessions, Challenges, Invitations, Redemptions, Grants, Adjustments}
  {
  }

  lemma OtherStepKeepsAccounts(w: World, op: Op)
    requires AccountsInv(w) && !ForAccounts(op)
    ensures AccountsInv(Next(w, op))
  {
    OthersTouchNoAccount(op);
    StepTouches(w, op);
    KeptAccounts(w.db, After(w, op), Touches(op));
    InPlaceKeepsAccounts(w, Next(w, op));
  }

  lemma StepKeepsAccounts(w: World, op: Op)
    requires AccountsInv(w) && Enabled(w, op)
    ensures AccountsInv(Next(w, op))
  {
    if op.Verify? {
      VerifyStepKeepsAccounts(w, op);
    } else if op.Close? {
      CloseStepKeepsAccounts(w, op);
    } else if op.SendLogin? || op.SendClosure? {
      SendStepKeepsAccounts(w, op);
    } else if op.Mailed? {
      MailedStepKeepsAccounts(w, op);
    } else if op.Adjust? || op.Reverse? {
      AdjustStepKeepsAccounts(w, op);
    } else if op.Mutate? {
      MutateStepKeepsAccounts(w, op);
    } else if op.RenameTo? {
      RenameStepKeepsAccounts(w, op);
    } else if op.Invite? || op.Disinvite? {
      InviteStepKeepsAccounts(w, op);
    } else {
      OtherStepKeepsAccounts(w, op);
    }
  }
}
