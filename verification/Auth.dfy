/** One-time codes, single-use invitations and registration (src/auth/service.py). */
module Auth {
  import opened Schema
  import opened Profile

  datatype VerifyAnswer =
    | OtpInvalid | OtpUsed | OtpExpired | OtpAttemptsExceeded
    | RegistrationRequired | LoginRequired | NotAuthorized | InvitationInvalid | NoDefaultName
    | LoggedIn(user: Id) | Registered(newUser: Id)

  /** Identifiers drawn by uuid4 for one verification. */
  datatype Drawn = Drawn(user: Id, session: Id, grant: Id)

  predicate Usable(i: Invitation, now: Time) {
    i.disabledAt.None? && i.redeemedAt.None? && (i.expiresAt.None? || now < i.expiresAt.value)
  }

  /** Checks that end the call without comparing the code. */
  function VerifyRefusal(db: Db, c: Id, now: Time): Option<VerifyAnswer> {
    if c !in db.challenges || db.challenges[c].purpose != EmailAuth then Some(OtpInvalid)
    else if db.challenges[c].delivery != Sent then Some(OtpInvalid)
    else if db.challenges[c].consumedAt.Some? then Some(OtpUsed)
    else if db.challenges[c].expiresAt <= now then Some(OtpExpired)
    else if db.challenges[c].attempts >= db.challenges[c].maxAttempts then Some(OtpAttemptsExceeded)
    else None
  }

  function WrongCode(db: Db, c: Id): Db
    requires c in db.challenges
  {
    db.(challenges := db.challenges[c := db.challenges[c].(attempts := db.challenges[c].attempts + 1)])
  }

  function AfterWrongCode(c: Challenge): VerifyAnswer {
    if c.attempts + 1 >= c.maxAttempts then OtpAttemptsExceeded else OtpInvalid
  }

  function Consume(db: Db, c: Id, now: Time): Db
    requires c in db.challenges
  {
    db.(challenges := db.challenges[c := db.challenges[c].(consumedAt := Some(now))])
  }

  function IdentityOf(db: Db, email: string): Option<Id> {
    First(set u | u in db.identities && db.identities[u] == email)
  }

  function OpenSession(db: Db, session: Id, u: Id): Db {
    db.(sessions := db.sessions[session := Session(u, false)])
  }

  function CreateUser(db: Db, drawn: Drawn, name: string, email: string, invitation: Id, units: nat, now: Time): Db
    requires invitation in db.invitations
  {
    db.(users := db.users[drawn.user := User(Active, Member, name, name, None)],
        identities := db.identities[drawn.user := email],
        invitations := db.invitations[invitation := db.invitations[invitation].(redeemedAt := Some(now))],
        redemptions := db.redemptions[invitation := drawn.user],
        grants := db.grants[drawn.grant := Grant(drawn.user, units)])
  }

  function RegisterOutcome(
    db: Db, challenge: Challenge, drawn: Drawn, draws: seq<string>, units: nat, now: Time): (Db, VerifyAnswer) {
    if challenge.invitation.None? || challenge.invitation.value !in db.invitations
       || !Usable(db.invitations[challenge.invitation.value], now) then (db, InvitationInvalid)
    else
      var name := DefaultName(db, draws, DRAWS, now);
      if name.None? then (db, NoDefaultName)
      else
        (OpenSession(CreateUser(db, drawn, name.value, challenge.email, challenge.invitation.value, units, now),
                     drawn.session, drawn.user),
         Registered(drawn.user))
  }

  function LoginOutcome(db: Db, u: Id, session: Id): (Db, VerifyAnswer) {
    if u !in db.users || db.users[u].status != Active then (db, NotAuthorized)
    else (OpenSession(db, session, u), LoggedIn(u))
  }

  function VerifyOutcome(
    db: Db, c: Id, code: string, drawn: Drawn, draws: seq<string>, units: nat, now: Time): (Db, VerifyAnswer) {
    var refusal := VerifyRefusal(db, c, now);
    if refusal.Some? then (db, refusal.value)
    else if code != db.challenges[c].code then (WrongCode(db, c), AfterWrongCode(db.challenges[c]))
    else
      var challenge := db.challenges[c];
      var identity := IdentityOf(db, challenge.email);
      var consumed := Consume(db, c, now);
      if challenge.mode == Login then
        if identity.None? then (consumed, RegistrationRequired)
          else LoginOutcome(consumed, identity.value, drawn.session)
      else if identity.Some? then (consumed, LoginRequired)
      else
        var r := RegisterOutcome(consumed, challenge, drawn, draws, units, now);
        if r.1 == NoDefaultName then (db, NoDefaultName) else r
  }

  /** The challenge was sent, unconsumed, in time and not out of attempts. */
  predicate Open(db: Db, c: Id, now: Time) {
    && c in db.challenges && db.challenges[c].purpose == EmailAuth && db.challenges[c].delivery == Sent
    && db.challenges[c].consumedAt.None? && now < db.challenges[c].expiresAt
    && db.challenges[c].attempts < db.challenges[c].maxAttempts
  }

  function Welcome(db: Db, challenge: Challenge, drawn: Drawn, name: string, units: nat, now: Time): Db
    requires challenge.invitation.Some? && challenge.invitation.value in db.invitations
  {
    OpenSession(CreateUser(db, drawn, name, challenge.email, challenge.invitation.value, units, now), drawn.session,
        drawn.user)
  }

  lemma RegisterCases(db: Db, challenge: Challenge, drawn: Drawn, draws: seq<string>, units: nat, now: Time)
    ensures var (after, answer) := RegisterOutcome(db, challenge, drawn, draws, units, now);
            if answer.Registered? then
              && answer.newUser == drawn.user && challenge.invitation.Some?
              && challenge.invitation.value in db.invitations
              && Usable(db.invitations[challenge.invitation.value], now)
              && exists name :: NameFree(db, name, now) && after == Welcome(db, challenge, drawn, name, units, now)
            else after == db && !answer.LoggedIn?
  {
    var name := DefaultName(db, draws, DRAWS, now);
    if name.Some? {
      assert NameFree(db, name.value, now);
    }
  }

  /** Every way a verification can end, in the order of the checks. */
  lemma VerifyStages(db: Db, c: Id, code: string, drawn: Drawn, draws: seq<string>, units: nat, now: Time)
    ensures var (after, answer) := VerifyOutcome(db, c, code, drawn, draws, units, now);
            if !Open(db, c, now) then after == db && !answer.LoggedIn? && !answer.Registered?
            else if code != db.challenges[c].code then after == WrongCode(db, c) && !answer.LoggedIn?
              && !answer.Registered?
            else
              var challenge, consumed := db.challenges[c], Consume(db, c, now);
              var register := RegisterOutcome(consumed, challenge, drawn, draws, units, now);
              match answer
              case LoggedIn(u) =>
                && after == OpenSession(consumed, drawn.session, u) && u in db.users && db.users[u].status == Active
                && challenge.mode == Login && u in db.identities && db.identities[u] == challenge.email
              case Registered(_) => IdentityOf(consumed, challenge.email).None? && (after, answer) == register
              case _ => after == db || after == consumed
  {
    if Open(db, c, now) && code == db.challenges[c].code {
      RegisterCases(Consume(db, c, now), db.challenges[c], drawn, draws, units, now);
    }
  }

  /** A login opens one session of an active user, and spends the challenge. */
  lemma VerifyLogsIn(db: Db, c: Id, code: string, drawn: Drawn, draws: seq<string>, units: nat, now: Time)
    requires VerifyOutcome(db, c, code, drawn, draws, units, now).1.LoggedIn?
    ensures var (after, answer) := VerifyOutcome(db, c, code, drawn, draws, units, now);
            && Open(db, c, now) && code == db.challenges[c].code
            && answer.user in db.users && db.users[answer.user].status == Active
            && db.challenges[c].mode == Login
            && answer.user in db.identities && db.identities[answer.user] == db.challenges[c].email
            && after == OpenSession(Consume(db, c, now), drawn.session, answer.user)
  {
    VerifyStages(db, c, code, drawn, draws, units, now);
  }

  /** A registration spends the challenge and its invitation, under a free name and for a new email. */
  lemma VerifyRegisters(
    db: Db, c: Id, code: string, drawn: Drawn, draws: seq<string>, units: nat, now: Time)
    returns (name: string)
    requires VerifyOutcome(db, c, code, drawn, draws, units, now).1.Registered?
    ensures Open(db, c, now) && code == db.challenges[c].code && NameFree(db, name, now)
    ensures IdentityOf(db, db.challenges[c].email).None?
    ensures db.challenges[c].invitation.Some? && db.challenges[c].invitation.value in db.invitations
    ensures Usable(db.invitations[db.challenges[c].invitation.value], now)
    ensures VerifyOutcome(db, c, code, drawn, draws, units, now)
         == (Welcome(Consume(db, c, now), db.challenges[c], drawn, name, units, now), Registered(drawn.user))
  {
    VerifyStages(db, c, code, drawn, draws, units, now);
    var consumed := Consume(db, c, now);
    RegisterCases(consumed, db.challenges[c], drawn, draws, units, now);
    name :| NameFree(consumed, name, now)
         && VerifyOutcome(db, c, code, drawn, draws, units, now).0
             == Welcome(consumed, db.challenges[c], drawn, name, units, now);
  }

  /** Anything else changes nothing but the challenge presented: an attempt counted, or the challenge spent. */
  lemma VerifyFails(db: Db, c: Id, code: string, drawn: Drawn, draws: seq<string>, units: nat, now: Time)
    requires !VerifyOutcome(db, c, code, drawn, draws, units, now).1.LoggedIn?
    requires !VerifyOutcome(db, c, code, drawn, draws, units, now).1.Registered?
    ensures var after := VerifyOutcome(db, c, code, drawn, draws, units, now).0;
            after == db || (Open(db, c, now)
                && after == (if code == db.challenges[c].code then Consume(db, c, now) else WrongCode(db, c)))
  {
    VerifyStages(db, c, code, drawn, draws, units, now);
  }

  method VerifyAuthCode(db: Database, c: Id, code: string, drawn: Drawn, draws: seq<string>, units: nat, now: Time)
    returns (answer: VerifyAnswer)
    modifies db
    ensures (db.tables, answer) == VerifyOutcome(old(db.tables), c, code, drawn, draws, units, now)
    ensures c in old(db.tables.challenges) ==> [Lock(ChallengeT, c)] <= db.locks
    ensures answer.LoggedIn? ==> db.locks == [Lock(ChallengeT, c), Lock(UserT, answer.user)]
  {
    db.Begin();
    var saved := db.tables;
    if c !in db.tables.challenges {
      return OtpInvalid;
    }
    db.ForUpdate(ChallengeT, c);
    var challenge := db.tables.challenges[c];
    var refusal := VerifyRefusal(db.tables, c, now);
    if refusal.Some? {
      return refusal.value;
    }
    if code != challenge.code {
      challenge := challenge.(attempts := challenge.attempts + 1);
      db.tables := db.tables.(challenges := db.tables.challenges[c := challenge]);
      return if challenge.attempts >= challenge.maxAttempts then OtpAttemptsExceeded else OtpInvalid;
    }
    challenge := challenge.(consumedAt := Some(now));
    db.tables := db.tables.(challenges := db.tables.challenges[c := challenge]);
    var identity := IdentityOf(db.tables, challenge.email);
    if challenge.mode == Login {
      if identity.None? {
        return RegistrationRequired;
      }
      answer := LogIn(db, identity.value, drawn.session);
    } else if identity.Some? {
      return LoginRequired;
    } else {
      answer := RegisterUser(db, challenge, drawn, draws, units, now);
      if answer == NoDefaultName {
        db.tables := saved;
      }
    }
  }

  method LogIn(db: Database, u: Id, session: Id) returns (answer: VerifyAnswer)
    modifies db
    ensures (db.tables, answer) == LoginOutcome(old(db.tables), u, session)
    ensures old(db.locks) <= db.locks
    ensures answer.LoggedIn? ==> answer.user == u && db.locks == old(db.locks) + [Lock(UserT, u)]
  {
    if u !in db.tables.users {
      return NotAuthorized;
    }
    db.ForUpdate(UserT, u);
    if db.tables.users[u].status != Active {
      return NotAuthorized;
    }
    db.tables := db.tables.(sessions := db.tables.sessions[session := Session(u, false)]);
    return LoggedIn(u);
  }

  method RegisterUser(db: Database, challenge: Challenge, drawn: Drawn, draws: seq<string>, units: nat, now: Time)
    returns (answer: VerifyAnswer)
    modifies db
    ensures (db.tables, answer) == RegisterOutcome(old(db.tables), challenge, drawn, draws, units, now)
    ensures !answer.LoggedIn? && old(db.locks) <= db.locks
  {
    if challenge.invitation.None? || challenge.invitation.value !in db.tables.invitations {
      return InvitationInvalid;
    }
    var i := challenge.invitation.value;
    if !Usable(db.tables.invitations[i], now) {
      return InvitationInvalid;
    }
    var name := AllocateDefaultName(db, draws, now);
    if name.None? {
      return NoDefaultName;
    }
    var u := drawn.user;
    db.tables := db.tables.(users := db.tables.users[u := User(Active, Member, name.value, name.value, None)]);
    db.tables := db.tables.(identities := db.tables.identities[u := challenge.email]);
    var redeemed := db.tables.invitations[i].(redeemedAt := Some(now));
    db.tables := db.tables.(invitations := db.tables.invitations[i := redeemed]);
    db.tables := db.tables.(redemptions := db.tables.redemptions[i := u]);
    db.tables := db.tables.(grants := db.tables.grants[drawn.grant := Grant(u, units)]);
    db.tables := db.tables.(sessions := db.tables.sessions[drawn.session := Session(u, false)]);
    return Registered(u);
  }

  // ---- Sending codes -------------------------------------------------------------------------

  /** The challenge row of send_auth_code; rate limits are not modelled. */
  function SendAuthCode(
    db: Db, c: Id, email: string, mode: Mode, invitation: Option<Id>, code: string, maxAttempts: nat,
    expiresAt: Time, now: Time): Db {
    var refused := mode == Closure || (mode == Register && !(invitation.Some? && invitation.value in db.invitations
                                                             && Usable(db.invitations[invitation.value], now)));
    db.(challenges := if refused then db.challenges else db.challenges[c := Challenge(
      email, mode, EmailAuth, if mode == Register then invitation else None, None,
      code, 0, maxAttempts, Pending, expiresAt, None)])
  }

  /** The challenge row of send_closure_code; its user is a foreign key. */
  function SendClosureCode(db: Db, c: Id, u: Id, email: string, code: string, maxAttempts: nat, expiresAt: Time): Db {
    db.(challenges := if u !in db.users then db.challenges else db.challenges[c := Challenge(
      email, Closure, AccountClosure, None, Some(u), code, 0, maxAttempts, Pending, expiresAt, None)])
  }

  /** The mailer's answer. */
  function Delivered(db: Db, c: Id, sent: bool): Db {
    db.(challenges := if c !in db.challenges || (sent && db.challenges[c].delivery != Pending) then db.challenges
                      else db.challenges[c := db.challenges[c].(delivery := if sent then Sent else Failed)])
  }
}
