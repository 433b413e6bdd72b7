/** Display names over whole runs: unique, never owned in quarantine, renamed at most weekly. */
module NameOwnership {
  import opened Schema
  import opened Profile
  import opened AccountClosure
  import opened Admin
  import opened Auth
  import opened World
  import opened Frames

  /** No name has two owners, and none is both owned and in unexpired quarantine. */
  ghost predicate NamesOk(users: map<Id, User>, quarantine: map<string, Time>, now: Time) {
    && (forall u, v | u in users && v in users && users[u].nameKey == users[v].nameKey :: u == v)
    && (forall u | u in users :: !NameQuarantined(quarantine, users[u].nameKey, now))
  }

  /** Quarantines are only ever extended. */
  ghost predicate Lasts(before: map<string, Time>, after: map<string, Time>) {
    forall key | key in before :: key in after && before[key] <= after[key]
  }

  /** Quarantines end within the period. */
  ghost predicate Bounded(quarantine: map<string, Time>, now: Time) {
    forall key | key in quarantine :: quarantine[key] <= now + FORMER_NAME_QUARANTINE
  }

  lemma RenamingKeepsNames(db: Db, u: Id, name: Name, now: Time)
    requires NamesOk(db.users, db.quarantine, now) && Bounded(db.quarantine, now) && u in db.users
    requires name.key != db.users[u].nameKey ==> NameFree(db, name.key, now)
    ensures var after := RenameWrite(db, u, name, now);
            && NamesOk(after.users, after.quarantine, now) && Bounded(after.quarantine, now)
            && Lasts(db.quarantine, after.quarantine)
  {
  }

  lemma RenameKeepsNames(db: Db, u: Id, name: Name, now: Time)
    requires NamesOk(db.users, db.quarantine, now) && Bounded(db.quarantine, now)
    ensures var after := RenameOutcome(db, u, name, now).0;
            && NamesOk(after.users, after.quarantine, now) && Bounded(after.quarantine, now)
            && Lasts(db.quarantine, after.quarantine)
  {
    if RenameRefusal(db, u, name, now).None? {
      RenamingKeepsNames(db, u, name, now);
    }
  }

  lemma ClosingKeepsNames(db: Db, u: Id, now: Time)
    requires NamesOk(db.users, db.quarantine, now) && Bounded(db.quarantine, now) && u in db.users && u in db.identities
    ensures var after := CloseWrite(db, u, now);
            && NamesOk(after.users, after.quarantine, now) && Bounded(after.quarantine, now)
            && Lasts(db.quarantine, after.quarantine)
            && after.users == db.users - {u}
            && after.quarantine == db.quarantine[db.users[u].nameKey := now + FORMER_NAME_QUARANTINE]
  {
  }

  lemma NewUserKeepsNames(users: map<Id, User>, quarantine: map<string, Time>, u: Id, user: User, now: Time)
    requires NamesOk(users, quarantine, now) && u !in users
    requires !NameOwned(users, user.nameKey) && !NameQuarantined(quarantine, user.nameKey, now)
    ensures NamesOk(users[u := user], quarantine, now)
  {
  }

  /** A verification adds one member under a free name, or leaves the users alone. */
  lemma UsersAfterVerify(db: Db, c: Id, code: string, drawn: Drawn, draws: seq<string>, units: nat, now: Time)
    ensures var (after, answer) := VerifyOutcome(db, c, code, drawn, draws, units, now);
            if answer.Registered? then
              exists name :: NameFree(db, name, now)
                && after.users == db.users[drawn.user := User(Active, Member, name, name, None)]
            else after.users == db.users
  {
    var (after, answer) := VerifyOutcome(db, c, code, drawn, draws, units, now);
    if answer.LoggedIn? {
      VerifyLogsIn(db, c, code, drawn, draws, units, now);
      LoginTouches(db, c, drawn, answer.user, now);
    } else if answer.Registered? {
      var name := VerifyRegisters(db, c, code, drawn, draws, units, now);
      WelcomedUser(Consume(db, c, now), db.challenges[c], drawn, name, units, now);
    } else {
      FailureTouches(db, c, code, drawn, draws, units, now);
    }
  }

  lemma WelcomedUser(db: Db, challenge: Challenge, drawn: Drawn, name: string, units: nat, now: Time)
    requires challenge.invitation.Some? && challenge.invitation.value in db.invitations
    ensures Welcome(db, challenge, drawn, name, units, now).users
            == db.users[drawn.user := User(Active, Member, name, name, None)]
  {
  }

  lemma VerifyKeepsNames(db: Db, c: Id, code: string, drawn: Drawn, draws: seq<string>, units: nat, now: Time)
    requires NamesOk(db.users, db.quarantine, now) && drawn.user !in db.users
    ensures NamesOk(VerifyOutcome(db, c, code, drawn, draws, units, now).0.users, db.quarantine, now)
  {
    UsersAfterVerify(db, c, code, drawn, draws, units, now);
    var (after, answer) := VerifyOutcome(db, c, code, drawn, draws, units, now);
    if answer.Registered? {
      var name :| NameFree(db, name, now)
        && after.users == db.users[drawn.user := User(Active, Member, name, name, None)];
      NewUserKeepsNames(db.users, db.quarantine, drawn.user, User(Active, Member, name, name, None), now);
    }
  }

  lemma MutateKeepsNames(db: Db, caller: Context, action: Action, target: Id, reason: string, key: Id)
    ensures var after := MutateOutcome(db, caller, action, target, reason, key).0;
            && after.users.Keys == db.users.Keys
            && forall u | u in db.users ::
                after.users[u].nameKey == db.users[u].nameKey
                  && after.users[u].nameChangedAt == db.users[u].nameChangedAt
  {
    var (after, answer) := MutateOutcome(db, caller, action, target, reason, key);
    if answer.Done? && target in db.users {
      assert after.users == db.users[target := Mutated(db.users[target], action)];
    }
  }

  // ---- Over whole runs -----------------------------------------------------------------------

  /** Renames of one user are a cooldown apart, and the user's row knows the latest. */
  ghost predicate RenamesOk(users: map<Id, User>, renames: seq<Rename>, known: set<Id>) {
    && (forall i, j | 0 <= i < j < |renames| && renames[i].user == renames[j].user ::
          renames[i].at + RENAME_COOLDOWN <= renames[j].at)
    && (forall i | 0 <= i < |renames| ::
          && renames[i].user in known
          && (renames[i].user in users ==>
                users[renames[i].user].nameChangedAt.Some?
                  && renames[i].at <= users[renames[i].user].nameChangedAt.value))
  }

  ghost predicate NamesInv(w: World) {
    && NamesOk(w.db.users, w.db.quarantine, w.now) && Bounded(w.db.quarantine, w.now)
    && RenamesOk(w.db.users, w.past.renames, w.past.users)
  }

  lemma RenameKeepsHistory(w: World, u: Id, name: Name)
    requires RenamesOk(w.db.users, w.past.renames, w.past.users) && w.db.users.Keys <= w.past.users
    ensures RenamesOk(After(w, RenameTo(u, name)).users, Remember(w, RenameTo(u, name)).renames, w.past.users)
  {
    if RenameRefusal(w.db, u, name, w.now).None? {
      RecordedRename(w.db, u, name, w.now, w.past.renames, w.past.users);
    }
  }

  lemma RecordedRename(db: Db, u: Id, name: Name, now: Time, renames: seq<Rename>, known: set<Id>)
    requires RenamesOk(db.users, renames, known) && db.users.Keys <= known && RenameRefusal(db, u, name, now).None?
    ensures RenamesOk(RenameWrite(db, u, name, now).users, renames + [Rename(u, now)], known)
  {
    var after := RenameWrite(db, u, name, now);
    assert after.users[u].nameChangedAt == Some(now);
  }

  lemma NewUserKeepsHistory(users: map<Id, User>, renames: seq<Rename>, known: set<Id>, u: Id, user: User)
    requires RenamesOk(users, renames, known) && u !in known
    ensures RenamesOk(users[u := user], renames, known + {u})
  {
  }

  lemma SameDatesKeepHistory(users: map<Id, User>, users': map<Id, User>, renames: seq<Rename>, known: set<Id>)
    requires RenamesOk(users, renames, known) && users'.Keys <= users.Keys
    requires forall u | u in users' :: users'[u].nameChangedAt == users[u].nameChangedAt
    ensures RenamesOk(users', renames, known)
  {
  }

  lemma VerifyKeepsHistory(
    db: Db, c: Id, code: string, drawn: Drawn, draws: seq<string>, units: nat, now: Time, renames: seq<Rename>,
    known: set<Id>)
    requires RenamesOk(db.users, renames, known) && drawn.user !in known
    ensures var (after, answer) := VerifyOutcome(db, c, code, drawn, draws, units, now);
            RenamesOk(after.users, renames, if answer.Registered? then known + {drawn.user} else known)
  {
    UsersAfterVerify(db, c, code, drawn, draws, units, now);
    var (after, answer) := VerifyOutcome(db, c, code, drawn, draws, units, now);
    if answer.Registered? {
      var name :| NameFree(db, name, now)
        && after.users == db.users[drawn.user := User(Active, Member, name, name, None)];
      NewUserKeepsHistory(db.users, renames, known, drawn.user, User(Active, Member, name, name, None));
    }
  }

  /** What a verification leaves for the names of a world. */
  lemma VerifyKeepsBoth(w: World, c: Id, code: string, drawn: Drawn, draws: seq<string>, units: nat)
    requires NamesInv(w) && w.db.users.Keys <= w.past.users && drawn.user !in w.past.users
    ensures var (after, answer) := VerifyOutcome(w.db, c, code, drawn, draws, units, w.now);
            && after.quarantine == w.db.quarantine && NamesOk(after.users, w.db.quarantine, w.now)
            && RenamesOk(after.users, w.past.renames, if answer.Registered? then w.past.users + {drawn.user}
                else w.past.users)
  {
    VerifyKeepsNames(w.db, c, code, drawn, draws, units, w.now);
    VerifyKeepsHistory(w.db, c, code, drawn, draws, units, w.now, w.past.renames, w.past.users);
    VerifyTouches(w.db, c, code, drawn, draws, units, w.now);
    KeptNames(w.db, VerifyOutcome(w.db, c, code, drawn, draws, units, w.now).0,
              {Users, Identities, Sessions, Challenges, Invitations, Redemptions, Grants});
  }

  lemma VerifyStepKeepsNames(w: World, op: Op)
    requires op.Verify? && NamesInv(w) && Enabled(w, op) && w.db.users.Keys <= w.past.users
    ensures NamesInv(Next(w, op)) && Next(w, op).db.quarantine == w.db.quarantine
  {
    VerifyKeepsBoth(w, op.challenge, op.code, op.drawn, op.draws, op.units);
    NextAfterVerify(w, op);
  }

  lemma CloseStepKeepsNames(w: World, op: Op)
    requires op.Close? && NamesInv(w)
    ensures NamesInv(Next(w, op)) && Lasts(w.db.quarantine, Next(w, op).db.quarantine)
  {
    CloseIsAllOrAttempt(w.db, op.user, op.challenge, op.code, w.now);
    if CloseOutcome(w.db, op.user, op.challenge, op.code, w.now).1 == Closed {
      ClosingKeepsNames(w.db, op.user, w.now);
      SameDatesKeepHistory(w.db.users, w.db.users - {op.user}, w.past.renames, w.past.users);
    }
  }

  lemma RenameStepKeepsNames(w: World, op: Op)
    requires op.RenameTo? && NamesInv(w) && w.db.users.Keys <= w.past.users
    ensures NamesInv(Next(w, op)) && Lasts(w.db.quarantine, Next(w, op).db.quarantine)
  {
    RenameKeepsNames(w.db, op.user, op.name, w.now);
    RenameKeepsHistory(w, op.user, op.name);
  }

  lemma MutateStepKeepsNames(w: World, op: Op)
    requires op.Mutate? && NamesInv(w)
    ensures NamesInv(Next(w, op)) && Next(w, op).db.quarantine == w.db.quarantine
  {
    MutateKeepsNames(w.db, op.caller, op.action, op.target, op.reason, op.key);
    MutateTouches(w.db, op.caller, op.action, op.target, op.reason, op.key);
    OthersRenameNobody(w, op);
    MutatedNamesKeep(w, Next(w, op));
  }

  lemma MutatedNamesKeep(w: World, next: World)
    requires NamesInv(w) && next.db.users.Keys == w.db.users.Keys && next.db.quarantine == w.db.quarantine
             && next.now == w.now
    requires forall u | u in w.db.users ::
               next.db.users[u].nameKey == w.db.users[u].nameKey
                 && next.db.users[u].nameChangedAt == w.db.users[u].nameChangedAt
    requires next.past.renames == w.past.renames && next.past.users == w.past.users
    ensures NamesInv(next)
  {
    SameDatesKeepHistory(w.db.users, next.db.users, w.past.renames, w.past.users);
  }

  lemma OtherStepKeepsNames(w: World, op: Op)
    requires NamesInv(w) && !op.Verify? && !op.Close? && !op.RenameTo? && !op.Mutate?
    ensures NamesInv(Next(w, op)) && Next(w, op).db.quarantine == w.db.quarantine
  {
    OthersTouchNoName(op);
    StepTouches(w, op);
    KeptNames(w.db, After(w, op), Touches(op));
    OthersRenameNobody(w, op);
    SameNamesKeep(w, Next(w, op));
  }

  lemma OthersTouchNoName(op: Op)
    requires !op.Verify? && !op.Close? && !op.RenameTo? && !op.Mutate?
    ensures Users !in Touches(op) && Quarantine !in Touches(op)
  {
  }

  lemma OthersRenameNobody(w: World, op: Op)
    requires !op.Verify? && !op.RenameTo?
    ensures Next(w, op).past.renames == w.past.renames && Next(w, op).past.users == w.past.users
            && w.now <= Next(w, op).now
  {
  }

  lemma SameNamesKeep(w: World, next: World)
    requires NamesInv(w) && next.db.users == w.db.users && next.db.quarantine == w.db.quarantine && w.now <= next.now
    requires next.past.renames == w.past.renames && next.past.users == w.past.users
    ensures NamesInv(next)
  {
  }

  lemma StepKeepsNames(w: World, op: Op)
    requires NamesInv(w) && Enabled(w, op) && w.db.users.Keys <= w.past.users
    ensures NamesInv(Next(w, op)) && Lasts(w.db.quarantine, Next(w, op).db.quarantine)
  {
    if op.Verify? {
      VerifyStepKeepsNames(w, op);
    } else if op.Close? {
      CloseStepKeepsNames(w, op);
    } else if op.RenameTo? {
      RenameStepKeepsNames(w, op);
    } else if op.Mutate? {
      MutateStepKeepsNames(w, op);
    } else {
      OtherStepKeepsNames(w, op);
    }
  }

  /** The moment a name is given up, by a rename or a closure, it goes into quarantine. */
  lemma GivingUpQuarantines(w: World, op: Op, u: Id)
    requires NamesInv(w) && u in w.db.users
    requires (op.RenameTo? && op.user == u && RenameOutcome(w.db, u, op.name, w.now).1 == Renamed
               && op.name.key != w.db.users[u].nameKey)
          || (op.Close? && op.user == u && CloseOutcome(w.db, u, op.challenge, op.code, w.now).1 == Closed)
    ensures var key := w.db.users[u].nameKey;
            key in Next(w, op).db.quarantine && Next(w, op).db.quarantine[key] == w.now + FORMER_NAME_QUARANTINE
  {
    if op.Close? {
      CloseIsAllOrAttempt(w.db, op.user, op.challenge, op.code, w.now);
      ClosingKeepsNames(w.db, u, w.now);
    }
  }
}
