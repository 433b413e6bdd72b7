/** The balance and the reversal chains, kept by every step of the service. */
module MoneyRuns {
  import opened Schema
  import opened Quota
  import opened AccountClosure
  import opened Admin
  import opened Auth
  import opened Money
  import opened Reversals
  import opened World
  import opened Frames
  import opened Accounts

  ghost predicate MoneyInv(w: World) {
    MoneyOk(w.db) && ChainsOk(w.db.adjustments)
  }

  lemma KeptMoney(a: Db, b: Db, changed: set<Kind>)
    requires Only(a, b, changed)
    ensures Grants !in changed ==> b.grants == a.grants
    ensures Adjustments !in changed ==> b.adjustments == a.adjustments
    ensures Entries !in changed ==> b.entries == a.entries
  {
  }

  lemma KeptSpending(a: Db, b: Db, changed: set<Kind>)
    requires Only(a, b, changed) && Adjustments !in changed && Entries !in changed
    ensures b.adjustments == a.adjustments && b.entries == a.entries
  {
  }

  lemma SameMoney(w: World, next: World)
    requires MoneyInv(w) && next.db.grants == w.db.grants && next.db.adjustments == w.db.adjustments
             && next.db.entries == w.db.entries
    ensures MoneyInv(next)
  {
    forall u: Id
      ensures Used(next.db.entries, u) <= Limit(next.db.grants, next.db.adjustments, u)
    {
      assert Used(w.db.entries, u) <= Limit(w.db.grants, w.db.adjustments, u);
    }
  }

  lemma CloseStepKeepsMoney(w: World, op: Op)
    requires op.Close? && MoneyInv(w)
    ensures MoneyInv(Next(w, op))
  {
    CloseIsAllOrAttempt(w.db, op.user, op.challenge, op.code, w.now);
    if CloseOutcome(w.db, op.user, op.challenge, op.code, w.now).1 == Closed {
      CloseWriteTables(w.db, op.user, w.now);
      ErasureKeepsMoney(w.db.grants, w.db.adjustments, w.db.entries, op.user);
      ErasureKeepsChains(w.db.adjustments, op.user);
    } else {
      SameMoney(w, Next(w, op));
    }
  }

  lemma ReserveStepKeepsMoney(w: World, op: Op)
    requires op.Reserve? && MoneyInv(w) && Enabled(w, op)
    ensures MoneyInv(Next(w, op))
  {
    ReserveKeepsMoney(w.db, op.request, op.ids.trip, op.ids.entry, op.window, w.now);
    ReserveTouches(w.db, op.request, op.ids, op.window, w.now);
    KeptMoney(w.db, After(w, op), {Trips, Entries});
  }

  lemma SettleStepKeepsMoney(w: World, op: Op)
    requires op.Settle? && MoneyInv(w)
    ensures MoneyInv(Next(w, op))
  {
    SettleKeepsMoney(w.db, op.trip, op.report, op.owner, w.now);
    SettleTouches(w.db, op.trip, op.report, op.owner, w.now);
    KeptMoney(w.db, After(w, op), {Trips, Entries});
  }

  lemma AdjustStepKeepsMoney(w: World, op: Op)
    requires (op.Adjust? || op.Reverse?) && MoneyInv(w)
    ensures MoneyInv(Next(w, op))
  {
    if op.Adjust? {
      Money.AdjustKeepsMoney(w.db, op.caller, op.change, op.key);
      AdjustKeepsChains(w.db, op.caller, op.change, op.key);
    } else {
      var c := ReversalOf(w.db, op.original, op.note);
      if c.Some? {
        Money.AdjustKeepsMoney(w.db, op.caller, c.value, op.key);
        AdjustKeepsChains(w.db, op.caller, c.value, op.key);
      }
    }
  }

  lemma VerifyKeepsMoney(db: Db, c: Id, code: string, drawn: Drawn, draws: seq<string>, units: nat, now: Time)
    requires MoneyOk(db) && ChainsOk(db.adjustments) && drawn.grant !in db.grants
    ensures var after := VerifyOutcome(db, c, code, drawn, draws, units, now).0;
            MoneyOk(after) && ChainsOk(after.adjustments)
  {
    var (after, answer) := VerifyOutcome(db, c, code, drawn, draws, units, now);
    VerifyTouches(db, c, code, drawn, draws, units, now);
    KeptSpending(db, after, {Users, Identities, Sessions, Challenges, Invitations, Redemptions, Grants});
    GrantsAfterVerify(db, c, code, drawn, draws, units, now);
    GrantedMoney(db, after, drawn, units, answer.Registered?);
  }

  lemma GrantedMoney(db: Db, after: Db, drawn: Drawn, units: nat, granted: bool)
    requires MoneyOk(db) && ChainsOk(db.adjustments) && drawn.grant !in db.grants
    requires after.grants == if granted then db.grants[drawn.grant := Grant(drawn.user, units)] else db.grants
    requires after.adjustments == db.adjustments && after.entries == db.entries
    ensures MoneyOk(after) && ChainsOk(after.adjustments)
  {
    if granted {
      GrantKeepsMoney(db.grants, db.adjustments, db.entries, drawn.grant, Grant(drawn.user, units));
    } else {
      forall u: Id
        ensures Used(after.entries, u) <= Limit(after.grants, after.adjustments, u)
      {
        assert Used(db.entries, u) <= Limit(db.grants, db.adjustments, u);
      }
    }
  }

  lemma GrantsAfterVerify(db: Db, c: Id, code: string, drawn: Drawn, draws: seq<string>, units: nat, now: Time)
    ensures var (after, answer) := VerifyOutcome(db, c, code, drawn, draws, units, now);
            after.grants == if answer.Registered? then db.grants[drawn.grant := Grant(drawn.user, units)] else db.grants
  {
    var (after, answer) := VerifyOutcome(db, c, code, drawn, draws, units, now);
    if answer.LoggedIn? {
      VerifyLogsIn(db, c, code, drawn, draws, units, now);
      LoginTables(db, c, drawn.session, answer.user, now);
    } else if answer.Registered? {
      var name := VerifyRegisters(db, c, code, drawn, draws, units, now);
      WelcomeTables(db, c, drawn, name, units, now);
    } else {
      FailureTouches(db, c, code, drawn, draws, units, now);
      KeptMoney(db, after, {Challenges});
    }
  }

  predicate ForMoney(op: Op) {
    op.Reserve? || op.Settle? || op.Close? || op.Adjust? || op.Reverse? || op.Verify?
  }

  lemma OthersTouchNoMoney(op: Op)
    requires !ForMoney(op)
    ensures Touches(op) !! {Grants, Adjustments, Entries}
  {
  }

  lemma OtherStepKeepsMoney(w: World, op: Op)
    requires MoneyInv(w) && !ForMoney(op)
    ensures MoneyInv(Next(w, op))
  {
    OthersTouchNoMoney(op);
    StepTouches(w, op);
    KeptMoney(w.db, After(w, op), Touches(op));
    SameMoney(w, Next(w, op));
  }

  lemma StepKeepsMoney(w: World, op: Op)
    requires MoneyInv(w) && Enabled(w, op)
    ensures MoneyInv(Next(w, op))
  {
    if op.Reserve? {
      ReserveStepKeepsMoney(w, op);
    } else if op.Settle? {
      SettleStepKeepsMoney(w, op);
    } else if op.Close? {
      CloseStepKeepsMoney(w, op);
    } else if op.Adjust? || op.Reverse? {
      AdjustStepKeepsMoney(w, op);
    } else if op.Verify? {
      VerifyKeepsMoney(w.db, op.challenge, op.code, op.drawn, op.draws, op.units, w.now);
    } else {
      OtherStepKeepsMoney(w, op);
    }
  }
}
