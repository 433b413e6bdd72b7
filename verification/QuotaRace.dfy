/**
  Reservations and adjustments read the balance first and write later, holding only the user's lock.
  Settlement holds the trip's lock instead, so it may run in between. Here the read and the write are
  separate steps and settlements, closures of other users and new grants interleave freely.
  */
module QuotaRace {
  import opened Schema
  import opened Quota
  import opened Admin
  import opened Money
  import opened AccountClosure

  /** A transaction that has locked its user and read the balance. */
  datatype Open =
    | Reserving(request: Request, trip: Id, entry: Id, read: QuotaSnapshot)
    | Adjusting(caller: Context, change: Change, key: Id, read: QuotaSnapshot)

  /** `open` maps each locked user to the one transaction that holds the lock. */
  datatype State = State(db: Db, open: map<Id, Open>)

  datatype Step =
    | BeginReserve(request: Request, trip: Id, entry: Id)
    | BeginAdjust(caller: Context, change: Change, key: Id)
    | Commit(user: Id, window: Time, now: Time)
    | Abort(user: Id)
    | Settle(trip: Id, report: Terminal, owner: Option<Id>, now: Time)
    | Erase(user: Id, now: Time)
    | NewGrant(grant: Id, user: Id, units: nat)

  ghost predicate Enabled(s: State, step: Step) {
    match step
    case BeginReserve(r, _, e) => r.user !in s.open && ReserveRefusal(s.db, r).None? && Unclaimed(s, e)
    case BeginAdjust(caller, c, _) =>
      c.target !in s.open && AdjustRefusal(s.db, caller, c, Snapshot(s.db, c.target)).None?
    case Commit(u, _, _) => u in s.open
    case Abort(u) => u in s.open
    case Settle(_, _, _, _) => true
    case Erase(u, _) => u !in s.open && u in s.db.users && u in s.db.identities
    case NewGrant(g, u, _) => g !in s.db.grants && u !in s.open
  }

  /** uuid4 gives no identifier that is stored or about to be stored. */
  ghost predicate Unclaimed(s: State, e: Id) {
    e !in s.db.entries && forall u | u in s.open && s.open[u].Reserving? :: s.open[u].entry != e
  }

  function Next(s: State, step: Step): State {
    match step
    case BeginReserve(r, t, e) => s.(open := s.open[r.user := Reserving(r, t, e, Snapshot(s.db, r.user))])
    case BeginAdjust(caller, c, k) => s.(open := s.open[c.target := Adjusting(caller, c, k, Snapshot(s.db, c.target))])
    case Commit(u, window, now) =>
      if u !in s.open then s
      else
        (match s.open[u]
         case Reserving(r, t, e, _) => State(ReserveWrite(s.db, r, t, e, window, now), s.open - {u})
         case Adjusting(caller, c, k, read) => State(AdjustWrite(s.db, caller, c, k, read), s.open - {u}))
    case Abort(u) => s.(open := s.open - {u})
    case Settle(t, r, owner, now) => s.(db := SettleOutcome(s.db, t, r, owner, now).0)
    case Erase(u, now) => if u in s.db.users && u in s.db.identities then s.(db := CloseWrite(s.db, u, now)) else s
    case NewGrant(g, u, units) => s.(db := s.db.(grants := s.db.grants[g := Grant(u, units)]))
  }

  /** The old reading is still safe: the limit is the same, and no more has been used since. */
  ghost predicate StillCovered(db: Db, u: Id, o: Open) {
    && Limit(db.grants, db.adjustments, u) == o.read.limit
    && Used(db.entries, u) <= o.read.reserved + o.read.consumed
    && o.read.Free() >= 0
    && match o
       case Reserving(r, _, e, read) => r.user == u && e !in db.entries && read.Free() >= 1
       case Adjusting(_, c, _, read) => c.target == u && read.Free() + c.delta >= 0
  }

  ghost predicate Safe(s: State) {
    && MoneyOk(s.db)
    && (forall u | u in s.open :: StillCovered(s.db, u, s.open[u]))
    && forall u, v | u in s.open && v in s.open && s.open[u].Reserving? && s.open[v].Reserving?
                     && s.open[u].entry == s.open[v].entry :: u == v
  }

  /** Transactions of other users do not see the change. */
  lemma OthersStayCovered(s: State, db: Db, u: Id)
    requires Safe(s) && MoneyOk(db)
    requires forall v | v != u && v in s.open ::
               Limit(db.grants, db.adjustments, v) == Limit(s.db.grants, s.db.adjustments, v)
    requires forall v | v != u && v in s.open :: Used(db.entries, v) <= Used(s.db.entries, v)
    requires forall v | v != u && v in s.open && s.open[v].Reserving? :: s.open[v].entry !in db.entries
    ensures Safe(State(db, s.open - {u}))
  {
    forall v | v in s.open - {u}
      ensures StillCovered(db, v, s.open[v])
    {
      assert StillCovered(s.db, v, s.open[v]);
    }
  }

  lemma BeginIsSafe(s: State, u: Id, o: Open)
    requires Safe(s) && u !in s.open && StillCovered(s.db, u, o)
    requires o.Reserving? ==> Unclaimed(s, o.entry)
    ensures Safe(s.(open := s.open[u := o]))
  {
  }

  lemma CommitIsSafe(s: State, u: Id, window: Time, now: Time)
    requires Safe(s) && u in s.open
    ensures Safe(Next(s, Commit(u, window, now)))
  {
    var o := s.open[u];
    assert StillCovered(s.db, u, o);
    match o
    case Reserving(r, t, e, read) =>
      var db := ReserveWrite(s.db, r, t, e, window, now);
      ReserveWriteKeepsMoney(s.db, r, t, e, window, now);
      forall v | v != u && v in s.open && s.open[v].Reserving?
        ensures s.open[v].entry !in db.entries
      {
        assert StillCovered(s.db, v, s.open[v]);
      }
      OthersStayCovered(s, db, u);
    case Adjusting(caller, c, k, read) =>
      var db := AdjustWrite(s.db, caller, c, k, read);
      AdjustWriteKeepsMoney(s.db, caller, c, k, read);
      AdjustWriteTables(s.db, caller, c, k, read);
      forall v | v in s.open && s.open[v].Reserving?
        ensures s.open[v].entry !in db.entries
      {
        assert StillCovered(s.db, v, s.open[v]);
      }
      OthersStayCovered(s, db, u);
  }

  lemma SettleIsSafe(s: State, t: Id, r: Terminal, owner: Option<Id>, now: Time)
    requires Safe(s)
    ensures Safe(Next(s, Settle(t, r, owner, now)))
  {
    var db := SettleOutcome(s.db, t, r, owner, now).0;
    SettleKeepsMoney(s.db, t, r, owner, now);
    forall v | v in s.open
      ensures StillCovered(db, v, s.open[v])
    {
      assert StillCovered(s.db, v, s.open[v]);
    }
  }

  lemma EraseIsSafe(s: State, u: Id, now: Time)
    requires Safe(s) && Enabled(s, Erase(u, now))
    ensures Safe(Next(s, Erase(u, now)))
  {
    CloseWriteTables(s.db, u, now);
    ErasedIsSafe(s, CloseWrite(s.db, u, now), u);
  }

  lemma ErasedIsSafe(s: State, db: Db, u: Id)
    requires Safe(s) && u !in s.open && db.entries == EntriesWithout(s.db.entries, u)
    requires db.grants == GrantsWithout(s.db.grants, u) && db.adjustments == ForgetIn(s.db.adjustments, u)
    ensures Safe(s.(db := db))
  {
    ErasureKeepsMoney(s.db.grants, s.db.adjustments, s.db.entries, u);
    DrawnStayUnused(s, u);
    OthersStayCovered(s, db, u);
    assert s.open - {u} == s.open;
  }

  lemma DrawnStayUnused(s: State, u: Id)
    requires Safe(s)
    ensures forall v | v in s.open && s.open[v].Reserving? :: s.open[v].entry !in EntriesWithout(s.db.entries, u)
  {
    forall v | v in s.open && s.open[v].Reserving?
      ensures s.open[v].entry !in EntriesWithout(s.db.entries, u)
    {
      assert StillCovered(s.db, v, s.open[v]);
    }
  }

  lemma GrantIsSafe(s: State, g: Id, u: Id, units: nat)
    requires Safe(s) && Enabled(s, NewGrant(g, u, units))
    ensures Safe(Next(s, NewGrant(g, u, units)))
  {
    GrantKeepsMoney(s.db.grants, s.db.adjustments, s.db.entries, g, Grant(u, units));
    forall v | v in s.open && s.open[v].Reserving?
      ensures s.open[v].entry !in s.db.entries
    {
      assert StillCovered(s.db, v, s.open[v]);
    }
    OthersStayCovered(s, s.db.(grants := s.db.grants[g := Grant(u, units)]), u);
    assert s.open - {u} == s.open;
  }

  lemma BeginReserveIsSafe(s: State, r: Request, t: Id, e: Id)
    requires Safe(s) && r.user !in s.open && Snapshot(s.db, r.user).Remaining() >= 1 && Unclaimed(s, e)
    ensures Safe(Next(s, BeginReserve(r, t, e)))
  {
    ClampNeverFires(s.db, r.user);
    BeginIsSafe(s, r.user, Reserving(r, t, e, Snapshot(s.db, r.user)));
  }

  lemma BeginAdjustIsSafe(s: State, caller: Context, c: Change, k: Id)
    requires Safe(s) && Enabled(s, BeginAdjust(caller, c, k))
    ensures Safe(Next(s, BeginAdjust(caller, c, k)))
  {
    ClampNeverFires(s.db, c.target);
    BeginIsSafe(s, c.target, Adjusting(caller, c, k, Snapshot(s.db, c.target)));
  }

  lemma AbortIsSafe(s: State, u: Id)
    requires Safe(s)
    ensures Safe(Next(s, Abort(u)))
  {
    forall v | v in s.open && s.open[v].Reserving?
      ensures s.open[v].entry !in s.db.entries
    {
      assert StillCovered(s.db, v, s.open[v]);
    }
    OthersStayCovered(s, s.db, u);
  }

  lemma StepIsSafe(s: State, step: Step)
    requires Safe(s) && Enabled(s, step)
    ensures Safe(Next(s, step))
  {
    match step
    case BeginReserve(r, t, e) =>
      ReserveConditions(s.db, r);
      BeginReserveIsSafe(s, r, t, e);
    case BeginAdjust(caller, c, k) => BeginAdjustIsSafe(s, caller, c, k);
    case Commit(u, window, now) => CommitIsSafe(s, u, window, now);
    case Abort(u) => AbortIsSafe(s, u);
    case Settle(t, r, owner, now) => SettleIsSafe(s, t, r, owner, now);
    case Erase(u, now) => EraseIsSafe(s, u, now);
    case NewGrant(g, u, units) => GrantIsSafe(s, g, u, units);
  }

  function Run(s: State, steps: seq<Step>): State {
    if steps == [] then s else Next(Run(s, steps[..|steps| - 1]), steps[|steps| - 1])
  }

  ghost predicate Possible(s: State, steps: seq<Step>) {
    steps != [] ==> Possible(s, steps[..|steps| - 1]) && Enabled(Run(s, steps[..|steps| - 1]), steps[|steps| - 1])
  }

  /** Whatever settles between a reading and its write, no user ever spends more than the limit. */
  lemma {:induction false} NeverOverspent(s: State, steps: seq<Step>, u: Id)
    requires Safe(s) && Possible(s, steps)
    ensures Safe(Run(s, steps))
    ensures Used(Run(s, steps).db.entries, u) <= Limit(Run(s, steps).db.grants, Run(s, steps).db.adjustments, u)
    ensures Snapshot(Run(s, steps).db, u).Remaining() == Snapshot(Run(s, steps).db, u).Free()
  {
    if steps != [] {
      NeverOverspent(s, steps[..|steps| - 1], u);
      StepIsSafe(Run(s, steps[..|steps| - 1]), steps[|steps| - 1]);
    }
    ClampNeverFires(Run(s, steps).db, u);
  }

  /** The recorded balance is a lower bound, and exact if and only if nothing was freed since the reading. */
  lemma RecordedBalance(s: State, u: Id, window: Time, now: Time)
    requires Safe(s) && u in s.open && s.open[u].Adjusting?
    ensures var db := Next(s, Commit(u, window, now)).db;
            && |db.adjustments| == |s.db.adjustments| + 1
            && db.adjustments[|s.db.adjustments|].after <= Free(db, u)
            && (db.adjustments[|s.db.adjustments|].after == Free(db, u)
                <==> Used(s.db.entries, u) == s.open[u].read.reserved + s.open[u].read.consumed)
  {
    var o := s.open[u];
    assert StillCovered(s.db, u, o);
    AdjustWriteKeepsMoney(s.db, o.caller, o.change, o.key, o.read);
    AdjustWriteTables(s.db, o.caller, o.change, o.key, o.read);
    assert Used(s.db.entries, u) <= Limit(s.db.grants, s.db.adjustments, u);
  }

  /** The trip has one reserved unit of the user. */
  predicate HoldsOneUnit(db: Db, t: Id, u: Id) {
    && t in db.trips && Holds(db.entries, db.trips[t].entryId, RESERVED)
    && db.entries[db.trips[t].entryId.value].user == u && db.entries[db.trips[t].entryId.value].units == 1
  }

  /** A trip that fails between the reading and the write: the recorded balance is one unit too low. */
  lemma FailureBetweenIsMissed(
    s: State, caller: Context, c: Change, key: Id, t: Id, report: Terminal, window: Time, now: Time)
    requires Safe(s) && Enabled(s, BeginAdjust(caller, c, key)) && report.status != SUCCESS
    requires SettleOutcome(s.db, t, report, None, now).1 == Settled
    requires HoldsOneUnit(s.db, t, c.target)
    ensures var steps, n := [BeginAdjust(caller, c, key)] + [Settle(t, report, None, now)]
            + [Commit(c.target, window, now)], |s.db.adjustments|;
            var db := Run(s, steps).db;
            && Possible(s, steps) && |db.adjustments| == n + 1
            && db.adjustments[n].after == Free(db, c.target) - 1
            && Snapshot(db, c.target).Remaining() == db.adjustments[n].after + 1
  {
    var begin, settle, commit :=
        BeginAdjust(caller, c, key), Settle(t, report, None, now), Commit(c.target, window, now);
    BeginAdjustIsSafe(s, caller, c, key);
    FailureThenCommit(Next(s, begin), c.target, t, report, window, now);
    ThreeSteps(s, begin, settle, commit);
  }

  lemma FailureThenCommit(s: State, u: Id, t: Id, report: Terminal, window: Time, now: Time)
    requires Safe(s) && u in s.open && s.open[u].Adjusting? && Free(s.db, u) == s.open[u].read.Free()
             && report.status != SUCCESS
    requires SettleOutcome(s.db, t, report, None, now).1 == Settled
    requires HoldsOneUnit(s.db, t, u)
    ensures var db := Next(Next(s, Settle(t, report, None, now)), Commit(u, window, now)).db;
            && |db.adjustments| == |s.db.adjustments| + 1
            && db.adjustments[|s.db.adjustments|].after == Free(db, u) - 1
            && Snapshot(db, u).Remaining() == Free(db, u)
  {
    SettleIsSafe(s, t, report, None, now);
    FailureFreesOne(s.db, t, report, now, u);
    RecordedIsOneLess(Next(s, Settle(t, report, None, now)), u, window, now);
  }

  lemma FailureFreesOne(db: Db, t: Id, report: Terminal, now: Time, u: Id)
    requires SettleOutcome(db, t, report, None, now).1 == Settled && report.status != SUCCESS
    requires HoldsOneUnit(db, t, u)
    ensures var after := SettleOutcome(db, t, report, None, now).0;
            Free(after, u) == Free(db, u) + 1 && after.adjustments == db.adjustments
  {
    SettlementGivesBackOne(db, t, report, None, now, u);
    SettledTables(db, t, report, None, now);
  }

  lemma RecordedIsOneLess(s: State, u: Id, window: Time, now: Time)
    requires Safe(s) && u in s.open && s.open[u].Adjusting? && Free(s.db, u) == s.open[u].read.Free() + 1
    ensures var db := Next(s, Commit(u, window, now)).db;
            && |db.adjustments| == |s.db.adjustments| + 1 && db.adjustments[|s.db.adjustments|].after == Free(db, u) - 1
            && Snapshot(db, u).Remaining() == Free(db, u)
  {
    var o := s.open[u];
    assert StillCovered(s.db, u, o);
    WriteRecordsReading(s.db, o.caller, o.change, o.key, o.read);
    ClampNeverFires(Next(s, Commit(u, window, now)).db, u);
  }

  lemma WriteRecordsReading(db: Db, caller: Context, c: Change, key: Id, read: QuotaSnapshot)
    requires MoneyOk(db) && Free(db, c.target) + c.delta >= 0 && read.Free() >= 0
    ensures var after := AdjustWrite(db, caller, c, key, read);
            && MoneyOk(after) && |after.adjustments| == |db.adjustments| + 1
            && Free(after, c.target) == Free(db, c.target) + c.delta
            && after.adjustments[|db.adjustments|].after == read.Free() + c.delta
  {
    AdjustWriteKeepsMoney(db, caller, c, key, read);
    AdjustWriteTables(db, caller, c, key, read);
  }

  lemma ThreeSteps(s: State, a: Step, b: Step, c: Step)
    ensures Run(s, [a] + [b] + [c]) == Next(Next(Next(s, a), b), c)
    ensures Possible(s, [a] + [b] + [c]) <==> Enabled(s, a) && Enabled(Next(s, a), b) && Enabled(Next(Next(s, a), b), c)
  {
    OneMoreStep(s, [], a);
    assert [] + [a] == [a];
    OneMoreStep(s, [a], b);
    OneMoreStep(s, [a] + [b], c);
  }

  lemma OneMoreStep(s: State, steps: seq<Step>, step: Step)
    ensures Run(s, steps + [step]) == Next(Run(s, steps), step)
    ensures Possible(s, steps + [step]) <==> Possible(s, steps) && Enabled(Run(s, steps), step)
  {
    assert (steps + [step])[..|steps|] == steps;
  }
}
