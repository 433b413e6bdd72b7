/**
  The balance: reserved and consumed units never exceed what was granted and adjusted, and every
  transaction moves the balance by exactly what it says.
  */
module Money {
  import opened Schema
  import opened Finite
  import opened Quota
  import opened AccountClosure
  import opened Admin

  function Used(entries: map<Id, Entry>, u: Id): int {
    Sum(EntryRows(entries, u, RESERVED)) + Sum(EntryRows(entries, u, CONSUMED))
  }

  function Free(db: Db, u: Id): int {
    Limit(db.grants, db.adjustments, u) - Used(db.entries, u)
  }

  ghost predicate Solvent(grants: map<Id, Grant>, adjustments: seq<Adjustment>, entries: map<Id, Entry>) {
    forall u: Id :: Used(entries, u) <= Limit(grants, adjustments, u)
  }

  ghost predicate MoneyOk(db: Db) {
    Solvent(db.grants, db.adjustments, db.entries)
  }

  /** The clamp in `remaining` never fires. */
  lemma ClampNeverFires(db: Db, u: Id)
    requires MoneyOk(db)
    ensures Snapshot(db, u).Remaining() == Free(db, u)
  {
    assert Used(db.entries, u) <= Limit(db.grants, db.adjustments, u);
    Unclamped(Limit(db.grants, db.adjustments, u), Sum(EntryRows(db.entries, u, RESERVED)),
        Sum(EntryRows(db.entries, u, CONSUMED)));
  }

  lemma Unclamped(limit: int, reserved: int, consumed: int)
    requires reserved + consumed <= limit
    ensures QuotaSnapshot(limit, reserved, consumed).Remaining() == limit - (reserved + consumed)
  {
  }

  // ---- How each write moves the sums ---------------------------------------------------------

  lemma NewEntryUses(entries: map<Id, Entry>, e: Id, entry: Entry, v: Id)
    requires e !in entries && entry.status == RESERVED
    ensures Used(entries[e := entry], v) == Used(entries, v) + if v == entry.user then entry.units else 0
  {
    if v == entry.user {
      assert EntryRows(entries[e := entry], v, RESERVED) == EntryRows(entries, v, RESERVED)[e := entry.units];
      SumPlus(EntryRows(entries, v, RESERVED), e, entry.units);
    } else {
      assert EntryRows(entries[e := entry], v, RESERVED) == EntryRows(entries, v, RESERVED);
    }
    assert EntryRows(entries[e := entry], v, CONSUMED) == EntryRows(entries, v, CONSUMED);
  }

  /** Settling keeps the units when the trip succeeded and frees them otherwise. */
  lemma SettlingFrees(entries: map<Id, Entry>, e: Id, status: EntryStatus, v: Id)
    requires e in entries && entries[e].status == RESERVED && status != RESERVED
    ensures var after := entries[e := entries[e].(status := status)];
            Used(after, v) == Used(entries, v) - if v == entries[e].user && status == RELEASED then entries[e].units
              else 0
  {
    var after := entries[e := entries[e].(status := status)];
    var reserved, consumed := EntryRows(entries, v, RESERVED), EntryRows(entries, v, CONSUMED);
    if v == entries[e].user {
      SumWithout(reserved, e);
      assert EntryRows(after, v, RESERVED) == reserved - {e};
      if status == CONSUMED {
        assert EntryRows(after, v, CONSUMED) == consumed[e := entries[e].units];
        SumPlus(consumed, e, entries[e].units);
      } else {
        assert EntryRows(after, v, CONSUMED) == consumed;
      }
    } else {
      assert EntryRows(after, v, RESERVED) == reserved && EntryRows(after, v, CONSUMED) == consumed;
    }
  }

  lemma ErasureDropsEntries(entries: map<Id, Entry>, u: Id, v: Id)
    ensures Used(EntriesWithout(entries, u), v) == if v == u then 0 else Used(entries, v)
  {
    var rest := EntriesWithout(entries, u);
    if v == u {
      assert EntryRows(rest, v, RESERVED) == map[] && EntryRows(rest, v, CONSUMED) == map[];
    } else {
      assert EntryRows(rest, v, RESERVED) == EntryRows(entries, v, RESERVED);
      assert EntryRows(rest, v, CONSUMED) == EntryRows(entries, v, CONSUMED);
    }
  }

  lemma ErasureDropsGrants(grants: map<Id, Grant>, u: Id, v: Id)
    ensures Sum(GrantedRows(GrantsWithout(grants, u), v)) == if v == u then 0 else Sum(GrantedRows(grants, v))
  {
    if v == u {
      assert GrantedRows(GrantsWithout(grants, u), v) == map[];
    } else {
      assert GrantedRows(GrantsWithout(grants, u), v) == GrantedRows(grants, v);
    }
  }

  lemma {:induction false} ErasureDropsAdjustments(adjustments: seq<Adjustment>, u: Id, v: Id)
    ensures Adjusted(ForgetIn(adjustments, u), v) == if v == u then 0 else Adjusted(adjustments, v)
  {
    if adjustments != [] {
      var front := adjustments[..|adjustments| - 1];
      ErasureDropsAdjustments(front, u, v);
      assert ForgetIn(adjustments, u)[..|adjustments| - 1] == ForgetIn(front, u);
    }
  }

  lemma NewGrantAdds(grants: map<Id, Grant>, g: Id, grant: Grant, v: Id)
    requires g !in grants
    ensures Sum(GrantedRows(grants[g := grant], v)) == Sum(GrantedRows(grants, v)) + if v
            == grant.user then grant.units else 0
  {
    if v == grant.user {
      assert GrantedRows(grants[g := grant], v) == GrantedRows(grants, v)[g := grant.units];
      SumPlus(GrantedRows(grants, v), g, grant.units);
    } else {
      assert GrantedRows(grants[g := grant], v) == GrantedRows(grants, v);
    }
  }

  lemma AdjustmentAdds(adjustments: seq<Adjustment>, a: Adjustment, v: Id)
    ensures Adjusted(adjustments + [a], v) == Adjusted(adjustments, v) + if a.target == Some(v) then a.delta else 0
  {
    assert (adjustments + [a])[..|adjustments|] == adjustments;
  }

  // ---- Every transaction keeps the bound -----------------------------------------------------

  lemma ReserveKeepsMoney(db: Db, r: Request, trip: Id, entry: Id, window: Time, now: Time)
    requires MoneyOk(db) && entry !in db.entries
    ensures MoneyOk(ReserveOutcome(db, r, trip, entry, window, now).0)
  {
    if ReserveRefusal(db, r).None? {
      ReserveConditions(db, r);
      ClampNeverFires(db, r.user);
      ReserveWriteKeepsMoney(db, r, trip, entry, window, now);
    } else {
      assert ReserveOutcome(db, r, trip, entry, window, now).0 == db;
    }
  }

  /** The write needs only one free unit at the time it is made, whatever was read before. */
  lemma ReserveWriteKeepsMoney(db: Db, r: Request, trip: Id, entry: Id, window: Time, now: Time)
    requires MoneyOk(db) && entry !in db.entries && Free(db, r.user) >= 1
    ensures MoneyOk(ReserveWrite(db, r, trip, entry, window, now))
    ensures forall v :: Used(ReserveWrite(db, r, trip, entry, window, now).entries, v)
                     == Used(db.entries, v) + if v == r.user then 1 else 0
  {
    forall v
      ensures Used(ReserveWrite(db, r, trip, entry, window, now).entries, v)
           == Used(db.entries, v) + if v == r.user then 1 else 0
    {
      NewEntryUses(db.entries, entry, Entry(r.user, trip, 1, RESERVED), v);
    }
  }

  lemma SettleKeepsMoney(db: Db, t: Id, r: Terminal, owner: Option<Id>, now: Time)
    requires MoneyOk(db)
    ensures MoneyOk(SettleOutcome(db, t, r, owner, now).0)
    ensures forall v :: Used(SettleOutcome(db, t, r, owner, now).0.entries, v) <= Used(db.entries, v)
  {
    if SettleRefusal(db, t, r, owner).None? {
      var e := db.trips[t].entryId.value;
      var after := SettleWrite(db, t, r, now);
      if db.entries[e].status == RESERVED {
        forall v
          ensures Used(after.entries, v) <= Used(db.entries, v)
        {
          SettlingFrees(db.entries, e, Spent(r.status), v);
        }
      } else {
        assert after.entries == db.entries;
      }
    }
  }

  lemma ErasureKeepsMoney(grants: map<Id, Grant>, adjustments: seq<Adjustment>, entries: map<Id, Entry>, u: Id)
    requires Solvent(grants, adjustments, entries)
    ensures Solvent(GrantsWithout(grants, u), ForgetIn(adjustments, u), EntriesWithout(entries, u))
    ensures forall v | v != u ::
              Limit(GrantsWithout(grants, u), ForgetIn(adjustments, u), v) == Limit(grants, adjustments, v)
                              && Used(EntriesWithout(entries, u), v) == Used(entries, v)
  {
    forall v: Id
      ensures Used(EntriesWithout(entries, u), v) <= Limit(GrantsWithout(grants, u), ForgetIn(adjustments, u), v)
      ensures v != u ==> Limit(GrantsWithout(grants, u), ForgetIn(adjustments, u), v) == Limit(grants, adjustments, v)
      ensures v != u ==> Used(EntriesWithout(entries, u), v) == Used(entries, v)
    {
      ErasureDropsEntries(entries, u, v);
      ErasureDropsGrants(grants, u, v);
      ErasureDropsAdjustments(adjustments, u, v);
    }
  }

  lemma GrantKeepsMoney(
    grants: map<Id, Grant>, adjustments: seq<Adjustment>, entries: map<Id, Entry>, g: Id, grant: Grant)
    requires Solvent(grants, adjustments, entries) && g !in grants
    ensures Solvent(grants[g := grant], adjustments, entries)
    ensures forall v | v != grant.user :: Limit(grants[g := grant], adjustments, v) == Limit(grants, adjustments, v)
  {
    forall v: Id
      ensures Used(entries, v) <= Limit(grants[g := grant], adjustments, v)
      ensures v != grant.user ==> Limit(grants[g := grant], adjustments, v) == Limit(grants, adjustments, v)
    {
      NewGrantAdds(grants, g, grant, v);
      assert Used(entries, v) <= Limit(grants, adjustments, v);
    }
  }

  /** The insert needs only that the balance at that time covers the change. */
  lemma AdjustWriteKeepsMoney(db: Db, caller: Context, c: Change, key: Id, read: QuotaSnapshot)
    requires MoneyOk(db) && Free(db, c.target) + c.delta >= 0
    ensures MoneyOk(AdjustWrite(db, caller, c, key, read))
    ensures forall v :: Limit(db.grants, AdjustWrite(db, caller, c, key, read).adjustments, v)
                     == Limit(db.grants, db.adjustments, v) + if v == c.target then c.delta else 0
  {
    var after := AdjustWrite(db, caller, c, key, read);
    forall v: Id
      ensures Limit(db.grants, after.adjustments, v) == Limit(db.grants, db.adjustments, v) + if v
              == c.target then c.delta else 0
      ensures Used(db.entries, v) <= Limit(db.grants, after.adjustments, v)
    {
      AdjustmentAdds(db.adjustments, NewAdjustment(caller, c, KeyOf(caller.actor, key), read), v);
      assert Used(db.entries, v) <= Limit(db.grants, db.adjustments, v);
    }
  }

  /** Serially, an adjustment moves the visible balance by its delta, to the balance it records. */
  lemma AdjustmentIsExact(db: Db, caller: Context, c: Change, key: Id)
    requires MoneyOk(db) && AdjustOutcome(db, caller, c, key).1.Done?
    ensures var after := AdjustOutcome(db, caller, c, key).0;
            && MoneyOk(after) && |after.adjustments| == |db.adjustments| + 1
            && Snapshot(db, c.target).Remaining() == after.adjustments[|db.adjustments|].before
            && Snapshot(after, c.target).Remaining() == after.adjustments[|db.adjustments|].after
            && Snapshot(after, c.target).Remaining() == Snapshot(db, c.target).Remaining() + c.delta
            && forall v | v != c.target :: Free(after, v) == Free(db, v)
  {
    var read := Snapshot(db, c.target);
    AdjustCases(db, caller, c, key, Snapshot(db, c.target));
    ClampNeverFires(db, c.target);
    AdjustWriteKeepsMoney(db, caller, c, key, read);
    AdjustWriteTables(db, caller, c, key, read);
    ClampNeverFires(AdjustWrite(db, caller, c, key, read), c.target);
  }

  lemma AdjustKeepsMoney(db: Db, caller: Context, c: Change, key: Id)
    requires MoneyOk(db)
    ensures MoneyOk(AdjustOutcome(db, caller, c, key).0)
  {
    AdjustCases(db, caller, c, key, Snapshot(db, c.target));
    if AdjustOutcome(db, caller, c, key).1.Done? {
      AdjustmentIsExact(db, caller, c, key);
    }
  }

  // ---- Units are conserved -------------------------------------------------------------------

  /** A reservation takes exactly one unit, from its user only, and reports the balance that results. */
  lemma ReservationTakesOneUnit(db: Db, r: Request, trip: Id, entry: Id, window: Time, now: Time)
    requires entry !in db.entries && ReserveOutcome(db, r, trip, entry, window, now).1.Reserved?
    ensures var (after, answer) := ReserveOutcome(db, r, trip, entry, window, now);
            && answer.quota == Snapshot(after, r.user)
            && forall v :: Free(after, v) == Free(db, v) - if v == r.user then 1 else 0
  {
    var after := ReserveWrite(db, r, trip, entry, window, now);
    ReservedRows(db.entries, entry, Entry(r.user, trip, 1, RESERVED));
    forall v
      ensures Free(after, v) == Free(db, v) - if v == r.user then 1 else 0
    {
      NewEntryUses(db.entries, entry, Entry(r.user, trip, 1, RESERVED), v);
    }
  }

  lemma ReservedRows(entries: map<Id, Entry>, e: Id, entry: Entry)
    requires e !in entries && entry.status == RESERVED
    ensures Sum(EntryRows(entries[e := entry], entry.user, RESERVED))
            == Sum(EntryRows(entries, entry.user, RESERVED)) + entry.units
    ensures Sum(EntryRows(entries[e := entry], entry.user, CONSUMED)) == Sum(EntryRows(entries, entry.user, CONSUMED))
  {
    assert EntryRows(entries[e := entry], entry.user, RESERVED)
      == EntryRows(entries, entry.user, RESERVED)[e := entry.units];
    assert EntryRows(entries[e := entry], entry.user, CONSUMED) == EntryRows(entries, entry.user, CONSUMED);
    SumPlus(EntryRows(entries, entry.user, RESERVED), e, entry.units);
  }

  /** Settling gives the unit back if and only if the trip did not succeed. */
  lemma SettlementGivesBackOne(db: Db, t: Id, r: Terminal, owner: Option<Id>, now: Time, v: Id)
    requires SettleOutcome(db, t, r, owner, now).1 == Settled
    requires var e := db.trips[t].entryId.value; db.entries[e].status == RESERVED && db.entries[e].units == 1
    ensures Free(SettleOutcome(db, t, r, owner, now).0, v)
         == Free(db, v) + if v == db.entries[db.trips[t].entryId.value].user && r.status != SUCCESS then 1 else 0
  {
    var e := db.trips[t].entryId.value;
    SettledTables(db, t, r, owner, now);
    SettlingFrees(db.entries, e, Spent(r.status), v);
  }

  lemma SettledTables(db: Db, t: Id, r: Terminal, owner: Option<Id>, now: Time)
    requires SettleOutcome(db, t, r, owner, now).1 == Settled
    ensures var after, e := SettleOutcome(db, t, r, owner, now).0, db.trips[t].entryId.value;
            && after.grants == db.grants && after.adjustments == db.adjustments
            && after.entries == db.entries[e := db.entries[e].(status := Spent(r.status))]
            && t in after.trips && after.trips[t] == SettledTrip(db.trips[t], r, now)
  {
  }
}
