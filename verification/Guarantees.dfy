/** What the service promises, as statements about every run. */
module Guarantees {
  import opened Schema
  import History
  import opened Quota
  import opened Ledger
  import opened AssociationAgreement
  import opened TripSubmission
  import opened AccountClosure
  import opened ProjectionReconciliation
  import opened Admin
  import opened Profile
  import opened Money
  import opened Reversals
  import opened World
  import opened NameOwnership
  import opened TripRuns
  import opened Idempotency
  import opened System

  // ---- Trips and credits ---------------------------------------------------------------------

  /** In every run: one active trip per user, and each owned trip's entry says what its status says. */
  lemma TripsMatchTheirCredits(w: World, ops: seq<Op>, t: Id)
    requires Inv(w) && Possible(w, ops) && t in Run(w, ops).db.trips && Run(w, ops).db.trips[t].owner.Some?
    ensures var db, trip := Run(w, ops).db, Run(w, ops).db.trips[t];
            && trip.owner.value in db.users && trip.entryId.Some? && trip.entryId.value in db.entries
            && db.entries[trip.entryId.value] == Entry(trip.owner.value, t, 1, EntryFor(trip.status))
            && (!trip.status.Terminal() ==> ActiveTrips(db.trips, trip.owner.value) == {t})
            && forall r: Terminal, owner: Option<Id> :: SettleRefusal(db, t, r, owner) != Some(QuotaInvariantError)
  {
    EveryRun(w, ops);
    CreditsMatch(Run(w, ops).db, t);
  }

  lemma CreditsMatch(db: Db, t: Id)
    requires LedgerOk(db) && t in db.trips && db.trips[t].owner.Some?
    ensures var trip := db.trips[t];
            && trip.owner.value in db.users && trip.entryId.Some? && trip.entryId.value in db.entries
            && db.entries[trip.entryId.value] == Entry(trip.owner.value, t, 1, EntryFor(trip.status))
            && (!trip.status.Terminal() ==> ActiveTrips(db.trips, trip.owner.value) == {t})
            && forall r: Terminal, owner: Option<Id> :: SettleRefusal(db, t, r, owner) != Some(QuotaInvariantError)
  {
    assert TripOk(db.users.Keys, db.entries, t, db.trips[t]);
    forall r: Terminal, owner: Option<Id>
      ensures SettleRefusal(db, t, r, owner) != Some(QuotaInvariantError)
    {
      SettlementNeverFails(db, t, r, owner);
    }
  }

  /** Terminal states absorb, the coarse rank never falls, a bound job and a closure are for ever. */
  lemma TripsOnlyMoveForward(w: World, ops: seq<Op>, t: Id)
    requires Inv(w) && Possible(w, ops) && t in w.db.trips
    ensures t in Run(w, ops).db.trips
    ensures var before, after := w.db.trips[t], Run(w, ops).db.trips[t];
            && before.status.Rank() <= after.status.Rank()
            && (before.status.Terminal() ==> after.status == before.status && after.resultId == before.resultId)
            && (before.jobId.Some? ==> after.jobId == before.jobId)
            && (before.owner.None? ==> after.owner.None?)
            && (before.erasedAt.Some? ==> after.erasedAt == before.erasedAt)
  {
    EveryRun(w, ops);
    assert TripEvolves(w.db.trips[t], Run(w, ops).db.trips[t]);
  }

  /** A consumed or released credit never changes while its trip has an owner. */
  lemma SettledCreditsStay(w: World, ops: seq<Op>, t: Id)
    requires Inv(w) && Possible(w, ops) && t in w.db.trips && w.db.trips[t].status.Terminal()
             && w.db.trips[t].owner.Some?
    requires t in Run(w, ops).db.trips && Run(w, ops).db.trips[t].owner.Some?
    ensures var before, after := w.db, Run(w, ops).db;
            && Holds(before.entries, before.trips[t].entryId, EntryFor(before.trips[t].status))
            && Holds(after.entries, after.trips[t].entryId, EntryFor(before.trips[t].status))
  {
    EveryRun(w, ops);
    CreditsMatch(w.db, t);
    CreditsMatch(Run(w, ops).db, t);
    assert TripEvolves(w.db.trips[t], Run(w, ops).db.trips[t]);
  }

  /** Nobody ever spends more than was granted and adjusted, so the clamp in the balance never fires. */
  lemma NobodyOverspends(w: World, ops: seq<Op>, u: Id)
    requires Inv(w) && Possible(w, ops)
    ensures var db := Run(w, ops).db;
            && Snapshot(db, u).reserved + Snapshot(db, u).consumed <= Snapshot(db, u).limit
            && Snapshot(db, u).Remaining() == Snapshot(db, u).Free()
  {
    EveryRun(w, ops);
    ClampNeverFires(Run(w, ops).db, u);
    assert Used(Run(w, ops).db.entries, u) <= Limit(Run(w, ops).db.grants, Run(w, ops).db.adjustments, u);
  }

  /** Reversals form chains in every run, and only chains of odd length count towards the total. */
  lemma ReversalsFormChains(w: World, ops: seq<Op>, u: Id)
    requires Inv(w) && Possible(w, ops)
    ensures ChainsOk(Run(w, ops).db.adjustments)
    ensures Adjusted(Run(w, ops).db.adjustments, u)
            == ChainTotal(Run(w, ops).db.adjustments, u, |Run(w, ops).db.adjustments|)
  {
    EveryRun(w, ops);
    TotalIsSumOfChains(Run(w, ops).db.adjustments, u);
  }

  /** While the account is open its trips stay listed under it, so the pages of its history fit together. */
  lemma HistoryContinues(w: World, ops: seq<Op>, q: History.Query)
    requires Inv(w) && Possible(w, ops) && q.user in Run(w, ops).db.users
    ensures History.Continues(q, History.Read(w.db.trips, w.now), History.Read(Run(w, ops).db.trips, Run(w, ops).now))
  {
    EveryRun(w, ops);
    TripsContinue(w, Run(w, ops), q);
  }

  lemma TripsContinue(w: World, r: World, q: History.Query)
    requires Inv(w) && Inv(r) && GoesOn(w, r) && q.user in r.db.users
    ensures History.Continues(q, History.Read(w.db.trips, w.now), History.Read(r.db.trips, r.now))
  {
    forall t | t in w.db.trips
      ensures r.db.trips[t].createdAt == w.db.trips[t].createdAt
      ensures w.db.trips[t].owner == Some(q.user) ==> r.db.trips[t].owner == Some(q.user)
    {
      assert TripEvolves(w.db.trips[t], r.db.trips[t]);
    }
  }

  // ---- Submission ----------------------------------------------------------------------------

  /**
    Over the whole run a user and request id get at most one trip, even across retries, reconciliation
    and closure; the trip's job is the one the upstream holds for it; and it is claimed a bounded number
    of times.
    */
  lemma OneTripOneJob(w: World, ops: seq<Op>, s: Id, t: Id)
    requires Inv(w) && Possible(w, ops) && s in Run(w, ops).past.born && t in Run(w, ops).past.born
    ensures var r := Run(w, ops);
            && (r.past.born[s].user == r.past.born[t].user && r.past.born[s].key == r.past.born[t].key ==> s == t)
            && t in r.db.trips && (r.db.trips[t].jobId.Some? ==> t in r.jobs && r.jobs[t] == r.db.trips[t].jobId.value)
            && (r.db.trips[t].jobId.Some? && s in r.db.trips && r.db.trips[s].jobId == r.db.trips[t].jobId ==> s == t)
            && Times(r.past.claims, t) <= r.maxAttempts
  {
    EveryRun(w, ops);
  }

  /** A reply may arrive at any later time: it never finds the trip bound to a different job. */
  lemma LateRepliesAgree(w: World, t: Id, fate: Fate, ops: seq<Op>)
    requires Inv(w) && Enabled(w, Post(t, fate)) && Create(w.jobs, t, fate).1.Created?
    requires Possible(Next(w, Post(t, fate)), ops)
    ensures var r := Run(Next(w, Post(t, fate)), ops);
            AcceptRefusal(r.db, t, Create(w.jobs, t, fate).1.job) !in {Some(DifferentJob), Some(JobBoundElsewhere),
                Some(TripDisappeared)}
  {
    StepKeepsInv(w, Post(t, fate));
    RepliesName(w, t, fate);
    EveryRun(Next(w, Post(t, fate)), ops);
    LateReplyAgrees(Next(w, Post(t, fate)), Run(Next(w, Post(t, fate)), ops), t);
  }

  lemma RepliesName(w: World, t: Id, fate: Fate)
    requires Inv(w) && Enabled(w, Post(t, fate)) && Create(w.jobs, t, fate).1.Created?
    ensures var next := Next(w, Post(t, fate));
            t in next.jobs && next.jobs[t] == Create(w.jobs, t, fate).1.job && t in next.db.trips
  {
    CreateKeepsBound(w.db.trips, w.jobs, t, fate);
  }

  lemma LateReplyAgrees(w: World, r: World, t: Id)
    requires GoesOn(w, r) && Inv(r) && t in w.jobs && t in w.db.trips
    ensures AcceptRefusal(r.db, t, w.jobs[t]) !in {Some(DifferentJob), Some(JobBoundElsewhere), Some(TripDisappeared)}
  {
    DifferentJobUnreachable(r.db, r.jobs, t);
  }

  // ---- The projection ------------------------------------------------------------------------

  /** Every row agrees with the trip of its job, and a tombstone never changes. */
  lemma ProjectionAgrees(w: World, ops: seq<Op>, j: Id)
    requires Inv(w) && Possible(w, ops) && j in w.db.jobs
    ensures j in Run(w, ops).db.jobs && RowAgrees(Run(w, ops).db.trips, j, Run(w, ops).db.jobs[j])
    ensures Impossible(Run(w, ops).db.jobs) == {}
    ensures w.db.jobs[j].version <= Run(w, ops).db.jobs[j].version
    ensures w.db.jobs[j].erasedAt.Some? ==>
              var row := Run(w, ops).db.jobs[j];
              row.erasedAt == w.db.jobs[j].erasedAt && row.association == Deidentified && row.tripId.None?
                && row.userId.None?
  {
    EveryRun(w, ops);
    assert RowEvolves(w.db.jobs[j], Run(w, ops).db.jobs[j]);
    NoImpossibleRows(Run(w, ops).db.trips, Run(w, ops).db.jobs);
  }

  // ---- Closure -------------------------------------------------------------------------------

  /** Nothing the service stores refers to the user. */
  ghost predicate Forgotten(db: Db, u: Id) {
    && u !in db.users && u !in db.identities
    && (forall s | s in db.sessions :: db.sessions[s].user != u)
    && (forall g | g in db.grants :: db.grants[g].user != u)
    && (forall i | i in db.redemptions :: db.redemptions[i] != u)
    && (forall c | c in db.challenges :: db.challenges[c].user != Some(u))
    && (forall t | t in db.trips :: db.trips[t].owner != Some(u))
    && (forall e | e in db.entries :: db.entries[e].user != u)
    && (forall i | 0 <= i < |db.adjustments| :: db.adjustments[i].target != Some(u))
    && (forall j | j in db.jobs :: db.jobs[j].userId != Some(u))
  }

  lemma GoneIsForgotten(w: World, u: Id)
    requires Inv(w) && u !in w.db.users
    ensures Forgotten(w.db, u)
  {
    forall t | t in w.db.trips
      ensures w.db.trips[t].owner != Some(u)
    {
      assert TripOk(w.db.users.Keys, w.db.entries, t, w.db.trips[t]);
    }
    forall e | e in w.db.entries
      ensures w.db.entries[e].user != u
    {
      assert EntryOk(w.db.trips, e, w.db.entries[e]);
      assert TripOk(w.db.users.Keys, w.db.entries, w.db.entries[e].trip, w.db.trips[w.db.entries[e].trip]);
    }
    forall j | j in w.db.jobs
      ensures w.db.jobs[j].userId != Some(u)
    {
      assert RowAgrees(w.db.trips, j, w.db.jobs[j]);
    }
  }

  /** A user who is gone does not come back. */
  lemma {:induction false} GoneForGood(w: World, ops: seq<Op>, u: Id)
    requires Inv(w) && Possible(w, ops) && u in w.past.users && u !in w.db.users
    ensures u !in Run(w, ops).db.users
  {
    if ops != [] {
      var front := ops[..|ops| - 1];
      GoneForGood(w, front, u);
      EveryRun(w, front);
      NobodyReturns(Run(w, front), ops[|ops| - 1], u);
    }
  }

  lemma NobodyReturns(w: World, op: Op, u: Id)
    requires Inv(w) && Enabled(w, op) && u in w.past.users && u !in w.db.users
    ensures u !in Next(w, op).db.users
  {
    if op.Close? {
      ClosureReturnsNobody(w.db, op.user, op.challenge, op.code, w.now);
    } else if !ForTrips(op) {
      UsersGrow(w, op);
    } else {
      OtherStepsKeepUsers(w, op);
    }
  }

  lemma ClosureReturnsNobody(db: Db, u: Id, c: Id, code: string, now: Time)
    ensures CloseOutcome(db, u, c, code, now).0.users.Keys <= db.users.Keys
  {
    CloseIsAllOrAttempt(db, u, c, code, now);
    if CloseOutcome(db, u, c, code, now).1 == Closed {
      CloseWriteTables(db, u, now);
    }
  }

  /** After a successful closure nothing refers to the account, and no continuation brings a reference back. */
  lemma ClosureIsComplete(w: World, op: Op, ops: seq<Op>)
    requires Inv(w) && op.Close? && CloseOutcome(w.db, op.user, op.challenge, op.code, w.now).1 == Closed
    requires Possible(Next(w, op), ops)
    ensures Forgotten(Run(Next(w, op), ops).db, op.user)
  {
    StepKeepsInv(w, op);
    CloseIsAllOrAttempt(w.db, op.user, op.challenge, op.code, w.now);
    CloseWriteTables(w.db, op.user, w.now);
    GoneForGood(Next(w, op), ops, op.user);
    EveryRun(Next(w, op), ops);
    GoneIsForgotten(Run(Next(w, op), ops), op.user);
  }

  // ---- Administrators ------------------------------------------------------------------------

  /** Each actor and key commit at most one effect, and no committed record is in progress. */
  lemma OneEffectPerKey(w: World, ops: seq<Op>, i: nat, j: nat)
    requires Inv(w) && Possible(w, ops) && i < j < |Run(w, ops).past.effects|
    ensures Run(w, ops).past.effects[i] != Run(w, ops).past.effects[j]
    ensures forall k | k in Run(w, ops).db.records :: Run(w, ops).db.records[k].Succeeded?
  {
    EveryRun(w, ops);
  }

  /** At any later time an identical request is answered as the first was, and another one conflicts. */
  lemma MutationRepliesForEver(w: World, op: Op, ops: seq<Op>, action: Action, target: Id, reason: string)
    requires Inv(w) && op.Mutate? && MutateOutcome(w.db, op.caller, op.action, op.target, op.reason, op.key).1.Done?
    requires Possible(Next(w, op), ops)
    ensures var first := MutateOutcome(w.db, op.caller, op.action, op.target, op.reason, op.key).1.response;
            var r := Run(Next(w, op), ops).db;
            MutateOutcome(r, op.caller, action, target, reason, op.key)
              == (r, if MutateUser(action, target, reason)
                  == MutateUser(op.action, op.target, op.reason) then Replayed(first)
                     else IdempotencyConflict)
  {
    StepKeepsInv(w, op);
    EveryRun(Next(w, op), ops);
    MutateCases(w.db, op.caller, op.action, op.target, op.reason, op.key);
    MutateReplay(Run(Next(w, op), ops).db, op.caller, action, target, reason, op.key);
  }

  lemma AdjustmentRepliesForEver(w: World, op: Op, ops: seq<Op>, c: Change)
    requires Inv(w) && op.Adjust? && AdjustOutcome(w.db, op.caller, op.change, op.key).1.Done?
    requires Possible(Next(w, op), ops)
    ensures var first := AdjustOutcome(w.db, op.caller, op.change, op.key).1.response;
            var r := Run(Next(w, op), ops).db;
            AdjustOutcome(r, op.caller, c, op.key)
              == (r, if c == op.change then Replayed(first) else IdempotencyConflict)
  {
    StepKeepsInv(w, op);
    EveryRun(Next(w, op), ops);
    AdjustRecords(w.db, op.caller, op.change, op.key);
    AdjustReplay(Run(Next(w, op), ops).db, op.caller, c, op.key);
  }

  /** A repeated reversal is answered as the first was for exactly as long as the account is open. */
  lemma ReversalRepliesWhileOpen(w: World, op: Op, ops: seq<Op>)
    requires Inv(w) && op.Reverse? && ReverseOutcome(w.db, op.caller, op.original, op.note, op.key).1.Done?
    requires Possible(Next(w, op), ops)
    ensures var first := ReverseOutcome(w.db, op.caller, op.original, op.note, op.key).1.response;
            var r := Run(Next(w, op), ops).db;
            var again := ReverseOutcome(r, op.caller, op.original, op.note, op.key);
            && again.0 == r && op.original < |r.adjustments|
            && (again.1 == Replayed(first) <==> r.adjustments[op.original].target.Some?)
            && (again.1 == NotFound <==> r.adjustments[op.original].target.None?)
  {
    StepKeepsInv(w, op);
    ReversalIsRecorded(w, op);
    EveryRun(Next(w, op), ops);
    ReversalReplies(Next(w, op), Run(Next(w, op), ops), op, ReversalOf(w.db, op.original, op.note).value,
                    ReverseOutcome(w.db, op.caller, op.original, op.note, op.key).1.response);
  }

  /** The state right after a reversal. */
  ghost predicate ReversalRecorded(w: World, op: Op, c: Change, first: AdminResponse)
    requires op.Reverse?
  {
    && c.reverses == Some(op.original) && c.note == op.note
    && op.original < |w.db.adjustments| && w.db.adjustments[op.original].delta == -c.delta
    && w.db.adjustments[op.original].target == Some(c.target)
    && KeyOf(op.caller.actor, op.key) in w.db.records
    && w.db.records[KeyOf(op.caller.actor, op.key)] == Succeeded(RequestOf(c), first)
  }

  lemma ReversalIsRecorded(w: World, op: Op)
    requires op.Reverse? && ReverseOutcome(w.db, op.caller, op.original, op.note, op.key).1.Done?
    ensures ReversalOf(w.db, op.original, op.note).Some?
    ensures ReversalRecorded(Next(w, op), op, ReversalOf(w.db, op.original, op.note).value,
                             ReverseOutcome(w.db, op.caller, op.original, op.note, op.key).1.response)
  {
    var c := ReversalOf(w.db, op.original, op.note).value;
    AdjustRecords(w.db, op.caller, c, op.key);
    var after := AdjustOutcome(w.db, op.caller, c, op.key).0;
    assert after.adjustments[op.original] == after.adjustments[..|w.db.adjustments|][op.original];
  }

  lemma ReversalReplies(w: World, r: World, op: Op, c: Change, first: AdminResponse)
    requires op.Reverse? && ReversalRecorded(w, op, c, first) && GoesOn(w, r) && Inv(r)
    ensures var again := ReverseOutcome(r.db, op.caller, op.original, op.note, op.key);
            && again.0 == r.db && op.original < |r.db.adjustments|
            && (again.1 == Replayed(first) <==> r.db.adjustments[op.original].target.Some?)
            && (again.1 == NotFound <==> r.db.adjustments[op.original].target.None?)
  {
    ReverseReplay(r.db, op.caller, op.original, op.note, op.key, c);
  }

  /** A target is forgotten only together with its account. */
  lemma TargetKept(w: World, op: Op, i: nat, u: Id)
    requires i < |w.db.adjustments| && w.db.adjustments[i].target == Some(u)
    ensures i < |After(w, op).adjustments|
    ensures After(w, op).adjustments[i].target == Some(u) || u !in After(w, op).users
  {
    match op
    case Close(user, c, code) => CloseKeepsTarget(w.db, user, c, code, w.now, i, u);
    case Adjust(caller, c, key) => AdjustKeepsTarget(w.db, caller, c, key, i);
    case Reverse(caller, original, note, key) => ReverseKeepsTarget(w.db, caller, original, note, key, i);
    case _ => OtherStepsKeepAdjustments(w, op);
  }

  lemma OtherStepsKeepAdjustments(w: World, op: Op)
    requires !op.Adjust? && !op.Reverse? && !op.Close?
    ensures After(w, op).adjustments == w.db.adjustments
  {
    if op.Mutate? {
      Frames.MutateTouches(w.db, op.caller, op.action, op.target, op.reason, op.key);
    } else {
      OthersTouchNoRecord(op);
      Frames.StepTouches(w, op);
      KeptAdjustments(w.db, After(w, op), Frames.Touches(op));
    }
  }

  lemma AdjustKeepsTarget(db: Db, caller: Context, c: Change, key: Id, i: nat)
    requires i < |db.adjustments|
    ensures var after := AdjustOutcome(db, caller, c, key).0.adjustments; i < |after| && after[i] == db.adjustments[i]
  {
    AdjustRecords(db, caller, c, key);
    var after := AdjustOutcome(db, caller, c, key).0.adjustments;
    assert after[i] == after[..|db.adjustments|][i];
  }

  lemma ReverseKeepsTarget(db: Db, caller: Context, original: nat, note: string, key: Id, i: nat)
    requires i < |db.adjustments|
    ensures var after := ReverseOutcome(db, caller, original, note, key).0.adjustments;
              i < |after| && after[i] == db.adjustments[i]
  {
    var c := ReversalOf(db, original, note);
    if c.Some? {
      AdjustKeepsTarget(db, caller, c.value, key, i);
    }
  }

  lemma CloseKeepsTarget(db: Db, user: Id, c: Id, code: string, now: Time, i: nat, u: Id)
    requires i < |db.adjustments| && db.adjustments[i].target == Some(u)
    ensures var after := CloseOutcome(db, user, c, code, now).0;
            i < |after.adjustments| && (after.adjustments[i].target == Some(u) || u !in after.users)
  {
    CloseIsAllOrAttempt(db, user, c, code, now);
    if CloseOutcome(db, user, c, code, now).1 == Closed {
      CloseWriteTables(db, user, now);
    }
  }

  lemma {:induction false} TargetLasts(w: World, ops: seq<Op>, i: nat, u: Id)
    requires Inv(w) && Possible(w, ops) && i < |w.db.adjustments| && w.db.adjustments[i].target == Some(u)
             && u in w.past.users
    ensures i < |Run(w, ops).db.adjustments|
    ensures Run(w, ops).db.adjustments[i].target == Some(u) || u !in Run(w, ops).db.users
  {
    if ops != [] {
      var front := ops[..|ops| - 1];
      TargetLasts(w, front, i, u);
      EveryRun(w, front);
      StepKeepsInv(Run(w, front), ops[|ops| - 1]);
      if Run(w, front).db.adjustments[i].target == Some(u) {
        TargetKept(Run(w, front), ops[|ops| - 1], i, u);
      } else {
        NobodyReturns(Run(w, front), ops[|ops| - 1], u);
      }
    }
  }

  /** What an adjustment does whose original was looked up earlier. */
  ghost predicate LateAnswer(db: Db, caller: Context, c: Change, key: Id, original: nat, note: string) {
    && original < |db.adjustments|
    && AdjustOutcome(db, caller, c, key)
       == if db.adjustments[original].target.Some? then ReverseOutcome(db, caller, original, note, key)
          else (db, Admin.Claim(db, KeyOf(caller.actor, key), RequestOf(c)).Or(Some(NotFound)).value)
  }

  /**
    A reversal looks its original up in one transaction and adjusts in another. Whatever happens in
    between, the adjustment does what a reversal in one transaction would do then, unless the account has
    been closed: then it changes nothing, and answers with the record of its key or with NOT_FOUND.
    */
  lemma ReversalSpansTwoTransactions(w: World, ops: seq<Op>, caller: Context, original: nat, note: string, key: Id)
    requires Inv(w) && Possible(w, ops) && ReversalOf(w.db, original, note).Some?
    ensures LateAnswer(Run(w, ops).db, caller, ReversalOf(w.db, original, note).value, key, original, note)
  {
    EveryRun(w, ops);
    TargetLasts(w, ops, original, ReversalOf(w.db, original, note).value.target);
    AdjustedLater(w, Run(w, ops), caller, original, note, key);
  }

  lemma AdjustedLater(w: World, r: World, caller: Context, original: nat, note: string, key: Id)
    requires Inv(r) && GoesOn(w, r) && ReversalOf(w.db, original, note).Some? && original < |r.db.adjustments|
    requires var u := ReversalOf(w.db, original, note).value.target;
             r.db.adjustments[original].target == Some(u) || u !in r.db.users
    ensures LateAnswer(r.db, caller, ReversalOf(w.db, original, note).value, key, original, note)
  {
    OriginalLasts(w, r, original, note);
    LateAdjustment(r.db, caller, ReversalOf(w.db, original, note).value, key, original, note);
  }

  lemma OriginalLasts(w: World, r: World, original: nat, note: string)
    requires Inv(r) && GoesOn(w, r) && ReversalOf(w.db, original, note).Some?
    ensures var c := ReversalOf(w.db, original, note).value;
            && original < |r.db.adjustments|
            && c == Change(c.target, -r.db.adjustments[original].delta, note, Some(original))
            && r.db.adjustments[original].target in {Some(c.target), None}
            && (r.db.adjustments[original].target.Some? ==> c.target in r.db.users)
  {
  }

  lemma LateAdjustment(db: Db, caller: Context, c: Change, key: Id, original: nat, note: string)
    requires original < |db.adjustments| && c == Change(c.target, -db.adjustments[original].delta, note, Some(original))
    requires db.adjustments[original].target in {Some(c.target), None}
    requires db.adjustments[original].target.Some? ==> c.target in db.users
    requires db.adjustments[original].target.None? ==> c.target !in db.users
    ensures LateAnswer(db, caller, c, key, original, note)
  {
    assert db.adjustments[original].target.Some? ==> ReversalOf(db, original, note) == Some(c);
  }

  /** No caller acts on another owner than o. */
  ghost predicate KnowsOwner(ops: seq<Op>, o: Id) {
    forall i | 0 <= i < |ops| && ops[i].Mutate? :: ops[i].caller.owner == Some(o)
  }

  /** The account that the settings name as owner is never disabled: it stays active until it is closed. */
  lemma {:induction false} OwnerStaysActive(w: World, ops: seq<Op>, o: Id)
    requires Inv(w) && Possible(w, ops) && KnowsOwner(ops, o)
    requires o in w.db.users && w.db.users[o].status == Active
    ensures o in Run(w, ops).db.users ==> Run(w, ops).db.users[o].status == Active
  {
    if ops != [] {
      var front := ops[..|ops| - 1];
      AllKnowOwner(ops, o);
      OwnerStaysActive(w, front, o);
      EveryRun(w, front);
      OwnerIsNotDisabled(Run(w, front), ops[|ops| - 1], o);
    }
  }

  lemma AllKnowOwner(ops: seq<Op>, o: Id)
    requires KnowsOwner(ops, o) && ops != []
    ensures KnowsOwner(ops[..|ops| - 1], o)
    ensures ops[|ops| - 1].Mutate? ==> ops[|ops| - 1].caller.owner == Some(o)
  {
  }

  lemma OwnerIsNotDisabled(w: World, op: Op, o: Id)
    requires Inv(w) && Enabled(w, op) && o in w.past.users && (op.Mutate? ==> op.caller.owner == Some(o))
    requires o in w.db.users ==> w.db.users[o].status == Active
    ensures o in Next(w, op).db.users ==> Next(w, op).db.users[o].status == Active
  {
    if op.Mutate? {
      OwnerMutation(w.db, op.caller, op.action, op.target, op.reason, op.key, o);
    } else if op.Verify? {
      VerifyKeepsStatus(w, op, o);
    } else if op.RenameTo? {
      RenameKeepsStatus(w.db, op.user, op.name, w.now, o);
    } else if op.Close? {
      CloseKeepsStatus(w.db, op.user, op.challenge, op.code, w.now, o);
    } else {
      OtherStepsKeepUsers(w, op);
    }
  }

  lemma VerifyKeepsStatus(w: World, op: Op, o: Id)
    requires op.Verify? && Enabled(w, op) && o in w.past.users
    requires o in w.db.users ==> w.db.users[o].status == Active
    ensures o in Next(w, op).db.users ==> Next(w, op).db.users[o].status == Active
  {
    UsersAfterVerify(w.db, op.challenge, op.code, op.drawn, op.draws, op.units, w.now);
    NextAfterVerify(w, op);
  }

  lemma OtherStepsKeepUsers(w: World, op: Op)
    requires !op.Mutate? && !op.Verify? && !op.RenameTo? && !op.Close?
    ensures Next(w, op).db.users == w.db.users
  {
    Frames.StepTouches(w, op);
    assert Frames.Users !in Frames.Touches(op);
  }

  lemma OwnerMutation(db: Db, caller: Context, action: Action, target: Id, reason: string, key: Id, o: Id)
    requires caller.owner == Some(o) && (o in db.users ==> db.users[o].status == Active)
    ensures var after := MutateOutcome(db, caller, action, target, reason, key).0;
            o in after.users ==> after.users[o].status == Active
  {
    if MutateOutcome(db, caller, action, target, reason, key).1.Done? {
      MutationIsAuthorized(db, caller, action, target, reason, key);
      MutationRevokesSessions(db, caller, action, target, reason, key);
      assert MutateOutcome(db, caller, action, target, reason, key).0.users
        == db.users[target := Mutated(db.users[target], action)];
    } else {
      MutateCases(db, caller, action, target, reason, key);
    }
  }

  lemma RenameKeepsStatus(db: Db, u: Id, name: Name, now: Time, o: Id)
    requires o in db.users ==> db.users[o].status == Active
    ensures o in RenameOutcome(db, u, name, now).0.users ==> RenameOutcome(db, u, name, now).0.users[o].status == Active
  {
    if RenameRefusal(db, u, name, now).None? {
      assert RenameWrite(db, u, name, now).users == db.users[u := RenameWrite(db, u, name, now).users[u]];
    }
  }

  lemma CloseKeepsStatus(db: Db, u: Id, c: Id, code: string, now: Time, o: Id)
    requires o in db.users ==> db.users[o].status == Active
    ensures o in CloseOutcome(db, u, c, code, now).0.users ==>
              CloseOutcome(db, u, c, code, now).0.users[o].status == Active
  {
    CloseIsAllOrAttempt(db, u, c, code, now);
    if CloseOutcome(db, u, c, code, now).1 == Closed {
      CloseWriteTables(db, u, now);
    }
  }

  // ---- Names ---------------------------------------------------------------------------------

  /** No two users share a name, and nobody owns a name in unexpired quarantine. */
  lemma NamesAreUnique(w: World, ops: seq<Op>, u: Id, v: Id)
    requires Inv(w) && Possible(w, ops) && u in Run(w, ops).db.users && v in Run(w, ops).db.users
    ensures Run(w, ops).db.users[u].nameKey == Run(w, ops).db.users[v].nameKey ==> u == v
    ensures !NameQuarantined(Run(w, ops).db.quarantine, Run(w, ops).db.users[u].nameKey, Run(w, ops).now)
  {
    EveryRun(w, ops);
  }

  /** A name given up at time t, by a rename or a closure, is owned by nobody during [t, t + 15 days). */
  lemma GivenUpNamesStayFree(w: World, op: Op, u: Id, ops: seq<Op>)
    requires Inv(w) && Enabled(w, op) && u in w.db.users
    requires (op.RenameTo? && op.user == u && RenameOutcome(w.db, u, op.name, w.now).1 == Renamed
               && op.name.key != w.db.users[u].nameKey)
          || (op.Close? && op.user == u && CloseOutcome(w.db, u, op.challenge, op.code, w.now).1 == Closed)
    requires Possible(Next(w, op), ops) && Run(Next(w, op), ops).now < w.now + FORMER_NAME_QUARANTINE
    ensures !NameOwned(Run(Next(w, op), ops).db.users, w.db.users[u].nameKey)
  {
    StepKeepsInv(w, op);
    GivingUpQuarantines(w, op, u);
    EveryRun(Next(w, op), ops);
    QuarantinedIsFree(Next(w, op), Run(Next(w, op), ops), w.db.users[u].nameKey);
  }

  lemma QuarantinedIsFree(w: World, r: World, key: string)
    requires Inv(r) && GoesOn(w, r) && key in w.db.quarantine && r.now < w.db.quarantine[key]
    ensures !NameOwned(r.db.users, key)
  {
  }

  /** Two successful renames of one user are at least seven days apart. */
  lemma RenamesAreAWeekApart(w: World, ops: seq<Op>, i: nat, j: nat)
    requires Inv(w) && Possible(w, ops) && i < j < |Run(w, ops).past.renames|
    requires Run(w, ops).past.renames[i].user == Run(w, ops).past.renames[j].user
    ensures Run(w, ops).past.renames[i].at + 7 * DAY <= Run(w, ops).past.renames[j].at
  {
    EveryRun(w, ops);
  }

  // ---- Registration --------------------------------------------------------------------------

  /** An invitation registers at most one user, even after that account is closed. */
  lemma OneUserPerInvitation(w: World, ops: seq<Op>, i: nat, j: nat)
    requires Inv(w) && Possible(w, ops) && i < j < |Run(w, ops).past.registrations|
    ensures Run(w, ops).past.registrations[i].invitation != Run(w, ops).past.registrations[j].invitation
  {
    EveryRun(w, ops);
  }

  /** Every user has exactly one initial grant and one verified email, which nobody shares. */
  lemma OneGrantPerUser(w: World, ops: seq<Op>, u: Id)
    requires Inv(w) && Possible(w, ops) && u in Run(w, ops).db.users
    ensures exists g :: g in Run(w, ops).db.grants && Run(w, ops).db.grants[g].user == u
    ensures forall g, h | g in Run(w, ops).db.grants && h in Run(w, ops).db.grants
                          && Run(w, ops).db.grants[g].user == u && Run(w, ops).db.grants[h].user == u :: g == h
    ensures u in Run(w, ops).db.identities
    ensures forall v | v in Run(w, ops).db.identities && v != u ::
              Run(w, ops).db.identities[v] != Run(w, ops).db.identities[u]
  {
    EveryRun(w, ops);
  }

  /** A challenge opens at most one session, and never counts more wrong codes than allowed. */
  lemma OneSessionPerChallenge(w: World, ops: seq<Op>, i: nat, j: nat)
    requires Inv(w) && Possible(w, ops) && i < j < |Run(w, ops).past.openings|
    ensures Run(w, ops).past.openings[i] != Run(w, ops).past.openings[j]
    ensures forall c | c in Run(w, ops).db.challenges ::
              Run(w, ops).db.challenges[c].attempts <= Run(w, ops).db.challenges[c].maxAttempts
  {
    EveryRun(w, ops);
  }
}
