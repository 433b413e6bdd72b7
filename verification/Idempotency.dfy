/** Idempotency keys over whole runs: one effect each, and the first answer for ever after. */
module Idempotency {
  import opened Schema
  import opened Quota
  import opened AccountClosure
  import opened Admin
  import opened World
  import opened Frames

  /** Every effect has its record, no key has two, and no committed record is in progress. */
  ghost predicate EffectsOk(records: map<IdemKey, Record>, effects: seq<IdemKey>) {
    && (forall k | k in records :: records[k].Succeeded?)
    && (forall i | 0 <= i < |effects| :: effects[i] in records)
    && (forall i, j | 0 <= i < j < |effects| :: effects[i] != effects[j])
  }

  ghost predicate RecordsLast(before: map<IdemKey, Record>, after: map<IdemKey, Record>) {
    forall k | k in before :: k in after && after[k] == before[k]
  }

  /** Adjustments are only appended and forgotten: an amount never changes, a target may be erased. */
  ghost predicate AdjustmentsLast(before: seq<Adjustment>, after: seq<Adjustment>) {
    && |before| <= |after|
    && forall i | 0 <= i < |before| ::
         after[i].delta == before[i].delta && (after[i].target == before[i].target || after[i].target.None?)
  }

  ghost predicate AdminGoesOn(w: World, next: World) {
    RecordsLast(w.db.records, next.db.records) && AdjustmentsLast(w.db.adjustments, next.db.adjustments)
  }

  lemma RecordingKeepsEffects(records: map<IdemKey, Record>, effects: seq<IdemKey>, k: IdemKey, r: Record)
    requires EffectsOk(records, effects) && k !in records && r.Succeeded?
    ensures EffectsOk(records[k := r], effects + [k]) && RecordsLast(records, records[k := r])
  {
  }

  lemma MutateCases(db: Db, caller: Context, action: Action, target: Id, reason: string, key: Id)
    ensures var (after, answer) := MutateOutcome(db, caller, action, target, reason, key);
            if answer.Done? then
              && KeyOf(caller.actor, key) !in db.records && target in db.users
              && after.records == db.records[KeyOf(caller.actor, key) := Succeeded(MutateUser(action, target, reason),
                  answer.response)]
              && after.adjustments == db.adjustments
            else after == db
  {
  }

  lemma AdjustRecords(db: Db, caller: Context, c: Change, key: Id)
    ensures var (after, answer) := AdjustOutcome(db, caller, c, key);
            if answer.Done? then
              && KeyOf(caller.actor, key) !in db.records
              && after.records == db.records[KeyOf(caller.actor, key) := Succeeded(RequestOf(c), answer.response)]
              && |after.adjustments| == |db.adjustments| + 1 && after.adjustments[..|db.adjustments|] == db.adjustments
            else after == db
  {
    AdjustCases(db, caller, c, key, Snapshot(db, c.target));
    AdjustWriteTables(db, caller, c, key, Snapshot(db, c.target));
  }

  lemma NothingHappens(w: World, next: World)
    requires EffectsOk(w.db.records, w.past.effects) && next.db == w.db && next.past == w.past
    ensures EffectsOk(next.db.records, next.past.effects) && AdminGoesOn(w, next)
  {
  }

  lemma MutateStepKeepsEffects(w: World, op: Op)
    requires op.Mutate? && EffectsOk(w.db.records, w.past.effects)
    ensures EffectsOk(Next(w, op).db.records, Next(w, op).past.effects) && AdminGoesOn(w, Next(w, op))
  {
    var (after, answer) := MutateOutcome(w.db, op.caller, op.action, op.target, op.reason, op.key);
    MutateCases(w.db, op.caller, op.action, op.target, op.reason, op.key);
    if answer.Done? {
      RecordingKeepsEffects(w.db.records, w.past.effects, KeyOf(op.caller.actor, op.key),
                            Succeeded(MutateUser(op.action, op.target, op.reason), answer.response));
    } else {
      NothingHappens(w, Next(w, op));
    }
  }

  lemma AdjustedKeepsEffects(w: World, next: World, caller: Context, c: Change, key: Id)
    requires EffectsOk(w.db.records, w.past.effects) && next.db == AdjustOutcome(w.db, caller, c, key).0
    requires next.past == if AdjustOutcome(w.db, caller, c, key).1.Done?
                          then w.past.(effects := w.past.effects + [KeyOf(caller.actor, key)]) else w.past
    ensures EffectsOk(next.db.records, next.past.effects) && AdminGoesOn(w, next)
  {
    var (after, answer) := AdjustOutcome(w.db, caller, c, key);
    AdjustRecords(w.db, caller, c, key);
    if answer.Done? {
      RecordingKeepsEffects(w.db.records, w.past.effects, KeyOf(caller.actor, key),
          Succeeded(RequestOf(c), answer.response));
      forall i | 0 <= i < |w.db.adjustments|
        ensures after.adjustments[i] == w.db.adjustments[i]
      {
        assert after.adjustments[..|w.db.adjustments|][i] == w.db.adjustments[i];
      }
    } else {
      NothingHappens(w, next);
    }
  }

  lemma ReverseStepKeepsEffects(w: World, op: Op)
    requires op.Reverse? && EffectsOk(w.db.records, w.past.effects)
    ensures EffectsOk(Next(w, op).db.records, Next(w, op).past.effects) && AdminGoesOn(w, Next(w, op))
  {
    var c := ReversalOf(w.db, op.original, op.note);
    if c.Some? {
      AdjustedKeepsEffects(w, Next(w, op), op.caller, c.value, op.key);
    } else {
      NothingHappens(w, Next(w, op));
    }
  }

  lemma KeptRecords(a: Db, b: Db, changed: set<Kind>)
    requires Only(a, b, changed) && Records !in changed
    ensures b.records == a.records
  {
  }

  lemma KeptAdjustments(a: Db, b: Db, changed: set<Kind>)
    requires Only(a, b, changed) && Adjustments !in changed
    ensures b.adjustments == a.adjustments
  {
  }

  lemma CloseKeepsRecords(db: Db, u: Id, c: Id, code: string, now: Time)
    ensures var after := CloseOutcome(db, u, c, code, now).0;
            after.records == db.records && AdjustmentsLast(db.adjustments, after.adjustments)
  {
    CloseTouches(db, u, c, code, now);
    KeptRecords(db, CloseOutcome(db, u, c, code, now).0,
                {Users, Quarantine, Identities, Sessions, Challenges, Redemptions, Grants, Trips, Entries,
                    Adjustments, JobRows});
    CloseForgets(db, u, c, code, now);
    ForgettingLasts(db.adjustments, u);
  }

  lemma CloseForgets(db: Db, u: Id, c: Id, code: string, now: Time)
    ensures var after := CloseOutcome(db, u, c, code, now).0.adjustments;
            after == db.adjustments || after == ForgetIn(db.adjustments, u)
  {
    CloseIsAllOrAttempt(db, u, c, code, now);
    if CloseOutcome(db, u, c, code, now).1 == Closed {
      CloseWriteTables(db, u, now);
    }
  }

  lemma ForgettingLasts(adjustments: seq<Adjustment>, u: Id)
    ensures AdjustmentsLast(adjustments, adjustments) && AdjustmentsLast(adjustments, ForgetIn(adjustments, u))
  {
  }

  lemma CloseStepKeepsEffects(w: World, op: Op)
    requires op.Close? && EffectsOk(w.db.records, w.past.effects)
    ensures EffectsOk(Next(w, op).db.records, Next(w, op).past.effects) && AdminGoesOn(w, Next(w, op))
  {
    CloseKeepsRecords(w.db, op.user, op.challenge, op.code, w.now);
  }

  lemma OtherStepKeepsEffects(w: World, op: Op)
    requires EffectsOk(w.db.records, w.past.effects) && !op.Mutate? && !op.Adjust? && !op.Reverse? && !op.Close?
    ensures EffectsOk(Next(w, op).db.records, Next(w, op).past.effects) && AdminGoesOn(w, Next(w, op))
  {
    OthersTouchNoRecord(op);
    StepTouches(w, op);
    KeptRecords(w.db, After(w, op), Touches(op));
    KeptAdjustments(w.db, After(w, op), Touches(op));
    RememberedEffects(w, op);
  }

  lemma OthersTouchNoRecord(op: Op)
    requires !op.Mutate? && !op.Adjust? && !op.Reverse? && !op.Close?
    ensures Records !in Touches(op) && Adjustments !in Touches(op)
  {
  }

  lemma RememberedEffects(w: World, op: Op)
    requires !op.Mutate? && !op.Adjust? && !op.Reverse? && !op.Close?
    ensures Next(w, op).past.effects == w.past.effects
  {
  }

  lemma StepKeepsEffects(w: World, op: Op)
    requires EffectsOk(w.db.records, w.past.effects)
    ensures EffectsOk(Next(w, op).db.records, Next(w, op).past.effects) && AdminGoesOn(w, Next(w, op))
  {
    if op.Mutate? {
      MutateStepKeepsEffects(w, op);
    } else if op.Adjust? {
      AdjustedKeepsEffects(w, Next(w, op), op.caller, op.change, op.key);
    } else if op.Reverse? {
      ReverseStepKeepsEffects(w, op);
    } else if op.Close? {
      CloseStepKeepsEffects(w, op);
    } else {
      OtherStepKeepsEffects(w, op);
    }
  }

  // ---- Replays -------------------------------------------------------------------------------

  /** A known key answers what it answered first, or conflicts; either way nothing changes. */
  lemma MutateReplay(db: Db, caller: Context, action: Action, target: Id, reason: string, key: Id)
    requires KeyOf(caller.actor, key) in db.records && db.records[KeyOf(caller.actor, key)].Succeeded?
    ensures var record := db.records[KeyOf(caller.actor, key)];
            MutateOutcome(db, caller, action, target, reason, key) ==
            (db, if record.request == MutateUser(action, target, reason) then Replayed(record.response)
                else IdempotencyConflict)
  {
  }

  lemma AdjustReplay(db: Db, caller: Context, c: Change, key: Id)
    requires KeyOf(caller.actor, key) in db.records && db.records[KeyOf(caller.actor, key)].Succeeded?
    ensures var record := db.records[KeyOf(caller.actor, key)];
            AdjustOutcome(db, caller, c, key) ==
            (db, if record.request == RequestOf(c) then Replayed(record.response) else IdempotencyConflict)
  {
    AdjustReplayWith(db, caller, c, key, Snapshot(db, c.target));
  }

  lemma AdjustReplayWith(db: Db, caller: Context, c: Change, key: Id, read: QuotaSnapshot)
    requires KeyOf(caller.actor, key) in db.records && db.records[KeyOf(caller.actor, key)].Succeeded?
    ensures var record := db.records[KeyOf(caller.actor, key)];
            AdjustWith(db, caller, c, key, read) ==
            (db, if record.request == RequestOf(c) then Replayed(record.response) else IdempotencyConflict)
  {
  }

  /** A failed operation leaves the key as it was, so the client may use it again. */
  lemma FailureLeavesKeyUnused(db: Db, caller: Context, action: Action, target: Id, reason: string, c: Change, key: Id)
    ensures !MutateOutcome(db, caller, action, target, reason, key).1.Done? ==>
              MutateOutcome(db, caller, action, target, reason, key).0 == db
    ensures !AdjustOutcome(db, caller, c, key).1.Done? ==> AdjustOutcome(db, caller, c, key).0 == db
  {
    MutateCases(db, caller, action, target, reason, key);
    AdjustRecords(db, caller, c, key);
  }

  /**
    A reversal looks up its original before it claims the key. So an identical reversal is answered with
    the first response exactly while the original still has its target; once that account is closed the
    answer is NotFound.
    */
  lemma ReverseReplay(db: Db, caller: Context, original: nat, note: string, key: Id, first: Change)
    requires first.reverses == Some(original) && first.note == note
    requires original < |db.adjustments| && db.adjustments[original].delta == -first.delta
    requires db.adjustments[original].target in {Some(first.target), None}
    requires db.adjustments[original].target.Some? ==> db.adjustments[original].target.value in db.users
    requires KeyOf(caller.actor, key) in db.records && db.records[KeyOf(caller.actor, key)].Succeeded?
    requires db.records[KeyOf(caller.actor, key)].request == RequestOf(first)
    ensures ReverseOutcome(db, caller, original, note, key).0 == db
    ensures ReverseOutcome(db, caller, original, note, key).1 == Replayed(db.records[KeyOf(caller.actor, key)].response)
       <==> db.adjustments[original].target.Some?
    ensures db.adjustments[original].target.None? ==> ReverseOutcome(db, caller, original, note, key).1 == NotFound
  {
    if db.adjustments[original].target.Some? {
      assert ReversalOf(db, original, note) == Some(first);
      AdjustReplay(db, caller, first, key);
    }
  }
}
