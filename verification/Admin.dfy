/**
  Administrator mutations under an idempotency key (src/admin/idempotency.py, src/admin/service.py).
  The key's record is inserted, locked, and completed in the transaction that does the work.
  */
module Admin {
  import opened Schema
  import opened Quota

  /** Who calls, and which account the settings name as owner. */
  datatype Context = Context(actor: Id, isOwner: bool, owner: Option<Id>)

  datatype AdminAnswer =
    | Done(response: AdminResponse) | Replayed(first: AdminResponse)
    | IdempotencyConflict | IdempotencyInProgress
    | NotFound | OwnerRequired | LastOwnerProtected | Forbidden
    | BalanceInsufficient | AlreadyReversed | NotTheOpposite | CheckViolation

  // ---- Idempotency ---------------------------------------------------------------------------

  function KeyOf(actor: Id, key: Id): IdemKey { IdemKey(actor, key) }

  /** claim_admin_idempotency followed by the replay check: an answer, or leave to do the work. */
  function Claim(db: Db, k: IdemKey, request: AdminRequest): Option<AdminAnswer> {
    if k !in db.records then None
    else if db.records[k].request != request then Some(IdempotencyConflict)
    else if db.records[k].InProgress? then Some(IdempotencyInProgress)
    else Some(Replayed(db.records[k].response))
  }

  method ClaimAdminIdempotency(db: Database, k: IdemKey, request: AdminRequest) returns (answer: Option<AdminAnswer>)
    modifies db
    ensures answer == Claim(old(db.tables), k, request)
    ensures db.tables == if answer.Some? then old(db.tables)
                         else old(db.tables).(records := old(db.tables.records)[k := InProgress(request)])
    ensures db.locks == old(db.locks) + [Lock(IdempotencyT, k.key)]
  {
    var inserted := k !in db.tables.records;
    if inserted {
      db.tables := db.tables.(records := db.tables.records[k := InProgress(request)]);
    }
    db.ForUpdate(IdempotencyT, k.key);
    var record := db.tables.records[k];
    if record.request != request {
      return Some(IdempotencyConflict);
    }
    if !inserted && record.InProgress? {
      return Some(IdempotencyInProgress);
    }
    if record.Succeeded? {
      return Some(Replayed(record.response));
    }
    return None;
  }

  function Completed(db: Db, k: IdemKey, request: AdminRequest, response: AdminResponse): Db {
    db.(records := db.records[k := Succeeded(request, response)])
  }

  // ---- Authorization -------------------------------------------------------------------------

  /** assert_target_allowed */
  function TargetRefusal(db: Db, caller: Context, target: Id, roleChange: bool, disabling: bool): Option<AdminAnswer>
    requires target in db.users
  {
    if roleChange && !caller.isOwner then Some(OwnerRequired)
    else if caller.isOwner then if disabling && caller.owner == Some(target) then Some(LastOwnerProtected) else None
    else if target == caller.actor || db.users[target].role == Administrator
      || caller.owner == Some(target) then Some(Forbidden)
    else None
  }

  // ---- mutate_user ---------------------------------------------------------------------------

  function MutateRefusal(db: Db, caller: Context, action: Action, target: Id): Option<AdminAnswer> {
    if target !in db.users then Some(NotFound)
    else TargetRefusal(db, caller, target, action.GrantAdmin? || action.RevokeAdmin?, action.DisableUser?)
  }

  function Mutated(user: User, action: Action): User {
    match action
    case DisableUser => user.(status := Disabled)
    case RestoreUser => user.(status := Active)
    case GrantAdmin => user.(role := Administrator)
    case RevokeAdmin => user.(role := Member)
  }

  function RevokedSessions(sessions: map<Id, Session>, u: Id): map<Id, Session> {
    map s | s in sessions :: if sessions[s].user == u then sessions[s].(revoked := true) else sessions[s]
  }

  function MutateWrite(db: Db, action: Action, target: Id): Db
    requires target in db.users
  {
    db.(users := db.users[target := Mutated(db.users[target], action)],
        sessions := if action.RestoreUser? then db.sessions else RevokedSessions(db.sessions, target))
  }

  function View(db: Db, u: Id): AdminResponse
    requires u in db.users
  {
    UserView(u, db.users[u].status, db.users[u].role)
  }

  function MutateOutcome(
    db: Db, caller: Context, action: Action, target: Id, reason: string, key: Id): (Db, AdminAnswer) {
    var k, request := KeyOf(caller.actor, key), MutateUser(action, target, reason);
    var claim := Claim(db, k, request);
    var refusal := MutateRefusal(db, caller, action, target);
    if claim.Some? then (db, claim.value)
    else if refusal.Some? then (db, refusal.value)
    else
      var after := MutateWrite(db, action, target);
      (Completed(after, k, request, View(after, target)), Done(View(after, target)))
  }

  /**
    Who may be changed by whom: roles only by the owner, and never the owner's own account by others or by
    disabling.
    */
  lemma MutationIsAuthorized(db: Db, caller: Context, action: Action, target: Id, reason: string, key: Id)
    requires MutateOutcome(db, caller, action, target, reason, key).1.Done?
    ensures target in db.users
    ensures action in {GrantAdmin, RevokeAdmin} ==> caller.isOwner
    ensures caller.owner == Some(target) ==> caller.isOwner && action != DisableUser
    ensures !caller.isOwner ==> target != caller.actor && db.users[target].role != Administrator
  {
  }

  /** A mutation changes one user. It revokes all of that user's sessions unless it restores, which opens none. */
  lemma MutationRevokesSessions(db: Db, caller: Context, action: Action, target: Id, reason: string, key: Id)
    requires MutateOutcome(db, caller, action, target, reason, key).1.Done?
    ensures var after := MutateOutcome(db, caller, action, target, reason, key).0;
            && after.sessions.Keys == db.sessions.Keys && after.users.Keys == db.users.Keys
            && (forall u | u in db.users && u != target :: after.users[u] == db.users[u])
            && (forall s | s in db.sessions && db.sessions[s].user == target && action != RestoreUser ::
                after.sessions[s].revoked)
            && (forall s | s in db.sessions && (db.sessions[s].user != target || action == RestoreUser) ::
                after.sessions[s] == db.sessions[s])
  {
    var written := MutateWrite(db, action, target);
    assert MutateOutcome(db, caller, action, target, reason, key).0.sessions == written.sessions;
    assert MutateOutcome(db, caller, action, target, reason, key).0.users == written.users;
  }

  method ApplyMutation(db: Database, action: Action, target: Id)
    requires target in db.tables.users
    modifies db`tables
    ensures db.tables == MutateWrite(old(db.tables), action, target)
  {
    var user := db.tables.users[target];
    match action {
      case DisableUser => user := user.(status := Disabled);
      case RestoreUser => user := user.(status := Active);
      case GrantAdmin => user := user.(role := Administrator);
      case RevokeAdmin => user := user.(role := Member);
    }
    db.tables := db.tables.(users := db.tables.users[target := user]);
    if action != RestoreUser {
      db.tables := db.tables.(sessions := RevokedSessions(db.tables.sessions, target));
    }
  }

  method MutateUserAccount(
    db: Database, caller: Context, action: Action, target: Id, reason: string, key: Id)
    returns (answer: AdminAnswer)
    modifies db
    ensures (db.tables, answer) == MutateOutcome(old(db.tables), caller, action, target, reason, key)
    ensures db.locks <= [Lock(IdempotencyT, key), Lock(UserT, target)]
  {
    db.Begin();
    var saved := db.tables;
    var k, request := KeyOf(caller.actor, key), MutateUser(action, target, reason);
    var claim := ClaimAdminIdempotency(db, k, request);
    if claim.Some? {
      return claim.value;
    }
    if target !in db.tables.users {
      db.tables := saved;
      return NotFound;
    }
    db.ForUpdate(UserT, target);
    var refusal := TargetRefusal(db.tables, caller, target, action.GrantAdmin?
        || action.RevokeAdmin?, action.DisableUser?);
    if refusal.Some? {
      db.tables := saved;
      return refusal.value;
    }
    ApplyMutation(db, action, target);
    var response := View(db.tables, target);
    db.tables := db.tables.(records := db.tables.records[k := Succeeded(request, response)]);
    Overwritten(saved.records, k, InProgress(request), Succeeded(request, response));
    return Done(response);
  }

  // ---- create_quota_adjustment ---------------------------------------------------------------

  /** The client's part of an adjustment; `reverses` names the adjustment it undoes. */
  datatype Change = Change(target: Id, delta: int, note: string, reverses: Option<nat>)

  function RequestOf(c: Change): AdminRequest { AdjustQuota(c.target, c.delta, c.note, c.reverses) }

  predicate Reversed(adjustments: seq<Adjustment>, original: nat) {
    exists i | 0 <= i < |adjustments| :: adjustments[i].reverses == Some(original)
  }

  function ReversalRefusal(adjustments: seq<Adjustment>, c: Change): Option<AdminAnswer> {
    if c.reverses.None? then None
    else if c.reverses.value >= |adjustments|
      || adjustments[c.reverses.value].target != Some(c.target) then Some(NotFound)
    else if Reversed(adjustments, c.reverses.value) then Some(AlreadyReversed)
    else if c.delta != -adjustments[c.reverses.value].delta then Some(NotTheOpposite)
    else None
  }

  /** Reasons that follow from the balance the transaction has read. */
  function AdjustRefusal(db: Db, caller: Context, c: Change, read: QuotaSnapshot): Option<AdminAnswer> {
    if c.target !in db.users then Some(NotFound)
    else
      var forbidden := TargetRefusal(db, caller, c.target, false, false);
      if forbidden.Some? then forbidden else BalanceRefusal(db.adjustments, c, read)
  }

  function BalanceRefusal(adjustments: seq<Adjustment>, c: Change, read: QuotaSnapshot): Option<AdminAnswer> {
    if read.Remaining() + c.delta < 0 then Some(BalanceInsufficient)
    else if ReversalRefusal(adjustments, c).Some? then ReversalRefusal(adjustments, c)
    else if c.delta == 0 then Some(CheckViolation)
    else None
  }

  function NewAdjustment(caller: Context, c: Change, k: IdemKey, read: QuotaSnapshot): Adjustment {
    Adjustment(Some(c.target), Some(caller.actor), c.delta, read.Remaining(), read.Remaining() + c.delta, k, c.reverses)
  }

  function ChangeView(db: Db, c: Change, read: QuotaSnapshot): AdminResponse {
    AdjustmentView(|db.adjustments|, c.target, c.delta, read.Remaining(), read.Remaining() + c.delta)
  }

  /** The insert, given the balance read earlier in the transaction. */
  function AdjustWrite(db: Db, caller: Context, c: Change, key: Id, read: QuotaSnapshot): Db {
    var k := KeyOf(caller.actor, key);
    Completed(db.(adjustments := db.adjustments + [NewAdjustment(caller, c, k, read)]), k, RequestOf(c),
        ChangeView(db, c, read))
  }

  function AdjustWith(db: Db, caller: Context, c: Change, key: Id, read: QuotaSnapshot): (Db, AdminAnswer) {
    var claim := Claim(db, KeyOf(caller.actor, key), RequestOf(c));
    var refusal := AdjustRefusal(db, caller, c, read);
    if claim.Some? then (db, claim.value)
    else if refusal.Some? then (db, refusal.value)
    else (AdjustWrite(db, caller, c, key, read), Done(ChangeView(db, c, read)))
  }

  function AdjustOutcome(db: Db, caller: Context, c: Change, key: Id): (Db, AdminAnswer) {
    AdjustWith(db, caller, c, key, Snapshot(db, c.target))
  }

  /** An adjustment either changes nothing or finds a fresh key, a covered balance and a reversible original. */
  lemma AdjustCases(db: Db, caller: Context, c: Change, key: Id, read: QuotaSnapshot)
    ensures var (after, answer) := AdjustWith(db, caller, c, key, read);
            if answer.Done? then
              && KeyOf(caller.actor, key) !in db.records && c.target in db.users && c.delta != 0
              && read.Remaining() + c.delta >= 0 && ReversalRefusal(db.adjustments, c).None?
              && after == AdjustWrite(db, caller, c, key, read) && answer.response == ChangeView(db, c, read)
            else after == db
  {
    AdjustRefusals(db, caller, c, read);
  }

  lemma AdjustRefusals(db: Db, caller: Context, c: Change, read: QuotaSnapshot)
    ensures var refusal := AdjustRefusal(db, caller, c, read);
            if refusal.Some? then !refusal.value.Done?
            else
              && c.target in db.users && c.delta != 0 && read.Remaining() + c.delta >= 0
              && ReversalRefusal(db.adjustments, c).None?
  {
  }

  lemma AdjustWriteTables(db: Db, caller: Context, c: Change, key: Id, read: QuotaSnapshot)
    ensures var after := AdjustWrite(db, caller, c, key, read);
            && after.users == db.users && after.grants == db.grants && after.entries == db.entries
            && after.trips == db.trips
            && after.adjustments == db.adjustments + [NewAdjustment(caller, c, KeyOf(caller.actor, key), read)]
  {
  }

  function TargetLocks(c: Change): seq<Lock> {
    [Lock(UserT, c.target)] + if c.reverses.Some? then [Lock(AdjustmentT, c.reverses.value)] else []
  }

  function AdjustLocks(c: Change, key: Id): seq<Lock> {
    [Lock(IdempotencyT, key)] + TargetLocks(c)
  }

  method CreateQuotaAdjustment(db: Database, caller: Context, c: Change, key: Id) returns (answer: AdminAnswer)
    modifies db
    ensures (db.tables, answer) == AdjustOutcome(old(db.tables), caller, c, key)
    ensures db.locks <= AdjustLocks(c, key)
  {
    db.Begin();
    var saved := db.tables;
    var k, request := KeyOf(caller.actor, key), RequestOf(c);
    var claim := ClaimAdminIdempotency(db, k, request);
    if claim.Some? {
      return claim.value;
    }
    SameBalance(saved, db.tables, c.target);
    var refusal, read := CheckAdjustment(db, caller, c);
    if refusal.Some? {
      db.tables := saved;
      return refusal.value;
    }
    var response := InsertAdjustment(db, caller, c, key, read, saved);
    return Done(response);
  }

  /** The balance does not depend on the idempotency records. */
  lemma SameBalance(a: Db, b: Db, u: Id)
    requires a.grants == b.grants && a.adjustments == b.adjustments && a.entries == b.entries
    ensures Snapshot(a, u) == Snapshot(b, u)
  {
  }

  /** The insert and the completion of the key claimed since `saved`. */
  method InsertAdjustment(db: Database, caller: Context, c: Change, key: Id, before: QuotaSnapshot, ghost saved: Db)
    returns (response: AdminResponse)
    requires db.tables == saved.(records := saved.records[KeyOf(caller.actor, key) := InProgress(RequestOf(c))])
    modifies db`tables
    ensures response == ChangeView(saved, c, before)
    ensures db.tables == AdjustWrite(saved, caller, c, key, before)
  {
    var k := KeyOf(caller.actor, key);
    var after := before.Remaining() + c.delta;
    response := AdjustmentView(|db.tables.adjustments|, c.target, c.delta, before.Remaining(), after);
    var row := Adjustment(Some(c.target), Some(caller.actor), c.delta, before.Remaining(), after, k, c.reverses);
    db.tables := db.tables.(adjustments := db.tables.adjustments + [row]);
    Overwritten(saved.records, k, InProgress(RequestOf(c)), Succeeded(RequestOf(c), response));
    db.tables := db.tables.(records := db.tables.records[k := Succeeded(RequestOf(c), response)]);
  }

  lemma Overwritten(records: map<IdemKey, Record>, k: IdemKey, claimed: Record, completed: Record)
    ensures records[k := claimed][k := completed] == records[k := completed]
  {
  }

  /** The checks between the claim and the insert. */
  method CheckAdjustment(
    db: Database, caller: Context, c: Change)
    returns (refusal: Option<AdminAnswer>, before: QuotaSnapshot)
    modifies db`locks
    ensures refusal == AdjustRefusal(db.tables, caller, c, Snapshot(db.tables, c.target))
    ensures refusal.None? ==> before == Snapshot(db.tables, c.target)
    ensures db.locks <= old(db.locks) + TargetLocks(c)
  {
    before := QuotaSnapshot(0, 0, 0);
    if c.target !in db.tables.users {
      return Some(NotFound), before;
    }
    db.ForUpdate(UserT, c.target);
    var forbidden := TargetRefusal(db.tables, caller, c.target, false, false);
    if forbidden.Some? {
      return forbidden, before;
    }
    before := Snapshot(db.tables, c.target);
    refusal := CheckBalance(db, c, before);
  }

  method CheckBalance(db: Database, c: Change, before: QuotaSnapshot) returns (refusal: Option<AdminAnswer>)
    modifies db`locks
    ensures refusal == BalanceRefusal(db.tables.adjustments, c, before)
    ensures db.locks <= old(db.locks) + if c.reverses.Some? then [Lock(AdjustmentT, c.reverses.value)] else []
  {
    if before.Remaining() + c.delta < 0 {
      return Some(BalanceInsufficient);
    }
    if c.reverses.Some? {
      var original := c.reverses.value;
      if original < |db.tables.adjustments| {
        db.ForUpdate(AdjustmentT, original);
      }
      if original >= |db.tables.adjustments| || db.tables.adjustments[original].target != Some(c.target) {
        return Some(NotFound);
      }
      if Reversed(db.tables.adjustments, original) {
        return Some(AlreadyReversed);
      }
      if c.delta != -db.tables.adjustments[original].delta {
        return Some(NotTheOpposite);
      }
    }
    if c.delta == 0 {
      return Some(CheckViolation);
    }
    return None;
  }

  // ---- reverse_quota_adjustment --------------------------------------------------------------

  /** The change that undoes an adjustment, read in a transaction of its own. */
  function ReversalOf(db: Db, original: nat, note: string): Option<Change> {
    if original >= |db.adjustments| || db.adjustments[original].target.None?
       || db.adjustments[original].target.value !in db.users then None
    else Some(Change(db.adjustments[original].target.value, -db.adjustments[original].delta, note, Some(original)))
  }

  function ReverseOutcome(db: Db, caller: Context, original: nat, note: string, key: Id): (Db, AdminAnswer) {
    var c := ReversalOf(db, original, note);
    if c.None? then (db, NotFound) else AdjustOutcome(db, caller, c.value, key)
  }

  method ReverseQuotaAdjustment(
    db: Database, caller: Context, original: nat, note: string, key: Id)
    returns (answer: AdminAnswer)
    modifies db
    ensures (db.tables, answer) == ReverseOutcome(old(db.tables), caller, original, note, key)
  {
    var c := LookUpReversal(db, original, note);
    if c.None? {
      return NotFound;
    }
    answer := CreateQuotaAdjustment(db, caller, c.value, key);
  }

  /** The first transaction of a reversal. */
  method LookUpReversal(db: Database, original: nat, note: string) returns (c: Option<Change>)
    modifies db
    ensures c == ReversalOf(old(db.tables), original, note) && db.tables == old(db.tables) && db.locks == []
  {
    db.Begin();
    if original >= |db.tables.adjustments| {
      return None;
    }
    var row := db.tables.adjustments[original];
    if row.target.None? || row.target.value !in db.tables.users {
      return None;
    }
    return Some(Change(row.target.value, -row.delta, note, Some(original)));
  }
}
