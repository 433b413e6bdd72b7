/**
  The explicit row locks of every transaction ascend one rank, so these transactions never wait for
  each other in a circle.
  */
module Locks {
  import opened Schema
  import opened Finite
  import opened Projection
  import opened AccountClosure
  import opened Admin

  /** Locking a row again is not waiting, so repetitions are allowed. */
  ghost predicate Ordered(plan: seq<Lock>) {
    forall i, j | 0 <= i < j < |plan| :: plan[i].Before(plan[j]) || plan[i] == plan[j]
  }

  lemma PrefixOrdered(plan: seq<Lock>, taken: seq<Lock>)
    requires Ordered(plan) && taken <= plan
    ensures Ordered(taken)
  {
  }

  // ---- The plans -----------------------------------------------------------------------------

  lemma JoinOrdered(a: seq<Lock>, b: seq<Lock>)
    requires Ordered(a) && Ordered(b) && forall x, y | x in a && y in b :: x.table.Rank() < y.table.Rank()
    ensures Ordered(a + b)
  {
  }

  lemma {:induction false} StepLocksOrdered(stored: map<Id, StepRow>, list: seq<StepSnapshot>)
    requires forall i, j | 0 <= i < j < |list| :: list[i].stepId <= list[j].stepId
    ensures Ordered(StepLocks(stored, list))
    ensures forall l | l in StepLocks(stored, list) :: l.table == StepT && exists s :: s in list && s.stepId == l.row
  {
    if list != [] {
      var front, last := list[..|list| - 1], list[|list| - 1];
      StepLocksOrdered(stored, front);
      forall l | l in StepLocks(stored, front)
        ensures l.row <= last.stepId
      {
        var s :| s in front && s.stepId == l.row;
      }
      assert last in list;
      assert forall s | s in front :: s in list;
    }
  }

  lemma EventPlan(db: Db, e: Event)
    ensures Ordered(EventLocks(db, e))
  {
    StepLocksOrdered(db.steps, InIdOrder(e.steps));
    JobLocksOrdered(db, e.job.jobId);
    RowsThenSteps(JobLocks(db, e.job.jobId), StepLocks(db.steps, InIdOrder(e.steps)));
  }

  lemma JobLocksOrdered(db: Db, job: Id)
    ensures Ordered(JobLocks(db, job)) && forall l | l in JobLocks(db, job) :: l.table in {TripT, ProjectionT}
  {
  }

  lemma RowsThenSteps(a: seq<Lock>, b: seq<Lock>)
    requires Ordered(a) && Ordered(b) && (forall l | l in a :: l.table in {TripT, ProjectionT})
             && forall l | l in b :: l.table == StepT
    ensures Ordered([Lock(ConsumerT, 1)] + (a + b))
  {
    JoinOrdered(a, b);
    JoinOrdered([Lock(ConsumerT, 1)], a + b);
  }

  lemma {:induction false} ListLocksOrdered(table: Table, ids: seq<Id>)
    requires Ascending(ids)
    ensures Ordered(ListLocks(table, ids)) && |ListLocks(table, ids)| == |ids|
    ensures forall i | 0 <= i < |ids| :: ListLocks(table, ids)[i] == Lock(table, ids[i])
  {
    if ids != [] {
      ListLocksOrdered(table, ids[..|ids| - 1]);
    }
  }

  lemma RowLocksOrdered(table: Table, rows: set<Id>)
    ensures Ordered(RowLocks(table, rows)) && forall l | l in RowLocks(table, rows) :: l.table == table
  {
    ListLocksOrdered(table, Sorted(rows));
  }

  lemma ErasePlan(db: Db, u: Id)
    ensures Ordered(EraseLocks(db, u)) && forall l | l in EraseLocks(db, u) :: l.table in {TripT, ProjectionT}
  {
    var trips, rows := TripsOf(db.trips, u), JobsOf(db.trips, TripsOf(db.trips, u)) * db.jobs.Keys;
    RowLocksOrdered(TripT, trips);
    RowLocksOrdered(ProjectionT, rows);
    TripsThenRows(RowLocks(TripT, trips), RowLocks(ProjectionT, rows));
  }

  lemma TripsThenRows(a: seq<Lock>, b: seq<Lock>)
    requires Ordered(a) && Ordered(b) && (forall l | l in a :: l.table == TripT) && forall l | l in b ::
               l.table == ProjectionT
    ensures Ordered(a + b) && forall l | l in a + b :: l.table in {TripT, ProjectionT}
  {
    JoinOrdered(a, b);
  }

  lemma ClosePlan(db: Db, u: Id, c: Id)
    ensures Ordered(CloseLocks(db, u, c))
  {
    ErasePlan(db, u);
    AccountThenRest(u, c, EraseLocks(db, u));
  }

  lemma AccountThenRest(u: Id, c: Id, rest: seq<Lock>)
    requires Ordered(rest) && forall l | l in rest :: l.table in {TripT, ProjectionT}
    ensures Ordered([Lock(UserT, u), Lock(ChallengeT, c)] + rest)
  {
    JoinOrdered([Lock(UserT, u), Lock(ChallengeT, c)], rest);
  }

  /** Reservation and rename, settlement and progress, acceptance, user mutation and quota adjustment. */
  lemma ShortPlans(u: Id, t: Id, job: Id, key: Id, c: Change)
    ensures Ordered([Lock(UserT, u)]) && Ordered([Lock(TripT, t)]) && Ordered([Lock(TripT, t), Lock(ProjectionT, job)])
    ensures Ordered([Lock(IdempotencyT, key), Lock(UserT, u)]) && Ordered(AdjustLocks(c, key))
  {
  }

  // ---- Waiting -------------------------------------------------------------------------------

  datatype Progress = Progress(plan: seq<Lock>, taken: nat)

  /** A transaction that has taken the first `taken` locks of its plan and needs another one. */
  type Tx = t: Progress | t.taken < |t.plan| && Ordered(t.plan) && t.plan[t.taken] !in t.plan[..t.taken]
    ghost witness Progress([Lock(UserT, 0)], 0)

  function Held(t: Tx): seq<Lock> { t.plan[..t.taken] }

  function Wants(t: Tx): Lock { t.plan[t.taken] }

  /** a waits for b: the next lock of a is held by b. */
  predicate WaitsFor(a: Tx, b: Tx) {
    Wants(a) in Held(b)
  }

  /** Waiting goes up. */
  lemma WaitsUpwards(a: Tx, b: Tx)
    requires WaitsFor(a, b)
    ensures Wants(a).Before(Wants(b))
  {
    var i :| 0 <= i < b.taken && b.plan[i] == Wants(a);
    assert b.plan[i] in Held(b);
  }

  lemma {:induction false} ChainGoesUp(txs: seq<Tx>, k: nat)
    requires k < |txs|
    requires forall i | 0 <= i < k :: WaitsFor(txs[i], txs[i + 1])
    ensures k > 0 ==> Wants(txs[0]).Before(Wants(txs[k]))
  {
    if k > 0 {
      ChainGoesUp(txs, k - 1);
      WaitsUpwards(txs[k - 1], txs[k]);
    }
  }

  /** No circle: in any ring of these transactions somebody does not wait for the next. */
  lemma NoWaitCycle(txs: seq<Tx>)
    requires txs != []
    ensures (exists i :: 0 <= i < |txs| - 1 && !WaitsFor(txs[i], txs[i + 1])) || !WaitsFor(txs[|txs| - 1], txs[0])
  {
    if forall i | 0 <= i < |txs| - 1 :: WaitsFor(txs[i], txs[i + 1]) {
      ChainGoesUp(txs, |txs| - 1);
      if WaitsFor(txs[|txs| - 1], txs[0]) {
        WaitsUpwards(txs[|txs| - 1], txs[0]);
      }
    }
  }

  /** A transaction whose next lock nobody ranks above. */
  lemma {:induction false} Highest(txs: seq<Tx>) returns (m: nat)
    requires txs != []
    ensures m < |txs| && forall i | 0 <= i < |txs| :: !Wants(txs[m]).Before(Wants(txs[i]))
  {
    if |txs| == 1 {
      m := 0;
    } else {
      m := Highest(txs[..|txs| - 1]);
      var last := |txs| - 1;
      assert forall i | 0 <= i < last :: txs[..last][i] == txs[i];
      if Wants(txs[m]).Before(Wants(txs[last])) {
        m := last;
      }
    }
  }

  /** Nobody holds what number m wants. */
  ghost predicate Proceeds(txs: seq<Tx>, m: nat)
    requires m < |txs|
  {
    forall i | 0 <= i < |txs| :: !WaitsFor(txs[m], txs[i])
  }

  /** So among any unfinished ones somebody can go on. */
  lemma SomebodyProceeds(txs: seq<Tx>)
    requires txs != []
    ensures exists m :: 0 <= m < |txs| && Proceeds(txs, m)
  {
    var m := Highest(txs);
    forall i | 0 <= i < |txs|
      ensures !WaitsFor(txs[m], txs[i])
    {
      if WaitsFor(txs[m], txs[i]) {
        WaitsUpwards(txs[m], txs[i]);
      }
    }
    assert Proceeds(txs, m);
  }

  // ---- Every schedule ------------------------------------------------------------------------

  /** Takes the next lock, which must be free; or ends, with or without having taken all. */
  datatype Move = Acquire(i: nat) | End(i: nat)

  type Transactions = seq<Progress>

  predicate HeldByOther(s: Transactions, i: nat, l: Lock) {
    exists j :: 0 <= j < |s| && j != i && s[j].taken <= |s[j].plan| && l in s[j].plan[..s[j].taken]
  }

  predicate MayAcquire(s: Transactions, i: nat) {
    i < |s| && s[i].taken < |s[i].plan| && !HeldByOther(s, i, s[i].plan[s[i].taken])
  }

  predicate MayMove(s: Transactions, m: Move) {
    if m.Acquire? then MayAcquire(s, m.i) else m.i < |s|
  }

  function Moved(s: Transactions, m: Move): Transactions {
    if m.i >= |s| then s
    else s[m.i := if m.Acquire? then Progress(s[m.i].plan, s[m.i].taken + 1) else Progress([], 0)]
  }

  function Run(s: Transactions, moves: seq<Move>): Transactions {
    if moves == [] then s else Moved(Run(s, moves[..|moves| - 1]), moves[|moves| - 1])
  }

  ghost predicate Possible(s: Transactions, moves: seq<Move>) {
    moves != [] ==> Possible(s, moves[..|moves| - 1]) && MayMove(Run(s, moves[..|moves| - 1]), moves[|moves| - 1])
  }

  /** Somebody is at work, and everybody at work waits for a lock that another one holds. */
  ghost predicate Stuck(s: Transactions) {
    && (exists i :: 0 <= i < |s| && s[i].plan != [])
    && forall i | 0 <= i < |s| && s[i].plan != [] :: s[i].taken < |s[i].plan| && !MayAcquire(s, i)
  }

  ghost predicate Orderly(s: Transactions) {
    && (forall i | 0 <= i < |s| :: s[i].taken <= |s[i].plan| && Ordered(s[i].plan))
    && forall i, j, l: Lock | 0 <= i < |s| && 0 <= j < |s| && l in s[i].plan[..s[i].taken]
    && l in s[j].plan[..s[j].taken] :: i == j
  }

  lemma MoveKeepsOrder(s: Transactions, m: Move)
    requires Orderly(s) && MayMove(s, m)
    ensures Orderly(Moved(s, m))
  {
    if m.Acquire? {
      var p := s[m.i];
      assert p.plan[..p.taken + 1] == p.plan[..p.taken] + [p.plan[p.taken]];
    }
  }

  /** A transaction at work whose next lock nobody's at work ranks above. */
  lemma {:induction false} HighestAtWork(s: Transactions, n: nat) returns (m: nat)
    requires n <= |s| && (exists i :: 0 <= i < n && s[i].plan != [])
    requires forall i | 0 <= i < n && s[i].plan != [] :: s[i].taken < |s[i].plan|
    ensures m < n && s[m].plan != []
    ensures forall i | 0 <= i < n && s[i].plan != [] :: !s[m].plan[s[m].taken].Before(s[i].plan[s[i].taken])
  {
    if exists i :: 0 <= i < n - 1 && s[i].plan != [] {
      m := HighestAtWork(s, n - 1);
      if s[n - 1].plan != [] && s[m].plan[s[m].taken].Before(s[n - 1].plan[s[n - 1].taken]) {
        m := n - 1;
      }
    } else {
      m := n - 1;
    }
  }

  lemma OrderlyIsNotStuck(s: Transactions)
    requires Orderly(s)
    ensures !Stuck(s)
  {
    if (exists i :: 0 <= i < |s| && s[i].plan != []) && forall i | 0 <= i < |s| && s[i].plan != [] ::
        s[i].taken < |s[i].plan| {
      var m := HighestAtWork(s, |s|);
      if !MayAcquire(s, m) {
        var want := s[m].plan[s[m].taken];
        var j :| 0 <= j < |s| && j != m && s[j].taken <= |s[j].plan| && want in s[j].plan[..s[j].taken];
        var k :| 0 <= k < s[j].taken && s[j].plan[k] == want;
        assert s[j].plan[s[j].taken] == want;
        assert MayAcquire(s, j);
      }
    }
  }

  /** No schedule of transactions with ascending plans ever gets stuck. */
  lemma {:induction false} NeverStuck(s: Transactions, moves: seq<Move>)
    requires Possible(s, moves) && forall i | 0 <= i < |s| :: s[i].taken == 0 && Ordered(s[i].plan)
    ensures Orderly(Run(s, moves)) && !Stuck(Run(s, moves))
  {
    if moves != [] {
      NeverStuck(s, moves[..|moves| - 1]);
      MoveKeepsOrder(Run(s, moves[..|moves| - 1]), moves[|moves| - 1]);
    }
    OrderlyIsNotStuck(Run(s, moves));
  }

  // ---- Login verification --------------------------------------------------------------------

  /** A login locks a challenge before its user; a closure locks the user before the challenge presented. */
  function LoginPlan(user: Id, challenge: Id): seq<Lock> {
    [Lock(ChallengeT, challenge), Lock(UserT, user)]
  }

  function Two(db: Db, u: Id, c: Id, user: Id, challenge: Id, i: nat, j: nat): Transactions {
    [Progress(LoginPlan(user, challenge), i), Progress(CloseLocks(db, u, c), j)]
  }

  lemma CloseLocksStart(db: Db, u: Id, c: Id)
    ensures |CloseLocks(db, u, c)| >= 2 && CloseLocks(db, u, c)[0] == Lock(UserT, u)
            && CloseLocks(db, u, c)[1] == Lock(ChallengeT, c)
    ensures forall k | 2 <= k < |CloseLocks(db, u, c)| :: CloseLocks(db, u, c)[k].table in {TripT, ProjectionT}
  {
    ErasePlan(db, u);
    forall k | 2 <= k < |CloseLocks(db, u, c)|
      ensures CloseLocks(db, u, c)[k].table in {TripT, ProjectionT}
    {
      assert CloseLocks(db, u, c)[k] in EraseLocks(db, u);
    }
  }

  /**
    A login and a closure get stuck in exactly one way: each holds its first lock, and both name the same
    user and the same challenge.
    */
  lemma LoginMeetsClosure(db: Db, u: Id, c: Id, user: Id, challenge: Id, i: nat, j: nat)
    requires i <= 2 && j <= |CloseLocks(db, u, c)|
    ensures Stuck(Two(db, u, c, user, challenge, i, j)) <==> i == 1 && j == 1 && u == user && c == challenge
  {
    CloseLocksStart(db, u, c);
    StuckPair(LoginPlan(user, challenge), CloseLocks(db, u, c), i, j, u, c, user, challenge);
  }

  lemma StuckPair(login: seq<Lock>, closure: seq<Lock>, i: nat, j: nat, u: Id, c: Id, user: Id, challenge: Id)
    requires login == [Lock(ChallengeT, challenge), Lock(UserT, user)] && i <= 2 && j <= |closure|
    requires |closure| >= 2 && closure[0] == Lock(UserT, u) && closure[1] == Lock(ChallengeT, c)
    requires forall k | 2 <= k < |closure| :: closure[k].table in {TripT, ProjectionT}
    ensures Stuck([Progress(login, i), Progress(closure, j)]) <==> i == 1 && j == 1 && u == user && c == challenge
  {
    var s := [Progress(login, i), Progress(closure, j)];
    forall l: Lock
      ensures HeldByOther(s, 0, l) <==> l in closure[..j]
      ensures HeldByOther(s, 1, l) <==> l in login[..i]
    {
      if l in closure[..j] {
        assert s[1].taken <= |s[1].plan| && l in s[1].plan[..s[1].taken];
      }
      if l in login[..i] {
        assert s[0].taken <= |s[0].plan| && l in s[0].plan[..s[0].taken];
      }
    }
    assert s[0].plan != [] && s[1].plan != [];
    if i < 2 && j < |closure| {
      PairWaits(login, closure, i, j, u, c, user, challenge);
      assert MayAcquire(s, 0) <==> login[i] !in closure[..j];
      assert MayAcquire(s, 1) <==> closure[j] !in login[..i];
    }
  }

  lemma PairWaits(login: seq<Lock>, closure: seq<Lock>, i: nat, j: nat, u: Id, c: Id, user: Id, challenge: Id)
    requires login == [Lock(ChallengeT, challenge), Lock(UserT, user)] && i < 2 && j < |closure|
    requires |closure| >= 2 && closure[0] == Lock(UserT, u) && closure[1] == Lock(ChallengeT, c)
    requires forall k | 2 <= k < |closure| :: closure[k].table in {TripT, ProjectionT}
    ensures login[i] in closure[..j] && closure[j] in login[..i] <==> i == 1 && j == 1 && u == user && c == challenge
  {
    if closure[j] in login[..i] {
      assert i == 1 && login[..i] == [login[0]];
      assert j == 1;
    }
    if i == 1 && j == 1 {
      assert closure[..1] == [closure[0]] && login[..1] == [login[0]];
    }
  }

  /** And that state is reached: the login locks its challenge, then the closure its user. */
  lemma LoginAndClosureGetStuck(db: Db, u: Id, c: Id)
    ensures var start, moves := Two(db, u, c, u, c, 0, 0), [Acquire(0), Acquire(1)];
            Possible(start, moves) && Run(start, moves) == Two(db, u, c, u, c, 1, 1) && Stuck(Run(start, moves))
  {
    CloseLocksStart(db, u, c);
    LoginMeetsClosure(db, u, c, u, c, 1, 1);
    FirstLocks(LoginPlan(u, c), CloseLocks(db, u, c));
    TwoMoves(Two(db, u, c, u, c, 0, 0), Acquire(0), Acquire(1));
  }

  /** Two transactions whose first locks differ may take them one after the other. */
  lemma FirstLocks(a: seq<Lock>, b: seq<Lock>)
    requires a != [] && b != [] && a[0] != b[0]
    ensures var s := [Progress(a, 0), Progress(b, 0)];
            && MayAcquire(s, 0) && Moved(s, Acquire(0)) == [Progress(a, 1), Progress(b, 0)]
            && MayAcquire([Progress(a, 1), Progress(b, 0)], 1)
            && Moved([Progress(a, 1), Progress(b, 0)], Acquire(1)) == [Progress(a, 1), Progress(b, 1)]
  {
    assert a[..1] == [a[0]];
  }

  lemma TwoMoves(s: Transactions, a: Move, b: Move)
    ensures Run(s, [a, b]) == Moved(Moved(s, a), b)
    ensures MayMove(s, a) && MayMove(Moved(s, a), b) ==> Possible(s, [a, b])
  {
    assert [a, b][..1] == [a] && [a][..0] == [];
    assert Run(s, [a]) == Moved(s, a);
  }
}
