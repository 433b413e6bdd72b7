/**
  What the upstream knows of a trip, and what the trip's own row says about it, over runs of the service
  with retries, reconciliation and crashes (src/trips/service.py, src/trips/reconciliation.py).
  */
module SubmissionRuns {
  import opened Schema
  import opened Finite
  import opened ProjectionSync
  import opened Quota
  import opened Ledger
  import opened TripSubmission
  import opened AccountClosure
  import opened World
  import Frames
  import opened System

  // ---- What the upstream holds ---------------------------------------------------------------

  /** A post that the upstream accepts, whether or not its reply arrives. */
  predicate Accepting(op: Op, t: Id) {
    op.Post? && op.trip == t && (op.fate.Served? || op.fate.ReplyLost?)
  }

  ghost predicate AcceptedIn(ops: seq<Op>, t: Id) {
    exists i :: 0 <= i < |ops| && Accepting(ops[i], t)
  }

  lemma NextJobs(w: World, op: Op, t: Id)
    ensures t in Next(w, op).jobs <==> t in w.jobs || Accepting(op, t)
  {
  }

  lemma AcceptedOneMore(ops: seq<Op>, t: Id)
    requires ops != []
    ensures AcceptedIn(ops, t) <==> AcceptedIn(ops[..|ops| - 1], t) || Accepting(ops[|ops| - 1], t)
  {
    var front := ops[..|ops| - 1];
    if AcceptedIn(front, t) {
      var i :| 0 <= i < |front| && Accepting(front[i], t);
      assert Accepting(ops[i], t);
    }
    if AcceptedIn(ops, t) && !Accepting(ops[|ops| - 1], t) {
      var i :| 0 <= i < |ops| && Accepting(ops[i], t);
      assert front[i] == ops[i];
    }
  }

  /** The upstream holds a job for the trip if and only if some post of the run was accepted. */
  lemma {:induction false} UpstreamHoldsExactly(w: World, ops: seq<Op>, t: Id)
    ensures t in Run(w, ops).jobs <==> t in w.jobs || AcceptedIn(ops, t)
  {
    if ops != [] {
      var front, last := ops[..|ops| - 1], ops[|ops| - 1];
      UpstreamHoldsExactly(w, front, t);
      NextJobs(Run(w, front), last, t);
      AcceptedOneMore(ops, t);
    }
  }

  /**
    A definite failure, after any run: the trip fails and its unit is released, and the upstream holds a
    job for it if and only if an earlier post of the run was accepted.
    */
  lemma DefiniteFailureReleases(w: World, ops: seq<Op>, t: Id)
    requires Inv(w) && Possible(w, ops) && t !in w.jobs
    requires t in Run(w, ops).db.trips && !Run(w, ops).db.trips[t].status.Terminal()
    ensures var r := Run(w, ops + [Post(t, NotReached), Settle(t, UNREACHABLE, None)]);
            Released(r.db, t) && (t in r.jobs <==> AcceptedIn(ops, t))
  {
    UpstreamHoldsExactly(w, ops, t);
    FailureAfterRun(w, ops, t);
  }

  lemma FailureAfterRun(w: World, ops: seq<Op>, t: Id)
    requires Inv(w) && Possible(w, ops) && t in Run(w, ops).db.trips && !Run(w, ops).db.trips[t].status.Terminal()
    ensures var r := Run(w, ops + [Post(t, NotReached), Settle(t, UNREACHABLE, None)]);
            Released(r.db, t) && r.jobs == Run(w, ops).jobs
  {
    EveryRun(w, ops);
    TwoMore(w, ops, Post(t, NotReached), Settle(t, UNREACHABLE, None));
    FailureAtOnce(Run(w, ops), t);
  }

  lemma TwoMore(w: World, ops: seq<Op>, a: Op, b: Op)
    ensures Run(w, ops + [a, b]) == Next(Next(Run(w, ops), a), b)
  {
    assert ops + [a, b] == ops + [a] + [b];
    RunOneMore(w, ops, a);
    RunOneMore(w, ops + [a], b);
  }

  lemma RunOneMore(w: World, ops: seq<Op>, op: Op)
    ensures Run(w, ops + [op]) == Next(Run(w, ops), op)
  {
    assert (ops + [op])[..|ops|] == ops;
  }

  lemma FailureAtOnce(w: World, t: Id)
    requires LedgerOk(w.db) && t in w.db.trips && !w.db.trips[t].status.Terminal()
    ensures var r := Next(Next(w, Post(t, NotReached)), Settle(t, UNREACHABLE, None));
            Released(r.db, t) && r.jobs == w.jobs
  {
    FailureReleases(w.db, t, w.now);
  }

  // ---- What the row says ---------------------------------------------------------------------

  predicate Picked(w: World, op: Op, t: Id) {
    op.Claim? && t in Claimable(w.db.trips, op.order, w.maxAttempts, op.limit)
  }

  predicate ClaimedIn(w: World, ops: seq<Op>, t: Id) {
    ops != [] && (ClaimedIn(w, ops[..|ops| - 1], t) || Picked(Run(w, ops[..|ops| - 1]), ops[|ops| - 1], t))
  }

  predicate Answers(op: Op, t: Id) {
    (op.Accept? || op.Uncertain?) && op.trip == t
  }

  /**
    Some accepted post has left no trace: it was not made by a reconciliation, which counts its attempt
    beforehand, and its reply or its loss has not been written yet. A worker that dies between a post
    and the write leaves it so.
    */
  predicate Outstanding(w: World, ops: seq<Op>, t: Id) {
    ops != [] && !Answers(ops[|ops| - 1], t)
    && (Outstanding(w, ops[..|ops| - 1], t) || (Accepting(ops[|ops| - 1], t) && !ClaimedIn(w, ops[..|ops| - 1], t)))
  }

  /** The row as the failing caller sees it: no job yet, and no attempt counted. */
  predicate Uncounted(trips: map<Id, Trip>, t: Id) {
    t in trips && AwaitsSubmission(trips[t]) && trips[t].attempts == 0
  }

  lemma AwaitingBackwards(w: World, op: Op, t: Id)
    requires Inv(w) && Enabled(w, op) && t in w.db.trips
    ensures t in Next(w, op).db.trips && w.db.trips[t].attempts <= Next(w, op).db.trips[t].attempts
    ensures AwaitsSubmission(Next(w, op).db.trips[t]) ==> AwaitsSubmission(w.db.trips[t])
  {
    StepKeepsInv(w, op);
    EvolvedAwaits(w.db.trips[t], Next(w, op).db.trips[t]);
  }

  lemma EvolvedAwaits(before: Trip, after: Trip)
    requires TripEvolves(before, after)
    ensures before.attempts <= after.attempts && (AwaitsSubmission(after) ==> AwaitsSubmission(before))
  {
  }

  /** The reply binds the trip, unless it is finished. */
  lemma AcceptedIsBound(w: World, t: Id, reported: string)
    requires Inv(w) && t in w.jobs && t in w.db.trips
    ensures t in Next(w, Accept(t, reported)).db.trips && !AwaitsSubmission(Next(w, Accept(t, reported)).db.trips[t])
  {
    DifferentJobUnreachable(w.db, w.jobs, t);
    AcceptChangesOneTrip(w.db, t, w.jobs[t], reported, w.now);
  }

  lemma UncertaintyIsCounted(w: World, t: Id)
    requires t in w.db.trips
    ensures t in Next(w, Uncertain(t)).db.trips
    ensures AwaitsSubmission(Next(w, Uncertain(t)).db.trips[t]) ==> Next(w, Uncertain(t)).db.trips[t].attempts > 0
  {
  }

  lemma ClaimIsCounted(w: World, op: Op, t: Id)
    requires Picked(w, op, t)
    ensures t in Next(w, op).db.trips && Next(w, op).db.trips[t].attempts > 0
  {
    assert t in Elements(Claimable(w.db.trips, op.order, w.maxAttempts, op.limit));
  }

  /** Where a run stands with a trip. */
  ghost predicate Stands(r: World, t: Id, claimed: bool, outstanding: bool) {
    && (t in r.jobs ==> t in r.db.trips)
    && (claimed ==> t in r.db.trips && r.db.trips[t].attempts > 0)
    && (t in r.jobs && !outstanding ==> !Uncounted(r.db.trips, t))
  }

  /** A reply that is written, or its loss, shows on the row. */
  lemma AnswerIsTraced(r: World, op: Op, t: Id)
    requires Inv(r) && Enabled(r, op) && t in r.db.trips && Answers(op, t)
    ensures !Uncounted(Next(r, op).db.trips, t)
  {
    if op.Accept? {
      AcceptedIsBound(r, t, op.reported);
    } else {
      UncertaintyIsCounted(r, t);
    }
  }

  lemma OneStepStands(r: World, op: Op, t: Id, claimed: bool, outstanding: bool)
    requires Inv(r) && Enabled(r, op) && Stands(r, t, claimed, outstanding)
    ensures Stands(Next(r, op), t, claimed || Picked(r, op, t), !Answers(op, t)
              && (outstanding || (Accepting(op, t) && !claimed)))
  {
    NextJobs(r, op, t);
    if t in r.db.trips {
      AwaitingBackwards(r, op, t);
      if Answers(op, t) {
        AnswerIsTraced(r, op, t);
      }
      if Picked(r, op, t) {
        ClaimIsCounted(r, op, t);
      }
      Traced(r.db.trips, Next(r, op).db.trips, t);
    } else {
      assert !Accepting(op, t) && !Picked(r, op, t);
    }
  }

  lemma Traced(before: map<Id, Trip>, after: map<Id, Trip>, t: Id)
    requires t in before && t in after && before[t].attempts <= after[t].attempts
    requires AwaitsSubmission(after[t]) ==> AwaitsSubmission(before[t])
    ensures Uncounted(after, t) ==> Uncounted(before, t)
  {
  }

  lemma {:induction false} RunStands(w: World, ops: seq<Op>, t: Id)
    requires Inv(w) && Possible(w, ops) && t !in w.jobs
    ensures Stands(Run(w, ops), t, ClaimedIn(w, ops, t), Outstanding(w, ops, t))
  {
    if ops != [] {
      var front := ops[..|ops| - 1];
      RunStands(w, front, t);
      EveryRun(w, front);
      OneStepStands(Run(w, front), ops[|ops| - 1], t, ClaimedIn(w, front, t), Outstanding(w, front, t));
    }
  }

  /**
    What the caller can read on the row: a trip that awaits submission with no attempt counted was never
    accepted, unless an accepted post is still outstanding.
    */
  lemma UncountedWasNeverAccepted(w: World, ops: seq<Op>, t: Id)
    requires Inv(w) && Possible(w, ops) && t !in w.jobs
    requires Uncounted(Run(w, ops).db.trips, t) && !Outstanding(w, ops, t)
    ensures t !in Run(w, ops).jobs && !AcceptedIn(ops, t)
  {
    RunStands(w, ops, t);
    UpstreamHoldsExactly(w, ops, t);
  }

  // ---- The row says no more than that --------------------------------------------------------

  predicate Offers(op: Op, o: Id) {
    op.Post? && (op.fate.Served? || op.fate.ReplyLost?) && op.fate.offered == o
  }

  ghost predicate Unoffered(ops: seq<Op>, o: Id) {
    forall i | 0 <= i < |ops| :: !Offers(ops[i], o)
  }

  lemma {:induction false} FreshOffer(ops: seq<Op>, least: nat) returns (o: Id)
    ensures Unoffered(ops, o) && least <= o
    ensures forall k | k >= o :: Unoffered(ops, k)
  {
    if ops == [] {
      o := least;
    } else {
      o := FreshOffer(ops[..|ops| - 1], least);
      var last := ops[|ops| - 1];
      if last.Post? && (last.fate.Served? || last.fate.ReplyLost?) && o <= last.fate.offered {
        o := last.fate.offered + 1;
      }
      forall k | k >= o
        ensures Unoffered(ops, k)
      {
        assert Unoffered(ops[..|ops| - 1], k) && !Offers(last, k);
        forall i | 0 <= i < |ops|
          ensures !Offers(ops[i], k)
        {
          assert i == |ops| - 1 || ops[i] == ops[..|ops| - 1][i];
        }
      }
    }
  }

  lemma {:induction false} JobsWereOffered(w: World, ops: seq<Op>, o: Id)
    requires o !in w.jobs.Values && Unoffered(ops, o)
    ensures o !in Run(w, ops).jobs.Values
  {
    if ops != [] {
      var front, last := ops[..|ops| - 1], ops[|ops| - 1];
      JobsWereOffered(w, front, o);
      assert !Offers(last, o);
      NextValues(Run(w, front), last, o);
    }
  }

  lemma NextValues(w: World, op: Op, o: Id)
    requires o !in w.jobs.Values && !Offers(op, o)
    ensures o !in Next(w, op).jobs.Values
  {
  }

  /** The same service, before an upstream that also holds job `o` for the trip. */
  function WithJob(w: World, t: Id, o: Id): World {
    w.(jobs := w.jobs[t := o])
  }

  /** Until a reply names it, the service does not notice the job. */
  lemma StepIgnoresJob(w: World, op: Op, t: Id, o: Id)
    requires Enabled(w, op) && t !in Next(w, op).jobs && !Offers(op, o)
    ensures Enabled(WithJob(w, t, o), op) && Next(WithJob(w, t, o), op) == WithJob(Next(w, op), t, o)
  {
    NextJobs(w, op, t);
    AfterIgnoresJob(w, op, t, o);
    PastIgnoresJob(w, op, t, o);
    if op.Post? {
      PostIgnoresJob(w, op, t, o);
    }
  }

  lemma AfterIgnoresJob(w: World, op: Op, t: Id, o: Id)
    requires !(op.Accept? && op.trip == t)
    ensures After(WithJob(w, t, o), op) == After(w, op)
  {
  }

  lemma PastIgnoresJob(w: World, op: Op, t: Id, o: Id)
    ensures Remember(WithJob(w, t, o), op) == Remember(w, op)
  {
  }

  lemma PostIgnoresJob(w: World, op: Op, t: Id, o: Id)
    requires op.Post? && !Accepting(op, t)
    ensures Create(w.jobs[t := o], op.trip, op.fate).0 == Create(w.jobs, op.trip, op.fate).0[t := o]
  {
  }

  /** A lost post, put into a run: everything but the upstream is as it was. */
  ghost predicate Inserted(w: World, a: seq<Op>, b: seq<Op>, t: Id, o: Id) {
    var p := Post(t, ReplyLost(o, false));
    && Possible(w, a + [p] + b) && Run(w, a + [p] + b) == WithJob(Run(w, a + b), t, o)
    && ClaimedIn(w, a + [p] + b, t) == ClaimedIn(w, a + b, t)
    && (b != [] && Answers(b[0], t) ==> Outstanding(w, a + [p] + b, t) == Outstanding(w, a + b, t))
  }

  lemma InsertedLast(w: World, a: seq<Op>, t: Id, o: Id)
    requires Possible(w, a) && t !in Run(w, a).jobs && t in Run(w, a).db.trips && o !in Run(w, a).jobs.Values
    ensures Inserted(w, a, [], t, o)
  {
    var p := Post(t, ReplyLost(o, false));
    assert (a + [p])[..|a|] == a && a + [p] + [] == a + [p] && a + [] == a;
    LostPost(Run(w, a), t, o);
  }

  lemma LostPost(w: World, t: Id, o: Id)
    requires t !in w.jobs
    ensures Next(w, Post(t, ReplyLost(o, false))) == WithJob(w, t, o)
  {
  }

  lemma InsertedOneMore(w: World, a: seq<Op>, b: seq<Op>, op: Op, t: Id, o: Id)
    requires Inserted(w, a, b, t, o) && Possible(w, a + b + [op])
    requires t !in Run(w, a + b + [op]).jobs && !Offers(op, o)
    ensures Inserted(w, a, b + [op], t, o)
  {
    var p := Post(t, ReplyLost(o, false));
    assert a + (b + [op]) == a + b + [op] && a + [p] + (b + [op]) == a + [p] + b + [op];
    OneMoreOp(w, a + b, op, t);
    OneMoreOp(w, a + [p] + b, op, t);
    StepIgnoresJob(Run(w, a + b), op, t, o);
    assert (b + [op])[0] == if b == [] then op else b[0];
  }

  lemma OneMoreOp(w: World, ops: seq<Op>, op: Op, t: Id)
    ensures Run(w, ops + [op]) == Next(Run(w, ops), op)
    ensures Possible(w, ops + [op]) <==> Possible(w, ops) && Enabled(Run(w, ops), op)
    ensures ClaimedIn(w, ops + [op], t) <==> ClaimedIn(w, ops, t) || Picked(Run(w, ops), op, t)
    ensures Outstanding(w, ops + [op], t)
       <==> !Answers(op, t) && (Outstanding(w, ops, t) || (Accepting(op, t) && !ClaimedIn(w, ops, t)))
  {
    assert (ops + [op])[..|ops|] == ops;
  }

  lemma OneLessOp(w: World, ops: seq<Op>, op: Op, t: Id, o: Id)
    requires Possible(w, ops + [op]) && t !in Run(w, ops + [op]).jobs && Unoffered(ops + [op], o)
    ensures Possible(w, ops) && t !in Run(w, ops).jobs && Unoffered(ops, o) && !Offers(op, o)
  {
    OneMoreOp(w, ops, op, t);
    NextJobs(Run(w, ops), op, t);
    assert (ops + [op])[|ops|] == op && forall i | 0 <= i < |ops| :: (ops + [op])[i] == ops[i];
  }

  lemma LastApart<T>(a: seq<T>, b: seq<T>)
    requires b != []
    ensures b == b[..|b| - 1] + [b[|b| - 1]] && a + b == a + b[..|b| - 1] + [b[|b| - 1]]
  {
  }

  lemma {:induction false} InsertedRun(w: World, a: seq<Op>, b: seq<Op>, t: Id, o: Id)
    requires Possible(w, a + b) && t !in Run(w, a + b).jobs && t in Run(w, a).db.trips
    requires o !in w.jobs.Values && Unoffered(a + b, o)
    ensures Inserted(w, a, b, t, o)
    decreases |b|
  {
    if b == [] {
      assert a + b == a;
      JobsWereOffered(w, a, o);
      InsertedLast(w, a, t, o);
    } else {
      var front, op := b[..|b| - 1], b[|b| - 1];
      LastApart(a, b);
      OneLessOp(w, a + front, op, t, o);
      InsertedRun(w, a, front, t, o);
      InsertedOneMore(w, a, front, op, t, o);
    }
  }

  // ---- Where an attempt was counted ----------------------------------------------------------

  predicate MarkedAt(w: World, ops: seq<Op>, t: Id, k: nat) {
    k < |ops| && ops[k] == Uncertain(t) && t in Run(w, ops[..k]).db.trips
  }

  predicate AttemptsAs(before: map<Id, Trip>, after: map<Id, Trip>, t: Id) {
    t in after ==> after[t].attempts == if t in before then before[t].attempts else 0
  }

  /** Only a claim and a mark count attempts. */
  lemma AttemptsStay(w: World, op: Op, t: Id)
    requires Enabled(w, op) && !Picked(w, op, t) && !(op == Uncertain(t) && t in w.db.trips)
    ensures AttemptsAs(w.db.trips, After(w, op).trips, t)
  {
    match op
    case Reserve(r, ids, window) => ReserveKeepsAttempts(w.db, r, Snapshot(w.db, r.user), ids, window, w.now, t);
    case Accept(a, reported) => AcceptKeepsAttempts(w.db, a, w.jobs[a], reported, w.now, t);
    case Uncertain(a) => UncertainKeepsAttempts(w.db.trips, a, t);
    case Claim(order, limit) =>
        ClaimKeepsAttempts(w.db.trips, Elements(Claimable(w.db.trips, order, w.maxAttempts, limit)), t);
    case _ => LaterStepsKeepAttempts(w, op, t);
  }

  lemma LaterStepsKeepAttempts(w: World, op: Op, t: Id)
    requires !op.Reserve? && !op.Accept? && !op.Uncertain? && !op.Claim?
    ensures AttemptsAs(w.db.trips, After(w, op).trips, t)
  {
    match op
    case Settle(a, report, owner) => SettleKeepsAttempts(w.db, a, report, owner, w.now, t);
    case Progress(a, status, owner) => ProgressKeepsAttempts(w.db, a, status, owner, w.now, t);
    case Close(u, c, code) => CloseKeepsAttempts(w.db, u, c, code, w.now, t);
    case _ => OtherStepsKeepTrips(w, op);
  }

  lemma OtherStepsKeepTrips(w: World, op: Op)
    requires !op.Reserve? && !op.Accept? && !op.Uncertain? && !op.Claim? && !op.Settle? && !op.Progress? && !op.Close?
    ensures After(w, op).trips == w.db.trips
  {
    OthersTouchNoTrip(op);
    Frames.StepTouches(w, op);
    KeptTrips(w.db, After(w, op), Frames.Touches(op));
  }

  lemma OthersTouchNoTrip(op: Op)
    requires !op.Reserve? && !op.Accept? && !op.Uncertain? && !op.Claim? && !op.Settle? && !op.Progress? && !op.Close?
    ensures Frames.Trips !in Frames.Touches(op)
  {
  }

  lemma KeptTrips(a: Db, b: Db, changed: set<Frames.Kind>)
    requires Frames.Only(a, b, changed) && Frames.Trips !in changed
    ensures b.trips == a.trips
  {
  }

  lemma ClaimKeepsAttempts(trips: map<Id, Trip>, ids: set<Id>, t: Id)
    requires t !in ids
    ensures AttemptsAs(trips, ClaimedTrips(trips, ids), t)
  {
  }

  lemma UncertainKeepsAttempts(trips: map<Id, Trip>, a: Id, t: Id)
    requires a != t || t !in trips
    ensures AttemptsAs(trips, UncertainTrips(trips, a), t)
  {
  }

  lemma SettleKeepsAttempts(db: Db, a: Id, r: Terminal, owner: Option<Id>, now: Time, t: Id)
    ensures AttemptsAs(db.trips, SettleOutcome(db, a, r, owner, now).0.trips, t)
  {
  }

  lemma ProgressKeepsAttempts(db: Db, a: Id, status: TripStatus, owner: Option<Id>, now: Time, t: Id)
    ensures AttemptsAs(db.trips, ActiveOutcome(db, a, status, owner, now).0.trips, t)
  {
    ProgressCases(db, a, status, owner, now);
  }

  lemma ReserveKeepsAttempts(db: Db, r: Request, read: QuotaSnapshot, ids: NewIds, window: Time, now: Time, t: Id)
    requires ids.trip !in db.trips
    ensures AttemptsAs(db.trips, ReserveWith(db, r, read, ids.trip, ids.entry, window, now).0.trips, t)
  {
  }

  lemma AcceptKeepsAttempts(db: Db, a: Id, job: Id, reported: string, now: Time, t: Id)
    ensures AttemptsAs(db.trips, AcceptOutcome(db, a, job, reported, now).0.trips, t)
  {
    if AcceptRefusal(db, a, job).None? {
      AcceptWriteTrips(db, a, job, reported, now);
    }
  }

  lemma CloseKeepsAttempts(db: Db, u: Id, c: Id, code: string, now: Time, t: Id)
    ensures AttemptsAs(db.trips, CloseOutcome(db, u, c, code, now).0.trips, t)
  {
    CloseIsAllOrAttempt(db, u, c, code, now);
    if CloseOutcome(db, u, c, code, now).1 == Closed {
      CloseWriteTables(db, u, now);
    }
  }

  ghost predicate MarkedIn(w: World, ops: seq<Op>, t: Id) {
    exists k: nat :: MarkedAt(w, ops, t, k)
  }

  lemma MarkedOneMore(w: World, ops: seq<Op>, t: Id)
    requires ops != []
    ensures MarkedIn(w, ops[..|ops| - 1], t) ==> MarkedIn(w, ops, t)
    ensures ops[|ops| - 1] == Uncertain(t) && t in Run(w, ops[..|ops| - 1]).db.trips ==> MarkedIn(w, ops, t)
  {
    var front := ops[..|ops| - 1];
    if k: nat :| MarkedAt(w, front, t, k) {
      assert ops[..k] == front[..k];
      assert MarkedAt(w, ops, t, k);
    }
    if ops[|ops| - 1] == Uncertain(t) && t in Run(w, front).db.trips {
      assert MarkedAt(w, ops, t, |ops| - 1);
    }
  }

  lemma {:induction false} AttemptsWereCounted(w: World, ops: seq<Op>, t: Id)
    requires Possible(w, ops) && t !in w.db.trips && t in Run(w, ops).db.trips && Run(w, ops).db.trips[t].attempts > 0
    ensures ClaimedIn(w, ops, t) || MarkedIn(w, ops, t)
  {
    var front, op := ops[..|ops| - 1], ops[|ops| - 1];
    MarkedOneMore(w, ops, t);
    var r := Run(w, front);
    if !Picked(r, op, t) && !(op == Uncertain(t) && t in r.db.trips) {
      AttemptsStay(r, op, t);
      AttemptsWereCounted(w, front, t);
    }
  }

  /** Another run that leaves the service, its tables and its clock as this one does. */
  ghost predicate Alike(w: World, ops: seq<Op>, other: seq<Op>, t: Id) {
    && Possible(w, other) && !Outstanding(w, other, t)
    && Run(w, other) == Run(w, ops).(jobs := Run(w, other).jobs)
  }

  lemma ClaimedMayBeAccepted(w: World, ops: seq<Op>, t: Id, o: Id)
    requires Possible(w, ops) && !Outstanding(w, ops, t) && t !in Run(w, ops).jobs && t in Run(w, ops).db.trips
    requires o !in w.jobs.Values && Unoffered(ops, o) && ClaimedIn(w, ops, t)
    ensures Alike(w, ops, ops + [Post(t, ReplyLost(o, false))], t)
            && t in Run(w, ops + [Post(t, ReplyLost(o, false))]).jobs
  {
    var p := Post(t, ReplyLost(o, false));
    assert ops + [] == ops && ops + [p] + [] == ops + [p];
    InsertedRun(w, ops, [], t, o);
    OneMoreOp(w, ops, p, t);
  }

  lemma MarkedMayBeAccepted(w: World, a: seq<Op>, b: seq<Op>, t: Id, o: Id)
    requires Possible(w, a + b) && !Outstanding(w, a + b, t) && t !in Run(w, a + b).jobs && t in Run(w, a).db.trips
    requires o !in w.jobs.Values && Unoffered(a + b, o) && b != [] && b[0] == Uncertain(t)
    ensures var other := a + [Post(t, ReplyLost(o, false))] + b;
            Alike(w, a + b, other, t) && t in Run(w, other).jobs
  {
    InsertedRun(w, a, b, t, o);
  }

  lemma SplitAtMark(w: World, ops: seq<Op>, t: Id) returns (a: seq<Op>, b: seq<Op>)
    requires MarkedIn(w, ops, t)
    ensures ops == a + b && b != [] && b[0] == Uncertain(t) && t in Run(w, a).db.trips
  {
    var k: nat :| MarkedAt(w, ops, t, k);
    a, b := ops[..k], ops[k..];
  }

  /** Once an attempt is counted, the same service can stand before an upstream that holds the job. */
  lemma CountedMayBeAccepted(w: World, ops: seq<Op>, t: Id) returns (other: seq<Op>)
    requires Possible(w, ops) && t !in w.db.trips && !Outstanding(w, ops, t) && t !in Run(w, ops).jobs
    requires t in Run(w, ops).db.trips && Run(w, ops).db.trips[t].attempts > 0
    ensures Alike(w, ops, other, t) && t in Run(w, other).jobs
  {
    AttemptsWereCounted(w, ops, t);
    var o := FreshOffer(ops, Greatest(w.jobs.Values) + 1);
    if ClaimedIn(w, ops, t) {
      ClaimedMayBeAccepted(w, ops, t, o);
      other := ops + [Post(t, ReplyLost(o, false))];
    } else {
      var a, b := SplitAtMark(w, ops, t);
      MarkedMayBeAccepted(w, a, b, t, o);
      other := a + [Post(t, ReplyLost(o, false))] + b;
    }
  }

  /**
    Exactly what a row that awaits submission tells: no attempt is counted if and only if no run that
    leaves the service as it is, with no post outstanding, has the trip accepted. So the tables hold no
    better test than `attempts` for a failure that may safely release the unit.
    */
  lemma RowTellsExactly(w: World, ops: seq<Op>, t: Id)
    requires Inv(w) && Possible(w, ops) && t !in w.db.trips && t !in w.jobs && !Outstanding(w, ops, t)
    requires t in Run(w, ops).db.trips && AwaitsSubmission(Run(w, ops).db.trips[t])
    ensures Run(w, ops).db.trips[t].attempts == 0
       <==> forall other | Alike(w, ops, other, t) :: t !in Run(w, other).jobs
  {
    if Run(w, ops).db.trips[t].attempts == 0 {
      forall other | Alike(w, ops, other, t)
        ensures t !in Run(w, other).jobs
      {
        UncountedWasNeverAccepted(w, other, t);
      }
    } else if t in Run(w, ops).jobs {
      assert Alike(w, ops, ops, t);
    } else {
      var other := CountedMayBeAccepted(w, ops, t);
    }
  }

  /**
    The worker dies between an accepted post and the write: the row shows no attempt, the next post
    cannot reach the upstream, and the unit of an accepted trip is released.
    */
  lemma CrashHidesAcceptance(w: World, ops: seq<Op>, t: Id, job: Id)
    requires Inv(w) && Possible(w, ops) && t !in w.jobs && Uncounted(Run(w, ops).db.trips, t)
             && job !in Run(w, ops).jobs.Values
    ensures var crashed := ops + [Post(t, ReplyLost(job, true))];
            HiddenIn(w, crashed, t) && ReleasedYetHeld(w, crashed, t)
  {
    var crashed := ops + [Post(t, ReplyLost(job, true))];
    CrashLeavesNoTrace(w, ops, t, job);
    HeldYetReleased(w, crashed, t);
  }

  /** The upstream holds the job, and the row shows no attempt. */
  ghost predicate HiddenIn(w: World, ops: seq<Op>, t: Id) {
    Possible(w, ops) && Outstanding(w, ops, t) && Uncounted(Run(w, ops).db.trips, t) && t in Run(w, ops).jobs
  }

  /** A post that cannot reach the upstream now releases the unit of a trip whose job the upstream holds. */
  ghost predicate ReleasedYetHeld(w: World, ops: seq<Op>, t: Id) {
    var r := Run(w, ops + [Post(t, NotReached), Settle(t, UNREACHABLE, None)]);
    t in r.jobs && Released(r.db, t)
  }

  lemma HeldYetReleased(w: World, ops: seq<Op>, t: Id)
    requires Inv(w) && HiddenIn(w, ops, t)
    ensures ReleasedYetHeld(w, ops, t)
  {
    FailureAfterRun(w, ops, t);
  }

  lemma CrashLeavesNoTrace(w: World, ops: seq<Op>, t: Id, job: Id)
    requires Inv(w) && Possible(w, ops) && t !in w.jobs && Uncounted(Run(w, ops).db.trips, t)
             && job !in Run(w, ops).jobs.Values
    ensures HiddenIn(w, ops + [Post(t, ReplyLost(job, true))], t)
  {
    var p := Post(t, ReplyLost(job, true));
    NothingClaimed(w, ops, t);
    LostPostIsUnseen(Run(w, ops), t, job);
    OneMoreOp(w, ops, p, t);
    assert Accepting(p, t) && !Answers(p, t);
  }

  lemma NothingClaimed(w: World, ops: seq<Op>, t: Id)
    requires Inv(w) && Possible(w, ops) && t !in w.jobs && Uncounted(Run(w, ops).db.trips, t)
    ensures !ClaimedIn(w, ops, t)
  {
    RunStands(w, ops, t);
  }

  lemma LostPostIsUnseen(w: World, t: Id, job: Id)
    requires Uncounted(w.db.trips, t) && job !in w.jobs.Values
    ensures Enabled(w, Post(t, ReplyLost(job, true)))
    ensures var next := Next(w, Post(t, ReplyLost(job, true))); next.db == w.db && t in next.jobs
  {
  }
}
