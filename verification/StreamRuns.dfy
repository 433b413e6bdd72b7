/** The runs of the service, seen from the projection stream: exactly-once order holds among all other transactions. */
module StreamRuns {
  import opened Schema
  import opened Projection
  import opened Quota
  import opened AccountClosure
  import opened TripRuns
  import opened World
  import opened Frames
  import PS = ProjectionStream

  function StepOf(w: World, op: Op): PS.Step {
    match op
    case Deliver(e, repair) => PS.Deliver(e, repair, w.now)
    case Beat(watermark) => PS.Beat(watermark, w.now)
    case Pause => PS.Pause
    case MergePage(entity, items) => PS.MergePage(entity, items, w.now)
    case _ => PS.Elsewhere(After(w, op))
  }

  function StepsOf(w: World, ops: seq<Op>): seq<PS.Step> {
    if ops == [] then [] else StepsOf(w, ops[..|ops| - 1]) + [StepOf(Run(w, ops[..|ops| - 1]), ops[|ops| - 1])]
  }

  lemma AcceptKeepsSources(db: Db, t: Id, job: Id, reported: string, now: Time)
    ensures JobSourcesOf(AcceptOutcome(db, t, job, reported, now).0.jobs) == JobSourcesOf(db.jobs)
  {
    AcceptedRows(db, t, job, reported, now);
  }

  lemma ErasureKeepsSources(trips: map<Id, Trip>, jobs: map<Id, JobRow>, chosen: set<Id>, now: Time)
    ensures JobSourcesOf(ErasedJobs(trips, jobs, chosen, now)) == JobSourcesOf(jobs)
  {
    forall j | j in jobs
      ensures ErasedJobs(trips, jobs, chosen, now)[j].sourceId == jobs[j].sourceId
      ensures ErasedJobs(trips, jobs, chosen, now)[j].version == jobs[j].version
      ensures ErasedJobs(trips, jobs, chosen, now)[j].columns == jobs[j].columns
    {
    }
  }

  lemma CloseKeepsSources(db: Db, u: Id, c: Id, code: string, now: Time)
    ensures JobSourcesOf(CloseOutcome(db, u, c, code, now).0.jobs) == JobSourcesOf(db.jobs)
  {
    CloseIsAllOrAttempt(db, u, c, code, now);
    if CloseOutcome(db, u, c, code, now).1 == Closed {
      CloseWriteTables(db, u, now);
      ErasureKeepsSources(db.trips, db.jobs, TripsOf(db.trips, u), now);
    }
  }

  predicate OfStream(op: Op) {
    op.Deliver? || op.Beat? || op.Pause? || op.MergePage?
  }

  lemma KeptStream(a: Db, b: Db, changed: set<Kind>)
    requires Only(a, b, changed) && Events !in changed && ConsumerState !in changed && StepRows !in changed
    ensures b.events == a.events && b.consumer == a.consumer && b.steps == a.steps
    ensures JobRows !in changed ==> b.jobs == a.jobs
  {
  }

  lemma OthersTouchNoStream(op: Op)
    requires !OfStream(op)
    ensures Events !in Touches(op) && ConsumerState !in Touches(op) && StepRows !in Touches(op)
    ensures JobRows in Touches(op) ==> op.Accept? || op.Close?
  {
  }

  /** Acceptances and closures write projection rows, but nothing in them that came from upstream. */
  lemma OthersAreElsewhere(w: World, op: Op, log: seq<PS.Merged>)
    requires !OfStream(op)
    ensures PS.Enabled(PS.Stream(w.db, log), PS.Elsewhere(After(w, op)))
  {
    OthersTouchNoStream(op);
    StepTouches(w, op);
    KeptStream(w.db, After(w, op), Touches(op));
    if op.Accept? {
      if op.trip in w.jobs {
        AcceptKeepsSources(w.db, op.trip, w.jobs[op.trip], op.reported, w.now);
      }
    } else if op.Close? {
      CloseKeepsSources(w.db, op.user, op.challenge, op.code, w.now);
    }
  }

  lemma StepIsStreamStep(w: World, op: Op, log: seq<PS.Merged>)
    ensures PS.Enabled(PS.Stream(w.db, log), StepOf(w, op))
    ensures PS.Next(PS.Stream(w.db, log), StepOf(w, op)).db == After(w, op)
  {
    if OfStream(op) {
      StreamStepIsItself(w, op, log);
    } else {
      OthersAreElsewhere(w, op, log);
    }
  }

  lemma StreamStepIsItself(w: World, op: Op, log: seq<PS.Merged>)
    requires OfStream(op)
    ensures PS.Enabled(PS.Stream(w.db, log), StepOf(w, op))
    ensures PS.Next(PS.Stream(w.db, log), StepOf(w, op)).db == After(w, op)
  {
    match op
    case Deliver(_, _) =>
    case Beat(_) =>
    case Pause =>
    case MergePage(_, _) =>
  }

  /** Every run of the service is a run of the stream. */
  lemma {:induction false} RunIsStreamRun(w: World, ops: seq<Op>)
    ensures PS.Possible(PS.Stream(w.db, []), StepsOf(w, ops))
    ensures PS.Run(PS.Stream(w.db, []), StepsOf(w, ops)).db == Run(w, ops).db
  {
    if ops != [] {
      var front := ops[..|ops| - 1];
      RunIsStreamRun(w, front);
      var s := PS.Run(PS.Stream(w.db, []), StepsOf(w, front));
      StepIsStreamStep(Run(w, front), ops[|ops| - 1], s.log);
      var steps := StepsOf(w, ops);
      assert steps[..|steps| - 1] == StepsOf(w, front);
    }
  }

  /**
    Among all other transactions, the stream records numbers 1..applied once each in order, its heartbeat
    is never ahead, and the source columns are the fold of what was merged.
    */
  lemma StreamIsExactlyOnce(w: World, ops: seq<Op>)
    requires PS.Fresh(PS.Stream(w.db, []))
    ensures var s := PS.Run(PS.Stream(w.db, []), StepsOf(w, ops));
            && s.db == Run(w, ops).db && PS.StreamOk(s) && PS.Folded(w.db, s)
  {
    RunIsStreamRun(w, ops);
    PS.ExactlyOnceInOrder(PS.Stream(w.db, []), StepsOf(w, ops));
  }
}
