/**
  Exactly-once application of the ordered projection stream, over every schedule of deliveries,
  redeliveries, heartbeats, poison pauses, repairs and backfill pages.
  */
module ProjectionStream {
  import opened Schema
  import opened Merge
  import opened Projection
  import opened ProjectionSync

  /** What has been merged into the projection, in commit order. */
  datatype Merged = FromEvent(event: Event) | FromPage(entity: Entity, items: seq<Item>) {
    function Jobs(): seq<Versioned<(nat, Columns)>> {
      if FromEvent? then [JobView(event.job)] else if entity == TRIP_JOB then JobViews(JobsIn(items)) else []
    }
    function Steps(): seq<Versioned<(Id, Columns)>> {
      if FromEvent? then StepViews(InIdOrder(event.steps)) else if entity == TRIP_STEP then StepViews(StepsIn(items))
        else []
    }
  }

  datatype Stream = Stream(db: Db, log: seq<Merged>)

  datatype Step =
    | Deliver(event: Event, repair: bool, now: Time)
    | Beat(watermark: nat, observedAt: Time)
    | Pause
    /** A page of a backfill or a repair list of a reconciliation. */
    | MergePage(entity: Entity, items: seq<Item>, at: Time)
    /** Reservations, acceptances, closures: nothing that came from upstream changes. */
    | Elsewhere(changed: Db)

  ghost predicate Enabled(s: Stream, step: Step) {
    step.Elsewhere? ==>
      && step.changed.events == s.db.events && step.changed.consumer == s.db.consumer
      && step.changed.steps == s.db.steps && JobSourcesOf(step.changed.jobs) == JobSourcesOf(s.db.jobs)
  }

  function Next(s: Stream, step: Step): Stream {
    match step
    case Deliver(e, repair, now) =>
      var (db, answer) := EventOutcome(s.db, e, repair, now);
      Stream(db, if answer == APPLIED then s.log + [FromEvent(e)] else s.log)
    case Beat(watermark, at) => s.(db := HeartbeatOutcome(s.db, watermark, at).0)
    case Pause => s.(db := Paused(s.db))
    case MergePage(entity, items, now) =>
      var after := PageAfter(s.db, entity, items, now);
      if after.None? then s else Stream(after.value, s.log + [FromPage(entity, items)])
    case Elsewhere(changed) => s.(db := changed)
  }

  function Run(s: Stream, steps: seq<Step>): Stream {
    if steps == [] then s else Next(Run(s, steps[..|steps| - 1]), steps[|steps| - 1])
  }

  ghost predicate Possible(s: Stream, steps: seq<Step>) {
    steps != [] ==> Possible(s, steps[..|steps| - 1]) && Enabled(Run(s, steps[..|steps| - 1]), steps[|steps| - 1])
  }

  // ---- The log -------------------------------------------------------------------------------

  function Accepted(log: seq<Merged>): seq<Event> {
    if log == [] then []
    else Accepted(log[..|log| - 1]) + if log[|log| - 1].FromEvent? then [log[|log| - 1].event] else []
  }

  function JobsOf(log: seq<Merged>): seq<Versioned<(nat, Columns)>> {
    if log == [] then [] else JobsOf(log[..|log| - 1]) + log[|log| - 1].Jobs()
  }

  function StepsOf(log: seq<Merged>): seq<Versioned<(Id, Columns)>> {
    if log == [] then [] else StepsOf(log[..|log| - 1]) + log[|log| - 1].Steps()
  }

  lemma LogAppends(log: seq<Merged>, m: Merged)
    ensures Accepted(log + [m]) == Accepted(log) + if m.FromEvent? then [m.event] else []
    ensures JobsOf(log + [m]) == JobsOf(log) + m.Jobs()
    ensures StepsOf(log + [m]) == StepsOf(log) + m.Steps()
  {
    assert (log + [m])[..|log|] == log;
  }

  // ---- The stream's own records --------------------------------------------------------------

  /** Sequence numbers 1..n are recorded once each, in the order of acceptance. */
  ghost predicate RecordedOnce(events: map<Id, EventRow>, accepted: seq<Event>) {
    && (forall k | 0 <= k < |accepted| ::
          && accepted[k].sequence == k + 1 && accepted[k].eventId in events
          && events[accepted[k].eventId] == EventRow(k + 1, accepted[k]))
    && (forall id | id in events ::
          1 <= events[id].sequence <= |accepted| && accepted[events[id].sequence - 1].eventId == id)
  }

  ghost predicate Contiguous(c: Option<Consumer>, n: nat) {
    && c.Some? && c.value.applied == n && c.value.next == n + 1
    && (c.value.heartbeat.Some? ==> c.value.heartbeat.value <= n)
  }

  ghost predicate StreamOk(s: Stream) {
    RecordedOnce(s.db.events, Accepted(s.log)) && Contiguous(s.db.consumer, |Accepted(s.log)|)
  }

  /** What an event does, seen from the stream's records. */
  lemma EventEffect(db: Db, e: Event, repair: bool, now: Time)
    ensures var (after, answer) := EventOutcome(db, e, repair, now);
            if answer == APPLIED then
              && e.eventId !in db.events && db.consumer.Some? && e.sequence == db.consumer.value.next
              && after.events == db.events[e.eventId := EventRow(e.sequence, e)]
              && after.consumer.Some? && after.consumer.value.applied == e.sequence
              && after.consumer.value.next == e.sequence + 1
              && after.consumer.value.heartbeat == db.consumer.value.heartbeat
              && ProjectionsAfter(db, e, now).Some?
              && after.jobs == ProjectionsAfter(db, e, now).value.jobs
              && after.steps == ProjectionsAfter(db, e, now).value.steps
            else after == db
  {
  }

  lemma PageEffect(db: Db, entity: Entity, items: seq<Item>, now: Time)
    requires PageAfter(db, entity, items, now).Some?
    ensures PageAfter(db, entity, items, now).value.events == db.events
    ensures PageAfter(db, entity, items, now).value.consumer == db.consumer
  {
  }

  lemma DeliveryKeepsStream(s: Stream, e: Event, repair: bool, now: Time)
    requires StreamOk(s)
    ensures StreamOk(Next(s, Deliver(e, repair, now)))
  {
    EventEffect(s.db, e, repair, now);
    if EventOutcome(s.db, e, repair, now).1 == APPLIED {
      LogAppends(s.log, FromEvent(e));
      RecordingKeepsOnce(s.db.events, Accepted(s.log), e);
    }
  }

  lemma PageKeepsStream(s: Stream, entity: Entity, items: seq<Item>, now: Time)
    requires StreamOk(s)
    ensures StreamOk(Next(s, MergePage(entity, items, now)))
  {
    if PageAfter(s.db, entity, items, now).Some? {
      PageEffect(s.db, entity, items, now);
      PageLogged(s, PageAfter(s.db, entity, items, now).value, FromPage(entity, items));
    }
  }

  lemma PageLogged(s: Stream, after: Db, m: Merged)
    requires StreamOk(s) && m.FromPage? && after.events == s.db.events && after.consumer == s.db.consumer
    ensures StreamOk(Stream(after, s.log + [m]))
  {
    LogAppends(s.log, m);
  }

  /** Heartbeats and pauses change the consumer state alone. */
  lemma ControlKeepsStream(s: Stream, step: Step)
    requires StreamOk(s) && (step.Beat? || step.Pause?)
    ensures StreamOk(Next(s, step)) && Next(s, step).log == s.log
    ensures Next(s, step).db.jobs == s.db.jobs && Next(s, step).db.steps == s.db.steps
  {
  }

  lemma RecordingKeepsOnce(events: map<Id, EventRow>, accepted: seq<Event>, e: Event)
    requires RecordedOnce(events, accepted) && e.eventId !in events && e.sequence == |accepted| + 1
    ensures RecordedOnce(events[e.eventId := EventRow(e.sequence, e)], accepted + [e])
  {
  }

  lemma StepKeepsStream(s: Stream, step: Step)
    requires StreamOk(s) && Enabled(s, step)
    ensures StreamOk(Next(s, step))
  {
    match step
    case Deliver(e, repair, now) => DeliveryKeepsStream(s, e, repair, now);
    case MergePage(entity, items, now) => PageKeepsStream(s, entity, items, now);
    case Beat(_, _) => ControlKeepsStream(s, step);
    case Pause => ControlKeepsStream(s, step);
    case Elsewhere(_) =>
  }

  // ---- The source columns --------------------------------------------------------------------

  lemma EventMerges(db: Db, e: Event, now: Time)
    requires ProjectionsAfter(db, e, now).Some?
    ensures var after := ProjectionsAfter(db, e, now).value;
            && JobSourcesOf(after.jobs) == PutAll(JobSourcesOf(db.jobs), FromEvent(e).Jobs())
            && StepSourcesOf(after.steps) == PutAll(StepSourcesOf(db.steps), FromEvent(e).Steps())
  {
    JobSnapshotMerges(db.trips, db.jobs, e.job, now);
    PutAllAppends(JobSourcesOf(db.jobs), [], JobView(e.job));
    StepSnapshotsMerge(JobsAfter(db.trips, db.jobs, e.job, now).value, db.steps, InIdOrder(e.steps));
  }

  lemma PageMerges(db: Db, entity: Entity, items: seq<Item>, now: Time)
    requires PageAfter(db, entity, items, now).Some?
    ensures var after := PageAfter(db, entity, items, now).value;
            && JobSourcesOf(after.jobs) == PutAll(JobSourcesOf(db.jobs), FromPage(entity, items).Jobs())
            && StepSourcesOf(after.steps) == PutAll(StepSourcesOf(db.steps), FromPage(entity, items).Steps())
  {
    if entity == TRIP_JOB {
      JobSnapshotsMerge(db.trips, db.jobs, JobsIn(items), now);
    } else {
      StepSnapshotsMerge(db.jobs, db.steps, StepsIn(items));
    }
  }

  /** The source columns are the version-gated fold of everything merged since `first`. */
  ghost predicate Folded(first: Db, s: Stream) {
    && JobSourcesOf(s.db.jobs) == PutAll(JobSourcesOf(first.jobs), JobsOf(s.log))
    && StepSourcesOf(s.db.steps) == PutAll(StepSourcesOf(first.steps), StepsOf(s.log))
  }

  lemma DeliveryKeepsFold(first: Db, s: Stream, e: Event, repair: bool, now: Time)
    requires Folded(first, s)
    ensures Folded(first, Next(s, Deliver(e, repair, now)))
  {
    EventEffect(s.db, e, repair, now);
    if EventOutcome(s.db, e, repair, now).1 == APPLIED {
      EventMerges(s.db, e, now);
      FoldGrows(first, s, Next(s, Deliver(e, repair, now)), FromEvent(e));
    }
  }

  lemma PageKeepsFold(first: Db, s: Stream, entity: Entity, items: seq<Item>, now: Time)
    requires Folded(first, s)
    ensures Folded(first, Next(s, MergePage(entity, items, now)))
  {
    if PageAfter(s.db, entity, items, now).Some? {
      PageMerges(s.db, entity, items, now);
      FoldGrows(first, s, Next(s, MergePage(entity, items, now)), FromPage(entity, items));
    }
  }

  lemma StepKeepsFold(first: Db, s: Stream, step: Step)
    requires StreamOk(s) && Folded(first, s) && Enabled(s, step)
    ensures Folded(first, Next(s, step))
  {
    match step
    case Deliver(e, repair, now) => DeliveryKeepsFold(first, s, e, repair, now);
    case MergePage(entity, items, now) => PageKeepsFold(first, s, entity, items, now);
    case Beat(_, _) => ControlKeepsStream(s, step);
    case Pause => ControlKeepsStream(s, step);
    case Elsewhere(_) =>
  }

  lemma FoldGrows(first: Db, s: Stream, next: Stream, m: Merged)
    requires Folded(first, s) && next.log == s.log + [m]
    requires JobSourcesOf(next.db.jobs) == PutAll(JobSourcesOf(s.db.jobs), m.Jobs())
    requires StepSourcesOf(next.db.steps) == PutAll(StepSourcesOf(s.db.steps), m.Steps())
    ensures Folded(first, next)
  {
    LogAppends(s.log, m);
    PutAllConcat(JobSourcesOf(first.jobs), JobsOf(s.log), m.Jobs());
    PutAllConcat(StepSourcesOf(first.steps), StepsOf(s.log), m.Steps());
  }

  // ---- Over all runs -------------------------------------------------------------------------

  /** A stream that has accepted nothing yet. */
  ghost predicate Fresh(s: Stream) {
    s.log == [] && s.db.events == map[] && Contiguous(s.db.consumer, 0)
  }

  /**
    In every run: numbers 1..applied are recorded once each, next = applied + 1, no heartbeat is ahead,
    and the source columns are the fold of the merged snapshots in commit order.
    */
  lemma {:induction false} ExactlyOnceInOrder(s: Stream, steps: seq<Step>)
    requires Fresh(s) && Possible(s, steps)
    ensures StreamOk(Run(s, steps)) && Folded(s.db, Run(s, steps))
  {
    if steps != [] {
      ExactlyOnceInOrder(s, steps[..|steps| - 1]);
      StepKeepsStream(Run(s, steps[..|steps| - 1]), steps[|steps| - 1]);
      StepKeepsFold(s.db, Run(s, steps[..|steps| - 1]), steps[|steps| - 1]);
    }
  }

  /** A known event id changes nothing: an equal payload is a duplicate, any other one is poison. */
  lemma RedeliveryIsDuplicate(s: Stream, e: Event, repair: bool, now: Time)
    requires StreamOk(s) && e.Valid()
    ensures (exists a :: a in Accepted(s.log) && a.eventId == e.eventId) ==>
              EventOutcome(s.db, e, repair, now) == (s.db, if e in Accepted(s.log) then DUPLICATE else Poison)
    ensures EventOutcome(s.db, e, repair, now).1 == DUPLICATE <==> e in Accepted(s.log)
  {
    var accepted := Accepted(s.log);
    if a :| a in accepted && a.eventId == e.eventId {
      var k :| 0 <= k < |accepted| && accepted[k] == a;
      assert s.db.events[e.eventId] == EventRow(k + 1, a);
      if e in accepted {
        var m :| 0 <= m < |accepted| && accepted[m] == e;
        assert s.db.events[e.eventId] == EventRow(m + 1, e);
      }
    } else {
      assert e !in accepted;
      assert e.eventId !in s.db.events;
    }
  }

  /** Only an event that is applied extends the accepted ones. */
  lemma StepAccepts(s: Stream, step: Step)
    ensures Accepted(Next(s, step).log) == Accepted(s.log)
         || (step.Deliver? && Accepted(Next(s, step).log) == Accepted(s.log) + [step.event]
             && s.db.consumer.Some? && step.event.sequence == s.db.consumer.value.next)
  {
    match step
    case Deliver(e, repair, now) => DeliveryAccepts(s, e, repair, now);
    case MergePage(entity, items, _) => LogAppends(s.log, FromPage(entity, items));
    case Beat(_, _) =>
    case Pause =>
    case Elsewhere(_) =>
  }

  lemma DeliveryAccepts(s: Stream, e: Event, repair: bool, now: Time)
    ensures var after := Next(s, Deliver(e, repair, now));
            || Accepted(after.log) == Accepted(s.log)
            || (Accepted(after.log) == Accepted(s.log) + [e]
                && s.db.consumer.Some? && e.sequence == s.db.consumer.value.next)
  {
    EventEffect(s.db, e, repair, now);
    LogAppends(s.log, FromEvent(e));
  }

  /** Accepted events are never forgotten. */
  lemma {:induction false} AcceptedGrows(s: Stream, steps: seq<Step>)
    ensures Accepted(s.log) <= Accepted(Run(s, steps).log)
  {
    if steps != [] {
      AcceptedGrows(s, steps[..|steps| - 1]);
      StepAccepts(Run(s, steps[..|steps| - 1]), steps[|steps| - 1]);
    }
  }

  /** Once accepted, an unchanged redelivery is answered DUPLICATE at every later time. */
  lemma DuplicateForever(s: Stream, steps: seq<Step>, e: Event, repair: bool, now: Time)
    requires StreamOk(s) && e.Valid() && e in Accepted(s.log) && Possible(s, steps)
    ensures EventOutcome(Run(s, steps).db, e, repair, now) == (Run(s, steps).db, DUPLICATE)
  {
    RunKeepsStream(s, steps);
    AcceptedGrows(s, steps);
    var k :| 0 <= k < |Accepted(s.log)| && Accepted(s.log)[k] == e;
    assert Accepted(Run(s, steps).log)[k] == e;
    RedeliveryIsDuplicate(Run(s, steps), e, repair, now);
  }

  lemma {:induction false} RunKeepsStream(s: Stream, steps: seq<Step>)
    requires StreamOk(s) && Possible(s, steps)
    ensures StreamOk(Run(s, steps))
  {
    if steps != [] {
      RunKeepsStream(s, steps[..|steps| - 1]);
      StepKeepsStream(Run(s, steps[..|steps| - 1]), steps[|steps| - 1]);
    }
  }

  /** The producer's outbox: entry k carries number k + 1. */
  ghost predicate Outbox(outbox: seq<Event>) {
    forall k | 0 <= k < |outbox| :: outbox[k].sequence == k + 1
  }

  ghost predicate DeliversFrom(steps: seq<Step>, outbox: seq<Event>) {
    forall k | 0 <= k < |steps| && steps[k].Deliver? :: steps[k].event in outbox
  }

  /** Refinement: whatever order, delay and repetition the broker chooses, a prefix of the outbox is accepted. */
  lemma {:induction false} AcceptsAPrefix(s: Stream, steps: seq<Step>, outbox: seq<Event>)
    requires Fresh(s) && Possible(s, steps) && Outbox(outbox) && DeliversFrom(steps, outbox)
    ensures Accepted(Run(s, steps).log) <= outbox
  {
    if steps != [] {
      var front, step := steps[..|steps| - 1], steps[|steps| - 1];
      assert forall k | 0 <= k < |front| && front[k].Deliver? :: steps[k].event in outbox;
      AcceptsAPrefix(s, front, outbox);
      ExactlyOnceInOrder(s, front);
      if step.Deliver? {
        assert steps[|steps| - 1].event in outbox;
      }
      StepStaysPrefix(Run(s, front), step, outbox);
    }
  }

  lemma StepStaysPrefix(s: Stream, step: Step, outbox: seq<Event>)
    requires StreamOk(s) && Outbox(outbox) && Accepted(s.log) <= outbox && (step.Deliver? ==> step.event in outbox)
    ensures Accepted(Next(s, step).log) <= outbox
  {
    StepAccepts(s, step);
    if Accepted(Next(s, step).log) != Accepted(s.log) {
      NextInOutbox(Accepted(s.log), step.event, outbox);
    }
  }

  lemma NextInOutbox(accepted: seq<Event>, e: Event, outbox: seq<Event>)
    requires Outbox(outbox) && accepted <= outbox && e in outbox && e.sequence == |accepted| + 1
    ensures accepted + [e] <= outbox
  {
    assert outbox[|accepted|] == e;
  }

  /** Each stored row is the highest version ever merged for its id, or what was there before. */
  ghost predicate NewestRows(first: Db, r: Stream) {
    && (forall v | v in JobsOf(r.log) :: v.key in r.db.jobs && v.version <= r.db.jobs[v.key].version)
    && (forall v | v in StepsOf(r.log) :: v.key in r.db.steps && v.version <= r.db.steps[v.key].version)
    && (forall j | j in r.db.jobs :: Offered(JobSourcesOf(first.jobs), JobsOf(r.log), JobSourcesOf(r.db.jobs)[j]))
    && (forall k | k in r.db.steps :: Offered(StepSourcesOf(first.steps), StepsOf(r.log), StepSourcesOf(r.db.steps)[k]))
  }

  lemma HighestVersionWins(s: Stream, steps: seq<Step>)
    requires Fresh(s) && Possible(s, steps)
    ensures NewestRows(s.db, Run(s, steps))
  {
    ExactlyOnceInOrder(s, steps);
    FoldedIsNewest(s.db, Run(s, steps));
  }

  lemma FoldedIsNewest(first: Db, r: Stream)
    requires Folded(first, r)
    ensures NewestRows(first, r)
  {
    PutAllKeepsNewest(JobSourcesOf(first.jobs), JobsOf(r.log));
    PutAllKeepsNewest(StepSourcesOf(first.steps), StepsOf(r.log));
    forall v | v in JobsOf(r.log)
      ensures v.key in r.db.jobs && v.version <= r.db.jobs[v.key].version
    {
      assert Offered(JobSourcesOf(first.jobs), JobsOf(r.log), v);
      assert v.key in JobSourcesOf(r.db.jobs);
    }
    forall v | v in StepsOf(r.log)
      ensures v.key in r.db.steps && v.version <= r.db.steps[v.key].version
    {
      assert Offered(StepSourcesOf(first.steps), StepsOf(r.log), v);
      assert v.key in StepSourcesOf(r.db.steps);
    }
    assert forall j | j in r.db.jobs :: j in JobSourcesOf(r.db.jobs);
    assert forall k | k in r.db.steps :: k in StepSourcesOf(r.db.steps);
  }

  /**
    Two runs that have merged the same snapshots, in whatever order and how often, whether through
    events, backfill pages or repairs, hold the same source columns.
    */
  lemma RunsConverge(s: Stream, steps: seq<Step>, steps': seq<Step>)
    requires Fresh(s) && Possible(s, steps) && Possible(s, steps')
    requires OnePayload(JobSourcesOf(s.db.jobs), JobsOf(Run(s, steps).log))
    requires OnePayload(StepSourcesOf(s.db.steps), StepsOf(Run(s, steps).log))
    requires forall v :: v in JobsOf(Run(s, steps).log) <==> v in JobsOf(Run(s, steps').log)
    requires forall v :: v in StepsOf(Run(s, steps).log) <==> v in StepsOf(Run(s, steps').log)
    ensures JobSourcesOf(Run(s, steps).db.jobs) == JobSourcesOf(Run(s, steps').db.jobs)
    ensures StepSourcesOf(Run(s, steps).db.steps) == StepSourcesOf(Run(s, steps').db.steps)
  {
    ExactlyOnceInOrder(s, steps);
    ExactlyOnceInOrder(s, steps');
    OrderIndependent(JobSourcesOf(s.db.jobs), JobsOf(Run(s, steps).log), JobsOf(Run(s, steps').log));
    OrderIndependent(StepSourcesOf(s.db.steps), StepsOf(Run(s, steps).log), StepsOf(Run(s, steps').log));
  }

  // ---- When an event is applied --------------------------------------------------------------

  /** Another job's row holds the source id, and the event's job is new or newer than its row. */
  ghost predicate HoldsSourceId(jobs: map<Id, JobRow>, job: JobSnapshot) {
    && (exists j :: j in jobs && j != job.jobId && jobs[j].sourceId == job.sourceId)
    && (job.jobId in jobs ==> jobs[job.jobId].version < job.version)
  }

  /** A step that is not stored yet occurs twice. */
  ghost predicate InsertsTwice(stored: map<Id, StepRow>, list: seq<StepSnapshot>) {
    exists i, k :: 0 <= i < k < |list| && list[i].stepId == list[k].stepId && list[k].stepId !in stored
  }

  function Occurrences(list: seq<StepSnapshot>, id: Id): nat {
    if list == [] then 0 else Occurrences(list[1..], id) + if list[0].stepId == id then 1 else 0
  }

  lemma {:induction false} OccursWhere(list: seq<StepSnapshot>, id: Id)
    ensures Occurrences(list, id) >= 1 <==> exists i :: 0 <= i < |list| && list[i].stepId == id
  {
    if list != [] {
      OccursWhere(list[1..], id);
      if i :| 0 <= i < |list| && list[i].stepId == id {
        assert i > 0 ==> list[1..][i - 1] == list[i];
      }
      if i :| 0 <= i < |list[1..]| && list[1..][i].stepId == id {
        assert list[i + 1] == list[1..][i];
      }
    }
  }

  lemma {:induction false} OccursTwice(list: seq<StepSnapshot>, id: Id)
    ensures Occurrences(list, id) >= 2 <==> exists i, k :: 0 <= i < k < |list| && list[i].stepId == id == list[k].stepId
  {
    if list != [] {
      var rest := list[1..];
      OccursTwice(rest, id);
      OccursWhere(rest, id);
      if i, k :| 0 <= i < k < |list| && list[i].stepId == id == list[k].stepId {
        assert rest[k - 1] == list[k] && (i > 0 ==> rest[i - 1] == list[i]);
      }
      if i, k :| 0 <= i < k < |rest| && rest[i].stepId == id == rest[k].stepId {
        assert list[i + 1] == rest[i] && list[k + 1] == rest[k];
      }
      if k :| 0 <= k < |rest| && rest[k].stepId == id {
        assert list[k + 1] == rest[k];
      }
    }
  }

  lemma {:induction false} InsertCounts(s: StepSnapshot, list: seq<StepSnapshot>, id: Id)
    requires forall i, j | 0 <= i < j < |list| :: list[i].stepId <= list[j].stepId
    ensures Occurrences(Insert(s, list), id) == Occurrences(list, id) + if s.stepId == id then 1 else 0
  {
    if list == [] || s.stepId <= list[0].stepId {
      assert ([s] + list)[1..] == list;
    } else {
      InsertCounts(s, list[1..], id);
      assert ([list[0]] + Insert(s, list[1..]))[1..] == Insert(s, list[1..]);
    }
  }

  /** Ordering neither loses nor repeats a step. */
  lemma {:induction false} OrderCounts(list: seq<StepSnapshot>, id: Id)
    ensures Occurrences(InIdOrder(list), id) == Occurrences(list, id)
  {
    if list != [] {
      OrderCounts(list[1..], id);
      InsertCounts(list[0], InIdOrder(list[1..]), id);
    }
  }

  lemma OrderInsertsTwice(stored: map<Id, StepRow>, list: seq<StepSnapshot>)
    ensures InsertsTwice(stored, InIdOrder(list)) <==> InsertsTwice(stored, list)
  {
    if i, k :| 0 <= i < k < |list| && list[i].stepId == list[k].stepId && list[k].stepId !in stored {
      MovesPair(list, InIdOrder(list), list[k].stepId);
    }
    var other := InIdOrder(list);
    if i, k :| 0 <= i < k < |other| && other[i].stepId == other[k].stepId && other[k].stepId !in stored {
      MovesPair(other, list, other[k].stepId);
    }
  }

  lemma MovesPair(a: seq<StepSnapshot>, b: seq<StepSnapshot>, id: Id)
    requires b == InIdOrder(a) || a == InIdOrder(b)
    requires exists i, k :: 0 <= i < k < |a| && a[i].stepId == id == a[k].stepId
    ensures exists i, k :: 0 <= i < k < |b| && b[i].stepId == id == b[k].stepId
  {
    OccursTwice(a, id);
    OccursTwice(b, id);
    if b == InIdOrder(a) {
      OrderCounts(a, id);
    } else {
      OrderCounts(b, id);
    }
  }

  /** With their job stored, steps fail if and only if one that is not stored yet occurs twice. */
  lemma {:induction false} StepsApplyExactly(jobs: map<Id, JobRow>, stored: map<Id, StepRow>, list: seq<StepSnapshot>)
    requires forall s | s in list :: s.jobId in jobs
    ensures StepsAfter(jobs, stored, list).Some? <==> !InsertsTwice(stored, list)
    ensures StepsAfter(jobs, stored, list).Some? ==>
              forall k :: k in StepsAfter(jobs, stored, list).value <==> k in stored || Mentioned(list, k)
  {
    if list != [] {
      var front, last := list[..|list| - 1], list[|list| - 1];
      assert list == front + [last] && last in list;
      StepsApplyExactly(jobs, stored, front);
      OneMoreMentioned(stored, front, last);
    }
  }

  ghost predicate Mentioned(list: seq<StepSnapshot>, k: Id) {
    exists i :: 0 <= i < |list| && list[i].stepId == k
  }

  lemma OneMoreMentioned(stored: map<Id, StepRow>, front: seq<StepSnapshot>, last: StepSnapshot)
    ensures forall k :: Mentioned(front + [last], k) <==> Mentioned(front, k) || k == last.stepId
    ensures InsertsTwice(stored, front + [last])
       <==> InsertsTwice(stored, front) || (last.stepId !in stored && Mentioned(front, last.stepId))
  {
    var list := front + [last];
    forall k
      ensures Mentioned(list, k) <==> Mentioned(front, k) || k == last.stepId
    {
      if i :| 0 <= i < |front| && front[i].stepId == k {
        assert list[i] == front[i];
      }
      assert list[|front|] == last;
    }
    if i, k :| 0 <= i < k < |front| && front[i].stepId == front[k].stepId && front[k].stepId !in stored {
      assert list[i] == front[i] && list[k] == front[k];
    }
    if i :| 0 <= i < |front| && front[i].stepId == last.stepId {
      assert list[i] == front[i] && list[|front|] == last;
    }
  }

  lemma ProjectionsApplyExactly(db: Db, e: Event, now: Time)
    requires e.Valid()
    ensures ProjectionsAfter(db, e, now).Some? <==> !HoldsSourceId(db.jobs, e.job) && !InsertsTwice(db.steps, e.steps)
  {
    OrderInsertsTwice(db.steps, e.steps);
    var jobs := JobsAfter(db.trips, db.jobs, e.job, now);
    if jobs.Some? {
      StepsApplyExactly(jobs.value, db.steps, InIdOrder(e.steps));
    }
  }

  /** The event is next: valid, not seen before, expected, and allowed in by the state of the stream. */
  ghost predicate IsNext(s: Stream, e: Event, repair: bool) {
    && e.Valid() && e.sequence == |Accepted(s.log)| + 1 && e.eventId !in s.db.events
    && s.db.consumer.Some? && (s.db.consumer.value.stream == ACTIVE || repair)
  }

  /**
    An event is applied if and only if it is next, no other job's row holds the source id of a new or newer
    job, and no step that is not stored yet occurs twice. The next event that is not applied meets an
    integrity failure.
    */
  lemma AppliedExactly(s: Stream, e: Event, repair: bool, now: Time)
    requires StreamOk(s)
    ensures EventOutcome(s.db, e, repair, now).1 == APPLIED
       <==> IsNext(s, e, repair) && !HoldsSourceId(s.db.jobs, e.job) && !InsertsTwice(s.db.steps, e.steps)
    ensures IsNext(s, e, repair) && EventOutcome(s.db, e, repair, now).1 != APPLIED ==>
              EventOutcome(s.db, e, repair, now) == (s.db, IntegrityFailure)
  {
    if e.Valid() {
      ProjectionsApplyExactly(s.db, e, now);
      if e.sequence == |Accepted(s.log)| + 1 {
        assert !SequenceTaken(s.db.events, e);
      }
    }
  }
}
