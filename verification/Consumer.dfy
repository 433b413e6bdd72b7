/** The message-level driver of the projection stream (src/admin/projection_consumer.py). */
module ProjectionConsumer {
  import opened Schema
  import opened Projection
  import opened ProjectionStream

  /** A broker header: int() of it may fail. */
  datatype Header = Absent | Number(n: int) | NotANumber

  datatype Body =
    | Undecodable
    | Unsupported
    | Committed(event: Event)
    | Heartbeat(wellFormed: bool, watermark: nat, observedAt: Time)

  datatype Message = Message(body: Body, deliveryCount: Header, acquiredCount: Header)

  datatype Action = Ack | Requeue | Reject

  function Count(h: Header): int { if h.Number? then h.n else 0 }

  /** _delivery_attempt: either header may carry the count, and either may be missing or malformed. */
  method DeliveryAttempt(m: Message) returns (attempt: int)
    ensures attempt >= 1
    ensures attempt >= Count(m.deliveryCount) + 1 && attempt >= Count(m.acquiredCount) + 1
    ensures attempt in {1, Count(m.deliveryCount) + 1, Count(m.acquiredCount) + 1}
  {
    var best, headers := 0, [m.deliveryCount, m.acquiredCount];
    for i := 0 to 2
      invariant best >= 0 && forall k | 0 <= k < i :: best >= Count(headers[k])
      invariant best == 0 || exists k :: 0 <= k < i && best == Count(headers[k])
    {
      match headers[i] {
        case NotANumber => continue;
        case Absent => best := if best < 0 then 0 else best;
        case Number(n) => best := if best < n then n else best;
      }
    }
    assert best >= Count(headers[0]) && best >= Count(headers[1]);
    return best + 1;
  }

  function Attempt(m: Message): int {
    var d, a := Count(m.deliveryCount), Count(m.acquiredCount);
    1 + if d > 0 && d >= a then d else if a > 0 then a else 0
  }

  /** Errors of the payload itself, as opposed to those of the moment. */
  predicate Poisonous(db: Db, m: Message) {
    match m.body
    case Undecodable => true
    case Unsupported => true
    case Committed(e) => Refusal(db, e, false) in {Some(Invalid), Some(Poison)}
    case Heartbeat(wellFormed, _, _) => !wellFormed
  }

  /** What the transaction of a message does, and whether the message is then done with. */
  function Applied(db: Db, m: Message, now: Time): (Db, bool) {
    match m.body
    case Undecodable => (db, false)
    case Unsupported => (db, false)
    case Committed(e) =>
      var (after, answer) := EventOutcome(db, e, false, now);
      (after, answer == APPLIED || answer == DUPLICATE)
    case Heartbeat(wellFormed, watermark, observedAt) =>
      if wellFormed then HeartbeatOutcome(db, watermark, observedAt) else (db, false)
  }

  function Handled(db: Db, m: Message, maxAttempts: int, now: Time): (Db, Action, bool) {
    if Poisonous(db, m) then
      if Attempt(m) < maxAttempts then (db, Requeue, true) else (Paused(db), Reject, false)
    else
      var (after, done) := Applied(db, m, now);
      (after, if done then Ack else Requeue, true)
  }

  /** _handle_message. The last result says whether the worker goes on. */
  method HandleMessage(db: Database, m: Message, maxAttempts: int, now: Time) returns (action: Action, goOn: bool)
    modifies db
    ensures (db.tables, action, goOn) == Handled(old(db.tables), m, maxAttempts, now)
  {
    var poisonous, blocked := false, false;
    match m.body {
      case Undecodable => poisonous := true;
      case Unsupported => poisonous := true;
      case Committed(e) =>
        var answer := ApplyProjectionEvent(db, e, false, now);
        poisonous := answer == Invalid || answer == Poison;
        blocked := answer == Blocked || answer == Unavailable || answer == IntegrityFailure;
      case Heartbeat(wellFormed, watermark, observedAt) =>
        if wellFormed {
          var contiguous := ApplyProjectionHeartbeat(db, watermark, observedAt);
          blocked := !contiguous;
        } else {
          poisonous := true;
        }
    }
    if poisonous {
      var attempt := DeliveryAttempt(m);
      if attempt < maxAttempts {
        return Requeue, true;
      }
      PauseProjectionStream(db);
      return Reject, false;
    }
    if blocked {
      return Requeue, true;
    }
    return Ack, true;
  }

  // ---- What an acknowledgement means ---------------------------------------------------------

  /**
    A message leaves the queue only when its event is recorded, its heartbeat is stored, or it was
    rejected with the stream paused; a message put back changed nothing.
    */
  lemma NothingIsLost(db: Db, m: Message, maxAttempts: int, now: Time)
    ensures var (after, action, goOn) := Handled(db, m, maxAttempts, now);
            && (action == Ack ==>
                  match m.body
                  case Committed(e) => e.eventId in after.events && after.events[e.eventId].payload == e
                  case Heartbeat(_, watermark, _) => after.consumer.Some? && after.consumer.value.applied == watermark
                                                     && after.consumer.value.heartbeat == Some(watermark)
                  case _ => false)
            && (action == Requeue ==> after == db)
            && (action == Reject ==> after == Paused(db) && Poisonous(db, m) && !goOn)
            && (!goOn ==> action == Reject)
  {
    match m.body
    case Committed(e) => EventIsKept(db, e, now);
    case Heartbeat(_, watermark, observedAt) => BeatIsKept(db, watermark, observedAt);
    case _ =>
  }

  lemma EventIsKept(db: Db, e: Event, now: Time)
    ensures var (after, answer) := EventOutcome(db, e, false, now);
            && (answer == APPLIED || answer == DUPLICATE ==>
                e.eventId in after.events && after.events[e.eventId].payload == e)
            && (answer != APPLIED ==> after == db)
  {
    EventEffect(db, e, false, now);
  }

  lemma BeatIsKept(db: Db, watermark: nat, observedAt: Time)
    ensures var (after, done) := HeartbeatOutcome(db, watermark, observedAt);
            if done then after.consumer.Some? && after.consumer.value.applied == watermark
                         && after.consumer.value.heartbeat == Some(watermark)
            else after == db
  {
  }

  /** The k-th delivery of a message: the broker has counted k earlier ones. */
  function Redelivered(m: Message, k: nat): Message {
    m.(acquiredCount := Number(k))
  }

  /**
    A poisonous message is rejected exactly when the larger readable header has counted all but one of the
    allowed deliveries.
    */
  lemma RejectedWhenCounted(db: Db, m: Message, maxAttempts: int, now: Time)
    requires Poisonous(db, m)
    ensures var counted := if Count(m.deliveryCount) < Count(m.acquiredCount) then Count(m.acquiredCount)
            else Count(m.deliveryCount);
            Handled(db, m, maxAttempts, now).1 == Reject <==> maxAttempts <= 1 || counted >= maxAttempts - 1
    ensures Handled(db, m, maxAttempts, now).1 != Reject ==> Handled(db, m, maxAttempts, now) == (db, Requeue, true)
  {
  }

  /**
    So a broker that counts its deliveries from zero repeats it a bounded number of times: it is rejected
    from the configured number of deliveries on, and not before unless the other header counts more.
    */
  lemma BoundedPoisonRetries(db: Db, m: Message, maxAttempts: nat, now: Time, k: nat)
    requires Poisonous(db, m)
    ensures k + 1 >= maxAttempts ==> Handled(db, Redelivered(m, k), maxAttempts, now) == (Paused(db), Reject, false)
    ensures k + 1 < maxAttempts && Count(m.deliveryCount) <= k ==>
              Handled(db, Redelivered(m, k), maxAttempts, now) == (db, Requeue, true)
  {
    assert Poisonous(db, Redelivered(m, k));
    RejectedWhenCounted(db, Redelivered(m, k), maxAttempts, now);
  }

  /**
    An event is acknowledged if and only if it was accepted before, or it is next, no other job's row holds
    the source id of its new or newer job, and no step that is not stored yet occurs twice in it.
    */
  lemma HeadIsAcknowledged(s: Stream, m: Message, maxAttempts: int, now: Time)
    requires StreamOk(s) && m.body.Committed?
    ensures var e := m.body.event;
            Handled(s.db, m, maxAttempts, now).1 == Ack <==>
              || (e.Valid() && e in Accepted(s.log))
              || (IsNext(s, e, false) && !HoldsSourceId(s.db.jobs, e.job) && !InsertsTwice(s.db.steps, e.steps))
  {
    var e := m.body.event;
    AppliedExactly(s, e, false, now);
    if e.Valid() {
      RedeliveryIsDuplicate(s, e, false, now);
    }
    AcknowledgedWhen(s.db, m, maxAttempts, now);
  }

  lemma AcknowledgedWhen(db: Db, m: Message, maxAttempts: int, now: Time)
    requires m.body.Committed?
    ensures Handled(db, m, maxAttempts, now).1 == Ack
       <==> EventOutcome(db, m.body.event, false, now).1 in {APPLIED, DUPLICATE}
  {
    ProjectionStream.EventEffect(db, m.body.event, false, now);
  }

  /** A heartbeat is acknowledged if and only if the active stream has applied exactly what it announces. */
  lemma HeartbeatIsAcknowledged(s: Stream, m: Message, maxAttempts: int, now: Time)
    requires StreamOk(s) && m.body.Heartbeat? && m.body.wellFormed
    ensures Handled(s.db, m, maxAttempts, now).1 == Ack
       <==> s.db.consumer.value.stream == ACTIVE && m.body.watermark == |Accepted(s.log)|
  {
  }

  /**
    Once the stream has moved on, a heartbeat is put back at every later delivery, in every run.
    */
  lemma LateHeartbeatsAreNeverAcknowledged(s: Stream, steps: seq<Step>, m: Message, maxAttempts: int, now: Time)
    requires StreamOk(s) && Possible(s, steps)
    requires m.body.Heartbeat? && m.body.wellFormed && m.body.watermark < |Accepted(s.log)|
    ensures Handled(Run(s, steps).db, m, maxAttempts, now) == (Run(s, steps).db, Requeue, true)
  {
    RunKeepsStream(s, steps);
    AcceptedGrows(s, steps);
  }

  // ---- Pausing and repairing -----------------------------------------------------------------

  /** While the stream is paused, only the repair of the expected event is applied, and it resumes the stream. */
  lemma OnlyARepairResumes(s: Stream, e: Event, repair: bool, now: Time)
    requires StreamOk(s) && s.db.consumer.value.stream == PAUSED_POISON
    ensures var (after, answer) := EventOutcome(s.db, e, repair, now);
            if answer == APPLIED then
              repair && e.sequence == |Accepted(s.log)| + 1 && after.consumer.value.stream == ACTIVE
            else after == s.db
    ensures forall watermark, at :: HeartbeatOutcome(s.db, watermark, at) == (s.db, false)
  {
  }
}
