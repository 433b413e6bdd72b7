/** What the operations on the projection answer, and what they leave in the rows, written out on the tables. */
module ProjectionOutcomes {
  import opened Schema
  import opened Finite
  import opened Projection
  import opened ProjectionStream
  import opened ProjectionConsumer
  import opened ProjectionSync
  import opened ProjectionBackfill
  import opened ProjectionReconciliation
  import Sse

  // ---- The stream ----------------------------------------------------------------------------

  /** A heartbeat at the watermark of an active stream is stored; any other one changes nothing. */
  lemma HeartbeatExactly(db: Db, watermark: nat, at: Time)
    ensures var (after, stored) := HeartbeatOutcome(db, watermark, at);
            && (stored <==>
                  db.consumer.Some? && db.consumer.value.stream == ACTIVE && db.consumer.value.applied == watermark)
            && (!stored ==> after == db)
            && (stored ==>
                  && after.consumer == Some(db.consumer.value.(heartbeat := Some(watermark), observedAt := Some(at),
                      initialized := true))
                  && after == db.(consumer := after.consumer))
  {
  }

  /** A pause stops the stream and keeps what it has reached. */
  lemma PausedRow(db: Db)
    requires db.consumer.Some?
    ensures Paused(db).consumer == Some(db.consumer.value.(stream := PAUSED_POISON))
    ensures Paused(db) == db.(consumer := Paused(db).consumer)
  {
  }

  /** A message is poison if and only if it cannot be read, or its event is invalid or contradicts an accepted one. */
  lemma PoisonExactly(s: Stream, m: Message)
    requires StreamOk(s)
    ensures Poisonous(s.db, m) <==>
              || m.body == Undecodable || m.body == Unsupported || (m.body.Heartbeat? && !m.body.wellFormed)
              || (m.body.Committed? && !m.body.event.Valid())
              || (m.body.Committed? && m.body.event.eventId in s.db.events && m.body.event !in Accepted(s.log))
  {
    if m.body.Committed? && m.body.event.Valid() {
      RedeliveryIsDuplicate(s, m.body.event, false, 0);
    }
  }

  /** An event is valid by its identities, numbers and sizes. */
  lemma ValidExactly(e: Event)
    ensures e.Valid() <==>
              && e.sequence > 0 && e.job.sourceId > 0 && e.job.version > 0 && e.aggregateId == e.job.jobId
              && e.aggregateVersion == e.job.version && |e.steps| < 501
              && forall i | 0 <= i < |e.steps| ::
                   e.steps[i].jobId == e.job.jobId && e.steps[i].stepId > 0 && e.steps[i].version > 0
  {
    assert e.Valid() ==> forall i | 0 <= i < |e.steps| :: e.steps[i] in e.steps;
  }

  // ---- Pages ---------------------------------------------------------------------------------

  /** The worker asks for the first page, or for the one after its cursor below its frozen maximum. */
  lemma RequestExactly(c: Option<Checkpoint>)
    ensures PageParams(c) == if c == None || c.value.lastId == 0 then Some(PageRequest(0, None))
                             else if c.value.snapshotMax == None then None
                             else Some(PageRequest(c.value.lastId, c.value.snapshotMax))
  {
  }

  /** A page passes if and only if it names a cursor exactly when it has more, and that is its last row. */
  lemma PagePassesExactly(p: Page)
    ensures PageError(p) == None <==>
              if p.hasMore then p.items != [] && p.nextAfter == Some(p.items[|p.items| - 1].SourceId())
                else p.nextAfter == None
    ensures PageError(p) == Some(InvalidPage) <==> p.hasMore && (p.items == [] || p.nextAfter == None)
    ensures PageError(p) == Some(TerminalCursor) <==> !p.hasMore && p.nextAfter.Some?
  {
  }

  /** A page with another maximum than the frozen one is not committed. */
  lemma MaximumIsFrozen(db: Db, entity: Entity, p: Page, now: Time)
    ensures CommitOutcome(db, entity, p, now).1 == Some(MaximumChanged) <==>
              && entity in db.checkpoints && db.checkpoints[entity].snapshotMax.Some?
              && db.checkpoints[entity].snapshotMax != Some(p.snapshotMax)
    ensures CommitOutcome(db, entity, p, now).1.Some? ==> CommitOutcome(db, entity, p, now).0 == db
  {
  }

  // ---- Reports -------------------------------------------------------------------------------

  ghost predicate JobStored(jobs: map<Id, JobRow>, i: nat) {
    exists j :: j in jobs && jobs[j].sourceId == i
  }

  /** Which source ids a comparison counts, for rows whose source ids are unique. */
  lemma JobsCountedExactly(db: Db, jobs: Source, steps: Source, i: nat)
    requires forall j, k | j in db.jobs && k in db.jobs && db.jobs[j].sourceId == db.jobs[k].sourceId :: j == k
    ensures var report := Compared(db, jobs, steps);
            && (i in report.missingJobs <==> i in jobs && !JobStored(db.jobs, i))
            && (i in report.extraJobs <==> i !in jobs && JobStored(db.jobs, i))
            && (i in report.staleJobs <==>
                  i in jobs && exists j ::
                      j in db.jobs && db.jobs[j].sourceId == i && db.jobs[j].version != jobs[i].Version())
  {
    if JobStored(db.jobs, i) {
      var j :| j in db.jobs && db.jobs[j].sourceId == i;
      assert i in SourceIds(db.jobs) && JobAt(db.jobs, i) == Some(j);
    }
  }

  lemma StepsCountedExactly(db: Db, jobs: Source, steps: Source, i: nat)
    ensures var report := Compared(db, jobs, steps);
            && (i in report.missingSteps <==> i in steps && i !in db.steps)
            && (i in report.extraSteps <==> i !in steps && i in db.steps)
            && (i in report.staleSteps <==> i in steps && i in db.steps && db.steps[i].version != steps[i].Version())
  {
  }

  /** A row is impossible when it is erased but not de-identified, or linked but to nobody. */
  lemma ImpossibleExactly(db: Db, jobs: Source, steps: Source, j: Id)
    ensures j in Compared(db, jobs, steps).impossible <==>
              && j in db.jobs
              && var row := db.jobs[j];
                 || (row.erasedAt.Some? && !(row.association == Deidentified && row.userId == None))
                 || (row.association == Linked && !(row.userId.Some? && row.tripId.Some?))
  {
  }

  /** A run is PASSED if and only if nothing is counted. */
  lemma PassedExactly(r: Report)
    ensures r.Passed() <==>
              && r.missingJobs == r.missingSteps == r.extraJobs == r.extraSteps == r.staleJobs == r.staleSteps == {}
              && r.impossible == {}
  {
  }

  // ---- Events for the browser ----------------------------------------------------------------

  /** An event is valid if and only if its data can be decoded and its status is one for its name. */
  lemma ValidatedExactly(raw: Sse.Raw, decode: Sse.Decoder)
    ensures var item, payload := Sse.Validate(raw, decode), decode(raw.data);
            && (item.Some? <==>
                  && payload.Some?
                  && match payload.value.status
                     case PENDING => raw.event == "progress"
                     case RUNNING => raw.event == "progress"
                     case SUCCESS => raw.event == "complete" && payload.value.resultId.Some?
                     case SUBMITTING => false
                     case _ => raw.event == "failed")
            && (item.Some? ==> item.value.payload == payload.value && item.value.kind.Name() == raw.event)
  {
  }
}
