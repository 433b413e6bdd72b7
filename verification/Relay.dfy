/** Relaying an upstream stream to the owner of a trip (src/trips/router.py). */
module Relay {
  import opened Schema
  import opened Quota
  import opened Ledger
  import opened TripSubmission
  import opened Sse

  datatype Out = Forwarded(item: Item) | Interrupted

  /** Settles or advances the trip first; None is an error that ends the response. */
  function RelayItem(db: Db, t: Id, u: Id, item: Item, now: Time): (Db, Option<Out>) {
    match item.kind
    case COMPLETE =>
      var (after, answer) := SettleOutcome(db, t, Terminal(SUCCESS, item.payload.resultId, None), Some(u), now);
      (after, if answer in {Settled, AlreadyTerminal} then Some(Forwarded(item)) else None)
    case FAILURE =>
      var code := SafeCode(item.payload.errorCode);
      var (after, answer) := SettleOutcome(db, t, Terminal(item.payload.status, None, Some(code)), Some(u), now);
      (after, if answer in {Settled,
          AlreadyTerminal} then Some(Forwarded(item.(payload := item.payload.(errorCode := Some(code))))) else None)
    case PROGRESS =>
      var (after, answer) := ActiveOutcome(db, t, item.payload.status, Some(u), now);
      (after, if answer == Current then Some(Forwarded(item)) else None)
  }

  datatype Relayed = Relayed(db: Db, out: seq<Out>, terminal: bool, raised: bool)

  function RelayAll(db: Db, t: Id, u: Id, items: seq<Item>, now: Time): Relayed {
    if items == [] then Relayed(db, [], false, false)
    else
      var before, item := RelayAll(db, t, u, items[..|items| - 1], now), items[|items| - 1];
      var (after, frame) := RelayItem(before.db, t, u, item, now);
      if before.raised then before
      else if frame.None? then Relayed(after, before.out, before.terminal, true)
      else Relayed(after, before.out + [frame.value], before.terminal || item.kind != PROGRESS, false)
  }

  /** An end of the stream and an integration error are treated alike. */
  function Response(r: Relayed): seq<Out> {
    r.out + if r.raised || r.terminal then [] else [Interrupted]
  }

  lemma {:induction false} RaisedStays(db: Db, t: Id, u: Id, items: seq<Item>, i: nat, now: Time)
    requires i <= |items| && RelayAll(db, t, u, items[..i], now).raised
    ensures RelayAll(db, t, u, items, now) == RelayAll(db, t, u, items[..i], now)
    decreases |items| - i
  {
    if i == |items| {
      assert items[..i] == items;
    } else {
      assert items[..i + 1][..i] == items[..i];
      RaisedStays(db, t, u, items, i + 1, now);
    }
  }

  method ForwardItem(db: Database, t: Id, u: Id, item: Item, now: Time) returns (frame: Option<Out>)
    modifies db
    ensures (db.tables, frame) == RelayItem(old(db.tables), t, u, item, now)
  {
    match item.kind {
      case COMPLETE =>
        var settled := SettleTrip(db, t, Terminal(SUCCESS, item.payload.resultId, None), Some(u), now);
        return if settled in {Settled, AlreadyTerminal} then Some(Forwarded(item)) else None;
      case FAILURE =>
        var code := SafeCode(item.payload.errorCode);
        var safe := item.payload.(errorCode := Some(code));
        var settled := SettleTrip(db, t, Terminal(item.payload.status, None, Some(code)), Some(u), now);
        return if settled in {Settled, AlreadyTerminal} then Some(Forwarded(item.(payload := safe))) else None;
      case PROGRESS =>
        var current := UpdateActiveStatus(db, t, item.payload.status, Some(u), now);
        return if current == Current then Some(Forwarded(item)) else None;
    }
  }

  /** _owned_sse, on the lines the upstream sent before its stream ended or broke. */
  method OwnedSse(
    db: Database, t: Id, u: Id, lines: seq<string>, decode: Decoder, now: Time)
    returns (response: seq<Out>, raised: bool)
    modifies db
    ensures var r := RelayAll(old(db.tables), t, u, Validated(Parse(IDLE, lines).out, decode).items, now);
            db.tables == r.db && response == Response(r) && raised == r.raised
  {
    var items, ok := StreamJob(lines, decode);
    ghost var first := db.tables;
    var terminal := false;
    response := [];
    for i := 0 to |items|
      invariant RelayAll(first, t, u, items[..i], now) == Relayed(db.tables, response, terminal, false)
    {
      assert items[..i + 1][..i] == items[..i];
      var frame := ForwardItem(db, t, u, items[i], now);
      if frame.None? {
        RaisedStays(first, t, u, items, i + 1, now);
        return response, true;
      }
      if items[i].kind != PROGRESS {
        terminal := true;
      }
      response := response + [frame.value];
    }
    assert items[..|items|] == items;
    if !terminal {
      response := response + [Interrupted];
    }
    return response, false;
  }

  // ---- The interruption rule -----------------------------------------------------------------

  ghost predicate SameKinds(out: seq<Out>, items: seq<Item>) {
    |out| <= |items| && forall k | 0 <= k < |out| :: out[k].Forwarded? && out[k].item.kind == items[k].kind
  }

  predicate SomeTerminal(items: seq<Item>) {
    exists item :: item in items && item.kind != PROGRESS
  }

  ghost predicate InOrder(r: Relayed, items: seq<Item>) {
    SameKinds(r.out, items) && (!r.raised ==> |r.out| == |items|) && (r.terminal <==> SomeTerminal(items[..|r.out|]))
  }

  /** Events are forwarded in order and one for one, until an error ends the response. */
  lemma {:induction false} ForwardsInOrder(db: Db, t: Id, u: Id, items: seq<Item>, now: Time)
    ensures InOrder(RelayAll(db, t, u, items, now), items)
  {
    if items != [] {
      var front, last := items[..|items| - 1], items[|items| - 1];
      ForwardsInOrder(db, t, u, front, now);
      var before := RelayAll(db, t, u, front, now);
      assert items == front + [last];
      if before.raised {
        StillInOrder(before, front, last);
      } else {
        ForwardedOneMore(before, front, last, RelayItem(before.db, t, u, last, now).1, RelayAll(db, t, u, items, now));
      }
    }
  }

  lemma StillInOrder(r: Relayed, front: seq<Item>, last: Item)
    requires InOrder(r, front) && r.raised
    ensures InOrder(r, front + [last])
  {
    assert (front + [last])[..|r.out|] == front[..|r.out|];
  }

  lemma ForwardedOneMore(before: Relayed, front: seq<Item>, last: Item, frame: Option<Out>, r: Relayed)
    requires InOrder(before, front) && !before.raised
    requires frame.Some? ==> frame.value.Forwarded? && frame.value.item.kind == last.kind
    requires r.out == before.out + (if frame.Some? then [frame.value] else []) && r.raised == frame.None?
    requires r.terminal == (before.terminal || (frame.Some? && last.kind != PROGRESS))
    ensures InOrder(r, front + [last])
  {
    assert front[..|before.out|] == front;
    OneMoreTerminal(front, last);
    assert (front + [last])[..|front|] == front && (front + [last])[..|front| + 1] == front + [last];
  }

  lemma OneMoreTerminal(items: seq<Item>, item: Item)
    ensures SomeTerminal(items + [item]) <==> SomeTerminal(items) || item.kind != PROGRESS
  {
    assert item in items + [item];
    assert forall i | i in items :: i in items + [item];
  }

  /**
    The response ends in exactly one interruption if and only if it ended without an error and no terminal
    event had been processed; nowhere else is there one.
    */
  lemma OneInterruption(db: Db, t: Id, u: Id, items: seq<Item>, now: Time)
    ensures var r := RelayAll(db, t, u, items, now);
            var response := Response(r);
            && (forall i | 0 <= i < |response| && response[i] == Interrupted :: i == |response| - 1)
            && ((response != [] && response[|response| - 1] == Interrupted)
                <==> !r.raised && !SomeTerminal(items))
  {
    ForwardsInOrder(db, t, u, items, now);
    var r := RelayAll(db, t, u, items, now);
    if !r.raised {
      assert items[..|r.out|] == items;
    }
  }

  /** A terminal event is forwarded only after the trip has reached a terminal state. */
  lemma {:induction false} TerminalIsSettled(db: Db, t: Id, u: Id, items: seq<Item>, now: Time)
    ensures var r := RelayAll(db, t, u, items, now);
            r.terminal ==> t in r.db.trips && r.db.trips[t].status.Terminal()
  {
    if items != [] {
      var front := items[..|items| - 1];
      TerminalIsSettled(db, t, u, front, now);
      ItemSettles(RelayAll(db, t, u, front, now).db, t, u, items[|items| - 1], now);
    }
  }

  lemma ItemSettles(db: Db, t: Id, u: Id, item: Item, now: Time)
    ensures var (after, frame) := RelayItem(db, t, u, item, now);
            && (item.kind != PROGRESS && frame.Some? ==> t in after.trips && after.trips[t].status.Terminal())
            && (t in db.trips && db.trips[t].status.Terminal() ==> t in after.trips && after.trips[t].status.Terminal())
  {
    match item.kind
    case COMPLETE => SettledIsTerminal(db, t, Terminal(SUCCESS, item.payload.resultId, None), Some(u), now);
    case FAILURE => SettledIsTerminal(db, t,
        Terminal(item.payload.status, None, Some(SafeCode(item.payload.errorCode))), Some(u), now);
    case PROGRESS =>
  }

  lemma SettledIsTerminal(db: Db, t: Id, r: Terminal, owner: Option<Id>, now: Time)
    ensures var (after, answer) := SettleOutcome(db, t, r, owner, now);
            && (answer in {Settled, AlreadyTerminal} ==> t in after.trips && after.trips[t].status.Terminal())
            && (t in db.trips && db.trips[t].status.Terminal() ==> t in after.trips && after.trips[t].status.Terminal())
  {
  }

  /** Without a terminal event the relay settles nothing: the trip stays active and every unit stays as it was. */
  lemma {:induction false} InterruptionSettlesNothing(db: Db, t: Id, u: Id, items: seq<Item>, now: Time)
    requires !SomeTerminal(items)
    ensures var r := RelayAll(db, t, u, items, now);
            r.db.entries == db.entries
              && (t in db.trips && !db.trips[t].status.Terminal() ==>
                  t in r.db.trips && !r.db.trips[t].status.Terminal())
  {
    if items != [] {
      var front, last := items[..|items| - 1], items[|items| - 1];
      assert last in items && forall item | item in front :: item in items;
      InterruptionSettlesNothing(db, t, u, front, now);
      ProgressSettlesNothing(RelayAll(db, t, u, front, now).db, t, u, last.payload.status, now);
    }
  }

  lemma ProgressSettlesNothing(db: Db, t: Id, u: Id, status: TripStatus, now: Time)
    ensures var after := ActiveOutcome(db, t, status, Some(u), now).0;
            after.entries == db.entries
              && (t in db.trips && !db.trips[t].status.Terminal() ==>
                  t in after.trips && !after.trips[t].status.Terminal())
  {
    ProgressCases(db, t, status, Some(u), now);
  }

  /** A stream opened in the name of anybody but the owner changes nothing and shows nothing. */
  lemma {:induction false} StrangersRelayNothing(db: Db, t: Id, u: Id, items: seq<Item>, now: Time)
    requires t in db.trips ==> db.trips[t].owner != Some(u)
    ensures RelayAll(db, t, u, items, now) == Relayed(db, [], false, items != [])
  {
    if items != [] {
      var front, last := items[..|items| - 1], items[|items| - 1];
      StrangersRelayNothing(db, t, u, front, now);
      if front == [] {
        StrangerIsRefused(db, t, u, last, now);
      }
    }
  }

  lemma StrangerIsRefused(db: Db, t: Id, u: Id, item: Item, now: Time)
    requires t in db.trips ==> db.trips[t].owner != Some(u)
    ensures RelayItem(db, t, u, item, now) == (db, None)
  {
    StrangersChangeNothing(db, t, Terminal(SUCCESS, item.payload.resultId, None), item.payload.status, u, now);
    StrangersChangeNothing(db, t, Terminal(item.payload.status, None, Some(SafeCode(item.payload.errorCode))),
        item.payload.status, u, now);
  }

  /** No raw upstream error code reaches the browser. */
  lemma {:induction false} OnlySafeCodes(db: Db, t: Id, u: Id, items: seq<Item>, now: Time)
    ensures forall frame | frame in RelayAll(db, t, u, items, now).out && frame.Forwarded?
            && frame.item.kind == FAILURE ::
              frame.item.payload.errorCode.Some? && frame.item.payload.errorCode.value in SAFE_CODES.Values
  {
    if items != [] {
      OnlySafeCodes(db, t, u, items[..|items| - 1], now);
    }
  }
}
