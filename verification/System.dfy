/**
  What holds in every run of the whole service: transactions of every kind, by every caller, in every
  order, with an upstream that loses requests and replies and a clock that moves forward.
  */
module System {
  import opened Schema
  import opened Quota
  import opened Ledger
  import opened Money
  import opened World
  import opened Accounts
  import opened NameOwnership
  import opened TripRuns
  import opened MoneyRuns
  import opened Idempotency

  ghost predicate Inv(w: World) {
    TripInv(w) && MoneyInv(w) && AccountsInv(w) && NamesInv(w) && EffectsOk(w.db.records, w.past.effects)
  }

  /** What is never undone. */
  ghost predicate GoesOn(w: World, next: World) {
    && TripsGoOn(w, next) && Lasts(w.db.quarantine, next.db.quarantine) && AdminGoesOn(w, next)
    && w.now <= next.now && w.past.users <= next.past.users
    && (forall t | t in w.jobs :: t in next.jobs && next.jobs[t] == w.jobs[t])
    && (forall t | t in w.past.born :: t in next.past.born && next.past.born[t] == w.past.born[t])
  }

  lemma BornGoesOn(w: World, op: Op)
    requires Enabled(w, op) && w.past.born.Keys == w.db.trips.Keys
    ensures forall t | t in w.past.born :: t in Next(w, op).past.born && Next(w, op).past.born[t] == w.past.born[t]
  {
  }

  lemma PastGoesOn(w: World, op: Op)
    ensures w.now <= Next(w, op).now && w.past.users <= Next(w, op).past.users
    ensures forall t | t in w.jobs :: t in Next(w, op).jobs && Next(w, op).jobs[t] == w.jobs[t]
  {
  }

  lemma StepKeepsInv(w: World, op: Op)
    requires Inv(w) && Enabled(w, op)
    ensures Inv(Next(w, op)) && GoesOn(w, Next(w, op))
  {
    StepKeepsTrips(w, op);
    StepKeepsMoney(w, op);
    StepKeepsAccounts(w, op);
    StepKeepsNames(w, op);
    StepKeepsEffects(w, op);
    PastGoesOn(w, op);
    BornGoesOn(w, op);
  }

  lemma RecordsLastTransitive(a: World, b: World, c: World)
    requires AdminGoesOn(a, b) && AdminGoesOn(b, c)
    ensures AdminGoesOn(a, c)
  {
  }

  lemma GoesOnTransitive(a: World, b: World, c: World)
    requires GoesOn(a, b) && GoesOn(b, c)
    ensures GoesOn(a, c)
  {
    TripsEvolveTransitive(a.db.trips, b.db.trips, c.db.trips);
    RowsEvolveTransitive(a.db.jobs, b.db.jobs, c.db.jobs);
    RecordsLastTransitive(a, b, c);
  }

  lemma GoesOnFromHere(w: World)
    requires Inv(w)
    ensures GoesOn(w, w)
  {
    NothingEvolves(w.db.trips);
    RowsStay(w.db.trips, w.db.jobs);
  }

  /** The invariant, and everything that is never undone, over all runs. */
  lemma {:induction false} EveryRun(w: World, ops: seq<Op>)
    requires Inv(w) && Possible(w, ops)
    ensures Inv(Run(w, ops)) && GoesOn(w, Run(w, ops))
  {
    if ops == [] {
      GoesOnFromHere(w);
    } else {
      var front := ops[..|ops| - 1];
      EveryRun(w, front);
      StepKeepsInv(Run(w, front), ops[|ops| - 1]);
      GoesOnTransitive(w, Run(w, front), Run(w, ops));
    }
  }

  /** A service that has just been installed. */
  function Installed(maxAttempts: nat, now: Time): World {
    World(
      Db(map[], map[], map[], map[], map[], map[], map[], map[], map[], map[], map[], [], map[], map[], map[],
         Some(Consumer(0, 1, ACTIVE, None, None, false)), map[]),
      map[], now, maxAttempts, Past(map[], map[], [], [], [], [], {}, {}))
  }

  lemma InstalledIsOk(maxAttempts: nat, now: Time)
    ensures Inv(Installed(maxAttempts, now))
  {
    var w := Installed(maxAttempts, now);
    forall u: Id
      ensures Used(w.db.entries, u) <= Limit(w.db.grants, w.db.adjustments, u)
    {
      assert EntryRows(w.db.entries, u, RESERVED) == map[] && EntryRows(w.db.entries, u, CONSUMED) == map[];
      assert GrantedRows(w.db.grants, u) == map[];
    }
  }
}
