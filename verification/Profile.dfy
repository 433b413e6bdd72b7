/** Ownership of display names, with a timed quarantine of former names (src/profile/service.py). */
module Profile {
  import opened Schema

  const RENAME_COOLDOWN: Time := 7 * DAY
  const FORMER_NAME_QUARANTINE: Time := 15 * DAY
  const DRAWS := 32

  /** What normalize_display_name yields: the presentation and its case-folded key. */
  datatype Name = Name(presentation: string, key: string)

  predicate NameOwned(users: map<Id, User>, key: string) {
    exists u | u in users :: users[u].nameKey == key
  }

  /** The digest of a name is injective, so the quarantine is kept by name. */
  predicate NameQuarantined(quarantine: map<string, Time>, key: string, now: Time) {
    key in quarantine && now < quarantine[key]
  }

  predicate NameFree(db: Db, key: string, now: Time) {
    !NameOwned(db.users, key) && !NameQuarantined(db.quarantine, key, now)
  }

  // ---- Default names -------------------------------------------------------------------------

  /** The first of at most 32 random draws that is free. */
  function DefaultName(db: Db, draws: seq<string>, attempts: nat, now: Time): (r: Option<string>)
    ensures r.Some? ==> r.value in draws && NameFree(db, r.value, now)
    decreases attempts
  {
    if attempts == 0 || draws == [] then None
    else if NameFree(db, draws[0], now) then Some(draws[0])
    else DefaultName(db, draws[1..], attempts - 1, now)
  }

  /** The allocation loop of create_user_with_default_display_name. */
  method AllocateDefaultName(db: Database, draws: seq<string>, now: Time) returns (r: Option<string>)
    ensures r == DefaultName(db.tables, draws, DRAWS, now)
  {
    for attempt := 0 to DRAWS
      invariant attempt <= |draws| ==>
                  DefaultName(db.tables, draws, DRAWS, now)
                    == DefaultName(db.tables, draws[attempt..], DRAWS - attempt, now)
      invariant attempt > |draws| ==> DefaultName(db.tables, draws, DRAWS, now) == None
    {
      if attempt >= |draws| {
        return None;
      }
      var candidate := draws[attempt];
      assert draws[attempt..][0] == candidate;
      assert draws[attempt..][1..] == draws[attempt + 1..];
      if !NameFree(db.tables, candidate, now) {
        continue;
      }
      return Some(candidate);
    }
    return None;
  }

  // ---- Giving a name up ----------------------------------------------------------------------

  function WithQuarantine(db: Db, key: string, now: Time): Db {
    db.(quarantine := db.quarantine[key := now + FORMER_NAME_QUARANTINE])
  }

  /** quarantine_former_name: an upsert that restarts the period. */
  method QuarantineFormerName(db: Database, key: string, now: Time)
    modifies db`tables
    ensures db.tables == WithQuarantine(old(db.tables), key, now)
  {
    var expiresAt := now + FORMER_NAME_QUARANTINE;
    db.tables := db.tables.(quarantine := db.tables.quarantine[key := expiresAt]);
  }

  // ---- rename_display_name -------------------------------------------------------------------

  datatype RenameAnswer = Renamed | Unchanged | AuthRequired | Cooldown | Unavailable

  function RenameRefusal(db: Db, u: Id, name: Name, now: Time): Option<RenameAnswer> {
    if u !in db.users || db.users[u].status != Active then Some(AuthRequired)
    else if name.presentation == db.users[u].displayName then Some(Unchanged)
    else if db.users[u].nameChangedAt.Some?
      && now < db.users[u].nameChangedAt.value + RENAME_COOLDOWN then Some(Cooldown)
    else if name.key != db.users[u].nameKey && !NameFree(db, name.key, now) then Some(Unavailable)
    else None
  }

  function RenameWrite(db: Db, u: Id, name: Name, now: Time): Db
    requires u in db.users
  {
    var former := db.users[u].nameKey;
    db.(quarantine := if name.key == former then db.quarantine else WithQuarantine(db, former, now).quarantine,
        users := db.users[u := db.users[u].(displayName := name.presentation, nameKey := name.key,
            nameChangedAt := Some(now))])
  }

  function RenameOutcome(db: Db, u: Id, name: Name, now: Time): (Db, RenameAnswer) {
    var refusal := RenameRefusal(db, u, name, now);
    if refusal.Some? then (db, refusal.value) else (RenameWrite(db, u, name, now), Renamed)
  }

  method RenameDisplayName(db: Database, u: Id, name: Name, now: Time) returns (answer: RenameAnswer)
    modifies db
    ensures (db.tables, answer) == RenameOutcome(old(db.tables), u, name, now)
    ensures db.locks <= [Lock(UserT, u)]
  {
    db.Begin();
    if u !in db.tables.users {
      return AuthRequired;
    }
    db.ForUpdate(UserT, u);
    var user := db.tables.users[u];
    if user.status != Active {
      return AuthRequired;
    }
    if name.presentation == user.displayName {
      return Unchanged;
    }
    if user.nameChangedAt.Some? && now < user.nameChangedAt.value + RENAME_COOLDOWN {
      return Cooldown;
    }
    if name.key != user.nameKey {
      if NameOwned(db.tables.users, name.key) || NameQuarantined(db.tables.quarantine, name.key, now) {
        return Unavailable;
      }
      QuarantineFormerName(db, user.nameKey, now);
    }
    user := user.(displayName := name.presentation);
    user := user.(nameKey := name.key);
    user := user.(nameChangedAt := Some(now));
    db.tables := db.tables.(users := db.tables.users[u := user]);
    return Renamed;
  }
}
