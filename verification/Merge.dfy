/**
  Version-gated merging: a snapshot replaces what is stored for its key only when its version is higher.
  Both the job and the step tables of the projection are maintained this way.
  */
module Merge {
  import opened Schema

  datatype Versioned<T> = Versioned(key: Id, version: nat, body: T)

  type Rows<T> = m: map<Id, Versioned<T>> | forall k | k in m :: m[k].key == k

  function Put<T>(rows: Rows<T>, v: Versioned<T>): Rows<T> {
    if v.key in rows && v.version <= rows[v.key].version then rows else rows[v.key := v]
  }

  function PutAll<T>(rows: Rows<T>, vs: seq<Versioned<T>>): Rows<T> {
    if vs == [] then rows else Put(PutAll(rows, vs[..|vs| - 1]), vs[|vs| - 1])
  }

  ghost predicate Offered<T>(rows: Rows<T>, vs: seq<Versioned<T>>, v: Versioned<T>) {
    (v.key in rows && rows[v.key] == v) || v in vs
  }

  /** What the source promises: one payload per key and version. */
  ghost predicate OnePayload<T(!new)>(rows: Rows<T>, vs: seq<Versioned<T>>) {
    forall a, b | Offered(rows, vs, a) && Offered(rows, vs, b) ::
      a.key == b.key && a.version == b.version ==> a == b
  }

  /** Every stored row is an offered one, and no offered one is newer. */
  lemma {:induction false} PutAllKeepsNewest<T>(rows: Rows<T>, vs: seq<Versioned<T>>)
    ensures forall k | k in PutAll(rows, vs) :: Offered(rows, vs, PutAll(rows, vs)[k])
    ensures forall v | Offered(rows, vs, v) ::
              v.key in PutAll(rows, vs) && v.version <= PutAll(rows, vs)[v.key].version
  {
    if vs != [] {
      var front, last := vs[..|vs| - 1], vs[|vs| - 1];
      assert vs == front + [last];
      PutAllKeepsNewest(rows, front);
      forall k | k in PutAll(rows, vs)
        ensures Offered(rows, vs, PutAll(rows, vs)[k])
      {
        if PutAll(rows, vs)[k] != last {
          assert Offered(rows, front, PutAll(rows, front)[k]);
        }
      }
      forall v | Offered(rows, vs, v)
        ensures v.key in PutAll(rows, vs) && v.version <= PutAll(rows, vs)[v.key].version
      {
        if v != last {
          assert Offered(rows, front, v);
        }
      }
    }
  }

  /** Any two orders, with any repetitions, of the same snapshots end in the same rows. */
  lemma OrderIndependent<T(!new)>(rows: Rows<T>, vs: seq<Versioned<T>>, ws: seq<Versioned<T>>)
    requires OnePayload(rows, vs)
    requires forall v :: v in vs <==> v in ws
    ensures PutAll(rows, vs) == PutAll(rows, ws)
  {
    PutAllKeepsNewest(rows, vs);
    PutAllKeepsNewest(rows, ws);
    var left, right := PutAll(rows, vs), PutAll(rows, ws);
    forall k
      ensures k in left <==> k in right
      ensures k in left ==> left[k] == right[k]
    {
      if k in left {
        assert Offered(rows, ws, left[k]);
      }
      if k in right {
        assert Offered(rows, vs, right[k]);
      }
    }
  }

  /** Offering everything a second time changes nothing, whatever the payloads. */
  lemma Idempotent<T>(rows: Rows<T>, vs: seq<Versioned<T>>)
    ensures PutAll(PutAll(rows, vs), vs) == PutAll(rows, vs)
  {
    PutAllKeepsNewest(rows, vs);
    NothingNewer(PutAll(rows, vs), vs);
  }

  lemma {:induction false} NothingNewer<T>(rows: Rows<T>, vs: seq<Versioned<T>>)
    requires forall v | v in vs :: v.key in rows && v.version <= rows[v.key].version
    ensures PutAll(rows, vs) == rows
  {
    if vs != [] {
      NothingNewer(rows, vs[..|vs| - 1]);
      assert vs[|vs| - 1] in vs;
    }
  }

  /** Two snapshots may change places exactly when they cannot both win the same version of one key. */
  lemma CommuteExactlyWhen<T>(rows: Rows<T>, a: Versioned<T>, b: Versioned<T>)
    ensures Put(Put(rows, a), b) == Put(Put(rows, b), a)
       <==> (a == b || a.key != b.key || a.version != b.version
             || (a.key in rows && a.version <= rows[a.key].version))
  {
    if a.key != b.key {
      assert Put(Put(rows, a), b) == Put(Put(rows, b), a);
    } else if Put(Put(rows, a), b) == Put(Put(rows, b), a) {
      assert Put(Put(rows, a), b)[a.key] == Put(Put(rows, b), a)[a.key];
    }
  }

  lemma PutAllAppends<T>(rows: Rows<T>, vs: seq<Versioned<T>>, v: Versioned<T>)
    ensures PutAll(rows, vs + [v]) == Put(PutAll(rows, vs), v)
  {
    assert (vs + [v])[..|vs|] == vs;
  }

  lemma {:induction false} PutAllConcat<T>(rows: Rows<T>, vs: seq<Versioned<T>>, ws: seq<Versioned<T>>)
    ensures PutAll(rows, vs + ws) == PutAll(PutAll(rows, vs), ws)
  {
    if ws == [] {
      assert vs + ws == vs;
    } else {
      var front, last := ws[..|ws| - 1], ws[|ws| - 1];
      PutAllConcat(rows, vs, front);
      assert vs + ws == (vs + front) + [last];
      PutAllAppends(rows, vs + front, last);
    }
  }
}
