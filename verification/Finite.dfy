/**
  Finite sums and sorted listings of identifiers: what SQL's SUM and ORDER BY give the services.
  */
module Finite {

  predicate IsLeast(k: nat, s: set<nat>) {
    k in s && forall j | j in s :: k <= j
  }

  /** The least element: the row that an ascending query returns first. */
  function Least(s: set<nat>): (k: nat)
    requires s != {}
    ensures IsLeast(k, s)
  {
    LeastExists(s);
    var k :| IsLeast(k, s);
    k
  }

  lemma {:induction false} LeastExists(s: set<nat>)
    requires s != {}
    ensures exists k :: IsLeast(k, s)
  {
    var x :| x in s;
    var rest := s - {x};
    if rest == {} {
      assert s == {x};
      assert IsLeast(x, s);
    } else {
      LeastExists(rest);
      var k :| IsLeast(k, rest);
      assert s == {x} + rest;
      assert IsLeast(if x < k then x else k, s);
    }
  }

  /** SUM over the values of a column. */
  function Sum(m: map<nat, int>): int
    decreases |m|
  {
    if m == map[] then 0
    else
      var k := Least(m.Keys);
      assert |m - {k}| < |m| by { assert (m - {k}).Keys == m.Keys - {k}; }
      m[k] + Sum(m - {k})
  }

  /** The order in which rows are added does not matter: any row may be taken out first. */
  lemma {:induction false} SumWithout(m: map<nat, int>, k: nat)
    requires k in m
    ensures Sum(m) == m[k] + Sum(m - {k})
    decreases |m|
  {
    var j := Least(m.Keys);
    if j != k {
      assert (m - {j}).Keys == m.Keys - {j};
      SumWithout(m - {j}, k);
      assert k in m && j in m - {k};
      assert Least((m - {k}).Keys) == j;
      assert m - {j} - {k} == m - {k} - {j};
    }
  }

  lemma SumPlus(m: map<nat, int>, k: nat, v: int)
    requires k !in m
    ensures Sum(m[k := v]) == Sum(m) + v
  {
    SumWithout(m[k := v], k);
    assert m[k := v] - {k} == m;
  }

  ghost predicate Ascending(ids: seq<nat>) {
    forall i, j | 0 <= i < j < |ids| :: ids[i] < ids[j]
  }

  function Elements(ids: seq<nat>): set<nat> {
    set k | k in ids
  }

  /** ORDER BY id. */
  function Sorted(s: set<nat>): (ids: seq<nat>)
    ensures Ascending(ids) && |ids| == |s|
    ensures forall k :: k in ids <==> k in s
  {
    if s == {} then []
    else
      var k := Least(s);
      var rest := Sorted(s - {k});
      assert |s| == |s - {k}| + 1;
      [k] + rest
  }

  lemma SortedElements(s: set<nat>)
    ensures Elements(Sorted(s)) == s
  {
  }

  lemma NextElement(ids: seq<nat>, i: nat)
    requires Ascending(ids) && i < |ids|
    ensures ids[i] in ids && ids[i] !in Elements(ids[..i])
    ensures Elements(ids[..i + 1]) == Elements(ids[..i]) + {ids[i]}
  {
    assert ids[..i + 1] == ids[..i] + [ids[i]];
  }

  lemma EmptyListing(ids: seq<nat>)
    ensures ids == [] <==> Elements(ids) == {}
  {
    if ids != [] {
      assert ids[0] in Elements(ids);
    }
  }

  /** An ascending listing is determined by its elements. */
  lemma {:induction false} SameAscending(a: seq<nat>, b: seq<nat>)
    requires Ascending(a) && Ascending(b) && Elements(a) == Elements(b)
    ensures a == b
  {
    EmptyListing(a);
    EmptyListing(b);
    if a != [] {
      assert a[|a| - 1] in Elements(b);
      assert b[|b| - 1] in Elements(a);
      var front, front' := a[..|a| - 1], b[..|b| - 1];
      assert a[|a| - 1] == b[|b| - 1];
      assert Elements(front) == Elements(a) - {a[|a| - 1]};
      assert Elements(front') == Elements(b) - {b[|b| - 1]};
      SameAscending(front, front');
    }
  }
}
