/**
  Reversals of reversals: the adjustments of one user fall into chains in which every link takes back
  the one before it, and only a chain of odd length still counts.
  */
module Reversals {
  import opened Schema
  import opened Quota
  import opened Admin
  import opened AccountClosure

  type Adjustments = seq<Adjustment>

  /** Every reversal points back at an earlier adjustment of the same user, negates it, and is alone in doing so. */
  ghost predicate LinkOk(adjs: Adjustments, i: nat)
    requires i < |adjs|
  {
    adjs[i].reverses.Some? ==>
      var r := adjs[i].reverses.value;
      && r < i && adjs[r].delta == -adjs[i].delta && adjs[r].target == adjs[i].target
      && forall k | 0 <= k < |adjs| && adjs[k].reverses == Some(r) :: k == i
  }

  ghost predicate ChainsOk(adjs: Adjustments) {
    forall i | 0 <= i < |adjs| :: LinkOk(adjs, i)
  }

  /** The adjustment that takes back number i, if there is one. */
  ghost function NextLink(adjs: Adjustments, i: nat): (k: Option<nat>)
    ensures k.Some? ==> k.value < |adjs| && adjs[k.value].reverses == Some(i)
    ensures k.None? ==> !Reversed(adjs, i)
  {
    if Reversed(adjs, i) then
      var k :| 0 <= k < |adjs| && adjs[k].reverses == Some(i);
      Some(k)
    else None
  }

  /** How many adjustments hang together from number i on. */
  ghost function Length(adjs: Adjustments, i: nat): nat
    requires ChainsOk(adjs) && i < |adjs|
    decreases |adjs| - i
  {
    var k := NextLink(adjs, i);
    if k.None? then 1 else assert LinkOk(adjs, k.value); 1 + Length(adjs, k.value)
  }

  /** What they add up to. */
  ghost function Contribution(adjs: Adjustments, i: nat): int
    requires ChainsOk(adjs) && i < |adjs|
    decreases |adjs| - i
  {
    var k := NextLink(adjs, i);
    adjs[i].delta + if k.None? then 0 else assert LinkOk(adjs, k.value); Contribution(adjs, k.value)
  }

  /** A chain contributes its first delta when its length is odd, and nothing when it is even. */
  lemma {:induction false} OddChainsCount(adjs: Adjustments, i: nat)
    requires ChainsOk(adjs) && i < |adjs|
    ensures Contribution(adjs, i) == if Length(adjs, i) % 2 == 1 then adjs[i].delta else 0
    decreases |adjs| - i
  {
    var k := NextLink(adjs, i);
    if k.Some? {
      assert LinkOk(adjs, k.value);
      OddChainsCount(adjs, k.value);
    }
  }

  /** The contributions of the chains of user u that start among the first n adjustments. */
  ghost function ChainTotal(adjs: Adjustments, u: Id, n: nat): int
    requires ChainsOk(adjs) && n <= |adjs|
  {
    if n == 0 then 0
    else
      ChainTotal(adjs, u, n - 1)
      + if adjs[n - 1].target == Some(u) && adjs[n - 1].reverses.None? then Contribution(adjs, n - 1) else 0
  }

  // ---- Appending one adjustment --------------------------------------------------------------

  /** The chain that starts at i contains number p. */
  ghost predicate Reaches(adjs: Adjustments, i: nat, p: nat)
    requires ChainsOk(adjs) && i < |adjs|
    decreases |adjs| - i
  {
    i == p || (NextLink(adjs, i).Some?
        && (assert LinkOk(adjs, NextLink(adjs, i).value); Reaches(adjs, NextLink(adjs, i).value, p)))
  }

  ghost predicate Appendable(adjs: Adjustments, a: Adjustment) {
    a.reverses.Some? ==>
      && a.reverses.value < |adjs| && !Reversed(adjs, a.reverses.value)
      && adjs[a.reverses.value].delta == -a.delta && adjs[a.reverses.value].target == a.target
  }

  lemma AppendKeepsChains(adjs: Adjustments, a: Adjustment)
    requires ChainsOk(adjs) && Appendable(adjs, a)
    ensures ChainsOk(adjs + [a])
    ensures forall i | 0 <= i < |adjs| ::
              NextLink(adjs + [a], i) == if a.reverses == Some(i) then Some(|adjs|) else NextLink(adjs, i)
    ensures NextLink(adjs + [a], |adjs|) == None
  {
    var more := adjs + [a];
    forall i | 0 <= i < |more|
      ensures LinkOk(more, i)
    {
      if i < |adjs| {
        assert LinkOk(adjs, i);
      }
    }
    forall i | 0 <= i <= |adjs|
      ensures NextLink(more, i) == if i == |adjs| then None else if a.reverses == Some(i) then Some(|adjs|)
              else NextLink(adjs, i)
    {
      var k := NextLink(more, i);
      if k.Some? {
        assert LinkOk(more, k.value);
      }
      if i < |adjs| && a.reverses != Some(i) && NextLink(adjs, i).Some? {
        var k' := NextLink(adjs, i).value;
        assert more[k'].reverses == Some(i) && LinkOk(more, k');
      }
      if i < |adjs| && a.reverses == Some(i) {
        assert more[|adjs|].reverses == Some(i) && LinkOk(more, |adjs|);
      }
    }
  }

  /** Exactly the chains that reach the reversed adjustment grow. */
  lemma {:induction false} AppendGrowsOneChain(adjs: Adjustments, a: Adjustment, i: nat)
    requires ChainsOk(adjs) && Appendable(adjs, a) && ChainsOk(adjs + [a]) && i < |adjs|
    ensures Contribution(adjs + [a], i)
         == Contribution(adjs, i) + if a.reverses.Some? && Reaches(adjs, i, a.reverses.value) then a.delta else 0
    decreases |adjs| - i
  {
    AppendKeepsChains(adjs, a);
    var k := NextLink(adjs, i);
    if a.reverses == Some(i) {
      assert NextLink(adjs + [a], i) == Some(|adjs|);
      assert Contribution(adjs + [a], |adjs|) == a.delta;
    } else if k.Some? {
      assert LinkOk(adjs, k.value) && LinkOk(adjs + [a], k.value);
      AppendGrowsOneChain(adjs, a, k.value);
    }
  }

  /** The start of the chain that contains p. */
  ghost function Start(adjs: Adjustments, p: nat): (s: nat)
    requires ChainsOk(adjs) && p < |adjs|
    ensures s < |adjs| && adjs[s].reverses.None? && adjs[s].target == adjs[p].target
    decreases p
  {
    assert LinkOk(adjs, p);
    if adjs[p].reverses.None? then p else Start(adjs, adjs[p].reverses.value)
  }

  /** A start reaches p exactly when it is the start of p's chain. */
  lemma {:induction false} OnlyItsStartReaches(adjs: Adjustments, s: nat, p: nat)
    requires ChainsOk(adjs) && s < |adjs| && p < |adjs| && adjs[s].reverses.None?
    ensures Reaches(adjs, s, p) <==> s == Start(adjs, p)
    decreases p
  {
    assert LinkOk(adjs, p);
    if adjs[p].reverses.Some? {
      var q := adjs[p].reverses.value;
      OnlyItsStartReaches(adjs, s, q);
      ReachesThroughLink(adjs, s, q, p);
    } else if s != p {
      NothingReachesAStart(adjs, s, p);
    }
  }

  lemma {:induction false} ReachesThroughLink(adjs: Adjustments, i: nat, q: nat, p: nat)
    requires ChainsOk(adjs) && i < |adjs| && p < |adjs| && adjs[p].reverses == Some(q) && i != p
    ensures Reaches(adjs, i, p) <==> Reaches(adjs, i, q)
    decreases |adjs| - i
  {
    assert LinkOk(adjs, p);
    var k := NextLink(adjs, i);
    if k.Some? {
      assert LinkOk(adjs, k.value);
      if i == q {
        assert k.value == p;
      } else if k.value == p {
        assert false;
      } else {
        ReachesThroughLink(adjs, k.value, q, p);
      }
    }
  }

  lemma {:induction false} NothingReachesAStart(adjs: Adjustments, i: nat, p: nat)
    requires ChainsOk(adjs) && i < |adjs| && p < |adjs| && adjs[p].reverses.None? && i != p
    ensures !Reaches(adjs, i, p)
    decreases |adjs| - i
  {
    var k := NextLink(adjs, i);
    if k.Some? {
      assert LinkOk(adjs, k.value);
      NothingReachesAStart(adjs, k.value, p);
    }
  }

  lemma {:induction false} AppendMovesTotal(adjs: Adjustments, a: Adjustment, u: Id, n: nat)
    requires ChainsOk(adjs) && Appendable(adjs, a) && ChainsOk(adjs + [a]) && n <= |adjs|
    ensures ChainTotal(adjs + [a], u, n)
         == ChainTotal(adjs, u, n)
            + if a.reverses.Some? && a.target == Some(u) && Start(adjs, a.reverses.value) < n then a.delta else 0
  {
    if n > 0 {
      AppendMovesTotal(adjs, a, u, n - 1);
      AppendGrowsOneChain(adjs, a, n - 1);
      if a.reverses.Some? && adjs[n - 1].reverses.None? {
        OnlyItsStartReaches(adjs, n - 1, a.reverses.value);
      }
    }
  }

  /** The adjusted total of a user is the sum of what that user's chains contribute. */
  lemma {:induction false} TotalIsSumOfChains(adjs: Adjustments, u: Id)
    requires ChainsOk(adjs)
    ensures Adjusted(adjs, u) == ChainTotal(adjs, u, |adjs|)
    decreases |adjs|
  {
    if adjs != [] {
      var front, a := adjs[..|adjs| - 1], adjs[|adjs| - 1];
      assert adjs == front + [a];
      PrefixKeepsChains(adjs);
      TotalIsSumOfChains(front, u);
      AppendKeepsChains(front, a);
      AppendMovesTotal(front, a, u, |front|);
      assert Contribution(adjs, |front|) == a.delta;
    }
  }

  lemma PrefixKeepsChains(adjs: Adjustments)
    requires ChainsOk(adjs) && adjs != []
    ensures ChainsOk(adjs[..|adjs| - 1]) && Appendable(adjs[..|adjs| - 1], adjs[|adjs| - 1])
  {
    var front, a := adjs[..|adjs| - 1], adjs[|adjs| - 1];
    assert LinkOk(adjs, |front|);
    forall i | 0 <= i < |front|
      ensures LinkOk(front, i)
    {
      assert LinkOk(adjs, i);
      assert forall k | 0 <= k < |front| :: front[k] == adjs[k];
    }
    if a.reverses.Some? {
      assert forall k | 0 <= k < |front| :: front[k].reverses == a.reverses ==> adjs[k].reverses == a.reverses;
    }
  }

  // ---- The transactions keep the chains ------------------------------------------------------

  lemma AllowedIsAppendable(adjs: Adjustments, c: Change, a: Adjustment)
    requires ReversalRefusal(adjs, c).None?
    requires a.reverses == c.reverses && a.delta == c.delta && a.target == Some(c.target)
    ensures Appendable(adjs, a)
  {
  }

  lemma AdjustKeepsChains(db: Db, caller: Context, c: Change, key: Id)
    requires ChainsOk(db.adjustments)
    ensures ChainsOk(AdjustOutcome(db, caller, c, key).0.adjustments)
  {
    AdjustCases(db, caller, c, key, Snapshot(db, c.target));
    if AdjustOutcome(db, caller, c, key).1.Done? {
      var read := Snapshot(db, c.target);
      AdjustWriteTables(db, caller, c, key, read);
      AllowedIsAppendable(db.adjustments, c, NewAdjustment(caller, c, KeyOf(caller.actor, key), read));
      AppendKeepsChains(db.adjustments, NewAdjustment(caller, c, KeyOf(caller.actor, key), read));
    }
  }

  lemma ErasureKeepsChains(adjs: Adjustments, u: Id)
    requires ChainsOk(adjs)
    ensures ChainsOk(ForgetIn(adjs, u))
  {
    forall i | 0 <= i < |adjs|
      ensures LinkOk(ForgetIn(adjs, u), i)
    {
      assert LinkOk(adjs, i);
      assert forall k | 0 <= k < |adjs| :: ForgetIn(adjs, u)[k].reverses == adjs[k].reverses;
    }
  }
}
