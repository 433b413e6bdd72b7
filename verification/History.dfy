/**
  Keyset paging of a user's finished trips (src/history/service.py): following the cursor to the end
  shows every row that stays visible exactly once, newest first, whatever is inserted meanwhile.
  */
module History {
  import opened Schema

  /** ORDER BY created_at DESC, id DESC */
  predicate Newer(trips: map<Id, Trip>, a: Id, b: Id)
    requires a in trips && b in trips
  {
    trips[a].createdAt > trips[b].createdAt || (trips[a].createdAt == trips[b].createdAt && a > b)
  }

  predicate IsNewest(trips: map<Id, Trip>, k: Id, s: set<Id>)
    requires s <= trips.Keys
  {
    k in s && forall j | j in s && j != k :: Newer(trips, k, j)
  }

  lemma {:induction false} NewestExists(trips: map<Id, Trip>, s: set<Id>)
    requires s != {} && s <= trips.Keys
    ensures exists k :: IsNewest(trips, k, s)
  {
    var x :| x in s;
    var rest := s - {x};
    if rest == {} {
      assert s == {x};
      assert IsNewest(trips, x, s);
    } else {
      NewestExists(trips, rest);
      var k :| IsNewest(trips, k, rest);
      assert s == {x} + rest;
      assert IsNewest(trips, if Newer(trips, x, k) then x else k, s);
    }
  }

  function Newest(trips: map<Id, Trip>, s: set<Id>): (k: Id)
    requires s != {} && s <= trips.Keys
    ensures IsNewest(trips, k, s)
  {
    NewestExists(trips, s);
    var k :| IsNewest(trips, k, s);
    k
  }

  ghost predicate Descending(trips: map<Id, Trip>, ids: seq<Id>)
    requires forall t | t in ids :: t in trips
  {
    forall i, j | 0 <= i < j < |ids| :: Newer(trips, ids[i], ids[j])
  }

  function Listing(trips: map<Id, Trip>, s: set<Id>): (ids: seq<Id>)
    requires s <= trips.Keys
    ensures forall t :: t in ids <==> t in s
    ensures Descending(trips, ids)
    decreases |s|
  {
    if s == {} then []
    else
      var k := Newest(trips, s);
      [k] + Listing(trips, s - {k})
  }

  // ---- own_history ---------------------------------------------------------------------------

  predicate Shows(trip: Trip, u: Id, status: Option<TripStatus>, now: Time) {
    && trip.owner == Some(u) && trip.status.Terminal() && now < trip.visibleUntil && trip.archivedAt.None?
    && (status.Some? ==> trip.status == status.value)
  }

  /** `cursor` is the trip that the signed cursor names. */
  function Matching(trips: map<Id, Trip>, u: Id, cursor: Option<Id>, status: Option<TripStatus>, now: Time): set<Id>
    requires cursor.Some? ==> cursor.value in trips
  {
    set t | t in trips && Shows(trips[t], u, status, now) && (cursor.Some? ==> Newer(trips, cursor.value, t))
  }

  datatype HistoryPage = InvalidHistoryCursor | HistoryPage(items: seq<Id>, nextCursor: Option<Id>)

  function Cut(ids: seq<Id>, limit: nat): HistoryPage {
    var page := if |ids| > limit then ids[..limit] else ids;
    HistoryPage(page, if |ids| > limit && page != [] then Some(page[|page| - 1]) else None)
  }

  function OwnHistory(
    trips: map<Id, Trip>, u: Id, cursor: Option<Id>, limit: nat, status: Option<TripStatus>, now: Time): HistoryPage {
    if cursor.Some? && (cursor.value !in trips || trips[cursor.value].owner != Some(u)) then InvalidHistoryCursor
    else Cut(Listing(trips, Matching(trips, u, cursor, status, now)), limit)
  }

  // ---- Following the cursor ------------------------------------------------------------------

  /** The state of the trips when one page is read. */
  datatype Read = Read(trips: map<Id, Trip>, now: Time)

  datatype Walk = Walk(items: seq<Id>, cursor: Option<Id>, done: bool, pages: nat, broken: bool)

  datatype Query = Query(user: Id, limit: nat, status: Option<TripStatus>)

  function Turned(walk: Walk, q: Query, read: Read): Walk {
    if walk.done || walk.broken then walk
    else
      match OwnHistory(read.trips, q.user, walk.cursor, q.limit, q.status, read.now)
      case InvalidHistoryCursor => walk.(broken := true)
      case HistoryPage(items, next) => Walk(walk.items + items, next, next.None?, walk.pages + 1, false)
  }

  function WalkOver(q: Query, views: seq<Read>): Walk {
    if views == [] then Walk([], None, false, 0, false)
    else Turned(WalkOver(q, views[..|views| - 1]), q, views[|views| - 1])
  }

  /** Trips are never removed or re-dated, and the account stays open. */
  ghost predicate Continues(q: Query, before: Read, after: Read) {
    && before.trips.Keys <= after.trips.Keys
    && forall t | t in before.trips ::
         after.trips[t].createdAt == before.trips[t].createdAt
         && (before.trips[t].owner == Some(q.user) ==> after.trips[t].owner == Some(q.user))
  }

  ghost predicate Steady(q: Query, views: seq<Read>) {
    forall i, j | 0 <= i < |views| && j == i + 1 && j < |views| :: Continues(q, views[i], views[j])
  }

  /** The row matches whenever a page is read. */
  ghost predicate AlwaysShown(q: Query, views: seq<Read>, t: Id) {
    forall i | 0 <= i < |views| :: t in views[i].trips && Shows(views[i].trips[t], q.user, q.status, views[i].now)
  }

  /** What has been shown so far, judged by the trips as they are now. */
  ghost predicate WalkOk(walk: Walk, q: Query, trips: map<Id, Trip>) {
    && !walk.broken
    && (forall t | t in walk.items :: t in trips && trips[t].owner == Some(q.user))
    && Descending(trips, walk.items)
    && (!walk.done && walk.pages > 0 ==> walk.items != [] && walk.cursor == Some(walk.items[|walk.items| - 1]))
    && (!walk.done && walk.pages == 0 ==> walk.items == [] && walk.cursor == None)
  }

  /** Rows that are still to come lie below the cursor. */
  ghost predicate NotPassed(walk: Walk, trips: map<Id, Trip>, t: Id)
    requires t in trips && forall k | k in walk.items :: k in trips
  {
    t in walk.items || (!walk.done && (walk.items != [] ==> Newer(trips, walk.items[|walk.items| - 1], t)))
  }

  lemma ContinuingKeepsWalk(walk: Walk, q: Query, before: Read, after: Read)
    requires WalkOk(walk, q, before.trips) && Continues(q, before, after)
    ensures WalkOk(walk, q, after.trips)
    ensures forall t | t in before.trips && NotPassed(walk, before.trips, t) :: NotPassed(walk, after.trips, t)
  {
    forall i, j | 0 <= i < j < |walk.items|
      ensures Newer(after.trips, walk.items[i], walk.items[j])
    {
      assert walk.items[i] in walk.items && walk.items[j] in walk.items;
      assert Newer(before.trips, walk.items[i], walk.items[j]);
    }
  }

  /** One more page of the trips as they are. */
  lemma PageKeepsWalk(walk: Walk, q: Query, read: Read)
    requires WalkOk(walk, q, read.trips) && q.limit >= 1
    ensures WalkOk(Turned(walk, q, read), q, read.trips)
    ensures forall t | t in read.trips && Shows(read.trips[t], q.user, q.status, read.now)
            && NotPassed(walk, read.trips, t) ::
              NotPassed(Turned(walk, q, read), read.trips, t)
  {
    if !walk.done {
      assert walk.cursor.Some? ==> walk.cursor.value in walk.items;
      var ids := Listing(read.trips, Matching(read.trips, q.user, walk.cursor, q.status, read.now));
      TurnedPage(walk, q, read, ids);
      ListedBelow(walk, q, read, ids);
      PageAdded(walk, q, read.trips, ids);
    }
  }

  lemma TurnedPage(walk: Walk, q: Query, read: Read, ids: seq<Id>)
    requires !walk.done && !walk.broken
    requires walk.cursor.Some? ==>
               walk.cursor.value in read.trips && read.trips[walk.cursor.value].owner == Some(q.user)
    requires ids == Listing(read.trips, Matching(read.trips, q.user, walk.cursor, q.status, read.now))
    ensures var page := Cut(ids, q.limit);
            Turned(walk, q, read) == Walk(walk.items + page.items, page.nextCursor, page.nextCursor.None?,
                walk.pages + 1, false)
  {
  }

  /** The rows a page is cut from: below the cursor, the user's own. */
  lemma ListedBelow(walk: Walk, q: Query, read: Read, ids: seq<Id>)
    requires WalkOk(walk, q, read.trips) && !walk.done && (walk.cursor.Some? ==> walk.cursor.value in read.trips)
    requires ids == Listing(read.trips, Matching(read.trips, q.user, walk.cursor, q.status, read.now))
    ensures forall t | t in ids :: t in read.trips && read.trips[t].owner == Some(q.user)
    ensures walk.items != [] ==> forall t | t in ids :: Newer(read.trips, walk.items[|walk.items| - 1], t)
    ensures forall t | t in read.trips && Shows(read.trips[t], q.user, q.status, read.now)
            && NotPassed(walk, read.trips, t) ::
              t in walk.items || t in ids
  {
  }

  lemma PageAdded(walk: Walk, q: Query, trips: map<Id, Trip>, ids: seq<Id>)
    requires WalkOk(walk, q, trips) && !walk.done && q.limit >= 1
    requires (forall t | t in ids :: t in trips && trips[t].owner == Some(q.user)) && Descending(trips, ids)
    requires walk.items != [] ==> forall t | t in ids :: Newer(trips, walk.items[|walk.items| - 1], t)
    ensures var page := Cut(ids, q.limit);
            var next := Walk(walk.items + page.items, page.nextCursor, page.nextCursor.None?, walk.pages + 1, false);
            WalkOk(next, q, trips) && forall t | t in walk.items || t in ids :: NotPassed(next, trips, t)
  {
    var page := Cut(ids, q.limit);
    CutIsPrefix(ids, q.limit);
    assert forall t | t in page.items :: t in ids;
    assert Descending(trips, page.items);
    JoinDescending(trips, walk.items, page.items);
    forall t | t in ids
      ensures t in page.items || (page.nextCursor.Some? && page.items != []
                && Newer(trips, page.items[|page.items| - 1], t))
    {
      CutCovers(trips, ids, q.limit, t);
    }
  }

  lemma CutIsPrefix(ids: seq<Id>, limit: nat)
    requires limit >= 1
    ensures var page := Cut(ids, limit);
            && page.items <= ids && (page.nextCursor.Some? <==> |ids| > limit)
            && (page.nextCursor.Some? ==> |page.items| == limit && page.nextCursor.value == page.items[limit - 1])
  {
  }

  /** A listed row is on the page or below its end. */
  lemma CutCovers(trips: map<Id, Trip>, ids: seq<Id>, limit: nat, t: Id)
    requires limit >= 1 && (forall k | k in ids :: k in trips) && Descending(trips, ids) && t in ids
    ensures var page := Cut(ids, limit);
            t in page.items || (page.nextCursor.Some? && page.items != []
                && Newer(trips, page.items[|page.items| - 1], t))
  {
    var i :| 0 <= i < |ids| && ids[i] == t;
    if |ids| > limit && i < limit {
      assert ids[..limit][i] == t;
    }
  }

  lemma JoinDescending(trips: map<Id, Trip>, a: seq<Id>, b: seq<Id>)
    requires (forall t | t in a :: t in trips) && (forall t | t in b :: t in trips)
    requires Descending(trips, a) && Descending(trips, b)
    requires a != [] ==> forall t | t in b :: Newer(trips, a[|a| - 1], t)
    ensures Descending(trips, a + b)
  {
    forall i, j | 0 <= i < j < |a + b|
      ensures Newer(trips, (a + b)[i], (a + b)[j])
    {
      if i < |a| && |a| <= j {
        assert b[j - |a|] in b;
        assert i == |a| - 1 || Newer(trips, a[i], a[|a| - 1]);
      }
    }
  }

  /** The walk over any steady sequence of reads. */
  lemma {:induction false} WalkInvariant(q: Query, views: seq<Read>)
    requires q.limit >= 1 && Steady(q, views) && views != []
    ensures WalkOk(WalkOver(q, views), q, views[|views| - 1].trips)
    ensures forall t | AlwaysShown(q, views, t) ::
              t in views[|views| - 1].trips && NotPassed(WalkOver(q, views), views[|views| - 1].trips, t)
  {
    var front, last := views[..|views| - 1], views[|views| - 1];
    var walk := WalkOver(q, front);
    if front == [] {
      assert WalkOk(walk, q, last.trips);
    } else {
      WalkInvariant(q, front);
      assert Continues(q, views[|views| - 2], views[|views| - 1]);
      ContinuingKeepsWalk(walk, q, front[|front| - 1], last);
    }
    PageKeepsWalk(walk, q, last);
    forall t | AlwaysShown(q, views, t)
      ensures t in last.trips && NotPassed(WalkOver(q, views), last.trips, t)
    {
      assert t in last.trips && Shows(last.trips[t], q.user, q.status, last.now);
      assert AlwaysShown(q, front, t);
      assert NotPassed(walk, last.trips, t);
    }
  }

  /**
    Following next_cursor to the end shows every row that matches at all page reads, each row once, newest
    first, although newer rows may be inserted and other rows may expire between the pages.
    */
  lemma EveryRowOnce(q: Query, views: seq<Read>, t: Id)
    requires q.limit >= 1 && Steady(q, views) && views != [] && WalkOver(q, views).done && AlwaysShown(q, views, t)
    ensures var items := WalkOver(q, views).items;
            && t in items
            && (forall i, j | 0 <= i < |items| && 0 <= j < |items| && items[i] == t && items[j] == t :: i == j)
            && (forall k | k in items :: k in views[|views| - 1].trips)
            && Descending(views[|views| - 1].trips, items)
  {
    WalkInvariant(q, views);
  }

  /** The walk ends: there are no more full pages than the history has rows for. */
  lemma WalkEnds(q: Query, views: seq<Read>)
    requires q.limit >= 1 && Steady(q, views) && views != [] && |views[|views| - 1].trips| < |views| * q.limit
    ensures WalkOver(q, views).done
  {
    WalkInvariant(q, views);
    if !WalkOver(q, views).done {
      FullPages(q, views);
      DistinctFit(views[|views| - 1].trips, WalkOver(q, views).items);
    }
  }

  /** A walk that goes on has read full pages only. */
  lemma {:induction false} FullPages(q: Query, views: seq<Read>)
    requires q.limit >= 1 && !WalkOver(q, views).done && !WalkOver(q, views).broken
    ensures |WalkOver(q, views).items| == |views| * q.limit
  {
    if views != [] {
      var front, last := views[..|views| - 1], views[|views| - 1];
      FullPages(q, front);
      FullPage(WalkOver(q, front), q, last);
      OneMore(|front|, q.limit);
    }
  }

  lemma OneMore(n: nat, k: nat)
    ensures (n + 1) * k == n * k + k
  {
  }

  lemma FullPage(walk: Walk, q: Query, read: Read)
    requires q.limit >= 1 && !walk.done && !walk.broken && !Turned(walk, q, read).done && !Turned(walk, q, read).broken
    ensures |Turned(walk, q, read).items| == |walk.items| + q.limit
  {
  }

  lemma DistinctFit(trips: map<Id, Trip>, items: seq<Id>)
    requires (forall t | t in items :: t in trips) && Descending(trips, items)
    ensures |items| <= |trips|
  {
    DistinctFitIn(trips, trips.Keys, items);
  }

  lemma {:induction false} DistinctFitIn(trips: map<Id, Trip>, s: set<Id>, items: seq<Id>)
    requires (forall t | t in items :: t in trips && t in s) && Descending(trips, items)
    ensures |items| <= |s|
  {
    if items != [] {
      var last := items[|items| - 1];
      forall t | t in items[..|items| - 1]
        ensures t in s - {last}
      {
        var i :| 0 <= i < |items| - 1 && items[i] == t;
        assert Newer(trips, items[i], last);
      }
      DistinctFitIn(trips, s - {last}, items[..|items| - 1]);
    }
  }
}
