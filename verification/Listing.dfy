/** The listing of open rooms (internal/application/game/list_rooms.go): the cached path, the database
    path, and paging. */
module Listing {
  import opened Types
  import opened Game
  import opened Aggregates
  import opened Redis
  import opened Store

  const DEFAULT_LIMIT := 50
  const MAX_LIMIT := 200

  function NormalizeLimit(limit: int): (l: int)
    ensures 1 <= l <= MAX_LIMIT
    ensures 1 <= limit <= MAX_LIMIT ==> l == limit
    ensures limit <= 0 ==> l == 50
    ensures limit > 200 ==> l == 200
  {
    var positive := if limit <= 0 then DEFAULT_LIMIT else limit;
    if positive > MAX_LIMIT then MAX_LIMIT else positive
  }

  function NormalizeOffset(offset: int): (o: nat)
    ensures offset >= 0 ==> o == offset
    ensures offset < 0 ==> o == 0
  {
    if offset < 0 then 0 else offset
  }

  /** The rows that LIMIT and OFFSET keep. */
  function Window<T>(list: seq<T>, limit: nat, offset: nat): seq<T> {
    var rest := if offset <= |list| then list[offset..] else [];
    if limit <= |rest| then rest[..limit] else rest
  }

  /** page. */
  method Page(rooms: seq<Summary>, limit: nat, offset: nat) returns (page: seq<Summary>)
    ensures page == Window(rooms, limit, offset)
  {
    if offset >= |rooms| { return []; }
    var end := offset + limit;
    if end > |rooms| { end := |rooms|; }
    return rooms[offset..end];
  }

  // ---- newest first ------------------------------------------------------------------------

  /** Later rooms first: the order by negated creation time. */
  function Age(rooms: map<Id, Summary>): map<Id, Time> {
    map r | r in rooms :: -rooms[r].createdAt
  }

  /** A listing of exactly these rooms, newest first, ties in any order. */
  ghost predicate NewestFirst(list: seq<Summary>, rooms: map<Id, Summary>) {
    exists ids :: InTimeOrder(ids, Age(rooms)) && list == InOrder(ids, rooms)
  }

  function InOrder(ids: seq<Id>, rooms: map<Id, Summary>): (list: seq<Summary>)
    requires forall r :: r in ids ==> r in rooms
  {
    seq(|ids|, i requires 0 <= i < |ids| => rooms[ids[i]])
  }

  ghost predicate DistinctTimes(rooms: map<Id, Summary>) {
    forall r, s :: r in rooms && s in rooms && rooms[r].createdAt == rooms[s].createdAt ==> r == s
  }

  /** With distinct creation times there is only one such listing. */
  lemma NewestFirstIsUnique(a: seq<Summary>, b: seq<Summary>, rooms: map<Id, Summary>)
    requires NewestFirst(a, rooms) && NewestFirst(b, rooms) && DistinctTimes(rooms)
    ensures a == b
  {
    var s :| InTimeOrder(s, Age(rooms)) && a == InOrder(s, rooms);
    var t :| InTimeOrder(t, Age(rooms)) && b == InOrder(t, rooms);
    TimeOrderIsUnique(s, t, Age(rooms));
  }

  /** What a library sort or ORDER BY created_at DESC returns. */
  method SortNewestFirst(rooms: map<Id, Summary>) returns (list: seq<Summary>)
    ensures NewestFirst(list, rooms) && |list| == |rooms|
  {
    var ids := ListByTime(Age(rooms));
    assert Age(rooms).Keys == rooms.Keys;
    list := seq(|ids|, i requires 0 <= i < |ids| && ids[i] in rooms => rooms[ids[i]]);
    assert InTimeOrder(ids, Age(rooms)) && list == InOrder(ids, rooms);
  }

  // ---- the two paths -----------------------------------------------------------------------

  function OpenRooms(db: DB): map<Id, Summary> {
    map r | r in db.rooms && db.rooms[r].status == Open :: SummaryOf(RoomVal(r, db.rooms[r], None))
  }

  function OnlyOpen(cached: map<Id, Summary>): map<Id, Summary> {
    map r | r in cached && cached[r].status == Open :: cached[r]
  }

  function Warmed(keys: Keys, rooms: seq<Summary>): Keys {
    if rooms == [] then keys else Saved(Warmed(keys, rooms[..|rooms| - 1]), rooms[|rooms| - 1])
  }

  /** One page of these rooms, newest first. */
  ghost predicate IsPage(page: seq<Summary>, rooms: map<Id, Summary>, limit: nat, offset: nat) {
    exists list :: NewestFirst(list, rooms) && page == Window(list, limit, offset)
  }

  method ListPage(rooms: map<Id, Summary>, limit: nat, offset: nat) returns (page: seq<Summary>)
    ensures IsPage(page, rooms, limit, offset)
  {
    var list := SortNewestFirst(rooms);
    page := Page(list, limit, offset);
  }

  method Warm(cache: RedisStore, rooms: seq<Summary>)
    modifies cache
    ensures cache.Model() == Warmed(old(cache.Model()), rooms)
  {
    for i := 0 to |rooms|
      invariant cache.Model() == Warmed(old(cache.Model()), rooms[..i])
    {
      assert rooms[..i + 1][..i] == rooms[..i];
      cache.SaveRoom(rooms[i]);
    }
    assert rooms[..|rooms|] == rooms;
  }

  /** What a listing answers and leaves in the cache. */
  ghost predicate ListingEnds(db: DB, keys: Keys, cacheUp: bool, limit: int, offset: int, page: seq<Summary>, fromCache: bool, keys': Keys) {
    && (fromCache <==> cacheUp && OnlyOpen(keys.open) != map[])
    && IsPage(page, if fromCache then OnlyOpen(keys.open) else OpenRooms(db), NormalizeLimit(limit), NormalizeOffset(offset))
    && keys' == if cacheUp && !fromCache then Warmed(keys, page) else keys
  }

  /** Execute. A cache that is down (or absent) counts as a miss and swallows the writes. */
  method ListOpenRooms(db: DB, cache: RedisStore, cacheUp: bool, limit: int, offset: int) returns (page: seq<Summary>, fromCache: bool)
    modifies cache
    ensures ListingEnds(db, old(cache.Model()), cacheUp, limit, offset, page, fromCache, cache.Model())
  {
    if cacheUp {
      var open := OnlyOpen(cache.open);
      if |open| > 0 {
        page := ListPage(open, NormalizeLimit(limit), NormalizeOffset(offset));
        return page, true;
      }
    }
    page := ListPage(OpenRooms(db), NormalizeLimit(limit), NormalizeOffset(offset));
    if cacheUp { Warm(cache, page); }
    return page, false;
  }

  // ---- what a page shows -------------------------------------------------------------------

  /** An entry of a listing: an open room, as the store has it. */
  ghost predicate Listed(db: DB, s: Summary) {
    s.id in db.rooms && db.rooms[s.id].status == Open && Describes(s, s.id, db.rooms[s.id])
  }

  /** Different open rooms, as the store has them, newest first, as many as limit and offset leave. */
  ghost predicate RightPage(db: DB, page: seq<Summary>, limit: nat, offset: nat) {
    && (forall i :: 0 <= i < |page| ==> Listed(db, page[i]))
    && (forall i, j :: 0 <= i < j < |page| ==> page[i].id != page[j].id && page[i].createdAt >= page[j].createdAt)
    && var total := |set r | r in db.rooms && db.rooms[r].status == Open|;
       |page| == if total <= offset then 0 else if limit <= total - offset then limit else total - offset
  }

  lemma PagesAreRight(db: DB, page: seq<Summary>, limit: nat, offset: nat)
    requires IsPage(page, OpenRooms(db), limit, offset)
    ensures RightPage(db, page, limit, offset)
  {
    var list :| NewestFirst(list, OpenRooms(db)) && page == Window(list, limit, offset);
    WholeListing(db, list);
    WindowTakes(list, limit, offset);
    forall i | 0 <= i < |page|
      ensures Listed(db, page[i])
    {
      assert page[i] == list[offset + i];
    }
    forall i, j | 0 <= i < j < |page|
      ensures page[i].id != page[j].id && page[i].createdAt >= page[j].createdAt
    {
      assert page[i] == list[offset + i] && page[j] == list[offset + j];
    }
  }

  lemma WindowTakes<T>(list: seq<T>, limit: nat, offset: nat)
    ensures |Window(list, limit, offset)| == if |list| <= offset then 0 else if limit <= |list| - offset then limit else |list| - offset
    ensures forall i :: 0 <= i < |Window(list, limit, offset)| ==> offset + i < |list| && Window(list, limit, offset)[i] == list[offset + i]
  {
  }

  /** The whole listing has every open room once, newest first. */
  lemma WholeListing(db: DB, list: seq<Summary>)
    requires NewestFirst(list, OpenRooms(db))
    ensures |list| == |set r | r in db.rooms && db.rooms[r].status == Open|
    ensures forall i :: 0 <= i < |list| ==> Listed(db, list[i])
    ensures forall i, j :: 0 <= i < j < |list| ==> list[i].id != list[j].id && list[i].createdAt >= list[j].createdAt
  {
    var rooms := OpenRooms(db);
    var ids :| InTimeOrder(ids, Age(rooms)) && list == InOrder(ids, rooms);
    assert rooms.Keys == set r | r in db.rooms && db.rooms[r].status == Open;
    assert Age(rooms).Keys == rooms.Keys;
    ListsAreAsLong(ids, rooms.Keys);
    forall i | 0 <= i < |ids|
      ensures ids[i] in rooms && list[i] == rooms[ids[i]] && list[i].id == ids[i] && Listed(db, list[i])
    {
      assert ids[i] in ids;
      SummaryDescribes(RoomVal(ids[i], db.rooms[ids[i]], None));
    }
    forall i, j | 0 <= i < j < |ids|
      ensures list[i].id != list[j].id && list[i].createdAt >= list[j].createdAt
    {
      assert Age(rooms)[ids[i]] <= Age(rooms)[ids[j]];
    }
  }

  lemma {:induction false} ListsAreAsLong(ids: seq<Id>, keys: set<Id>)
    requires Lists(ids, keys)
    ensures |ids| == |keys|
    decreases |ids|
  {
    if ids == [] {
      assert keys == {};
    } else {
      var last, rest := ids[|ids| - 1], ids[..|ids| - 1];
      assert last in ids;
      forall r
        ensures r in rest <==> r in keys - {last}
      {
        assert r in ids <==> r in rest || r == last;
      }
      ListsAreAsLong(rest, keys - {last});
    }
  }

  // ---- agreement of the two paths ----------------------------------------------------------

  /** The open-room index holds the summaries of exactly the open rooms. */
  ghost predicate IndexOk(db: DB, keys: Keys) {
    keys.open == OpenRooms(db)
  }

  /** With an exact index and distinct creation times, whichever path answers answers the same, for
      every limit and offset. */
  lemma PathsAgree(db: DB, keys: Keys, cached: seq<Summary>, stored: seq<Summary>, limit: nat, offset: nat)
    requires IndexOk(db, keys) && DistinctTimes(OpenRooms(db))
    requires IsPage(cached, OnlyOpen(keys.open), limit, offset) && IsPage(stored, OpenRooms(db), limit, offset)
    ensures cached == stored
  {
    assert OnlyOpen(keys.open) == OpenRooms(db);
    var a :| NewestFirst(a, OpenRooms(db)) && cached == Window(a, limit, offset);
    var b :| NewestFirst(b, OpenRooms(db)) && stored == Window(b, limit, offset);
    NewestFirstIsUnique(a, b, OpenRooms(db));
  }

  // ---- precision of the creation times -----------------------------------------------------

  /** The clock counts nanoseconds, a TIMESTAMPTZ column keeps microseconds. */
  const COLUMN_TICK := 1000

  function Truncated(t: Time): Time {
    t - t % COLUMN_TICK
  }

  function AsStored(s: Summary): Summary {
    s.(createdAt := Truncated(s.createdAt))
  }

  lemma TruncationKeepsOrder(s: Time, t: Time)
    requires s <= t
    ensures Truncated(s) <= Truncated(t)
  {
  }

  /** A summary cached at the creation of its room carries the time of the clock, one read back the time of the
      column. When the columns hold distinct times, both paths still return the same rooms in the same order,
      and the same page up to the precision of the column. */
  lemma PathsAgreeUpToPrecision(cached: map<Id, Summary>, stored: map<Id, Summary>, page: seq<Summary>, page': seq<Summary>,
                                limit: nat, offset: nat)
    requires cached.Keys == stored.Keys && forall r :: r in cached ==> stored[r] == AsStored(cached[r])
    requires DistinctTimes(stored) && IsPage(page, cached, limit, offset) && IsPage(page', stored, limit, offset)
    ensures |page| == |page'| && forall i :: 0 <= i < |page| ==> page'[i] == AsStored(page[i])
  {
    var list :| NewestFirst(list, cached) && page == Window(list, limit, offset);
    var list' :| NewestFirst(list', stored) && page' == Window(list', limit, offset);
    var ids :| InTimeOrder(ids, Age(cached)) && list == InOrder(ids, cached);
    SameOrderAsStored(ids, cached, stored);
    NewestFirstIsUnique(list', InOrder(ids, stored), stored);
    forall i | 0 <= i < |ids|
      ensures list'[i] == AsStored(list[i])
    {
      assert ids[i] in ids;
    }
  }

  lemma SameOrderAsStored(ids: seq<Id>, cached: map<Id, Summary>, stored: map<Id, Summary>)
    requires cached.Keys == stored.Keys && forall r :: r in cached ==> stored[r] == AsStored(cached[r])
    requires InTimeOrder(ids, Age(cached))
    ensures InTimeOrder(ids, Age(stored))
  {
    assert Age(stored).Keys == Age(cached).Keys;
    forall i, j | 0 <= i < j < |ids|
      ensures Age(stored)[ids[i]] <= Age(stored)[ids[j]]
    {
      assert ids[i] in ids && ids[j] in ids;
      assert Age(cached)[ids[i]] <= Age(cached)[ids[j]];
      TruncationKeepsOrder(cached[ids[j]].createdAt, cached[ids[i]].createdAt);
    }
  }

  /** Nothing less will do: when the two paths return the same whole listing, the index is exact. */
  lemma AgreementNeedsIndex(db: DB, keys: Keys, list: seq<Summary>)
    requires NewestFirst(list, keys.open) && NewestFirst(list, OpenRooms(db))
    requires forall r :: r in keys.open ==> keys.open[r].id == r
    ensures IndexOk(db, keys)
  {
    var s :| InTimeOrder(s, Age(keys.open)) && list == InOrder(s, keys.open);
    var t :| InTimeOrder(t, Age(OpenRooms(db))) && list == InOrder(t, OpenRooms(db));
    SameIds(s, t, keys.open, OpenRooms(db));
    SameListingSameRooms(s, keys.open, OpenRooms(db));
  }

  lemma SameIds(s: seq<Id>, t: seq<Id>, a: map<Id, Summary>, b: map<Id, Summary>)
    requires (forall r :: r in s ==> r in a) && (forall r :: r in t ==> r in b) && InOrder(s, a) == InOrder(t, b)
    requires (forall r :: r in a ==> a[r].id == r) && (forall r :: r in b ==> b[r].id == r)
    ensures s == t
  {
    assert |s| == |InOrder(s, a)| == |t|;
    forall i | 0 <= i < |s|
      ensures s[i] == t[i]
    {
      assert s[i] in s && t[i] in t && InOrder(s, a)[i].id == s[i] && InOrder(t, b)[i].id == t[i];
    }
  }

  lemma SameListingSameRooms(s: seq<Id>, a: map<Id, Summary>, b: map<Id, Summary>)
    requires InTimeOrder(s, Age(a)) && InTimeOrder(s, Age(b)) && InOrder(s, a) == InOrder(s, b)
    ensures a == b
  {
    forall r
      ensures r in a <==> r in b
      ensures r in a ==> a[r] == b[r]
    {
      assert r in s <==> r in Age(a).Keys;
      assert r in s <==> r in Age(b).Keys;
      if r in s {
        var i :| 0 <= i < |s| && s[i] == r;
        assert InOrder(s, a)[i] == a[r] && InOrder(s, b)[i] == b[r];
      }
    }
  }

  /** Warming an exact index with a page of the database leaves it exact. */
  lemma {:induction false} WarmingKeepsIndex(db: DB, keys: Keys, rooms: seq<Summary>)
    requires IndexOk(db, keys) && forall s :: s in rooms ==> s.id in OpenRooms(db) && OpenRooms(db)[s.id] == s
    ensures IndexOk(db, Warmed(keys, rooms)) && Warmed(keys, rooms).bound == keys.bound
  {
    if rooms != [] {
      var before, last := rooms[..|rooms| - 1], rooms[|rooms| - 1];
      assert last in rooms && forall s :: s in before ==> s in rooms;
      WarmingKeepsIndex(db, keys, before);
      assert OpenRooms(db)[last.id := last] == OpenRooms(db);
    }
  }

  lemma WindowIsOfList<T>(list: seq<T>, limit: nat, offset: nat, x: T)
    requires x in Window(list, limit, offset)
    ensures x in list
  {
  }

  /** Listing keeps an exact index exact: a page of the database holds only stored summaries. */
  lemma ListingKeepsIndex(db: DB, keys: Keys, page: seq<Summary>, limit: nat, offset: nat)
    requires IndexOk(db, keys) && IsPage(page, OpenRooms(db), limit, offset)
    ensures IndexOk(db, Warmed(keys, page)) && Warmed(keys, page).bound == keys.bound
  {
    var rooms := OpenRooms(db);
    var list :| NewestFirst(list, rooms) && page == Window(list, limit, offset);
    var ids :| InTimeOrder(ids, Age(rooms)) && list == InOrder(ids, rooms);
    forall s | s in page
      ensures s.id in rooms && rooms[s.id] == s
    {
      WindowIsOfList(list, limit, offset, s);
      ListedIsStored(ids, rooms, s);
    }
    WarmingKeepsIndex(db, keys, page);
  }

  lemma ListedIsStored(ids: seq<Id>, rooms: map<Id, Summary>, s: Summary)
    requires (forall r :: r in ids ==> r in rooms) && s in InOrder(ids, rooms) && forall r :: r in rooms ==> rooms[r].id == r
    ensures s.id in rooms && rooms[s.id] == s
  {
  }

  // ---- consecutive pages -------------------------------------------------------------------

  /** The first n pages of the given size, one after another. */
  function Pages<T>(list: seq<T>, limit: nat, n: nat): seq<T> {
    if n == 0 then [] else Pages(list, limit, n - 1) + Window(list, limit, (n - 1) * limit)
  }

  /** They are the beginning of the list, and eventually all of it. */
  lemma {:induction false} PagesConcatenate<T>(list: seq<T>, limit: nat, n: nat)
    ensures Pages(list, limit, n) == if n * limit <= |list| then list[..n * limit] else list
  {
    if n > 0 {
      PagesConcatenate(list, limit, n - 1);
      assert n * limit == (n - 1) * limit + limit;
    }
  }
}
