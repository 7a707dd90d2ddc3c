/**
  The historical part of a REQ as a function: paging a store backward in windows, filtering by
  visibility, and stopping at a limit, on an empty window, or after fifty attempts.
 */
module Pagination {
  import opened Nostr

  const MAX_ATTEMPTS: nat := 50

  // ----- The store -----

  /** Events newest first, which is the order in which the store answers. */
  ghost predicate NewestFirst(s: seq<Event>)
  {
    forall i, j :: 0 <= i < j < |s| ==> s[i].createdAt >= s[j].createdAt
  }

  /** A store: events newest first, with distinct ids. */
  ghost predicate IsStore(db: seq<Event>)
  {
    forall n: nat {:trigger Unfold(n)} :: Unfold(n) ==> NewestFirst(db) && DistinctIds(db)
  }

  ghost predicate DistinctIds(s: seq<Event>)
  {
    forall i, j :: 0 <= i < j < |s| ==> s[i].id != s[j].id
  }

  /** The matching events, newest first. */
  function Select(db: seq<Event>, f: Filter): (r: seq<Event>)
    decreases |db|
  {
    if db == [] then []
    else
      var init, e := Select(db[..|db| - 1], f), db[|db| - 1];
      if Matches(f, e) then init + [e] else init
  }

  /** A query: the newest `limit` matches. */
  function Query(db: seq<Event>, f: Filter, limit: nat): (r: seq<Event>)
  {
    Take(Select(db, f), limit)
  }

  // ----- One window -----

  /** The events of a window not sent yet and visible, in order. */
  function Pick(w: seq<Event>, ids: set<EventId>, visible: Event -> bool): (r: seq<Event>)
    decreases |w|
  {
    if w == [] then []
    else
      var init, e := Pick(w[..|w| - 1], ids, visible), w[|w| - 1];
      if e.id !in ids && visible(e) then init + [e] else init
  }

  /** The oldest timestamp of the window's events not sent yet and of the windows before it. */
  function Oldest(w: seq<Event>, ids: set<EventId>, last: Option<Timestamp>): (r: Option<Timestamp>)
    decreases |w|
  {
    if w == [] then last
    else
      var init, e := Oldest(w[..|w| - 1], ids, last), w[|w| - 1];
      if e.id in ids then init
      else if init.None? || e.createdAt < init.value then Some(e.createdAt) else init
  }

  /** Stable insertion, newest first. */
  function InsertByTime(s: seq<Event>, e: Event): (r: seq<Event>)
    decreases |s|
  {
    if s == [] || s[|s| - 1].createdAt >= e.createdAt then s + [e]
    else InsertByTime(s[..|s| - 1], e) + [s[|s| - 1]]
  }

  function SortByTime(s: seq<Event>): (r: seq<Event>)
    decreases |s|
  {
    if s == [] then [] else InsertByTime(SortByTime(s[..|s| - 1]), s[|s| - 1])
  }

  function Ids(s: seq<Event>): (r: set<EventId>)
  {
    set i | 0 <= i < |s| :: s[i].id
  }

  /** `Timestamp - 1`, which stops at zero. */
  function Before(t: Timestamp): (r: Timestamp)
  {
    if t == 0 then 0 else t - 1
  }

  // ----- One filter -----

  /** One filter's scan: the store, the filter, the capped limit, and the visibility check. */
  datatype Scan = Scan(db: seq<Event>, filter: Filter, limit: nat, visible: Event -> bool)

  /**
    The loop variables: the events sent so far, the bound in force, the oldest timestamp seen, how
    many events this filter sent, and how many windows it has queried.
   */
  datatype Cursor = Cursor(ids: set<EventId>, until: Option<Timestamp>, last: Option<Timestamp>, sent: nat,
                           attempts: nat)

  datatype End = EmptyWindow | LimitReached | NoTimestamp | AttemptsSpent

  datatype Paging = Paging(events: seq<Event>, windows: seq<seq<Event>>, end: End)

  /** The filter with the bound in force. */
  function Bounded(q: Scan, c: Cursor): (f: Filter)
  {
    q.filter.(until := c.until)
  }

  function Window(q: Scan, c: Cursor): (w: seq<Event>)
  {
    Query(q.db, Bounded(q, c), q.limit)
  }

  /** What the window sends: its visible events not sent yet, as many as the limit still allows. */
  function Sends(q: Scan, c: Cursor): (r: seq<Event>)
    requires c.sent <= q.limit
  {
    Take(SortByTime(Pick(Window(q, c), c.ids, q.visible)), q.limit - c.sent)
  }

  function Advance(q: Scan, c: Cursor): (r: Cursor)
    requires c.sent <= q.limit
  {
    var now, last := Sends(q, c), Oldest(Window(q, c), c.ids, c.last);
    var until := if last.Some? then Some(Before(last.value)) else c.until;
    Cursor(c.ids + Ids(now), until, last, c.sent + |now|, c.attempts + 1)
  }

  /** Why the scan stops with the current window, if it does. */
  function Stop(q: Scan, c: Cursor): (r: Option<End>)
    requires c.sent <= q.limit
  {
    if Window(q, c) == [] then Some(EmptyWindow)
    else
      var next := Advance(q, c);
      if next.sent >= q.limit then Some(LimitReached)
      else if next.last.None? then Some(NoTimestamp)
      else if next.attempts >= MAX_ATTEMPTS then Some(AttemptsSpent)
      else None
  }

  /** The rest of a scan. */
  function Page(q: Scan, c: Cursor): (r: Paging)
    requires c.sent <= q.limit
    decreases MAX_ATTEMPTS - c.attempts
  {
    var stop := Stop(q, c);
    if stop == Some(EmptyWindow) then Paging([], [], EmptyWindow)
    else if stop.Some? then Paging(Sends(q, c), [Window(q, c)], stop.value)
    else
      var rest := Page(q, Advance(q, c));
      Paging(Sends(q, c) + rest.events, [Window(q, c)] + rest.windows, rest.end)
  }

  function Begin(q: Scan, ids: set<EventId>): (c: Cursor)
  {
    Cursor(ids, q.filter.until, None, 0, 0)
  }

  function PageFilter(q: Scan, ids: set<EventId>): (r: Paging)
  {
    Page(q, Begin(q, ids))
  }

  /** The events sent for each filter in turn. */
  function PageFilters(db: seq<Event>, fs: seq<Filter>, limit: nat, visible: Event -> bool): (r: seq<seq<Event>>)
    decreases |fs|
  {
    if fs == [] then []
    else
      var init := PageFilters(db, fs[..|fs| - 1], limit, visible);
      init + [PageFilter(Scan(db, fs[|fs| - 1], limit, visible), Ids(Flatten(init))).events]
  }

  function Flatten<T>(ss: seq<seq<T>>): (r: seq<T>)
    decreases |ss|
  {
    if ss == [] then [] else Flatten(ss[..|ss| - 1]) + ss[|ss| - 1]
  }

  // ----- Facts about the pieces -----

  /** Every element of `part` is an element of `whole`, in the same order. */
  ghost predicate Within(part: seq<Event>, whole: seq<Event>)
  {
    exists at: seq<int> :: Embeds(part, whole, at)
  }

  ghost predicate Embeds(part: seq<Event>, whole: seq<Event>, at: seq<int>)
  {
    && |at| == |part|
    && (forall i | 0 <= i < |part| :: 0 <= at[i] < |whole| && whole[at[i]] == part[i])
    && (forall i, j :: 0 <= i < j < |part| ==> at[i] < at[j])
  }

  lemma WithinKeeps(part: seq<Event>, whole: seq<Event>)
    requires Within(part, whole) && IsStore(whole)
    ensures IsStore(part)
  {
    assert Unfold(0);
    var at :| Embeds(part, whole, at);
    forall i, j | 0 <= i < j < |part| ensures part[i].createdAt >= part[j].createdAt && part[i].id != part[j].id {
      assert whole[at[i]] == part[i] && whole[at[j]] == part[j] && at[i] < at[j];
    }
  }

  lemma WithinTake(s: seq<Event>, n: nat)
    ensures Within(Take(s, n), s)
  {
    assert Embeds(Take(s, n), s, seq(|Take(s, n)|, i => i));
  }

  lemma WithinExtend(part: seq<Event>, whole: seq<Event>, e: Event)
    requires Within(part, whole)
    ensures Within(part, whole + [e]) && Within(part + [e], whole + [e])
  {
    var at :| Embeds(part, whole, at);
    assert Embeds(part, whole + [e], at);
    assert Embeds(part + [e], whole + [e], at + [|whole|]);
  }

  lemma {:induction false} SelectElements(db: seq<Event>, f: Filter)
    ensures forall e :: e in Select(db, f) <==> e in db && Matches(f, e)
    ensures Within(Select(db, f), db)
    decreases |db|
  {
    if db == [] {
      assert Embeds([], db, []);
    } else {
      var init, e := db[..|db| - 1], db[|db| - 1];
      SelectElements(init, f);
      assert db == init + [e];
      WithinExtend(Select(init, f), init, e);
    }
  }

  lemma {:induction false} PickElements(w: seq<Event>, ids: set<EventId>, visible: Event -> bool)
    ensures forall e :: e in Pick(w, ids, visible) <==> e in w && e.id !in ids && visible(e)
    ensures Within(Pick(w, ids, visible), w)
    decreases |w|
  {
    if w == [] {
      assert Embeds([], w, []);
    } else {
      var init, e := w[..|w| - 1], w[|w| - 1];
      PickElements(init, ids, visible);
      assert w == init + [e];
      WithinExtend(Pick(init, ids, visible), init, e);
    }
  }

  lemma InsertAtEnd(s: seq<Event>, e: Event)
    requires NewestFirst(s + [e])
    ensures InsertByTime(s, e) == s + [e]
  {
    var t := s + [e];
    assert s != [] ==> t[|s| - 1].createdAt >= t[|s|].createdAt;
  }

  /** Sorting what is already newest first changes nothing. */
  lemma {:induction false} SortSorted(s: seq<Event>)
    requires NewestFirst(s)
    ensures SortByTime(s) == s
    decreases |s|
  {
    if s != [] {
      var init, e := s[..|s| - 1], s[|s| - 1];
      assert s == init + [e];
      SortSorted(init);
      InsertAtEnd(init, e);
    }
  }

  lemma {:induction false} OldestBound(w: seq<Event>, ids: set<EventId>, last: Option<Timestamp>)
    ensures last.Some? ==> Oldest(w, ids, last).Some? && Oldest(w, ids, last).value <= last.value
    ensures forall e | e in w && e.id !in ids :: Oldest(w, ids, last).Some? && Oldest(w, ids, last).value <= e.createdAt
    ensures Oldest(w, ids, last).Some? ==>
              (last.Some? && Oldest(w, ids, last) == last) ||
              exists e :: e in w && e.id !in ids && Oldest(w, ids, last).value == e.createdAt
    decreases |w|
  {
    if w != [] {
      var init, e := w[..|w| - 1], w[|w| - 1];
      OldestBound(init, ids, last);
      assert w == init + [e];
    }
  }

  lemma QueryElements(db: seq<Event>, f: Filter, limit: nat)
    requires IsStore(db)
    ensures IsStore(Query(db, f, limit))
    ensures forall e | e in Query(db, f, limit) :: e in db && Matches(f, e)
  {
    SelectElements(db, f);
    WithinKeeps(Select(db, f), db);
    WithinTake(Select(db, f), limit);
    WithinKeeps(Query(db, f, limit), Select(db, f));
  }

  /** A window sends, in order, the first of its visible events not sent yet. */
  lemma SendsElements(q: Scan, c: Cursor)
    requires IsStore(q.db) && c.sent <= q.limit
    ensures Sends(q, c) == Take(Pick(Window(q, c), c.ids, q.visible), q.limit - c.sent)
    ensures IsStore(Sends(q, c)) && |Sends(q, c)| <= q.limit - c.sent
    ensures forall e | e in Sends(q, c) :: e in Window(q, c) && e.id !in c.ids && q.visible(e)
  {
    var w, picked := Window(q, c), Pick(Window(q, c), c.ids, q.visible);
    QueryElements(q.db, Bounded(q, c), q.limit);
    PickElements(w, c.ids, q.visible);
    WithinKeeps(picked, w);
    StoreSorted(picked);
    WithinTake(picked, q.limit - c.sent);
    WithinKeeps(Take(picked, q.limit - c.sent), picked);
  }

  lemma StoreSorted(s: seq<Event>)
    requires IsStore(s)
    ensures SortByTime(s) == s
  {
    assert NewestFirst(s) by { assert Unfold(0); }
    SortSorted(s);
  }

  // ----- Safety -----

  /** The bound in force is one below the oldest timestamp seen, once a window has been read. */
  predicate Tracks(c: Cursor)
  {
    c.last.Some? ==> c.until == Some(Before(c.last.value))
  }

  /** What a filter may send: new, visible, matching events, newest first. */
  ghost predicate SafePart(db: seq<Event>, f: Filter, visible: Event -> bool, ids: set<EventId>, part: seq<Event>)
  {
    forall n: nat {:trigger Unfold(n)} :: Unfold(n) ==>
      IsStore(part) && forall e | e in part :: e in db && e.id !in ids && visible(e) && Matches(f, e)
  }

  /** The bound only ever moves back, and the window's events are not below the oldest timestamp seen. */
  lemma AdvanceBound(q: Scan, c: Cursor)
    requires IsStore(q.db) && c.sent <= q.limit && Tracks(c) && Advance(q, c).last.Some?
    ensures Tracks(Advance(q, c))
    ensures forall e | Matches(Bounded(q, Advance(q, c)), e) ::
            Matches(Bounded(q, c), e) && e.createdAt <= Advance(q, c).last.value
    ensures forall e | e in Sends(q, c) :: Advance(q, c).last.value <= e.createdAt
  {
    QueryElements(q.db, Bounded(q, c), q.limit);
    SendsElements(q, c);
    OldestBound(Window(q, c), c.ids, c.last);
  }

  lemma WindowPart(q: Scan, c: Cursor)
    requires IsStore(q.db) && c.sent <= q.limit
    ensures SafePart(q.db, Bounded(q, c), q.visible, c.ids, Sends(q, c))
  {
    QueryElements(q.db, Bounded(q, c), q.limit);
    SendsElements(q, c);
  }

  lemma JoinStores(now: seq<Event>, rest: seq<Event>, t: Timestamp)
    requires IsStore(now) && IsStore(rest)
    requires forall e | e in now :: t <= e.createdAt
    requires forall e | e in rest :: e.createdAt <= t && e.id !in Ids(now)
    ensures IsStore(now + rest)
  {
    assert Unfold(0);
    forall i, j | 0 <= i < |now| && 0 <= j < |rest|
      ensures now[i].createdAt >= rest[j].createdAt && now[i].id != rest[j].id
    {
      assert now[i] in now && rest[j] in rest && now[i].id in Ids(now);
    }
  }

  /** What the later windows send comes after this window, and is allowed under its bound too. */
  lemma LaterPart(q: Scan, c: Cursor, rest: seq<Event>)
    requires IsStore(q.db) && c.sent <= q.limit && Tracks(c) && Advance(q, c).last.Some?
    ensures SafePart(q.db, Bounded(q, Advance(q, c)), q.visible, Advance(q, c).ids, rest) ==>
            SafePart(q.db, Bounded(q, c), q.visible, c.ids, Sends(q, c) + rest)
  {
    if SafePart(q.db, Bounded(q, Advance(q, c)), q.visible, Advance(q, c).ids, rest) {
      AdvanceBound(q, c);
      SendsElements(q, c);
      QueryElements(q.db, Bounded(q, c), q.limit);
      assert IsStore(rest) &&
        forall e | e in rest ::
          e in q.db && e.id !in Advance(q, c).ids && q.visible(e) && Matches(Bounded(q, Advance(q, c)), e) by {
        assert Unfold(0);
      }
      JoinStores(Sends(q, c), rest, Advance(q, c).last.value);
    }
  }

  lemma {:induction false} PageSafe(q: Scan, c: Cursor)
    requires IsStore(q.db) && c.sent <= q.limit && Tracks(c)
    ensures SafePart(q.db, Bounded(q, c), q.visible, c.ids, Page(q, c).events) &&
            |Page(q, c).events| <= q.limit - c.sent
    decreases MAX_ATTEMPTS - c.attempts
  {
    SendsElements(q, c);
    WindowPart(q, c);
    NoPart(q.db, Bounded(q, c), q.visible, c.ids);
    if Stop(q, c).None? {
      AdvanceBound(q, c);
      PageSafe(q, Advance(q, c));
      LaterPart(q, c, Page(q, Advance(q, c)).events);
    }
  }

  lemma NoPart(db: seq<Event>, f: Filter, visible: Event -> bool, ids: set<EventId>)
    ensures SafePart(db, f, visible, ids, [])
  {
  }

  /** What a filter may send in all. */
  ghost predicate PartOk(db: seq<Event>, f: Filter, limit: nat, visible: Event -> bool, part: seq<Event>)
  {
    |part| <= limit && SafePart(db, f, visible, {}, part)
  }

  /** No event is sent twice, and each filter sends what it may. */
  ghost predicate PartsOk(db: seq<Event>, fs: seq<Filter>, limit: nat, visible: Event -> bool, parts: seq<seq<Event>>)
  {
    && |parts| == |fs| && DistinctIds(Flatten(parts))
    && forall i | 0 <= i < |fs| :: PartOk(db, fs[i], limit, visible, parts[i])
  }

  /**
    Safety of the historical part of any REQ: no event is sent twice, every event sent for a
    filter is stored, visible and matches that filter with its own since and until, and each
    filter sends at most the limit, newest first.
   */
  lemma {:induction false} PageFiltersSafe(db: seq<Event>, fs: seq<Filter>, limit: nat, visible: Event -> bool)
    requires IsStore(db)
    ensures PartsOk(db, fs, limit, visible, PageFilters(db, fs, limit, visible))
    decreases |fs|
  {
    if fs != [] {
      PageFiltersSafe(db, fs[..|fs| - 1], limit, visible);
      LastPartSafe(db, fs, limit, visible);
      OnePartMore(db, fs, limit, visible, PageFilters(db, fs, limit, visible));
    }
  }

  lemma OnePartMore(db: seq<Event>, fs: seq<Filter>, limit: nat, visible: Event -> bool, parts: seq<seq<Event>>)
    requires |parts| == |fs| > 0 && PartsOk(db, fs[..|fs| - 1], limit, visible, parts[..|fs| - 1])
    requires PartOk(db, fs[|fs| - 1], limit, visible, parts[|fs| - 1]) && DistinctIds(Flatten(parts))
    ensures PartsOk(db, fs, limit, visible, parts)
  {
    forall i | 0 <= i < |fs| - 1 ensures PartOk(db, fs[i], limit, visible, parts[i]) {
      assert fs[..|fs| - 1][i] == fs[i] && parts[..|fs| - 1][i] == parts[i];
    }
  }

  /** The last filter sends nothing again. */
  lemma LastPartSafe(db: seq<Event>, fs: seq<Filter>, limit: nat, visible: Event -> bool)
    requires IsStore(db) && fs != []
    requires var before := PageFilters(db, fs[..|fs| - 1], limit, visible);
             DistinctIds(Flatten(before)) && |before| == |fs| - 1
    ensures var before, parts := PageFilters(db, fs[..|fs| - 1], limit, visible), PageFilters(db, fs, limit, visible);
            && |parts| == |fs| && parts[..|fs| - 1] == before && DistinctIds(Flatten(parts))
            && PartOk(db, fs[|fs| - 1], limit, visible, parts[|fs| - 1])
  {
    var before, f := PageFilters(db, fs[..|fs| - 1], limit, visible), fs[|fs| - 1];
    var q, ids := Scan(db, f, limit, visible), Ids(Flatten(before));
    var part := PageFilter(q, ids).events;
    PageSafe(q, Begin(q, ids));
    assert Bounded(q, Begin(q, ids)) == f;
    AppendPart(db, f, visible, Flatten(before), part);
    assert (before + [part])[..|before|] == before;
  }

  lemma AppendPart(db: seq<Event>, f: Filter, visible: Event -> bool, before: seq<Event>, part: seq<Event>)
    requires DistinctIds(before) && SafePart(db, f, visible, Ids(before), part)
    ensures DistinctIds(before + part) && SafePart(db, f, visible, {}, part)
  {
    assert Unfold(0);
    forall i, j | 0 <= i < |before| && 0 <= j < |part| ensures before[i].id != part[j].id {
      assert before[i].id in Ids(before) && part[j] in part;
    }
  }
}
