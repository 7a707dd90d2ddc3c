/**
  The coordinator: the historical loops of a REQ, which send stored events and the end marker,
  and the remove-then-add that replaces a live subscription.
 */
module SubscriptionCoordinator {
  import opened Nostr
  import opened Messaging
  import opened Pagination
  import opened PartialPaging
  import opened RegistryModel
  import opened SubscriptionRegistries

  // ----- Limits -----

  /** The smallest limit any filter asks for, capped by the configured maximum. */
  function SmallestLimit(filters: seq<Filter>, maxLimit: nat): (n: nat)
    ensures n <= maxLimit
    ensures forall f | f in filters && f.limit.Some? :: n <= f.limit.value
    ensures n == maxLimit || exists f :: f in filters && f.limit == Some(n)
    decreases |filters|
  {
    if filters == [] then maxLimit
    else
      var n, f := SmallestLimit(filters[..|filters| - 1], maxLimit), filters[|filters| - 1];
      assert filters == filters[..|filters| - 1] + [f];
      if f.limit.Some? && f.limit.value < n then f.limit.value else n
  }

  /** The number is the least of the configured maximum and the limits asked for. */
  ghost predicate IsLeastLimit(filters: seq<Filter>, maxLimit: nat, n: nat)
  {
    && n <= maxLimit
    && (forall f | f in filters && f.limit.Some? :: n <= f.limit.value)
    && (n == maxLimit || exists f :: f in filters && f.limit == Some(n))
  }

  // ----- The historical loops -----

  /** The EVENT messages of a subscription's stored events. */
  function StoredMessages(sub: SubId, events: seq<Event>, position: nat): (ms: seq<Queued>)
  {
    seq(|events|, i requires 0 <= i < |events| => Queued(EventMsg(sub, events[i]), position))
  }

  method SortOut(w: seq<Event>, ids: set<EventId>, visible: Event -> bool, seen: Option<Timestamp>)
    returns (picked: seq<Event>, last: Option<Timestamp>)
    ensures picked == Pick(w, ids, visible) && last == Oldest(w, ids, seen)
  {
    picked, last := [], seen;
    for i := 0 to |w|
      invariant picked == Pick(w[..i], ids, visible) && last == Oldest(w[..i], ids, seen)
    {
      assert w[..i + 1][..i] == w[..i];
      if w[i].id !in ids {
        if last.None? || w[i].createdAt < last.value {
          last := Some(w[i].createdAt);
        }
        if visible(w[i]) {
          picked := picked + [w[i]];
        }
      }
    }
    assert w[..|w|] == w;
  }

  lemma StoredMessagesAppend(sub: SubId, a: seq<Event>, b: seq<Event>, position: nat)
    ensures StoredMessages(sub, a + b, position) == StoredMessages(sub, a, position) + StoredMessages(sub, b, position)
  {
  }

  lemma IdsAppend(a: seq<Event>, b: seq<Event>)
    ensures Ids(a + b) == Ids(a) + Ids(b)
  {
    forall x ensures x in Ids(a + b) <==> x in Ids(a) + Ids(b) {
      if x in Ids(a) { var i :| 0 <= i < |a| && a[i].id == x; assert (a + b)[i].id == x; }
      if x in Ids(b) { var i :| 0 <= i < |b| && b[i].id == x; assert (a + b)[|a| + i].id == x; }
    }
  }

  /** The channel has taken what it had room for of the EVENT messages of some stored events. */
  ghost predicate Stored(sub: SubId, sender: MessageSender, queue: seq<Queued>, free: nat, events: seq<Event>)
    reads sender.channel
  {
    forall n: nat {:trigger Unfold(n)} :: Unfold(n) ==>
      Received(sender.channel, queue, free, StoredMessages(sub, events, sender.BypassPosition()))
  }

  lemma NothingStored(sub: SubId, sender: MessageSender)
    ensures Stored(sub, sender, sender.channel.queue, sender.channel.Room(), [])
  {
    assert StoredMessages(sub, [], sender.BypassPosition()) == [];
  }

  /** Sends stored events until the limit is reached; a refused send is not noticed. */
  method SendStored(sub: SubId, sender: MessageSender, events: seq<Event>, room: nat, ids: set<EventId>,
                    ghost queue: seq<Queued>, ghost free: nat, ghost before: seq<Event>)
    returns (ids': set<EventId>, count: nat)
    requires Stored(sub, sender, queue, free, before)
    modifies sender.channel`queue
    ensures Stored(sub, sender, queue, free, before + Take(events, room))
    ensures ids' == ids + Ids(Take(events, room)) && count == |Take(events, room)|
  {
    ids', count := ids, 0;
    assert before + [] == before;
    while count < |events| && count < room
      invariant count <= |events| && count <= room
      invariant ids' == ids + Ids(events[..count])
      invariant Stored(sub, sender, queue, free, before + events[..count])
    {
      var e := events[count];
      assert events[..count + 1] == events[..count] + [e];
      assert before + events[..count + 1] == before + events[..count] + [e];
      IdsAppend(events[..count], [e]);
      assert Ids([e]) == {e.id} by { assert [e][0].id in Ids([e]); }
      ids' := ids' + {e.id};
      SendOneStored(sub, sender, e, queue, free, before + events[..count]);
      count := count + 1;
    }
    assert events[..count] == Take(events, room);
  }

  method SendOneStored(sub: SubId, sender: MessageSender, e: Event, ghost queue: seq<Queued>, ghost free: nat,
                       ghost before: seq<Event>)
    requires Stored(sub, sender, queue, free, before)
    modifies sender.channel`queue
    ensures Stored(sub, sender, queue, free, before + [e])
  {
    assert Unfold(0);
    var _ := sender.SendBypass(EventMsg(sub, e));
    StoredMessagesAppend(sub, before, [e], sender.BypassPosition());
    assert StoredMessages(sub, [e], sender.BypassPosition()) == [Queued(EventMsg(sub, e), sender.BypassPosition())];
  }

  method SendWindow(q: Scan, c: Cursor, w: seq<Event>, sub: SubId, sender: MessageSender, ghost queue: seq<Queued>,
                    ghost free: nat, ghost before: seq<Event>)
    returns (ids: set<EventId>, count: nat, last: Option<Timestamp>)
    requires c.sent <= q.limit && w == Window(q, c) && Stored(sub, sender, queue, free, before)
    modifies sender.channel`queue
    ensures Stored(sub, sender, queue, free, before + Sends(q, c))
    ensures ids == c.ids + Ids(Sends(q, c)) && count == |Sends(q, c)| && last == Oldest(w, c.ids, c.last)
  {
    var picked;
    picked, last := SortOut(w, c.ids, q.visible, c.last);
    ids, count := SendStored(sub, sender, SortByTime(picked), q.limit - c.sent, c.ids, queue, free, before);
  }

  lemma NothingSent(q: Scan, c: Cursor, before: seq<Event>)
    requires c.sent <= q.limit && Window(q, c) == []
    ensures before + Sends(q, c) == before && Advance(q, c).ids == c.ids
  {
    assert Sends(q, c) == [] && Ids(Sends(q, c)) == {};
  }

  /** One turn of the pagination loop: query a window, send from it, and decide whether to go on. */
  method ScanWindow(q: Scan, c: Cursor, sub: SubId, sender: MessageSender, ghost queue: seq<Queued>, ghost free: nat,
                    ghost before: seq<Event>)
    returns (c': Cursor, running: bool)
    requires c.sent <= q.limit && Stored(sub, sender, queue, free, before)
    modifies sender.channel`queue
    ensures Stored(sub, sender, queue, free, before + Sends(q, c))
    ensures running <==> Stop(q, c).None?
    ensures c'.ids == Advance(q, c).ids && (running ==> c' == Advance(q, c))
  {
    var w := Query(q.db, q.filter.(until := c.until), q.limit);
    if w == [] {
      NothingSent(q, c, before);
      c', running := c, false;
    } else {
      var ids, count, last := SendWindow(q, c, w, sub, sender, queue, free, before);
      c' := Cursor(ids, if last.Some? then Some(Before(last.value)) else c.until, last, c.sent + count, c.attempts + 1);
      running := c'.sent < q.limit && last.Some? && c'.attempts < MAX_ATTEMPTS;
    }
  }

  lemma AdvanceBounded(q: Scan, c: Cursor)
    requires c.sent <= q.limit
    ensures Advance(q, c).sent <= q.limit
  {
    TakeBound(SortByTime(Pick(Window(q, c), c.ids, q.visible)), q.limit - c.sent);
  }

  lemma TakeBound<T>(s: seq<T>, n: nat)
    ensures |Take(s, n)| <= n
  {
  }

  /** No query in the range fails. */
  ghost predicate NoneFails(fails: nat -> bool, first: nat, next: nat)
  {
    forall n | first <= n < next :: !fails(n)
  }

  /** The account kept by the pagination loop: what each query so far sent, and what is still to come. */
  ghost predicate Progress(q: Scan, ids: set<EventId>, c: Cursor, turns: seq<seq<Event>>, running: bool)
    requires running ==> c.sent <= q.limit
  {
    forall n: nat {:trigger Unfold(n)} :: Unfold(n) ==>
      && c.ids == ids + Ids(Flatten(turns))
      && Turns(q, Begin(q, ids)) == turns + if running then Turns(q, c) else []
  }

  lemma ProgressStart(q: Scan, ids: set<EventId>)
    ensures Progress(q, ids, Begin(q, ids), [], true)
  {
    assert Ids(Flatten([])) == {};
  }

  lemma ProgressNext(q: Scan, ids: set<EventId>, c: Cursor, turns: seq<seq<Event>>, c': Cursor, running: bool)
    requires c.sent <= q.limit && Progress(q, ids, c, turns, true)
    requires (running <==> Stop(q, c).None?) && c'.ids == Advance(q, c).ids && (running ==> c' == Advance(q, c))
    ensures running ==> c'.sent <= q.limit
    ensures Progress(q, ids, c', turns + [Sends(q, c)], running)
  {
    assert Unfold(0);
    AdvanceBounded(q, c);
    IdsSent(turns, Sends(q, c));
    TurnsSplit(q, c, turns);
  }

  lemma IdsSent(turns: seq<seq<Event>>, now: seq<Event>)
    ensures Ids(Flatten(turns + [now])) == Ids(Flatten(turns)) + Ids(now)
  {
    FlattenLast(turns, now);
    IdsAppend(Flatten(turns), now);
  }

  lemma TurnsSplit(q: Scan, c: Cursor, turns: seq<seq<Event>>)
    requires c.sent <= q.limit && Advance(q, c).sent <= q.limit
    ensures turns + Turns(q, c) == turns + [Sends(q, c)] + if Stop(q, c).None? then Turns(q, Advance(q, c)) else []
  {
  }

  lemma ProgressMade(q: Scan, ids: set<EventId>, c: Cursor, turns: seq<seq<Event>>, running: bool)
    requires (running ==> c.sent <= q.limit) && Progress(q, ids, c, turns, running)
    ensures turns <= Turns(q, Begin(q, ids)) && (!running <==> turns == Turns(q, Begin(q, ids)))
    ensures c.ids == ids + Ids(Flatten(turns))
  {
    assert Unfold(0);
  }

  /**
    The pagination loop of one filter; `fails` tells which queries of the REQ fail. It ends at the
    first one, and what the queries before it sent has been sent.
   */
  method ScanFilter(q: Scan, sub: SubId, sender: MessageSender, ids: set<EventId>, fails: nat -> bool, first: nat,
                    ghost queue: seq<Queued>, ghost free: nat, ghost before: seq<Event>)
    returns (ok: bool, ids': set<EventId>, next: nat, ghost turns: seq<seq<Event>>)
    requires Stored(sub, sender, queue, free, before)
    modifies sender.channel`queue
    ensures turns <= Turns(q, Begin(q, ids)) && (ok <==> turns == Turns(q, Begin(q, ids)))
    ensures next == first + |turns| && NoneFails(fails, first, next) && (!ok ==> fails(next))
    ensures ids' == ids + Ids(Flatten(turns)) && Stored(sub, sender, queue, free, before + Flatten(turns))
  {
    var cursor, running := Begin(q, ids), true;
    ok, next, turns := true, first, [];
    ProgressStart(q, ids);
    assert before + [] == before;
    while running && ok
      invariant next == first + |turns| && NoneFails(fails, first, next) && (!ok ==> running && fails(next))
      invariant running ==> cursor.sent <= q.limit && cursor.attempts < MAX_ATTEMPTS
      invariant Progress(q, ids, cursor, turns, running)
      invariant Stored(sub, sender, queue, free, before + Flatten(turns))
      decreases ok, running, MAX_ATTEMPTS - cursor.attempts
    {
      if fails(next) {
        ok := false;
      } else {
        ghost var c := cursor;
        cursor, running := ScanWindow(q, cursor, sub, sender, queue, free, before + Flatten(turns));
        ProgressNext(q, ids, c, turns, cursor, running);
        SentMore(before, turns, Sends(q, c));
        next, turns := next + 1, turns + [Sends(q, c)];
      }
    }
    ids' := cursor.ids;
    ProgressMade(q, ids, cursor, turns, running);
  }

  lemma SentMore(before: seq<Event>, turns: seq<seq<Event>>, now: seq<Event>)
    ensures before + Flatten(turns) + now == before + Flatten(turns + [now])
  {
    FlattenLast(turns, now);
  }

  /** The account kept by the loop over the filters. */
  ghost predicate Account(db: seq<Event>, fs: seq<Filter>, limit: nat, visible: Event -> bool, ids: set<EventId>,
                          turns: seq<seq<Event>>)
  {
    forall n: nat {:trigger Unfold(n)} :: Unfold(n) ==>
      turns == TurnsOf(db, fs, limit, visible) && ids == Ids(Flatten(PageFilters(db, fs, limit, visible)))
  }

  lemma AccountNext(db: seq<Event>, fs: seq<Filter>, limit: nat, visible: Event -> bool, ids: set<EventId>,
                    turns: seq<seq<Event>>, f: Filter, part: seq<seq<Event>>)
    requires Account(db, fs, limit, visible, ids, turns)
    requires var q := Scan(db, f, limit, visible); part == Turns(q, Begin(q, ids))
    ensures Account(db, fs + [f], limit, visible, ids + Ids(Flatten(part)), turns + part)
  {
    assert Unfold(0);
    var q, parts := Scan(db, f, limit, visible), PageFilters(db, fs, limit, visible);
    assert (fs + [f])[..|fs|] == fs;
    FlattenTurns(q, Begin(q, ids));
    FlattenLast(parts, Flatten(part));
    IdsAppend(Flatten(parts), Flatten(part));
  }

  /** A filter cut short by a failing query. */
  lemma AccountCut(db: seq<Event>, filters: seq<Filter>, i: nat, limit: nat, visible: Event -> bool, ids: set<EventId>,
                   turns: seq<seq<Event>>, part: seq<seq<Event>>)
    requires i < |filters| && Account(db, filters[..i], limit, visible, ids, turns)
    requires var q := Scan(db, filters[i], limit, visible); part < Turns(q, Begin(q, ids))
    ensures turns + part < TurnsOf(db, filters, limit, visible)
  {
    var q := Scan(db, filters[i], limit, visible);
    var all := Turns(q, Begin(q, ids));
    PrefixNext(filters, i);
    AccountNext(db, filters[..i], limit, visible, ids, turns, filters[i], all);
    TurnsOfInit(db, filters, limit, visible, i + 1);
    assert Unfold(0);
    assert turns + part < turns + all;
  }

  lemma AccountDone(db: seq<Event>, fs: seq<Filter>, limit: nat, visible: Event -> bool, ids: set<EventId>,
                    turns: seq<seq<Event>>)
    requires Account(db, fs[..|fs|], limit, visible, ids, turns)
    ensures turns == TurnsOf(db, fs, limit, visible)
  {
    assert fs[..|fs|] == fs && Unfold(0);
  }

  lemma AccountStart(db: seq<Event>, fs: seq<Filter>, limit: nat, visible: Event -> bool)
    ensures Account(db, fs[..0], limit, visible, {}, [])
  {
    assert Ids([]) == {};
  }

  /** The loop over the filters of a REQ. */
  method ScanFilters(db: seq<Event>, filters: seq<Filter>, limit: nat, visible: Event -> bool, fails: nat -> bool,
                     sub: SubId, sender: MessageSender)
    returns (ok: bool, ghost turns: seq<seq<Event>>)
    modifies sender.channel`queue
    ensures turns <= TurnsOf(db, filters, limit, visible)
    ensures ok <==> turns == TurnsOf(db, filters, limit, visible)
    ensures NoneFails(fails, 0, |turns|) && (!ok ==> fails(|turns|))
    ensures Stored(sub, sender, old(sender.channel.queue), old(sender.channel.Room()), Flatten(turns))
  {
    ghost var queue, free := sender.channel.queue, sender.channel.Room();
    var ids: set<EventId>, next := {}, 0;
    ok, turns := true, [];
    NothingStored(sub, sender);
    AccountStart(db, filters, limit, visible);
    for i := 0 to |filters|
      invariant ok && next == |turns| && NoneFails(fails, 0, next)
      invariant Account(db, filters[..i], limit, visible, ids, turns)
      invariant Stored(sub, sender, queue, free, Flatten(turns))
    {
      ghost var part, sent := [], ids;
      var q := Scan(db, filters[i], limit, visible);
      ok, ids, next, part := ScanFilter(q, sub, sender, ids, fails, next, queue, free, Flatten(turns));
      FlattenAppend(turns, part);
      if !ok {
        AccountCut(db, filters, i, limit, visible, sent, turns, part);
        turns := turns + part;
        assert next == |turns| && fails(next);
        return;
      }
      PrefixNext(filters, i);
      AccountNext(db, filters[..i], limit, visible, sent, turns, filters[i], part);
      turns := turns + part;
    }
    AccountDone(db, filters, limit, visible, ids, turns);
  }

  datatype History = Complete | QueryFailed | EoseRefused

  /** The first failing query from the given one on, or their number. */
  function FirstFailing(fails: nat -> bool, count: nat, n: nat): (k: nat)
    requires n <= count
    ensures n <= k <= count && NoneFails(fails, n, k) && (k < count ==> fails(k))
    decreases count - n
  {
    if n == count || fails(n) then n else FirstFailing(fails, count, n + 1)
  }

  lemma {:induction false} FirstFailingIs(fails: nat -> bool, count: nat, n: nat, k: nat)
    requires n <= k <= count && NoneFails(fails, n, k) && (k < count ==> fails(k))
    ensures FirstFailing(fails, count, n) == k
    decreases k - n
  {
    if n < k { FirstFailingIs(fails, count, n + 1, k); }
  }

  /** What is asked of the historical part: the store, the filters, the limit, visibility, and the failing queries. */
  datatype HistoryRequest = HistoryRequest(db: seq<Event>, filters: seq<Filter>, maxLimit: nat, visible: Event -> bool,
                                           fails: nat -> bool)
  {
    function Limit(): (n: nat)
    {
      SmallestLimit(filters, maxLimit)
    }

    /** What each query sends if it is answered. */
    function Turns(): (r: seq<seq<Event>>)
    {
      TurnsOf(db, filters, Limit(), visible)
    }

    /** How many queries are answered: those before the first failing one. */
    function Answered(): (n: nat)
      ensures n <= |Turns()|
    {
      FirstFailing(fails, |Turns()|, 0)
    }

    function Sends(): (r: seq<Event>)
    {
      Flatten(Turns()[..Answered()])
    }

    /** How it ends on a channel with so much room: the end marker needs room after the events. */
    function Ending(room: nat): (r: History)
    {
      if Answered() < |Turns()| then QueryFailed else if |Sends()| < room then Complete else EoseRefused
    }

    /** What a channel with so much room takes: the events sent as far as they fit, then the end marker. */
    function Reply(sub: SubId, position: nat, room: nat): (ms: seq<Queued>)
    {
      Take(StoredMessages(sub, Sends(), Inward(position)), room) +
      if Ending(room) == Complete then [Queued(Eose(sub), position)] else []
    }
  }

  /** How many queries the REQ makes under this limit if none fails. */
  function Queries(h: HistoryRequest, limit: nat): (n: nat)
  {
    |TurnsOf(h.db, h.filters, limit, h.visible)|
  }

  /** How many events its first queries send. */
  function SentBefore(h: HistoryRequest, limit: nat, k: nat): (n: nat)
    requires k <= Queries(h, limit)
  {
    |Flatten(TurnsOf(h.db, h.filters, limit, h.visible)[..k])|
  }

  /** No query of the REQ fails, under this limit. */
  ghost predicate AllAnswered(h: HistoryRequest, limit: nat)
  {
    NoneFails(h.fails, 0, Queries(h, limit))
  }

  /** The events a REQ is answered with under this limit, if no query fails. */
  function StoredEvents(h: HistoryRequest, limit: nat): (all: seq<Event>)
  {
    Flatten(PageFilters(h.db, h.filters, limit, h.visible))
  }

  lemma LimitIsLeast(h: HistoryRequest, limit: nat)
    requires IsLeastLimit(h.filters, h.maxLimit, limit)
    ensures h.Limit() == limit
  {
  }

  /** The events of the queries before the first failing one, and whether there is one. */
  lemma AnsweredPart(turns: seq<seq<Event>>, fails: nat -> bool, n: nat)
    requires n == FirstFailing(fails, |turns|, 0)
    ensures Flatten(turns[..n]) <= Flatten(turns)
    ensures n == |turns| <==> NoneFails(fails, 0, |turns|)
    ensures n == |turns| ==> turns[..n] == turns
  {
    FlattenPrefix(turns, n);
  }

  lemma SendsUnder(h: HistoryRequest, limit: nat)
    requires IsLeastLimit(h.filters, h.maxLimit, limit)
    ensures h.Sends() <= StoredEvents(h, limit)
    ensures AllAnswered(h, limit) <==> h.Answered() == |h.Turns()|
    ensures AllAnswered(h, limit) ==> h.Sends() == StoredEvents(h, limit)
  {
    LimitIsLeast(h, limit);
    AllTurns(h.db, h.filters, limit, h.visible);
    AnsweredPart(h.Turns(), h.fails, h.Answered());
  }

  /**
    A REQ is answered under the least limit of its filters and the maximum, whatever computes it.
    Its historical part fails exactly if a query does, and is complete exactly if none does and
    there is room for the marker after all events of the paging function; these are then the events
    sent, and otherwise a prefix of them.
   */
  lemma HistoricEvents(h: HistoryRequest, room: nat, limit: nat)
    requires IsLeastLimit(h.filters, h.maxLimit, limit)
    ensures var all := StoredEvents(h, limit);
            && h.Sends() <= all
            && (h.Ending(room) == QueryFailed <==> !AllAnswered(h, limit))
            && (AllAnswered(h, limit) ==> h.Sends() == all)
            && (h.Ending(room) == Complete <==> AllAnswered(h, limit) && |all| < room)
  {
    SendsUnder(h, limit);
  }

  lemma {:induction false} PageWithin(q: Scan, c: Cursor)
    requires c.sent <= q.limit
    ensures |Page(q, c).events| <= q.limit - c.sent
    decreases MAX_ATTEMPTS - c.attempts
  {
    AdvanceBounded(q, c);
    if Stop(q, c).None? { PageWithin(q, Advance(q, c)); }
  }

  lemma {:induction false} PartsWithinLimit(db: seq<Event>, fs: seq<Filter>, limit: nat, visible: Event -> bool)
    ensures forall part | part in PageFilters(db, fs, limit, visible) :: |part| <= limit
    decreases |fs|
  {
    if fs != [] {
      var q, init := Scan(db, fs[|fs| - 1], limit, visible), PageFilters(db, fs[..|fs| - 1], limit, visible);
      PartsWithinLimit(db, fs[..|fs| - 1], limit, visible);
      PageWithin(q, Begin(q, Ids(Flatten(init))));
    }
  }

  /** The messages are the EVENTs of the first of the events, for the subscription, sent past one position. */
  ghost predicate AreStored(ms: seq<Queued>, sub: SubId, position: nat, events: seq<Event>)
  {
    |ms| <= |events| && forall i | 0 <= i < |ms| ::
      ms[i].message == EventMsg(sub, events[i]) && ms[i].position == if position == 0 then 0 else position - 1
  }

  lemma TakenAreStored(sub: SubId, events: seq<Event>, position: nat, room: nat, all: seq<Event>)
    requires events <= all
    ensures var ms := Take(StoredMessages(sub, events, Inward(position)), room);
            AreStored(ms, sub, position, all) && |ms| == if |events| <= room then |events| else room
  {
  }

  /**
    A REQ with no failing query whose events leave room for one more message: they are all queued in
    order, as EVENTs of the REQ's own subscription, and after them its one EOSE.
   */
  lemma CompleteReply(h: HistoryRequest, sub: SubId, position: nat, room: nat, limit: nat)
    requires IsLeastLimit(h.filters, h.maxLimit, limit)
    requires AllAnswered(h, limit) && |StoredEvents(h, limit)| < room
    ensures var n, ms := |StoredEvents(h, limit)|, h.Reply(sub, position, room);
            |ms| == n + 1 && ms[n] == Queued(Eose(sub), position) &&
            AreStored(ms[..n], sub, position, StoredEvents(h, limit))
  {
    HistoricEvents(h, room, limit);
    TakenAreStored(sub, h.Sends(), position, room, StoredEvents(h, limit));
  }

  /**
    Any other REQ queues no EOSE, only as many EVENTs as fit: of all stored events if no query
    fails, and otherwise of those of the queries before the first failing one.
   */
  lemma IncompleteReply(h: HistoryRequest, sub: SubId, position: nat, room: nat, limit: nat, k: nat)
    requires IsLeastLimit(h.filters, h.maxLimit, limit)
    requires !AllAnswered(h, limit) || |StoredEvents(h, limit)| >= room
    requires k <= Queries(h, limit) && NoneFails(h.fails, 0, k) && (k < Queries(h, limit) ==> h.fails(k))
    ensures var ms := h.Reply(sub, position, room);
            AreStored(ms, sub, position, StoredEvents(h, limit)) &&
            |ms| == if SentBefore(h, limit, k) <= room then SentBefore(h, limit, k) else room
  {
    HistoricEvents(h, room, limit);
    LimitIsLeast(h, limit);
    FirstFailingIs(h.fails, Queries(h, limit), 0, k);
    TakenAreStored(sub, h.Sends(), position, room, StoredEvents(h, limit));
  }

  /** The queries answered are those the loops got through. */
  lemma AnsweredAre(h: HistoryRequest, done: seq<seq<Event>>)
    requires done <= h.Turns() && NoneFails(h.fails, 0, |done|) && (done != h.Turns() ==> h.fails(|done|))
    ensures h.Answered() == |done| && h.Sends() == Flatten(done)
  {
    FirstFailingIs(h.fails, |h.Turns()|, 0, |done|);
    assert h.Turns()[..|done|] == done;
  }

  lemma StoredRoom(sub: SubId, sender: MessageSender, queue: seq<Queued>, free: nat, events: seq<Event>)
    requires Stored(sub, sender, queue, free, events)
    ensures sender.channel.queue == queue + Take(StoredMessages(sub, events, Inward(sender.position)), free)
    ensures sender.channel.Room() == if |events| <= free then free - |events| else 0
  {
    assert Unfold(0);
  }

  /** The loops have sent what is answered. */
  method SendHistory(h: HistoryRequest, sub: SubId, sender: MessageSender) returns (ok: bool)
    modifies sender.channel`queue
    ensures ok <==> h.Answered() == |h.Turns()|
    ensures Stored(sub, sender, old(sender.channel.queue), old(sender.channel.Room()), h.Sends())
  {
    ghost var done;
    ok, done := ScanFilters(h.db, h.filters, h.Limit(), h.visible, h.fails, sub, sender);
    AnsweredAre(h, done);
  }

  method ProcessHistoricalEvents(h: HistoryRequest, sub: SubId, sender: MessageSender) returns (r: History)
    modifies sender.channel`queue
    ensures r == h.Ending(old(sender.channel.Room()))
    ensures sender.channel.queue ==
            old(sender.channel.queue) + h.Reply(sub, sender.position, old(sender.channel.Room()))
  {
    ghost var queue, room := sender.channel.queue, sender.channel.Room();
    var ok := SendHistory(h, sub, sender);
    StoredRoom(sub, sender, queue, room, h.Sends());
    if !ok {
      return QueryFailed;
    }
    var res := sender.Send(Eose(sub));
    r := if res == Sent then Complete else EoseRefused;
  }

  // ----- Live subscriptions -----

  lemma CloseThenOpen(conns: Connections, c: ConnId, sub: SubId, filters: seq<Filter>)
    requires c in conns
    ensures c in Closed(conns, c, sub)
    ensures Opened(Closed(conns, c, sub), c, sub, filters) == Opened(conns, c, sub, filters)
    ensures AddIsSound(Closed(conns, c, sub), c, sub)
  {
    var subs := conns[c].subscriptions;
    assert (subs - {sub})[sub := filters] == subs[sub := filters];
    assert Opened(Closed(conns, c, sub), c, sub, filters) == Opened(conns, c, sub, filters);
  }

  /** Replaces a subscription: closing the old one first keeps the registry's invariant in every case. */
  method AddSubscription(registry: SubscriptionRegistry, c: ConnId, sub: SubId, filters: seq<Filter>) returns (ok: bool)
    requires registry.Valid()
    modifies registry`connections, registry`indexes, registry`active, registry`lists, registry`heard
    modifies registry`repr, registry.repr
    ensures registry.Valid() && fresh(registry.repr - old(registry.repr))
    ensures ok <==> c in old(registry.connections)
    ensures registry.connections ==
            if ok then Opened(old(registry.connections), c, sub, filters) else old(registry.connections)
    ensures registry.heard ==
            HeardIfOpened(old(registry.connections), old(registry.heard), c, sub, ok)
  {
    if c in registry.connections { CloseThenOpen(registry.connections, c, sub, filters); }
    var _ := registry.RemoveSubscription(c, sub);
    ok := registry.AddSubscription(c, sub, filters);
  }

  method RemoveSubscription(registry: SubscriptionRegistry, c: ConnId, sub: SubId)
    requires registry.Valid()
    modifies registry`connections, registry`active, registry`lists, registry.repr
    ensures registry.Valid()
    ensures registry.connections ==
            if c in old(registry.connections) then Closed(old(registry.connections), c, sub)
            else old(registry.connections)
  {
    var _ := registry.RemoveSubscription(c, sub);
  }

  // ----- A whole REQ -----

  datatype ReqResult = Registered | HistoryFailed(history: History) | NoConnection

  /** How a REQ that reaches the coordinator ends. */
  function ResultOf(h: HistoryRequest, room: nat, registered: bool): (r: ReqResult)
  {
    var history := h.Ending(room);
    if history != Complete then HistoryFailed(history) else if registered then Registered else NoConnection
  }

  /** Exactly when a REQ that reaches the coordinator ends in each way. */
  lemma ResultExactly(h: HistoryRequest, room: nat, registered: bool, limit: nat)
    requires IsLeastLimit(h.filters, h.maxLimit, limit)
    ensures var r, fits := ResultOf(h, room, registered), |StoredEvents(h, limit)| < room;
            && (r == Registered <==> AllAnswered(h, limit) && fits && registered)
            && (r == NoConnection <==> AllAnswered(h, limit) && fits && !registered)
            && (r == HistoryFailed(QueryFailed) <==> !AllAnswered(h, limit))
            && (r == HistoryFailed(EoseRefused) <==> AllAnswered(h, limit) && !fits)
  {
    HistoricEvents(h, room, limit);
  }

  /** No query fails, and all stored events and one more message fit. */
  ghost predicate Completes(h: HistoryRequest, limit: nat, room: nat)
  {
    AllAnswered(h, limit) && |StoredEvents(h, limit)| < room
  }

  /** Messages were queued, and this is the last one. */
  ghost predicate EndsWith(before: seq<Queued>, after: seq<Queued>, m: Queued)
  {
    |after| > |before| && after[|after| - 1] == m
  }

  lemma ReqExactly(h: HistoryRequest, sub: SubId, position: nat, queue: seq<Queued>, room: nat, registered: bool)
    ensures var r, limit := ResultOf(h, room, registered), SmallestLimit(h.filters, h.maxLimit);
            && (r == Registered <==> Completes(h, limit, room) && registered)
            && (r == Registered ==> EndsWith(queue, queue + h.Reply(sub, position, room), Queued(Eose(sub), position)))
  {
    var limit := SmallestLimit(h.filters, h.maxLimit);
    ResultExactly(h, room, registered, limit);
    if Completes(h, limit, room) { CompleteReply(h, sub, position, room, limit); }
  }

  /**
    A REQ: stored events, then one EOSE, and only then the live registration. The subscription is
    opened exactly if no query fails, all stored events and the EOSE fit, and the connection is
    there; the EOSE is then the last message queued, and otherwise no connection changes.
   */
  method HandleReq(registry: SubscriptionRegistry, c: ConnId, sender: MessageSender, sub: SubId, h: HistoryRequest)
    returns (r: ReqResult)
    requires registry.Valid()
    modifies sender.channel`queue
    modifies registry`connections, registry`indexes, registry`active, registry`lists, registry`heard
    modifies registry`repr, registry.repr
    ensures registry.Valid() && fresh(registry.repr - old(registry.repr))
    ensures r == ResultOf(h, old(sender.channel.Room()), c in old(registry.connections))
    ensures sender.channel.queue ==
            old(sender.channel.queue) + h.Reply(sub, sender.position, old(sender.channel.Room()))
    ensures registry.connections ==
            if r == Registered then Opened(old(registry.connections), c, sub, h.filters) else old(registry.connections)
    ensures registry.heard ==
            HeardIfOpened(old(registry.connections), old(registry.heard), c, sub, r == Registered)
    ensures r == Registered <==>
            Completes(h, SmallestLimit(h.filters, h.maxLimit), old(sender.channel.Room())) &&
            c in old(registry.connections)
    ensures r == Registered ==>
            EndsWith(old(sender.channel.queue), sender.channel.queue, Queued(Eose(sub), sender.position))
  {
    ReqExactly(h, sub, sender.position, sender.channel.queue, sender.channel.Room(), c in registry.connections);
    var history := ProcessHistoricalEvents(h, sub, sender);
    if history != Complete {
      r := HistoryFailed(history);
    } else {
      var added := AddSubscription(registry, c, sub, h.filters);
      r := if added then Registered else NoConnection;
    }
  }
}
