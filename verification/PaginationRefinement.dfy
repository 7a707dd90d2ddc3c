/**
  Facts about picking, bounds and stalls that the theorems about paging rest on: lowering the bound
  keeps exactly the matches below it, and a bound that has reached second zero stays there.
 */
module PaginationRefinement {
  import opened Nostr
  import opened Pagination

  // ----- Taking and picking -----

  lemma {:induction false} PickAppend(a: seq<Event>, b: seq<Event>, ids: set<EventId>, visible: Event -> bool)
    ensures Pick(a + b, ids, visible) == Pick(a, ids, visible) + Pick(b, ids, visible)
    decreases |b|
  {
    if b == [] {
      assert a + b == a;
    } else {
      var init := b[..|b| - 1];
      assert (a + b)[..|a + b| - 1] == a + init;
      PickAppend(a, init, ids, visible);
    }
  }

  lemma {:induction false} PickNothing(w: seq<Event>, ids: set<EventId>, visible: Event -> bool)
    requires forall e | e in w :: e.id in ids || !visible(e)
    ensures Pick(w, ids, visible) == []
    decreases |w|
  {
    if w != [] {
      assert w[|w| - 1] in w;
      PickNothing(w[..|w| - 1], ids, visible);
    }
  }

  lemma TakeAppend<T>(a: seq<T>, b: seq<T>, n: nat)
    ensures |a| <= n ==> Take(a + b, n) == a + Take(b, n - |a|)
    ensures |a| >= n ==> Take(a + b, n) == Take(a, n)
  {
  }

  // ----- The matches below a bound -----

  /** Lowering the bound keeps exactly the matches at or below it, in order. */
  lemma {:induction false} SelectBelow(db: seq<Event>, f: Filter, v: Timestamp, k: nat)
    requires f.until.Some? ==> v <= f.until.value
    requires k <= |Select(db, f)|
    requires forall i | 0 <= i < k :: Select(db, f)[i].createdAt > v
    requires forall i | k <= i < |Select(db, f)| :: Select(db, f)[i].createdAt <= v
    ensures Select(db, f.(until := Some(v))) == Select(db, f)[k..]
    decreases |db|
  {
    if db != [] {
      var init, e := db[..|db| - 1], db[|db| - 1];
      var m0, m := Select(init, f), Select(db, f);
      assert forall i | 0 <= i < |m0| :: m[i] == m0[i];
      if Matches(f, e) {
        assert m == m0 + [e];
        assert m[|m0|] == e;
        SelectBelow(init, f, v, if e.createdAt <= v then k else |m0|);
      } else {
        assert m == m0;
        SelectBelow(init, f, v, k);
      }
    }
  }

  /** The matches a scan can still reach. */
  function Reachable(q: Scan, c: Cursor): (r: seq<Event>)
  {
    Select(q.db, Bounded(q, c))
  }

  ghost predicate DistinctTimes(s: seq<Event>)
  {
    forall i, j :: 0 <= i < j < |s| ==> s[i].createdAt != s[j].createdAt
  }

  lemma ReachableFacts(q: Scan, c: Cursor)
    requires IsStore(q.db)
    ensures NewestFirst(Reachable(q, c)) && DistinctIds(Reachable(q, c))
    ensures forall e :: e in Reachable(q, c) <==> e in q.db && Matches(Bounded(q, c), e)
  {
    SelectElements(q.db, Bounded(q, c));
    WithinKeeps(Reachable(q, c), q.db);
    assert Unfold(0);
  }

  // ----- The stall at timestamp zero -----

  /** The bound cannot go below zero: a scan that has reached it queries the same window again. */
  predicate Stalled(c: Cursor)
  {
    c.until == Some(0) && c.last == Some(0)
  }

  lemma StalledAdvance(q: Scan, c: Cursor)
    requires c.sent <= q.limit && Stalled(c)
    ensures Stalled(Advance(q, c)) && Reachable(q, Advance(q, c)) == Reachable(q, c)
  {
    OldestBound(Window(q, c), c.ids, c.last);
  }

  /** Once the window holds nothing to send, nothing is ever sent again. */
  lemma {:induction false} StalledSilent(q: Scan, c: Cursor)
    requires c.sent <= q.limit && Stalled(c)
    requires forall e | e in Window(q, c) :: e.id in c.ids || !q.visible(e)
    ensures Page(q, c).events == []
    decreases MAX_ATTEMPTS - c.attempts
  {
    PickNothing(Window(q, c), c.ids, q.visible);
    assert Sends(q, c) == [];
    if Stop(q, c).None? {
      StalledAdvance(q, c);
      StalledSilent(q, Advance(q, c));
    }
  }

  lemma {:induction false} StalledNeverEmpty(q: Scan, c: Cursor)
    requires c.sent < q.limit && Stalled(c) && Reachable(q, c) != []
    ensures Page(q, c).end != EmptyWindow
    decreases MAX_ATTEMPTS - c.attempts
  {
    if Stop(q, c).None? {
      StalledAdvance(q, c);
      StalledNeverEmpty(q, Advance(q, c));
    }
  }

  // ----- Examples -----

  const AnyFilter := Filter(None, None, None, map[], None, None, None)

  lemma SelectTwo(a: Event, b: Event, f: Filter)
    ensures Matches(f, a) && Matches(f, b) ==> Select([a, b], f) == [a, b]
    ensures !Matches(f, a) && !Matches(f, b) ==> Select([a, b], f) == []
  {
    assert [a, b][..1] == [a] && [a][..0] == [];
    assert Select([a], f) == if Matches(f, a) then [a] else [];
  }

  lemma HiddenWindow(e: Event, visible: Event -> bool)
    requires !visible(e)
    ensures Pick([e], {}, visible) == [] && Oldest([e], {}, None) == Some(e.createdAt)
  {
    assert [e][..0] == [];
  }

  /** Two events of one second and a limit of one: a visible event behind a hidden one is lost. */
  lemma SameSecondExample(hidden: Event, shown: Event, visible: Event -> bool)
    requires hidden.createdAt == shown.createdAt > 0 && !visible(hidden) && visible(shown)
    ensures var q := Scan([hidden, shown], AnyFilter, 1, visible);
            && PageFilter(q, {}) == Paging([], [[hidden]], EmptyWindow)
            && shown in q.db && Matches(q.filter, shown) && q.visible(shown)
  {
    var q := Scan([hidden, shown], AnyFilter, 1, visible);
    var c := Begin(q, {});
    SelectTwo(hidden, shown, Bounded(q, c));
    assert Window(q, c) == [hidden];
    HiddenWindow(hidden, visible);
    SortSorted([]);
    var next := Advance(q, c);
    assert next == Cursor({}, Some(hidden.createdAt - 1), Some(hidden.createdAt), 0, 1);
    SelectTwo(hidden, shown, Bounded(q, next));
    assert Window(q, next) == [];
  }
}
