/**
  The historical part of a REQ, query by query: a failing store query ends it early, and then
  exactly what the queries before it sent has been sent.
 */
module PartialPaging {
  import opened Nostr
  import opened Pagination

  /** What each query of a scan sends. */
  function Turns(q: Scan, c: Cursor): (r: seq<seq<Event>>)
    requires c.sent <= q.limit
    ensures r != []
    decreases MAX_ATTEMPTS - c.attempts
  {
    if Stop(q, c).Some? then [Sends(q, c)] else [Sends(q, c)] + Turns(q, Advance(q, c))
  }

  /** What each query for the last filter sends. */
  function LastTurns(db: seq<Event>, fs: seq<Filter>, limit: nat, visible: Event -> bool): (r: seq<seq<Event>>)
    requires fs != []
  {
    var q := Scan(db, fs[|fs| - 1], limit, visible);
    Turns(q, Begin(q, Ids(Flatten(PageFilters(db, fs[..|fs| - 1], limit, visible)))))
  }

  /** What each query of a REQ sends. */
  function TurnsOf(db: seq<Event>, fs: seq<Filter>, limit: nat, visible: Event -> bool): (r: seq<seq<Event>>)
    decreases |fs|
  {
    if fs == [] then [] else TurnsOf(db, fs[..|fs| - 1], limit, visible) + LastTurns(db, fs, limit, visible)
  }

  // ----- Flattening -----

  lemma FlattenLast<T>(parts: seq<seq<T>>, last: seq<T>)
    ensures Flatten(parts + [last]) == Flatten(parts) + last
  {
    assert (parts + [last])[..|parts|] == parts;
  }

  lemma {:induction false} FlattenAppend<T>(a: seq<seq<T>>, b: seq<seq<T>>)
    ensures Flatten(a + b) == Flatten(a) + Flatten(b)
    decreases |b|
  {
    if b == [] {
      assert a + b == a;
    } else {
      var init := b[..|b| - 1];
      assert (a + b)[..|a + b| - 1] == a + init;
      FlattenAppend(a, init);
    }
  }

  lemma FlattenOne<T>(s: seq<T>)
    ensures Flatten([s]) == s
  {
    assert [s][..0] == [];
  }

  // ----- All queries together send what the REQ sends -----

  lemma {:induction false} FlattenTurns(q: Scan, c: Cursor)
    requires c.sent <= q.limit
    ensures Flatten(Turns(q, c)) == Page(q, c).events
    decreases MAX_ATTEMPTS - c.attempts
  {
    FlattenOne(Sends(q, c));
    if Stop(q, c).None? {
      FlattenTurns(q, Advance(q, c));
      FlattenAppend([Sends(q, c)], Turns(q, Advance(q, c)));
    } else if Window(q, c) == [] {
      assert Sends(q, c) == [];
    }
  }

  lemma {:induction false} AllTurns(db: seq<Event>, fs: seq<Filter>, limit: nat, visible: Event -> bool)
    ensures Flatten(TurnsOf(db, fs, limit, visible)) == Flatten(PageFilters(db, fs, limit, visible))
    decreases |fs|
  {
    if fs != [] {
      var init, q := fs[..|fs| - 1], Scan(db, fs[|fs| - 1], limit, visible);
      var before := PageFilters(db, init, limit, visible);
      AllTurns(db, init, limit, visible);
      FlattenAppend(TurnsOf(db, init, limit, visible), LastTurns(db, fs, limit, visible));
      FlattenTurns(q, Begin(q, Ids(Flatten(before))));
      FlattenLast(before, PageFilter(q, Ids(Flatten(before))).events);
    }
  }

  /** The queries of the first filters come first. */
  lemma {:induction false} TurnsOfInit(db: seq<Event>, fs: seq<Filter>, limit: nat, visible: Event -> bool, i: nat)
    requires i <= |fs|
    ensures TurnsOf(db, fs[..i], limit, visible) <= TurnsOf(db, fs, limit, visible)
    decreases |fs|
  {
    if i == |fs| {
      assert fs[..i] == fs;
    } else {
      assert fs[..|fs| - 1][..i] == fs[..i];
      TurnsOfInit(db, fs[..|fs| - 1], limit, visible, i);
    }
  }

  /** Fewer queries send a prefix. */
  lemma FlattenPrefix<T>(ss: seq<seq<T>>, n: nat)
    requires n <= |ss|
    ensures Flatten(ss[..n]) <= Flatten(ss)
  {
    assert ss == ss[..n] + ss[n..];
    FlattenAppend(ss[..n], ss[n..]);
  }

  /** Whatever the queries before a failing one sent is a prefix of what the whole REQ would send. */
  lemma FailedReqSendsPrefix(db: seq<Event>, fs: seq<Filter>, limit: nat, visible: Event -> bool, n: nat)
    requires n <= |TurnsOf(db, fs, limit, visible)|
    ensures Flatten(TurnsOf(db, fs, limit, visible)[..n]) <= Flatten(PageFilters(db, fs, limit, visible))
  {
    AllTurns(db, fs, limit, visible);
    FlattenPrefix(TurnsOf(db, fs, limit, visible), n);
  }
}
