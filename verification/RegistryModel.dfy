/**
  The registry's state as values: the agreement between connections and scope indexes, the
  subscription count, and how each index operation moves the agreement.
 */
module RegistryModel {
  import opened Nostr
  import opened IndexModel
  import opened IndexRefinement
  import opened Hearing
  import opened Messaging

  datatype Connection = Connection(subscriptions: map<SubId, seq<Filter>>, sender: MessageSender, scope: Scope)

  type Connections = map<ConnId, Connection>

  /** The subscription is open on a live connection of the scope. */
  predicate Open(conns: Connections, s: Scope, key: Key)
  {
    key.0 in conns && conns[key.0].scope == s && key.1 in conns[key.0].subscriptions
  }

  /** The lists hold, for every live connection of the scope, exactly its open subscriptions' filters, and no others. */
  ghost predicate Agrees(conns: Connections, s: Scope, lists: map<Key, seq<Filter>>)
  {
    forall key: Key :: (key in lists <==> Open(conns, s, key)) &&
                       (key in lists ==> lists[key] == conns[key.0].subscriptions[key.1])
  }

  /** The number of open subscriptions over all connections. */
  ghost function Total(conns: Connections): (n: nat)
    decreases |conns|
  {
    if conns == map[] then 0
    else
      var c :| c in conns;
      |conns[c].subscriptions| + Total(conns - {c})
  }

  /** Mentioned where a proof looks at the total itself. */
  predicate Tally(n: nat)
  {
    true
  }

  /** The counter is the number of open subscriptions. */
  ghost predicate Counted(conns: Connections, active: int)
  {
    forall n: nat {:trigger Tally(n)} :: Tally(n) ==> active == Total(conns)
  }

  /** The filter lists of every scope's index. */
  type Lists = map<Scope, map<Key, seq<Filter>>>

  ghost predicate ScopesOk(conns: Connections, lists: Lists)
  {
    forall s | s in lists :: Agrees(conns, s, lists[s])
  }

  /** Every scope with an open subscription has an index. */
  ghost predicate Indexed(conns: Connections, lists: Lists)
  {
    forall c | c in conns && conns[c].subscriptions != map[] :: conns[c].scope in lists
  }

  /** No two connections share a channel. */
  ghost predicate OwnChannels(conns: Connections)
  {
    forall c, d | c in conns && d in conns && c != d :: conns[c].sender.channel != conns[d].sender.channel
  }

  ghost predicate StateOk(conns: Connections, lists: Lists, active: int)
  {
    forall n: nat {:trigger Unfold(n)} :: Unfold(n) ==>
      ScopesOk(conns, lists) && Indexed(conns, lists) && Counted(conns, active) && OwnChannels(conns)
  }

  /** The connections after a subscription is opened (or overwritten), or closed. */
  function Opened(conns: Connections, c: ConnId, sub: SubId, fs: seq<Filter>): (r: Connections)
    requires c in conns
  {
    conns[c := conns[c].(subscriptions := conns[c].subscriptions[sub := fs])]
  }

  function Closed(conns: Connections, c: ConnId, sub: SubId): (r: Connections)
    requires c in conns
  {
    conns[c := conns[c].(subscriptions := conns[c].subscriptions - {sub})]
  }

  ghost function ChannelsOf(conns: Connections): (r: set<Channel>)
  {
    set c | c in conns :: conns[c].sender.channel
  }

  lemma ClosedAbsent(conns: Connections, c: ConnId, sub: SubId)
    requires c in conns && sub !in conns[c].subscriptions
    ensures Closed(conns, c, sub) == conns
  {
    assert conns[c].subscriptions - {sub} == conns[c].subscriptions;
    SameMap(Closed(conns, c, sub), conns);
  }

  // ----- Counting -----

  lemma {:induction false} TotalSplit(conns: Connections, c: ConnId)
    requires c in conns
    ensures Total(conns) == |conns[c].subscriptions| + Total(conns - {c})
    decreases |conns|
  {
    var d :| d in conns && Total(conns) == |conns[d].subscriptions| + Total(conns - {d});
    if d != c {
      TotalSplit(conns - {d}, c);
      TotalSplit(conns - {c}, d);
      SameMap(conns - {d} - {c}, conns - {c} - {d});
    }
  }

  function OpenAt(conns: Connections, c: ConnId): (n: nat)
  {
    if c in conns then |conns[c].subscriptions| else 0
  }

  lemma TotalWithout(conns: Connections, c: ConnId)
    ensures Total(conns) == Total(conns - {c}) + OpenAt(conns, c)
  {
    if c in conns { TotalSplit(conns, c); } else { SameMap(conns - {c}, conns); }
  }

  lemma TotalUpdate(conns: Connections, c: ConnId, conn: Connection)
    ensures Total(conns[c := conn]) == Total(conns) - OpenAt(conns, c) + |conn.subscriptions|
  {
    TotalWithout(conns, c);
    TotalWithout(conns[c := conn], c);
    SameMap(conns[c := conn] - {c}, conns - {c});
  }

  lemma CountedUpdate(conns: Connections, active: int, c: ConnId, conn: Connection, after: int)
    requires Counted(conns, active)
    ensures Counted(conns[c := conn], after) <==> after == active - OpenAt(conns, c) + |conn.subscriptions|
  {
    assert Tally(0);
    TotalUpdate(conns, c, conn);
  }

  lemma CountedWithout(conns: Connections, active: int, c: ConnId)
    requires Counted(conns, active)
    ensures Counted(conns - {c}, active - OpenAt(conns, c))
  {
    assert Tally(0);
    TotalWithout(conns, c);
  }

  // ----- Which subscriptions a connection update touches -----

  /** Another scope's index keeps agreeing when a connection of this scope changes its subscriptions. */
  lemma AgreesElsewhere(conns: Connections, c: ConnId, subs: map<SubId, seq<Filter>>, t: Scope,
                        lists: map<Key, seq<Filter>>)
    requires c in conns && conns[c].scope != t
    requires Agrees(conns, t, lists)
    ensures Agrees(conns[c := conns[c].(subscriptions := subs)], t, lists)
    ensures Agrees(conns - {c}, t, lists)
  {
    var after, without := conns[c := conns[c].(subscriptions := subs)], conns - {c};
    forall key: Key ensures Open(after, t, key) <==> Open(conns, t, key)
                    ensures Open(without, t, key) <==> Open(conns, t, key) {}
  }

  lemma AgreesAdd(conns: Connections, c: ConnId, sub: SubId, fs: seq<Filter>, lists: map<Key, seq<Filter>>)
    requires c in conns && Agrees(conns, conns[c].scope, lists)
    ensures var conn := conns[c];
            var after := conns[c := conn.(subscriptions := conn.subscriptions[sub := fs])];
            Agrees(after, conn.scope, lists[(c, sub) := Get(lists, (c, sub)) + fs]) <==>
              (sub !in conn.subscriptions || conn.subscriptions[sub] == [])
  {
    var conn := conns[c];
    var after := conns[c := conn.(subscriptions := conn.subscriptions[sub := fs])];
    var added := lists[(c, sub) := Get(lists, (c, sub)) + fs];
    forall key: Key ensures key in added <==> Open(after, conn.scope, key)
                    ensures key in added && key != (c, sub) ==> added[key] == after[key.0].subscriptions[key.1] {
      assert key in lists <==> Open(conns, conn.scope, key);
    }
    assert (c, sub) in lists <==> Open(conns, conn.scope, (c, sub));
    assert |added[(c, sub)]| == |Get(lists, (c, sub))| + |fs|;
    if sub !in conn.subscriptions || conn.subscriptions[sub] == [] {
      assert Get(lists, (c, sub)) == [];
      assert added[(c, sub)] == fs;
    } else {
      assert added[(c, sub)] != fs;
    }
  }

  lemma AgreesRemove(conns: Connections, c: ConnId, sub: SubId, lists: map<Key, seq<Filter>>)
    requires c in conns && Agrees(conns, conns[c].scope, lists)
    ensures Agrees(conns[c := conns[c].(subscriptions := conns[c].subscriptions - {sub})], conns[c].scope,
                   lists - {(c, sub)})
  {
    var after := conns[c := conns[c].(subscriptions := conns[c].subscriptions - {sub})];
    forall key: Key ensures key in lists - {(c, sub)} <==> Open(after, conns[c].scope, key) {
      assert key in lists <==> Open(conns, conns[c].scope, key);
    }
  }

  /** Once a connection has no open subscription, dropping it changes no agreement. */
  lemma AgreesDrop(conns: Connections, c: ConnId, t: Scope, lists: map<Key, seq<Filter>>)
    requires c in conns && conns[c].subscriptions == map[] && Agrees(conns, t, lists)
    ensures Agrees(conns - {c}, t, lists)
  {
    forall key: Key ensures Open(conns - {c}, t, key) <==> Open(conns, t, key) {}
  }

  lemma AgreesRegister(conns: Connections, c: ConnId, conn: Connection, t: Scope, lists: map<Key, seq<Filter>>)
    requires conn.subscriptions == map[] && (c !in conns || conns[c].subscriptions == map[])
    requires Agrees(conns, t, lists)
    ensures Agrees(conns[c := conn], t, lists)
  {
    var after := conns[c := conn];
    forall key: Key ensures Open(after, t, key) <==> Open(conns, t, key) {}
  }

  function ListsOf(lists: Lists, s: Scope): (m: map<Key, seq<Filter>>)
  {
    if s in lists then lists[s] else map[]
  }

  // ----- How the registry's operations keep its invariant -----

  /** A scope without an index has no open subscription. */
  lemma ListsOfAgree(conns: Connections, lists: Lists, active: int, s: Scope)
    requires StateOk(conns, lists, active)
    ensures Agrees(conns, s, ListsOf(lists, s))
  {
    assert Unfold(0);
    if s !in lists {
      forall key: Key ensures !Open(conns, s, key) {}
    }
  }

  lemma ScopesOkAfter(conns: Connections, lists: Lists, c: ConnId, subs: map<SubId, seq<Filter>>,
                      m: map<Key, seq<Filter>>)
    requires ScopesOk(conns, lists) && c in conns
    ensures var after := conns[c := conns[c].(subscriptions := subs)];
            ScopesOk(after, lists[conns[c].scope := m]) <==> Agrees(after, conns[c].scope, m)
  {
    var s, after := conns[c].scope, conns[c := conns[c].(subscriptions := subs)];
    var lists' := lists[s := m];
    forall t | t in lists' && t != s
      ensures Agrees(after, t, lists'[t])
    {
      AgreesElsewhere(conns, c, subs, t, lists[t]);
    }
    assert s in lists' && lists'[s] == m;
  }

  lemma IndexedAfter(conns: Connections, lists: Lists, c: ConnId, subs: map<SubId, seq<Filter>>,
                     m: map<Key, seq<Filter>>)
    requires Indexed(conns, lists) && c in conns
    ensures Indexed(conns[c := conns[c].(subscriptions := subs)], lists[conns[c].scope := m])
  {
    var after := conns[c := conns[c].(subscriptions := subs)];
    forall d | d in after && after[d].subscriptions != map[] ensures after[d].scope in lists[conns[c].scope := m] {
      if d != c { assert conns[d].scope in lists; }
    }
  }

  /** Changing one connection's subscriptions is judged by its own scope's lists and the count alone. */
  lemma StateOkAfter(conns: Connections, lists: Lists, active: int, c: ConnId, subs: map<SubId, seq<Filter>>,
                     m: map<Key, seq<Filter>>)
    requires StateOk(conns, lists, active) && c in conns
    ensures var after := conns[c := conns[c].(subscriptions := subs)];
            StateOk(after, lists[conns[c].scope := m], active - |conns[c].subscriptions| + |subs|) <==>
            Agrees(after, conns[c].scope, m)
  {
    assert Unfold(0);
    CountedUpdate(conns, active, c, conns[c].(subscriptions := subs), active - |conns[c].subscriptions| + |subs|);
    ScopesOkAfter(conns, lists, c, subs, m);
    IndexedAfter(conns, lists, c, subs, m);
  }

  /** The filter lists after an addition to one scope's index. */
  function Appended(lists: Lists, s: Scope, key: Key, fs: seq<Filter>): (r: Lists)
  {
    lists[s := ListsOf(lists, s)[key := Get(ListsOf(lists, s), key) + fs]]
  }

  /** An addition on its own is sound: the subscription is new, or was open with no filter. */
  predicate AddIsSound(conns: Connections, c: ConnId, sub: SubId)
    requires c in conns
  {
    sub !in conns[c].subscriptions || conns[c].subscriptions[sub] == []
  }

  /** Adding keeps the invariant exactly when it is sound; otherwise the index accumulates old and new filters. */
  lemma AddStateOk(conns: Connections, lists: Lists, active: int, c: ConnId, sub: SubId, fs: seq<Filter>)
    requires StateOk(conns, lists, active) && c in conns
    ensures AddIsSound(conns, c, sub) <==>
            StateOk(Opened(conns, c, sub, fs), Appended(lists, conns[c].scope, (c, sub), fs),
                    active + (if sub in conns[c].subscriptions then 0 else 1))
  {
    assert Unfold(0);
    var conn := conns[c];
    var m := ListsOf(lists, conn.scope);
    ListsOfAgree(conns, lists, active, conn.scope);
    AgreesAdd(conns, c, sub, fs, m);
    StateOkAfter(conns, lists, active, c, conn.subscriptions[sub := fs], m[(c, sub) := Get(m, (c, sub)) + fs]);
  }

  lemma RemoveStateOk(conns: Connections, lists: Lists, active: int, c: ConnId, sub: SubId)
    requires StateOk(conns, lists, active) && c in conns && sub in conns[c].subscriptions
    ensures conns[c].scope in lists
    ensures var conn := conns[c];
            StateOk(Closed(conns, c, sub),
                    lists[conn.scope := lists[conn.scope] - {(c, sub)}], active - 1)
  {
    assert Unfold(0);
    var conn := conns[c];
    assert conn.scope in lists;
    AgreesRemove(conns, c, sub, lists[conn.scope]);
    StateOkAfter(conns, lists, active, c, conn.subscriptions - {sub}, lists[conn.scope] - {(c, sub)});
  }

  lemma RegisterStateOk(conns: Connections, lists: Lists, active: int, c: ConnId, conn: Connection)
    requires StateOk(conns, lists, active) && conn.subscriptions == map[]
    requires forall d | d in conns :: conns[d].sender.channel != conn.sender.channel
    ensures StateOk(conns[c := conn], lists, active) <==> (c !in conns || conns[c].subscriptions == map[])
  {
    assert Unfold(0);
    CountedUpdate(conns, active, c, conn, active);
    if c !in conns || conns[c].subscriptions == map[] {
      var after := conns[c := conn];
      forall t | t in lists ensures Agrees(after, t, lists[t]) { AgreesRegister(conns, c, conn, t, lists[t]); }
      forall d | d in after && after[d].subscriptions != map[] ensures after[d].scope in lists { assert d in conns; }
    } else {
      assert |conns[c].subscriptions| > 0;
    }
  }

  function KeysOf(c: ConnId, subs: set<SubId>): (r: set<Key>)
  {
    set sub | sub in subs :: (c, sub)
  }

  lemma AgreesCleanup(conns: Connections, c: ConnId, m: map<Key, seq<Filter>>)
    requires c in conns && Agrees(conns, conns[c].scope, m)
    ensures Agrees(conns - {c}, conns[c].scope, m - KeysOf(c, conns[c].subscriptions.Keys))
  {
    var r := m - KeysOf(c, conns[c].subscriptions.Keys);
    forall key: Key ensures key in r <==> Open(conns - {c}, conns[c].scope, key) {
      assert key in m <==> Open(conns, conns[c].scope, key);
      assert key in KeysOf(c, conns[c].subscriptions.Keys) <==> key.0 == c && key.1 in conns[c].subscriptions.Keys;
    }
  }

  lemma CleanupScopesOk(conns: Connections, lists: Lists, c: ConnId)
    requires ScopesOk(conns, lists) && c in conns && conns[c].scope in lists
    ensures var s := conns[c].scope;
            ScopesOk(conns - {c}, lists[s := lists[s] - KeysOf(c, conns[c].subscriptions.Keys)])
  {
    var s := conns[c].scope;
    var lists' := lists[s := lists[s] - KeysOf(c, conns[c].subscriptions.Keys)];
    AgreesCleanup(conns, c, lists[s]);
    forall t | t in lists' ensures Agrees(conns - {c}, t, lists'[t]) {
      if t != s { AgreesElsewhere(conns, c, map[], t, lists[t]); }
    }
  }

  /** The filter lists after some subscriptions of a connection are removed from one scope's index, if there is one. */
  function Removed(lists: Lists, s: Scope, c: ConnId, subs: set<SubId>): (r: Lists)
  {
    if s in lists then lists[s := lists[s] - KeysOf(c, subs)] else lists
  }

  /** Cleaning up a connection takes exactly its own subscriptions out of its scope's lists and off the count. */
  lemma CleanupStateOk(conns: Connections, lists: Lists, active: int, c: ConnId)
    requires StateOk(conns, lists, active) && c in conns
    ensures StateOk(conns - {c}, Removed(lists, conns[c].scope, c, conns[c].subscriptions.Keys),
                    active - |conns[c].subscriptions.Keys|)
  {
    assert Unfold(0);
    CountedWithout(conns, active, c);
    assert |conns[c].subscriptions.Keys| == |conns[c].subscriptions|;
    if conns[c].scope in lists {
      CleanupScopesOk(conns, lists, c);
    } else {
      assert conns[c].subscriptions == map[];
      DropStateOk(conns, lists, active, c);
    }
  }

  lemma DropStateOk(conns: Connections, lists: Lists, active: int, c: ConnId)
    requires StateOk(conns, lists, active) && c in conns && conns[c].subscriptions == map[]
    ensures StateOk(conns - {c}, lists, active)
  {
    assert Unfold(0);
    CountedWithout(conns, active, c);
    forall t | t in lists ensures Agrees(conns - {c}, t, lists[t]) { AgreesDrop(conns, c, t, lists[t]); }
  }

  // ----- The reference for delivery: scan every connection of the scope -----

  /** A scan of the scope's connections finds the subscription. */
  predicate ScanFinds(conns: Connections, s: Scope, e: Event, key: Key)
  {
    Open(conns, s, key) && AnyMatches(conns[key.0].subscriptions[key.1], e)
  }

  /** The events every subscription of a scope has heard since it was opened. */
  type Heard = map<Scope, Hearings>

  function HeardIn(heard: Heard, s: Scope): (h: Hearings)
  {
    if s in heard then heard[s] else map[]
  }

  /** Mentioned where a proof looks at what was heard. */
  predicate Recall(n: nat)
  {
    true
  }

  /** Every subscription of every scope's index is accounted for. */
  ghost predicate AllHeard(lists: Lists, heard: Heard)
  {
    forall n: nat {:trigger Recall(n)} :: Recall(n) ==> forall s | s in lists :: lists[s].Keys <= HeardIn(heard, s).Keys
  }

  /** The open subscription is to be told of the event, given what it has heard. */
  predicate Tells(conns: Connections, heard: Hearings, s: Scope, e: Event, key: Key)
  {
    Open(conns, s, key) && key in heard && Told(conns[key.0].subscriptions[key.1], heard[key], e)
  }

  /** None of the subscriptions has heard the event before. */
  ghost predicate Unheard(heard: Hearings, e: Event)
  {
    forall key, i | key in heard && 0 <= i < |heard[key]| :: heard[key][i].id != e.id
  }

  /** Only finds of a scan are told, and of an event not heard before all of them. */
  lemma TellsWithinScan(conns: Connections, heard: Hearings, s: Scope, e: Event, key: Key)
    ensures Tells(conns, heard, s, e, key) ==> ScanFinds(conns, s, e, key)
    ensures Unheard(heard, e) && key in heard && ScanFinds(conns, s, e, key) ==> Tells(conns, heard, s, e, key)
  {
    if Open(conns, s, key) && key in heard {
      var fs := conns[key.0].subscriptions[key.1];
      ToldMatches(fs, heard[key], e);
      if Unheard(heard, e) { NewIsTold(fs, heard[key], e); }
    }
  }

  /** The scan of a scope's filter lists, seen from the connections. */
  lemma ListScanIsConnectionScan(conns: Connections, s: Scope, m: map<Key, seq<Filter>>, e: Event)
    requires Agrees(conns, s, m)
    ensures forall key :: key in LinearScan(m, e) <==> ScanFinds(conns, s, e, key)
  {
    forall key
      ensures key in LinearScan(m, e) <==> ScanFinds(conns, s, e, key)
    {
      assert key in m <==> Open(conns, s, key);
    }
  }

  /** The EVENT messages for one connection, in the order its subscriptions are reported. */
  function Batch(reported: seq<Key>, c: ConnId, e: Event, position: nat): (ms: seq<Queued>)
    decreases |reported|
  {
    if reported == [] then []
    else
      var ms, last := Batch(reported[..|reported| - 1], c, e, position), reported[|reported| - 1];
      if last.0 == c then ms + [Queued(EventMsg(last.1, e), position)] else ms
  }

  /** The dead connections are those whose batch exceeds the room their channel had. */
  ghost predicate Overfull(conns: Connections, rooms: map<ConnId, nat>, reported: seq<Key>, e: Event, dead: seq<ConnId>)
    requires rooms.Keys == conns.Keys
  {
    forall c :: c in dead <==> c in conns && |Batch(reported, c, e, conns[c].sender.position)| > rooms[c]
  }

  lemma BatchNext(reported: seq<Key>, key: Key, c: ConnId, e: Event, position: nat)
    ensures Batch(reported + [key], c, e, position) ==
            Batch(reported, c, e, position) + if key.0 == c then [Queued(EventMsg(key.1, e), position)] else []
  {
    assert (reported + [key])[..|reported|] == reported;
  }

  /** One more report can only make its own connection overflow. */
  lemma OverfullNext(conns: Connections, rooms: map<ConnId, nat>, reported: seq<Key>, e: Event, key: Key,
                     dead: seq<ConnId>, refused: bool)
    requires rooms.Keys == conns.Keys && Overfull(conns, rooms, reported, e, dead)
    requires refused <==> key.0 in conns && |Batch(reported, key.0, e, conns[key.0].sender.position)| >= rooms[key.0]
    ensures Overfull(conns, rooms, reported + [key], e, if refused then dead + [key.0] else dead)
  {
    forall c | c in conns { BatchNext(reported, key, c, e, conns[c].sender.position); }
  }

  /** Every connection has taken what it had room for of its batch. */
  ghost predicate Delivered(conns: Connections, queues: map<ConnId, seq<Queued>>, rooms: map<ConnId, nat>,
                            reported: seq<Key>, e: Event)
    requires queues.Keys == rooms.Keys == conns.Keys
    reads ChannelsOf(conns)
  {
    forall c | c in conns ::
      Received(conns[c].sender.channel, queues[c], rooms[c], Batch(reported, c, e, conns[c].sender.position))
  }

  lemma {:induction false} NoBatch(reported: seq<Key>, c: ConnId, e: Event, position: nat)
    requires forall key | key in reported :: key.0 != c
    ensures Batch(reported, c, e, position) == []
    decreases |reported|
  {
    if reported != [] {
      assert reported[|reported| - 1] in reported;
      NoBatch(reported[..|reported| - 1], c, e, position);
    }
  }

  /** A connection's batch holds one EVENT for each of its reported subscriptions, and nothing else. */
  lemma {:induction false} BatchElements(reported: seq<Key>, c: ConnId, e: Event, position: nat)
    requires NoDuplicates(reported)
    ensures NoDuplicates(Batch(reported, c, e, position))
    ensures forall m :: m in Batch(reported, c, e, position) <==>
                        m.message.EventMsg? && m.message.event == e && m.position == position &&
                        (c, m.message.sub) in reported
    decreases |reported|
  {
    if reported != [] {
      var init, last := reported[..|reported| - 1], reported[|reported| - 1];
      BatchElements(init, c, e, position);
      assert last !in init;
      assert reported == init + [last];
    }
  }
}
