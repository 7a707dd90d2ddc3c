/**
  The registry: live connections, one index object per scope, and the active-subscription
  counter, all updated in place. Its invariant says that every scope's index holds exactly the
  open subscriptions of the scope's live connections and that the counter is their number.
 */
module SubscriptionRegistries {
  import opened Nostr
  import opened IndexModel
  import opened IndexRefinement
  import opened Hearing
  import opened SubscriptionIndexes
  import opened Messaging
  import opened RegistryModel

  // ----- One index object, seen through the filter lists it holds -----

  /** The index object is sound, holds exactly the given filter lists, and accounts for what was heard. */
  ghost predicate Holds(index: SubscriptionIndex, m: map<Key, seq<Filter>>, heard: Hearings)
    reads index
  {
    forall n: nat {:trigger Unfold(n)} :: Unfold(n) ==> index.Ok() && index.contents == m && index.heard == heard
  }

  method NewIndex() returns (index: SubscriptionIndex)
    ensures fresh(index) && Holds(index, map[], map[])
  {
    index := new SubscriptionIndex();
  }

  method AddToOne(index: SubscriptionIndex, ghost m: map<Key, seq<Filter>>, ghost heard: Hearings, key: Key,
                  filters: seq<Filter>)
    requires Holds(index, m, heard)
    modifies index
    ensures Holds(index, m[key := Get(m, key) + filters], HeardAdd(m, heard, key))
  {
    assert Unfold(0);
    index.AddSubscription(key.0, key.1, filters);
  }

  method RemoveFromOne(index: SubscriptionIndex, ghost m: map<Key, seq<Filter>>, ghost heard: Hearings, key: Key)
    requires Holds(index, m, heard)
    modifies index
    ensures Holds(index, m - {key}, heard)
  {
    assert Unfold(0);
    index.RemoveSubscription(key.0, key.1);
  }

  method DistributeOne(index: SubscriptionIndex, ghost m: map<Key, seq<Filter>>, ghost heard: Hearings, e: Event)
    returns (r: seq<Key>)
    requires Holds(index, m, heard) && m.Keys <= heard.Keys
    modifies index
    ensures Holds(index, m, Hear(heard, e))
    ensures NoDuplicates(r) && forall key :: key in r <==> key in m && Told(m[key], heard[key], e)
  {
    assert Unfold(0);
    r := index.DistributeEvent(e);
    assert forall key :: key in r <==> key in Elements(r);
  }

  /** Mentioned where a proof looks at the index objects one by one. */
  predicate Look(n: nat)
  {
    true
  }

  class SubscriptionRegistry {
    var connections: Connections
    var indexes: map<Scope, SubscriptionIndex>
    var active: int
    /** What the subscriptions of each scope have heard since they were opened. */
    ghost var heard: Heard
    /** The filter lists the index objects hold. */
    ghost var lists: Lists

    /** The index objects. */
    ghost var repr: set<SubscriptionIndex>

    ghost function Channels(): (r: set<Channel>)
      reads this`connections
    {
      ChannelsOf(connections)
    }

    /** Every scope has an index object of its own, which holds the scope's filter lists. */
    ghost predicate Linked()
      reads this`indexes, this`lists, this`heard, this`repr, repr
    {
      indexes.Keys == lists.Keys == heard.Keys &&
      forall n: nat {:trigger Look(n)} :: Look(n) ==>
        Separate() && forall s | s in indexes :: indexes[s] in repr && Holds(indexes[s], lists[s], heard[s])
    }

    /** No two scopes share an index. */
    ghost predicate Separate()
      reads this`indexes
    {
      forall s, t | s in indexes && t in indexes && s != t :: indexes[s] != indexes[t]
    }

    ghost predicate Valid()
      reads this, repr
    {
      Linked() && StateOk(connections, lists, active) && AllHeard(lists, heard)
    }

    constructor ()
      ensures Valid() && connections == map[] && active == 0 && repr == {} && heard == map[]
    {
      connections, indexes, active, heard, lists, repr := map[], map[], 0, map[], map[], {};
    }

    /**
      Registers a connection under its own new channel. An id that is already live is overwritten;
      the invariant survives this exactly when the old connection had no open subscription.
     */
    method RegisterConnection(c: ConnId, sender: MessageSender, scope: Scope)
      requires Valid() && sender.channel !in Channels()
      modifies this`connections
      ensures connections == old(connections)[c := Connection(map[], sender, scope)]
      ensures Valid() <==> (c !in old(connections) || old(connections)[c].subscriptions == map[])
    {
      RegisterStateOk(connections, lists, active, c, Connection(map[], sender, scope));
      connections := connections[c := Connection(map[], sender, scope)];
    }

    /**
      Adds a subscription on its own, without closing an earlier one of the same id. `AddStateOk`
      says exactly when this keeps the invariant.
     */
    method AddSubscription(c: ConnId, sub: SubId, filters: seq<Filter>) returns (found: bool)
      requires Valid()
      modifies this`connections, this`indexes, this`active, this`lists, this`heard, this`repr, repr
      ensures found <==> c in old(connections)
      ensures !found ==>
        connections == old(connections) && active == old(active) && lists == old(lists) && heard == old(heard)
      ensures found ==>
        && connections == Opened(old(connections), c, sub, filters)
        && active == old(active) + (if sub in old(connections)[c].subscriptions then 0 else 1)
        && lists == Appended(old(lists), old(connections)[c].scope, (c, sub), filters)
      ensures Linked()
      ensures (found ==> AddIsSound(old(connections), c, sub)) ==> Valid()
      ensures found && AddIsSound(old(connections), c, sub) ==>
        heard == OpenedHeard(old(heard), old(connections)[c].scope, (c, sub))
      ensures fresh(repr - old(repr))
    {
      found := c in connections;
      if found {
        AddOpen(c, sub, filters);
      }
    }

    method AddOpen(c: ConnId, sub: SubId, filters: seq<Filter>)
      requires Valid() && c in connections
      modifies this`connections, this`indexes, this`active, this`lists, this`heard, this`repr, repr
      ensures connections == Opened(old(connections), c, sub, filters)
      ensures active == old(active) + (if sub in old(connections)[c].subscriptions then 0 else 1)
      ensures lists == Appended(old(lists), old(connections)[c].scope, (c, sub), filters)
      ensures Linked()
      ensures AddIsSound(old(connections), c, sub) ==>
        Valid() && heard == OpenedHeard(old(heard), old(connections)[c].scope, (c, sub))
      ensures fresh(repr - old(repr))
    {
      var conn := connections[c];
      if AddIsSound(connections, c, sub) {
        AddStateOk(connections, lists, active, c, sub, filters);
        SoundIsBare(connections, lists, active, heard, c, sub);
      }
      HeardAfter(lists, heard, conn.scope, (c, sub), filters);
      connections := Opened(connections, c, sub, filters);
      if sub !in conn.subscriptions {
        active := active + 1;
      }
      AddToIndex(conn.scope, (c, sub), filters);
    }

    /** Adds to the scope's index, which is created on first use. */
    method AddToIndex(scope: Scope, key: Key, filters: seq<Filter>)
      requires Linked()
      modifies this`indexes, this`lists, this`heard, this`repr, repr
      ensures Linked()
      ensures lists == Appended(old(lists), scope, key, filters)
      ensures heard == AddedHeard(old(lists), old(heard), scope, key)
      ensures fresh(repr - old(repr))
    {
      EnsureIndex(scope);
      AddToExisting(scope, key, filters);
      UpdateTwice(old(lists), scope, ListsOf(old(lists), scope), lists[scope]);
      UpdateTwice(old(heard), scope, HeardIn(old(heard), scope), heard[scope]);
    }

    method AddToExisting(scope: Scope, key: Key, filters: seq<Filter>)
      requires Linked() && scope in indexes
      modifies this`lists, this`heard, indexes[scope]
      ensures Linked() && lists == old(lists)[scope := old(lists)[scope][key := Get(old(lists)[scope], key) + filters]]
      ensures heard == AddedHeard(old(lists), old(heard), scope, key)
    {
      assert Look(0);
      AddToOne(indexes[scope], lists[scope], heard[scope], key, filters);
      heard := AddedHeard(lists, heard, scope, key);
      lists := lists[scope := lists[scope][key := Get(lists[scope], key) + filters]];
    }

    method EnsureIndex(scope: Scope)
      requires Linked()
      modifies this`indexes, this`lists, this`heard, this`repr
      ensures Linked() && scope in indexes
      ensures lists == old(lists)[scope := ListsOf(old(lists), scope)]
      ensures heard == old(heard)[scope := HeardIn(old(heard), scope)]
      ensures fresh(repr - old(repr)) && (indexes[scope] in old(repr) || fresh(indexes[scope]))
    {
      if scope in indexes {
        assert indexes[scope] in repr by { assert Look(0); }
        SameMap(lists, lists[scope := lists[scope]]);
        SameMap(heard, heard[scope := heard[scope]]);
      } else {
        CreateIndex(scope);
      }
    }

    method CreateIndex(scope: Scope)
      requires Linked() && scope !in indexes
      modifies this`indexes, this`lists, this`heard, this`repr
      ensures Linked() && scope in indexes && lists == old(lists)[scope := map[]] && heard == old(heard)[scope := map[]]
      ensures fresh(indexes[scope]) && repr == old(repr) + {indexes[scope]}
    {
      var index := NewIndex();
      AdoptIndex(scope, index);
    }

    method AdoptIndex(scope: Scope, index: SubscriptionIndex)
      requires Linked() && scope !in indexes && index !in repr && Holds(index, map[], map[])
      modifies this`indexes, this`lists, this`heard, this`repr
      ensures Linked() && indexes == old(indexes)[scope := index] && repr == old(repr) + {index}
      ensures lists == old(lists)[scope := map[]] && heard == old(heard)[scope := map[]]
    {
      assert Look(0);
      indexes := indexes[scope := index];
      repr := repr + {index};
      lists, heard := lists[scope := map[]], heard[scope := map[]];
    }

    method RemoveSubscription(c: ConnId, sub: SubId) returns (found: bool)
      requires Valid()
      modifies this`connections, this`active, this`lists, repr
      ensures Valid()
      ensures found <==> c in old(connections)
      ensures !found ==> connections == old(connections)
      ensures found ==> connections == Closed(old(connections), c, sub)
    {
      found := c in connections;
      if found {
        if sub in connections[c].subscriptions {
          CloseOpen(c, sub);
        } else {
          ClosedAbsent(connections, c, sub);
        }
      }
    }

    method CloseOpen(c: ConnId, sub: SubId)
      requires Valid() && c in connections && sub in connections[c].subscriptions
      modifies this`connections, this`active, this`lists, repr
      ensures Valid() && connections == Closed(old(connections), c, sub)
    {
      var conn := connections[c];
      RemoveStateOk(connections, lists, active, c, sub);
      HeardRemoved(lists, heard, conn.scope, {(c, sub)});
      ghost var after := lists[conn.scope := lists[conn.scope] - {(c, sub)}];
      assert indexes[conn.scope] in repr by { assert Look(0); }
      connections := Closed(connections, c, sub);
      active := active - 1;
      RemoveFromIndex(conn.scope, c, sub);
      assert lists == after;
    }

    /** Removes from the scope's index, if there is one. */
    method RemoveFromIndex(scope: Scope, c: ConnId, sub: SubId)
      requires Linked()
      modifies this`lists, if scope in indexes then {indexes[scope]} else {}
      ensures Linked()
      ensures lists == if scope in indexes then old(lists)[scope := old(lists)[scope] - {(c, sub)}] else old(lists)
    {
      if scope in indexes {
        assert Look(0);
        RemoveFromOne(indexes[scope], lists[scope], heard[scope], (c, sub));
        lists := lists[scope := lists[scope] - {(c, sub)}];
      }
    }

    method RemoveEach(scope: Scope, c: ConnId, subs: set<SubId>)
      requires Linked() && scope in indexes
      modifies this`lists, indexes[scope]
      ensures Linked() && lists == old(lists)[scope := old(lists)[scope] - KeysOf(c, subs)]
    {
      var todo := subs;
      NothingRemoved(lists, scope, c, subs);
      while todo != {}
        invariant todo <= subs && Linked() && lists == old(lists)[scope := old(lists)[scope] - KeysOf(c, subs - todo)]
        decreases todo
      {
        var sub :| sub in todo;
        RemoveFromIndex(scope, c, sub);
        OneMoreRemoved(old(lists), scope, c, subs, todo, sub);
        todo := todo - {sub};
      }
      assert subs - todo == subs;
    }

    /** Removes some subscriptions of a connection from the scope's index, if there is one. */
    method RemoveAll(scope: Scope, c: ConnId, subs: set<SubId>)
      requires Linked()
      modifies this`lists, repr
      ensures Linked() && lists == Removed(old(lists), scope, c, subs)
    {
      if scope in indexes {
        assert indexes[scope] in repr by { assert Look(0); }
        RemoveEach(scope, c, subs);
      }
    }

    /** Removes a connection and all its subscriptions; a connection that is already gone is left alone. */
    method CleanupConnection(c: ConnId)
      requires Valid()
      modifies this`connections, this`active, this`lists, repr
      ensures Valid() && connections == old(connections) - {c}
    {
      if c in connections {
        DropConnection(c);
      } else {
        SameMap(connections, connections - {c});
      }
    }

    method DropConnection(c: ConnId)
      requires Valid() && c in connections
      modifies this`connections, this`active, this`lists, repr
      ensures Valid() && connections == old(connections) - {c}
    {
      var conn := connections[c];
      var ids := conn.subscriptions.Keys;
      CleanupStateOk(connections, lists, active, c);
      HeardCleaned(lists, heard, conn.scope, c, ids);
      ghost var after := Removed(lists, conn.scope, c, ids);
      connections := connections - {c};
      RemoveAll(conn.scope, c, ids);
      assert lists == after;
      active := active - |ids|;
    }

    /** Sends each reported subscription its EVENT; a connection is dead once a send to it is refused. */
    method SendReports(reported: seq<Key>, e: Event) returns (dead: seq<ConnId>)
      requires OwnChannels(connections)
      modifies Channels()`queue
      ensures forall c | c in connections ::
                var sender := connections[c].sender;
                Received(sender.channel, old(sender.channel.queue), old(sender.channel.Room()),
                         Batch(reported, c, e, sender.position))
      ensures forall c :: c in dead <==>
                c in connections &&
                |Batch(reported, c, e, connections[c].sender.position)| > old(connections[c].sender.channel.Room())
    {
      ghost var queues := map c | c in connections :: connections[c].sender.channel.queue;
      ghost var rooms := map c | c in connections :: connections[c].sender.channel.Room();
      dead := SendEach(reported, e, queues, rooms);
    }

    method SendEach(reported: seq<Key>, e: Event, ghost queues: map<ConnId, seq<Queued>>, ghost rooms: map<ConnId, nat>)
      returns (dead: seq<ConnId>)
      requires OwnChannels(connections) && queues.Keys == rooms.Keys == connections.Keys
      requires Delivered(connections, queues, rooms, [], e)
      modifies Channels()`queue
      ensures Delivered(connections, queues, rooms, reported, e)
      ensures Overfull(connections, rooms, reported, e, dead)
    {
      dead := [];
      for i := 0 to |reported|
        invariant Delivered(connections, queues, rooms, reported[..i], e)
        invariant Overfull(connections, rooms, reported[..i], e, dead)
      {
        PrefixNext(reported, i);
        var refused := SendReport(reported[i], e, queues, rooms, reported[..i]);
        OverfullNext(connections, rooms, reported[..i], e, reported[i], dead, refused);
        if refused {
          dead := dead + [reported[i].0];
        }
      }
      assert reported[..|reported|] == reported;
    }

    method SendReport(key: Key, e: Event, ghost queues: map<ConnId, seq<Queued>>, ghost rooms: map<ConnId, nat>,
                      ghost before: seq<Key>)
      returns (refused: bool)
      requires OwnChannels(connections) && queues.Keys == rooms.Keys == connections.Keys
      requires Delivered(connections, queues, rooms, before, e)
      modifies Channels()`queue
      ensures Delivered(connections, queues, rooms, before + [key], e)
      ensures refused <==>
              key.0 in connections && |Batch(before, key.0, e, connections[key.0].sender.position)| >= rooms[key.0]
    {
      var (c, sub) := key;
      forall d | d in connections { BatchNext(before, key, d, e, connections[d].sender.position); }
      refused := false;
      if c in connections {
        refused := SendOne(connections[c].sender, queues[c], rooms[c],
                           Batch(before, c, e, connections[c].sender.position), sub, e);
      }
    }

    method CleanupAll(dead: seq<ConnId>)
      requires Valid()
      modifies this`connections, this`active, this`lists, repr
      ensures Valid() && connections == old(connections) - Elements(dead)
    {
      SameMap(connections, connections - Elements(dead[..0]));
      for i := 0 to |dead|
        invariant Valid() && connections == old(connections) - Elements(dead[..i])
      {
        PrefixNext(dead, i);
        CleanupConnection(dead[i]);
        SameMap(connections, old(connections) - Elements(dead[..i + 1]));
      }
      assert dead[..|dead|] == dead;
    }

    /** Asks the scope's index for the subscriptions to report. */
    method MarkIndex(scope: Scope, e: Event) returns (r: seq<Key>)
      requires Linked() && scope in indexes && lists[scope].Keys <= HeardIn(heard, scope).Keys
      modifies this`heard, indexes[scope]
      ensures Linked() && heard == HeardBy(old(heard), scope, e)
      ensures NoDuplicates(r)
      ensures forall key :: key in r <==> ToldIn(lists, HeardIn(old(heard), scope), scope, e, key)
    {
      assert Look(0);
      r := DistributeOne(indexes[scope], lists[scope], heard[scope], e);
      heard := HeardBy(heard, scope, e);
    }

    /** The subscriptions to report an event to; a scope without an index has none. */
    method Recipients(e: Event, scope: Scope) returns (r: seq<Key>)
      requires Valid()
      modifies this`heard, repr
      ensures Valid() && OwnChannels(connections)
      ensures NoDuplicates(r)
      ensures forall key :: key in r <==> Tells(connections, HeardIn(old(heard), scope), scope, e, key)
      ensures heard == HeardBy(old(heard), scope, e)
    {
      OpenLists(connections, lists, active, heard, scope);
      HeardStays(lists, heard, scope, e);
      if scope in indexes {
        assert indexes[scope] in repr by { assert Look(0); }
        r := MarkIndex(scope, e);
      } else {
        r := [];
      }
    }

    /**
      Delivers an event to one scope. It reaches, one EVENT each, exactly the open subscriptions of
      the scope that are to be told of it given what they have heard: if none has heard it before,
      exactly those a scan of the scope's connections finds. Every connection takes as much of its
      batch as its channel has room for, and those that had to refuse some of it are cleaned up.
     */
    method DistributeEvent(e: Event, scope: Scope) returns (ghost reported: seq<Key>, ghost dead: set<ConnId>)
      requires Valid()
      modifies this`connections, this`active, this`lists, this`heard, repr, Channels()`queue
      ensures Valid() && connections == old(connections) - dead
      ensures NoDuplicates(reported)
      ensures forall key :: key in reported <==> Tells(old(connections), HeardIn(old(heard), scope), scope, e, key)
      ensures Unheard(HeardIn(old(heard), scope), e) ==>
              forall key :: key in reported <==> ScanFinds(old(connections), scope, e, key)
      ensures forall c | c in old(connections) ::
                var sender := old(connections)[c].sender;
                Received(sender.channel, old(sender.channel.queue), old(sender.channel.Room()),
                         Batch(reported, c, e, sender.position))
      ensures forall c :: c in dead <==>
                c in old(connections) &&
                |Batch(reported, c, e, old(connections)[c].sender.position)| > old(connections[c].sender.channel.Room())
      ensures forall c | c in old(connections) && old(connections)[c].scope != scope ::
                c in connections && connections[c].sender.channel.queue == old(connections[c].sender.channel.queue)
      ensures heard == HeardBy(old(heard), scope, e)
    {
      NewReachesScan(connections, lists, active, heard, scope, e);
      reported, dead := DistributeAll(e, scope);
      OtherScopesGetNothing(old(connections), scope, e, reported);
    }

    /** Reports the event, sends the reports, and cleans up the connections that refused. */
    method DistributeAll(e: Event, scope: Scope) returns (ghost reported: seq<Key>, ghost dead: set<ConnId>)
      requires Valid()
      modifies this`connections, this`active, this`lists, this`heard, repr, Channels()`queue
      ensures Valid() && connections == old(connections) - dead
      ensures NoDuplicates(reported)
      ensures forall key :: key in reported <==> Tells(old(connections), HeardIn(old(heard), scope), scope, e, key)
      ensures forall c | c in old(connections) ::
                var sender := old(connections)[c].sender;
                Received(sender.channel, old(sender.channel.queue), old(sender.channel.Room()),
                         Batch(reported, c, e, sender.position))
      ensures forall c :: c in dead <==>
                c in old(connections) &&
                |Batch(reported, c, e, old(connections)[c].sender.position)| > old(connections[c].sender.channel.Room())
      ensures heard == HeardBy(old(heard), scope, e)
    {
      var r := Recipients(e, scope);
      var refused := SendReports(r, e);
      reported, dead := r, Elements(refused);
      CleanupAll(refused);
    }
  }

  // ----- What subscriptions have heard -----

  /** A subscription was opened anew in the scope. */
  ghost function OpenedHeard(heard: Heard, scope: Scope, key: Key): (r: Heard)
  {
    heard[scope := HeardIn(heard, scope)[key := []]]
  }

  /** A subscription of the connection was opened, if the connection is there. */
  ghost function HeardIfOpened(conns: Connections, heard: Heard, c: ConnId, sub: SubId, isNew: bool): (r: Heard)
  {
    if isNew && c in conns then OpenedHeard(heard, conns[c].scope, (c, sub)) else heard
  }

  /** Filters were added in the scope. */
  ghost function AddedHeard(lists: Lists, heard: Heard, scope: Scope, key: Key): (r: Heard)
  {
    heard[scope := HeardAdd(ListsOf(lists, scope), HeardIn(heard, scope), key)]
  }

  /** Every subscription of the scope has heard one more event. */
  ghost function HeardBy(heard: Heard, scope: Scope, e: Event): (r: Heard)
  {
    if scope in heard then heard[scope := Hear(heard[scope], e)] else heard
  }

  lemma SoundIsBare(conns: Connections, lists: Lists, active: int, heard: Heard, c: ConnId, sub: SubId)
    requires StateOk(conns, lists, active) && AllHeard(lists, heard) && c in conns && AddIsSound(conns, c, sub)
    ensures IsBare(ListsOf(lists, conns[c].scope), HeardIn(heard, conns[c].scope), (c, sub))
  {
    assert Unfold(0) && Recall(0);
    ListsOfAgree(conns, lists, active, conns[c].scope);
  }

  lemma HeardAfter(lists: Lists, heard: Heard, s: Scope, key: Key, fs: seq<Filter>)
    requires AllHeard(lists, heard)
    ensures var after := AddedHeard(lists, heard, s, key);
            IsBare(ListsOf(lists, s), HeardIn(heard, s), key) ==>
            after == OpenedHeard(heard, s, key) && AllHeard(Appended(lists, s, key, fs), after)
  {
    assert Unfold(0) && Recall(0);
  }

  lemma HeardStays(lists: Lists, heard: Heard, scope: Scope, e: Event)
    requires AllHeard(lists, heard)
    ensures scope in lists ==> lists[scope].Keys <= HeardIn(heard, scope).Keys
    ensures AllHeard(lists, HeardBy(heard, scope, e))
  {
    assert Unfold(0) && Recall(0);
  }

  lemma HeardRemoved(lists: Lists, heard: Heard, s: Scope, keys: set<Key>)
    requires AllHeard(lists, heard)
    ensures s in lists ==> AllHeard(lists[s := lists[s] - keys], heard)
  {
    assert Unfold(0) && Recall(0);
  }

  lemma HeardCleaned(lists: Lists, heard: Heard, s: Scope, c: ConnId, subs: set<SubId>)
    requires AllHeard(lists, heard)
    ensures AllHeard(Removed(lists, s, c, subs), heard)
  {
    HeardRemoved(lists, heard, s, KeysOf(c, subs));
  }

  /** The subscription is to be told, seen from the lists. */
  ghost predicate ToldIn(lists: Lists, heard: Hearings, s: Scope, e: Event, key: Key)
  {
    s in lists && key in lists[s] && key in heard && Told(lists[s][key], heard[key], e)
  }

  lemma OpenLists(conns: Connections, lists: Lists, active: int, heard: Heard, s: Scope)
    requires StateOk(conns, lists, active) && AllHeard(lists, heard)
    ensures OwnChannels(conns)
    ensures forall key, e :: Tells(conns, HeardIn(heard, s), s, e, key) <==>
                             ToldIn(lists, HeardIn(heard, s), s, e, key)
  {
    assert Unfold(0) && Recall(0);
    ListsOfAgree(conns, lists, active, s);
  }

  lemma NewReachesScan(conns: Connections, lists: Lists, active: int, heard: Heard, s: Scope, e: Event)
    requires StateOk(conns, lists, active) && AllHeard(lists, heard)
    ensures Unheard(HeardIn(heard, s), e) ==>
            forall key :: Tells(conns, HeardIn(heard, s), s, e, key) <==> ScanFinds(conns, s, e, key)
  {
    assert Unfold(0) && Recall(0);
    ListsOfAgree(conns, lists, active, s);
    var h := HeardIn(heard, s);
    forall key ensures Unheard(h, e) ==> (Tells(conns, h, s, e, key) <==> ScanFinds(conns, s, e, key)) {
      TellsWithinScan(conns, h, s, e, key);
      if Open(conns, s, key) { assert key in ListsOf(lists, s); }
    }
  }

  lemma OtherScopesGetNothing(conns: Connections, s: Scope, e: Event, reported: seq<Key>)
    requires forall key | key in reported :: Open(conns, s, key)
    ensures forall c | c in conns && conns[c].scope != s :: Batch(reported, c, e, conns[c].sender.position) == []
  {
    forall c | c in conns && conns[c].scope != s ensures Batch(reported, c, e, conns[c].sender.position) == [] {
      NoBatch(reported, c, e, conns[c].sender.position);
    }
  }

  method SendOne(sender: MessageSender, ghost queue: seq<Queued>, ghost room: nat, ghost ms: seq<Queued>, sub: SubId,
                 e: Event)
    returns (refused: bool)
    requires Received(sender.channel, queue, room, ms)
    modifies sender.channel`queue
    ensures Received(sender.channel, queue, room, ms + [Queued(EventMsg(sub, e), sender.position)])
    ensures refused <==> |ms| >= room
  {
    var r := sender.Send(EventMsg(sub, e));
    refused := r != Sent;
  }

  lemma NothingRemoved(lists: Lists, scope: Scope, c: ConnId, subs: set<SubId>)
    requires scope in lists
    ensures lists[scope := lists[scope] - KeysOf(c, subs - subs)] == lists
  {
    assert subs - subs == {};
    SameMap(lists[scope] - KeysOf(c, subs - subs), lists[scope]);
    SameMap(lists[scope := lists[scope]], lists);
  }

  lemma OneMoreRemoved(lists: Lists, scope: Scope, c: ConnId, subs: set<SubId>, todo: set<SubId>, sub: SubId)
    requires scope in lists && todo <= subs && sub in todo
    ensures var m := lists[scope];
            lists[scope := m - KeysOf(c, subs - todo)][scope := m - KeysOf(c, subs - todo) - {(c, sub)}] ==
            lists[scope := m - KeysOf(c, subs - (todo - {sub}))]
  {
    var m := lists[scope];
    assert KeysOf(c, subs - (todo - {sub})) == KeysOf(c, subs - todo) + {(c, sub)};
    SameMap(m - KeysOf(c, subs - todo) - {(c, sub)}, m - KeysOf(c, subs - (todo - {sub})));
    UpdateTwice(lists, scope, m - KeysOf(c, subs - todo), m - KeysOf(c, subs - (todo - {sub})));
  }
}
