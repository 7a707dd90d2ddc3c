/**
  What a subscription is told of the events distributed while it is open, as a function of its
  filters and of those events, and that the index's markers remember just that.
 */
module Hearing {
  import opened Nostr
  import opened IndexModel
  import opened IndexRefinement
  import opened IndexHistory

  /** The last of the events that the filter matches has this id. */
  predicate LastMatch(heard: seq<Event>, f: Filter, id: EventId)
  {
    exists j :: 0 <= j < |heard| && Matches(f, heard[j]) && heard[j].id == id &&
                forall k | j < k < |heard| :: !Matches(f, heard[k])
  }

  /** The last event told has this id. */
  predicate LastTold(fs: seq<Filter>, heard: seq<Event>, id: EventId)
    decreases |heard|, 0
  {
    exists j: nat :: j < |heard| && heard[j].id == id && TellsAt(fs, heard, j) &&
                     forall k: nat | j < k < |heard| :: !TellsAt(fs, heard, k)
  }

  /** This event was told when it was heard. */
  predicate TellsAt(fs: seq<Filter>, heard: seq<Event>, j: nat)
    requires j < |heard|
    decreases j, 2
  {
    Told(fs, heard[..j], heard[j])
  }

  /**
    After these events the subscription is told of the next one: it is not the last one told, and a
    filter matches it that did not match it last.
   */
  predicate Told(fs: seq<Filter>, heard: seq<Event>, e: Event)
    decreases |heard|, 1
  {
    !LastTold(fs, heard, e.id) && exists i :: 0 <= i < |fs| && Matches(fs[i], e) && !LastMatch(heard, fs[i], e.id)
  }

  // ----- One more event -----

  lemma LastMatchNext(heard: seq<Event>, e: Event, f: Filter, id: EventId)
    ensures LastMatch(heard + [e], f, id) <==> if Matches(f, e) then e.id == id else LastMatch(heard, f, id)
  {
    var all := heard + [e];
    assert all[|heard|] == e && forall j | 0 <= j < |heard| :: all[j] == heard[j];
    if j :| 0 <= j < |heard| && Matches(f, heard[j]) && heard[j].id == id &&
            forall k | j < k < |heard| :: !Matches(f, heard[k]) {
      assert Matches(f, all[j]);
    }
    if j :| 0 <= j < |all| && Matches(f, all[j]) && all[j].id == id && forall k | j < k < |all| :: !Matches(f, all[k]) {
      if j < |heard| {
        assert Matches(f, heard[j]);
        assert forall k | j < k < |heard| :: heard[k] == all[k];
      }
    }
  }

  lemma TellsBefore(fs: seq<Filter>, heard: seq<Event>, e: Event, j: nat)
    requires j <= |heard|
    ensures TellsAt(fs, heard + [e], j) <==> if j == |heard| then Told(fs, heard, e) else TellsAt(fs, heard, j)
  {
    assert (heard + [e])[..j] == heard[..j] && heard[..|heard|] == heard;
  }

  lemma LastToldNext(fs: seq<Filter>, heard: seq<Event>, e: Event, id: EventId)
    ensures LastTold(fs, heard + [e], id) <==> if Told(fs, heard, e) then e.id == id else LastTold(fs, heard, id)
  {
    var all := heard + [e];
    forall j: nat | j <= |heard|
      ensures TellsAt(fs, all, j) <==> if j == |heard| then Told(fs, heard, e) else TellsAt(fs, heard, j)
    {
      TellsBefore(fs, heard, e, j);
    }
    assert all[|heard|] == e && forall j | 0 <= j < |heard| :: all[j] == heard[j];
    if j: nat :| j < |heard| && heard[j].id == id && TellsAt(fs, heard, j) &&
                 forall k: nat | j < k < |heard| :: !TellsAt(fs, heard, k) {
      assert TellsAt(fs, all, j);
    }
    if j: nat :| j < |all| && all[j].id == id && TellsAt(fs, all, j) &&
                 forall k: nat | j < k < |all| :: !TellsAt(fs, all, k) {
      if j < |heard| {
        assert heard[j] == all[j] && TellsAt(fs, heard, j) && !TellsAt(fs, all, |heard|);
      }
    }
  }

  // ----- What it means -----

  /** An event not heard before is told exactly if a filter matches it. */
  lemma NewIsTold(fs: seq<Filter>, heard: seq<Event>, e: Event)
    requires forall i | 0 <= i < |heard| :: heard[i].id != e.id
    ensures Told(fs, heard, e) <==> AnyMatches(fs, e)
  {
  }

  /** Nothing is told that no filter matches. */
  lemma ToldMatches(fs: seq<Filter>, heard: seq<Event>, e: Event)
    ensures Told(fs, heard, e) ==> AnyMatches(fs, e)
  {
  }

  /** The event told last is the last match of every filter that matches it. */
  lemma {:induction false} ToldIsLastMatch(fs: seq<Filter>, heard: seq<Event>, e: Event, i: nat)
    requires LastTold(fs, heard, e.id) && forall j | 0 <= j < |heard| && heard[j].id == e.id :: heard[j] == e
    requires i < |fs| && Matches(fs[i], e)
    ensures LastMatch(heard, fs[i], e.id)
    decreases |heard|
  {
    var n := |heard| - 1;
    var init, last := heard[..n], heard[n];
    InitLast(heard);
    LastToldNext(fs, init, last, e.id);
    LastMatchNext(init, last, fs[i], e.id);
    if !Told(fs, init, last) {
      ToldIsLastMatch(fs, init, e, i);
      if LastTold(fs, init, last.id) {
        LastToldUnique(fs, init, e.id, last.id);
      } else if Matches(fs[i], last) {
        LastMatchUnique(init, fs[i], e.id, last.id);
      }
    }
  }

  lemma LastToldUnique(fs: seq<Filter>, heard: seq<Event>, a: EventId, b: EventId)
    requires LastTold(fs, heard, a) && LastTold(fs, heard, b)
    ensures a == b
  {
  }

  lemma LastMatchUnique(heard: seq<Event>, f: Filter, a: EventId, b: EventId)
    requires LastMatch(heard, f, a) && LastMatch(heard, f, b)
    ensures a == b
  {
  }

  /**
    Where an id stands for one event, the subscription is told of an event exactly if a filter
    matches it whose last match is another one.
   */
  lemma ToldExactly(fs: seq<Filter>, heard: seq<Event>, e: Event)
    requires forall j | 0 <= j < |heard| && heard[j].id == e.id :: heard[j] == e
    ensures Told(fs, heard, e) <==> exists i :: 0 <= i < |fs| && Matches(fs[i], e) && !LastMatch(heard, fs[i], e.id)
  {
    if LastTold(fs, heard, e.id) {
      forall i: nat | i < |fs| && Matches(fs[i], e) ensures LastMatch(heard, fs[i], e.id) {
        ToldIsLastMatch(fs, heard, e, i);
      }
    }
  }

  /** A repeated event is told again once another event came in between that the same filter matches. */
  lemma ToldAgain(f: Filter, a: Event, b: Event)
    requires Matches(f, a) && Matches(f, b) && a.id != b.id
    ensures !Told([f], [a], a) && Told([f], [a, b], a)
  {
    assert [a] == [] + [a] && [a, b] == [a] + [b];
    LastMatchNext([], a, f, a.id);
    LastMatchNext([a], b, f, a.id);
    LastToldNext([f], [], a, a.id);
    LastToldNext([f], [a], b, a.id);
    LastMatchNext([], a, f, b.id);
    LastToldNext([f], [], a, b.id);
    assert Matches([f][0], a) && Matches([f][0], b);
  }

  /** It is not if the events in between match other filters of the subscription only. */
  lemma NotToldAgain(f: Filter, g: Filter, a: Event, b: Event)
    requires Matches(f, a) && !Matches(g, a) && !Matches(f, b)
    ensures !Told([f, g], [a, b], a)
  {
    assert [a] == [] + [a] && [a, b] == [a] + [b];
    LastMatchNext([], a, f, a.id);
    LastMatchNext([a], b, f, a.id);
  }

  // ----- The markers of the index -----

  lemma {:induction false} ListFiltersElements(all: map<FilterId, Tracked>, ids: set<FilterId>, f: Filter)
    ensures f in ListFilters(all, ids) <==> exists id :: id in ids && id in all && all[id].filter == f
  {
    if ids != {} {
      var m := Largest(ids);
      ListFiltersElements(all, ids - {m}, f);
      if id :| id in ids && id in all && all[id].filter == f {
        if id != m { assert id in ids - {m}; }
      }
    }
  }

  /** The markers of a subscription and its filters are those of the events it heard since it was opened. */
  ghost predicate Remembers(ix: Index, key: Key, heard: seq<Event>)
  {
    && key in ix.groups
    && (forall id, x | id in ix.groups[key].ids && id in ix.all ::
          FilterSaw(ix, id, x) <==> LastMatch(heard, ix.all[id].filter, x))
    && forall x: EventId :: GroupSaw(ix, key, x) <==> LastTold(ListFilters(ix.all, ix.groups[key].ids), heard, x)
  }

  /** A distribution reports a subscription exactly if it is to be told. */
  lemma RemembersFresh(ix: Index, key: Key, heard: seq<Event>, e: Event)
    requires Remembers(ix, key, heard)
    ensures key in FreshMatches(ix, e) <==> Told(ListFilters(ix.all, ix.groups[key].ids), heard, e)
  {
    var fs, ids := ListFilters(ix.all, ix.groups[key].ids), ix.groups[key].ids;
    if HasUnseenMatch(ix, key, e) {
      var id :| id in ids && id in ix.all && Matches(ix.all[id].filter, e) && !FilterSaw(ix, id, e.id);
      ListFiltersElements(ix.all, ids, ix.all[id].filter);
      var i :| 0 <= i < |fs| && fs[i] == ix.all[id].filter;
      assert Matches(fs[i], e) && !LastMatch(heard, fs[i], e.id);
    }
    if i :| 0 <= i < |fs| && Matches(fs[i], e) && !LastMatch(heard, fs[i], e.id) {
      ListFiltersElements(ix.all, ids, fs[i]);
      var id :| id in ids && id in ix.all && ix.all[id].filter == fs[i];
      assert HasUnseenMatch(ix, key, e);
    }
  }

  lemma RemembersMark(ix: Index, key: Key, heard: seq<Event>, e: Event)
    requires Remembers(ix, key, heard)
    ensures Remembers(MarkSeen(ix, e), key, heard + [e])
  {
    var r, fs, ids := MarkSeen(ix, e), ListFilters(ix.all, ix.groups[key].ids), ix.groups[key].ids;
    RemembersFresh(ix, key, heard, e);
    forall id, x | id in ids && id in r.all
      ensures FilterSaw(r, id, x) <==> LastMatch(heard + [e], r.all[id].filter, x)
    {
      LastMatchNext(heard, e, ix.all[id].filter, x);
    }
    forall x: EventId ensures GroupSaw(r, key, x) <==> LastTold(fs, heard + [e], x) {
      LastToldNext(fs, heard, e, x);
    }
  }

  /** The filters of a subscription, their markers and its own are the same in both indexes. */
  ghost predicate SameSubscription(a: Index, b: Index, key: Key)
    requires key in a.groups && key in b.groups
  {
    && a.groups[key].ids == b.groups[key].ids
    && ListFilters(a.all, a.groups[key].ids) == ListFilters(b.all, b.groups[key].ids)
    && (forall id | id in a.groups[key].ids :: id in a.all <==> id in b.all)
    && (forall id | id in a.groups[key].ids && id in a.all :: a.all[id].filter == b.all[id].filter)
    && (forall id, x | id in a.groups[key].ids :: FilterSaw(a, id, x) <==> FilterSaw(b, id, x))
    && forall x: EventId :: GroupSaw(a, key, x) <==> GroupSaw(b, key, x)
  }

  lemma RemembersSame(a: Index, b: Index, key: Key, heard: seq<Event>)
    requires Remembers(a, key, heard) && key in b.groups && SameSubscription(a, b, key)
    ensures Remembers(b, key, heard)
  {
  }

  lemma AddSameIds(ix: Index, r: Index, key: Key, fs: seq<Filter>, other: Key)
    requires Valid(ix) && Valid(r) && Added(ix, r, key, fs) && key != other && other in ix.groups && other in r.groups
    ensures ix.groups[other].ids == r.groups[other].ids
  {
    forall id: nat ensures id in ix.groups[other].ids <==> id in r.groups[other].ids {
      assert id in ix.groups[other].ids <==> id in ix.all && ix.all[id].owner == other;
      assert id in r.groups[other].ids <==> id in r.all && r.all[id].owner == other;
    }
  }

  lemma ListAfterAdd(ix: Index, key: Key, fs: seq<Filter>, other: Key)
    requires Valid(ix) && other in ix.groups && key != other
    ensures var r := AddSubscription(ix, key, fs);
            other in r.groups && ListFilters(r.all, r.groups[other].ids) == ListFilters(ix.all, ix.groups[other].ids)
  {
    ContentsAdd(ix, key, fs);
    assert Contents(AddSubscription(ix, key, fs))[other] == Contents(ix)[other];
  }

  lemma AddSameOther(ix: Index, r: Index, key: Key, fs: seq<Filter>, other: Key)
    requires Valid(ix) && Valid(r) && Added(ix, r, key, fs) && key != other && other in ix.groups && other in r.groups
    requires ListFilters(r.all, r.groups[other].ids) == ListFilters(ix.all, ix.groups[other].ids)
    requires forall x: EventId :: GroupSaw(r, other, x) <==> GroupSaw(ix, other, x)
    ensures SameSubscription(ix, r, other)
  {
    AddSameIds(ix, r, key, fs, other);
    forall id | id in ix.groups[other].ids ensures id in ix.all {}
  }

  lemma AllAddGroups(ix: Index, key: Key, fs: seq<Filter>, k: Key)
    requires Valid(ix)
    ensures forall x: EventId :: GroupSaw(AddSubscription(ix, key, fs), k, x) <==> GroupSaw(ix, k, x)
  {
    forall x: EventId { AddGroups(ix, key, fs, k, x); }
  }

  /** An addition leaves other subscriptions alone. */
  lemma RemembersAddOther(ix: Index, key: Key, fs: seq<Filter>, other: Key, heard: seq<Event>)
    requires Valid(ix) && Remembers(ix, other, heard) && key != other
    ensures Remembers(AddSubscription(ix, key, fs), other, heard)
  {
    AddSubscriptionValid(ix, key, fs);
    SubscriptionAdded(ix, key, fs);
    ListAfterAdd(ix, key, fs, other);
    AllAddGroups(ix, key, fs, other);
    AddSameOther(ix, AddSubscription(ix, key, fs), key, fs, other);
    RemembersSame(ix, AddSubscription(ix, key, fs), other, heard);
  }

  lemma RemoveSameOther(ix: Index, key: Key, other: Key)
    requires Valid(ix) && key in ix.groups && other in ix.groups && key != other
    ensures other in RemoveSubscription(ix, key).groups && SameSubscription(ix, RemoveSubscription(ix, key), other)
  {
    var r := RemoveSubscription(ix, key);
    forall id | id in ix.groups[other].ids ensures id in ix.all && id !in ix.groups[key].ids {
      assert ix.all[id].owner == other;
    }
    ListFiltersLocal(ix.all, r.all, ix.groups[other].ids);
  }

  lemma RemembersRemoveOther(ix: Index, key: Key, other: Key, heard: seq<Event>)
    requires Valid(ix) && Remembers(ix, other, heard) && key != other
    ensures Remembers(RemoveSubscription(ix, key), other, heard)
  {
    if key in ix.groups {
      RemoveSameOther(ix, key, other);
      RemembersSame(ix, RemoveSubscription(ix, key), other, heard);
    }
  }

  lemma NothingTold(all: map<FilterId, Tracked>, heard: seq<Event>, id: EventId)
    ensures !LastTold(ListFilters(all, {}), heard, id)
  {
    forall j: nat | j < |heard| ensures !TellsAt([], heard, j) {}
    assert ListFilters(all, {}) == [];
  }

  lemma NotOwned(ix: Index, key: Key, id: FilterId)
    requires Valid(ix) && (key in ix.groups ==> ix.groups[key].ids == {})
    ensures id in ix.all ==> ix.all[id].owner != key
  {
  }

  lemma NothingSaw(ix: Index, r: Index, key: Key, fs: seq<Filter>)
    requires Valid(ix) && Valid(r) && Added(ix, r, key, fs) && key in r.groups
    requires key in ix.groups ==> ix.groups[key].ids == {}
    ensures forall id, x | id in r.groups[key].ids && id in r.all :: !FilterSaw(r, id, x)
  {
    forall id, x | id in r.groups[key].ids && id in r.all ensures !FilterSaw(r, id, x) {
      NotOwned(ix, key, id);
    }
  }

  lemma KeyAfterAdd(ix: Index, key: Key, fs: seq<Filter>)
    requires Valid(ix)
    ensures key in AddSubscription(ix, key, fs).groups
  {
    ContentsAdd(ix, key, fs);
    assert key in Contents(AddSubscription(ix, key, fs));
  }

  /** A new subscription has heard nothing. */
  lemma RemembersNothing(ix: Index, key: Key, fs: seq<Filter>, heard: seq<Event>)
    requires Valid(ix) && (key in ix.groups ==> ix.groups[key].ids == {} && Remembers(ix, key, heard))
    ensures Remembers(AddSubscription(ix, key, fs), key, [])
  {
    AddSubscriptionValid(ix, key, fs);
    SubscriptionAdded(ix, key, fs);
    KeyAfterAdd(ix, key, fs);
    NothingSaw(ix, AddSubscription(ix, key, fs), key, fs);
    AllAddGroups(ix, key, fs, key);
    forall x: EventId ensures !GroupSaw(ix, key, x) { NothingTold(ix.all, heard, x); }
  }

  // ----- All subscriptions of an index -----

  type Hearings = map<Key, seq<Event>>

  /** Every subscription that is accounted for has its own markers. */
  ghost predicate Recalls(ix: Index, m: map<Key, seq<Filter>>, heard: Hearings)
  {
    forall key | key in m && key in heard :: Remembers(ix, key, heard[key])
  }

  /** Everyone hears the event. */
  function Hear(heard: Hearings, e: Event): (r: Hearings)
  {
    map key | key in heard :: heard[key] + [e]
  }

  /** The subscription has no filter yet. */
  predicate IsBare(m: map<Key, seq<Filter>>, heard: Hearings, key: Key)
  {
    key in m ==> m[key] == [] && key in heard
  }

  /** A subscription to which filters are added one after the other is not accounted for. */
  function HeardAdd(m: map<Key, seq<Filter>>, heard: Hearings, key: Key): (r: Hearings)
  {
    if IsBare(m, heard, key) then heard[key := []] else heard - {key}
  }

  lemma NoFiltersNoIds(ix: Index, key: Key)
    requires Valid(ix) && key in ix.groups && ListFilters(ix.all, ix.groups[key].ids) == []
    ensures ix.groups[key].ids == {}
  {
  }

  lemma RecallsAdd(ix: Index, m: map<Key, seq<Filter>>, heard: Hearings, key: Key, fs: seq<Filter>)
    requires Valid(ix) && Contents(ix) == m && Recalls(ix, m, heard)
    ensures Recalls(AddSubscription(ix, key, fs), m[key := Get(m, key) + fs], HeardAdd(m, heard, key))
  {
    var heard' := HeardAdd(m, heard, key);
    forall k | k in m[key := Get(m, key) + fs] && k in heard'
      ensures Remembers(AddSubscription(ix, key, fs), k, heard'[k])
    {
      if k != key {
        RemembersAddOther(ix, key, fs, k, heard[k]);
      } else {
        if key in ix.groups { NoFiltersNoIds(ix, key); }
        RemembersNothing(ix, key, fs, if key in heard then heard[key] else []);
      }
    }
  }

  lemma RecallsRemove(ix: Index, m: map<Key, seq<Filter>>, heard: Hearings, key: Key)
    requires Valid(ix) && Recalls(ix, m, heard)
    ensures Recalls(RemoveSubscription(ix, key), m - {key}, heard)
  {
    forall k | k in m - {key} && k in heard ensures Remembers(RemoveSubscription(ix, key), k, heard[k]) {
      RemembersRemoveOther(ix, key, k, heard[k]);
    }
  }

  lemma RecallsMark(ix: Index, m: map<Key, seq<Filter>>, heard: Hearings, e: Event)
    requires Recalls(ix, m, heard)
    ensures Recalls(MarkSeen(ix, e), m, Hear(heard, e))
  {
    forall k | k in m && k in heard ensures Remembers(MarkSeen(ix, e), k, Hear(heard, e)[k]) {
      RemembersMark(ix, k, heard[k], e);
    }
  }

  /** A distribution reports exactly the subscriptions to be told, if all are accounted for. */
  lemma RecallsFresh(ix: Index, m: map<Key, seq<Filter>>, heard: Hearings, e: Event)
    requires Contents(ix) == m && Recalls(ix, m, heard) && m.Keys <= heard.Keys
    ensures forall key :: key in FreshMatches(ix, e) <==> key in m && Told(m[key], heard[key], e)
  {
    forall key ensures key in FreshMatches(ix, e) <==> key in m && Told(m[key], heard[key], e) {
      if key in m { RemembersFresh(ix, key, heard[key], e); }
    }
  }
}
