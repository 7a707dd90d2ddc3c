/**
  What the inverted index means: the filter lists it holds, why its candidate lookup misses no
  match, and that over whole runs a distribution reports what a scan of every filter would.
 */
module IndexRefinement {
  import opened Nostr
  import opened IndexModel

  // ----- The filter lists an index holds -----

  ghost function Largest(s: set<FilterId>): (m: FilterId)
    requires s != {}
    ensures m in s && forall x | x in s :: x <= m
  {
    LargestExists(s);
    var m :| m in s && forall x | x in s :: x <= m;
    m
  }

  lemma LargestExists(s: set<FilterId>)
    requires s != {}
    ensures exists m :: m in s && forall x | x in s :: x <= m
  {
    var a :| a in s;
    var rest := s - {a};
    if rest == {} {
      assert s == {a};
    } else {
      LargestExists(rest);
      var b :| b in rest && forall x | x in rest :: x <= b;
      var m := if a <= b then b else a;
      assert m in s && forall x | x in s :: x <= m by {
        forall x | x in s ensures x <= m { assert x == a || x in rest; }
      }
    }
  }

  /** The filters with the given ids, in id order, that is, in the order they were added. */
  ghost function ListFilters(all: map<FilterId, Tracked>, ids: set<FilterId>): (fs: seq<Filter>)
  {
    if ids == {} then []
    else
      var m := Largest(ids);
      ListFilters(all, ids - {m}) + if m in all then [all[m].filter] else []
  }

  /** The filter list of every subscription the index knows. */
  ghost function Contents(ix: Index): (m: map<Key, seq<Filter>>)
  {
    map key | key in ix.groups :: ListFilters(ix.all, ix.groups[key].ids)
  }

  lemma ListFiltersLocal(a: map<FilterId, Tracked>, b: map<FilterId, Tracked>, ids: set<FilterId>)
    requires forall id | id in ids :: (id in a <==> id in b) && (id in a ==> a[id] == b[id])
    ensures ListFilters(a, ids) == ListFilters(b, ids)
  {
  }

  lemma ListFiltersAppend(all: map<FilterId, Tracked>, ids: set<FilterId>, id: FilterId)
    requires id in all && forall x | x in ids :: x < id
    ensures ListFilters(all, ids + {id}) == ListFilters(all, ids) + [all[id].filter]
  {
    assert Largest(ids + {id}) == id;
    assert ids + {id} - {id} == ids;
  }

  lemma {:induction false} ListFiltersMatch(all: map<FilterId, Tracked>, ids: set<FilterId>, e: Event)
    ensures AnyMatches(ListFilters(all, ids), e) <==>
            exists id :: id in ids && id in all && Matches(all[id].filter, e)
  {
    if ids != {} {
      var m := Largest(ids);
      var rest, fs := ListFilters(all, ids - {m}), ListFilters(all, ids);
      ListFiltersMatch(all, ids - {m}, e);
      if i :| 0 <= i < |fs| && Matches(fs[i], e) {
        if i < |rest| { assert Matches(rest[i], e); }
      }
      if id :| id in ids && id in all && Matches(all[id].filter, e) {
        if id == m {
          assert fs[|rest|] == all[m].filter;
        } else {
          assert id in ids - {m};
          var i :| 0 <= i < |rest| && Matches(rest[i], e);
          assert fs[i] == rest[i];
        }
      }
    }
  }

  // ----- The operations on filter lists -----

  lemma AddFilterFrame(ix: Index, key: Key, f: Filter)
    requires Valid(ix) && key in ix.groups
    ensures var r := AddFilter(ix, key, f);
            && r.nextId == ix.nextId + 1
            && r.all.Keys == ix.all.Keys + {ix.nextId} && r.all[ix.nextId].filter == f && r.all[ix.nextId].owner == key
            && (forall id | id in ix.all :: r.all[id] == ix.all[id])
            && r.filterSeen == ix.filterSeen
            && r.groups == ix.groups[key := ix.groups[key].(ids := ix.groups[key].ids + {ix.nextId})]
  {
    assert ix.nextId !in ix.all;
    assert ix.filterSeen - {ix.nextId} == ix.filterSeen;
  }

  lemma SameMap<K, V>(a: map<K, V>, b: map<K, V>)
    requires a.Keys == b.Keys && forall k | k in a :: a[k] == b[k]
    ensures a == b
  {
  }

  lemma UpdateTwice<K, V>(m: map<K, V>, k: K, x: V, y: V)
    ensures m[k := x][k := y] == m[k := y]
  {
  }

  /** The filter lists, given list by list. */
  lemma ContentsIs(ix: Index, m: map<Key, seq<Filter>>)
    requires ix.groups.Keys == m.Keys
    requires forall key | key in m :: ListFilters(ix.all, ix.groups[key].ids) == m[key]
    ensures Contents(ix) == m
  {
    SameMap(Contents(ix), m);
  }

  lemma ContentsAddFilterAt(ix: Index, r: Index, key: Key, f: Filter, other: Key)
    requires Valid(ix) && key in ix.groups && other in ix.groups
    requires r.all.Keys == ix.all.Keys + {ix.nextId} && r.all[ix.nextId].filter == f
    requires forall id | id in ix.all :: r.all[id] == ix.all[id]
    ensures ListFilters(r.all, ix.groups[other].ids) == ListFilters(ix.all, ix.groups[other].ids)
    ensures ListFilters(r.all, ix.groups[other].ids + {ix.nextId}) == ListFilters(ix.all, ix.groups[other].ids) + [f]
  {
    var ids := ix.groups[other].ids;
    forall id | id in ids ensures id in ix.all && id < ix.nextId { assert ix.all[id].owner == other; }
    ListFiltersLocal(ix.all, r.all, ids);
    ListFiltersAppend(r.all, ids, ix.nextId);
  }

  lemma ContentsAddFilter(ix: Index, key: Key, f: Filter)
    requires Valid(ix) && key in ix.groups
    ensures Contents(AddFilter(ix, key, f)) == Contents(ix)[key := Contents(ix)[key] + [f]]
  {
    AddFilterFrame(ix, key, f);
    ContentsJoin(ix, AddFilter(ix, key, f), key, f);
  }

  lemma ContentsJoin(ix: Index, r: Index, key: Key, f: Filter)
    requires Valid(ix) && key in ix.groups
    requires r.all.Keys == ix.all.Keys + {ix.nextId} && r.all[ix.nextId].filter == f
    requires forall id | id in ix.all :: r.all[id] == ix.all[id]
    requires r.groups == ix.groups[key := ix.groups[key].(ids := ix.groups[key].ids + {ix.nextId})]
    ensures Contents(r) == Contents(ix)[key := Contents(ix)[key] + [f]]
  {
    forall other | other in ix.groups
      ensures ListFilters(r.all, r.groups[other].ids) == Contents(ix)[key := Contents(ix)[key] + [f]][other]
    {
      ContentsAddFilterAt(ix, r, key, f, other);
    }
    ContentsIs(r, Contents(ix)[key := Contents(ix)[key] + [f]]);
  }

  lemma AppendLast<T>(a: seq<T>, b: seq<T>)
    requires b != []
    ensures a + b[..|b| - 1] + [b[|b| - 1]] == a + b
  {
  }

  lemma {:induction false} ContentsAddFilters(ix: Index, key: Key, fs: seq<Filter>)
    requires Valid(ix) && key in ix.groups
    ensures Contents(AddFilters(ix, key, fs)) == Contents(ix)[key := Contents(ix)[key] + fs]
    decreases |fs|
  {
    if fs == [] {
      assert Contents(ix)[key] + fs == Contents(ix)[key];
      SameMap(Contents(ix), Contents(ix)[key := Contents(ix)[key]]);
    } else {
      var init := fs[..|fs| - 1];
      AddFiltersValid(ix, key, init);
      ContentsAddFilters(ix, key, init);
      ContentsAddFilter(AddFilters(ix, key, init), key, fs[|fs| - 1]);
      AppendLast(Contents(ix)[key], fs);
      UpdateTwice(Contents(ix), key, Contents(ix)[key] + init, Contents(ix)[key] + fs);
    }
  }

  /** Adding appends to the subscription's list: without a removal first, filters accumulate. */
  lemma ContentsAdd(ix: Index, key: Key, fs: seq<Filter>)
    requires Valid(ix)
    ensures Contents(AddSubscription(ix, key, fs)) == Contents(ix)[key := Get(Contents(ix), key) + fs]
  {
    EnsureGroupValid(ix, key);
    ContentsAddFilters(EnsureGroup(ix, key), key, fs);
    ContentsEnsureGroup(ix, key);
    UpdateTwice(Contents(ix), key, Get(Contents(ix), key), Get(Contents(ix), key) + fs);
  }

  lemma ContentsEnsureGroup(ix: Index, key: Key)
    ensures Contents(EnsureGroup(ix, key)) == Contents(ix)[key := Get(Contents(ix), key)]
  {
    var m := Contents(ix)[key := Get(Contents(ix), key)];
    if key in ix.groups {
      SameMap(Contents(ix), m);
    } else {
      ContentsIs(EnsureGroup(ix, key), m);
    }
  }

  lemma ContentsRemove(ix: Index, key: Key)
    requires Valid(ix)
    ensures Contents(RemoveSubscription(ix, key)) == Contents(ix) - {key}
  {
    if key in ix.groups {
      var r := RemoveSubscription(ix, key);
      forall other | other in r.groups ensures Contents(r)[other] == Contents(ix)[other] {
        var ids := ix.groups[other].ids;
        forall id | id in ids ensures id in ix.all && id !in ix.groups[key].ids { assert ix.all[id].owner == other; }
        ListFiltersLocal(ix.all, r.all, ids);
      }
    }
  }

  lemma ContentsMarkSeen(ix: Index, e: Event)
    ensures Contents(MarkSeen(ix, e)) == Contents(ix)
  {
  }

  // ----- Add, then remove, restores the index -----

  /** The lists of a valid index, order included, are determined by its live filters. */
  lemma CanonicalForm(a: Index, b: Index)
    requires Valid(a) && Valid(b) && a.all == b.all
    ensures a.authors == b.authors && a.kinds == b.kinds && a.eventIds == b.eventIds
    ensures a.tags == b.tags && a.matchAll == b.matchAll
  {
    forall k ensures Bucket(a, k) == Bucket(b, k) { SameBucket(a, b, k); }
    forall x ensures x in a.authors <==> x in b.authors
             ensures x in a.authors ==> a.authors[x] == b.authors[x]
      { assert Bucket(a, ByAuthor(x)) == Bucket(b, ByAuthor(x)); }
    forall x ensures x in a.kinds <==> x in b.kinds
             ensures x in a.kinds ==> a.kinds[x] == b.kinds[x] { assert Bucket(a, ByKind(x)) == Bucket(b, ByKind(x)); }
    forall x ensures x in a.eventIds <==> x in b.eventIds
             ensures x in a.eventIds ==> a.eventIds[x] == b.eventIds[x]
      { assert Bucket(a, ById(x)) == Bucket(b, ById(x)); }
    SameTags(a, b);
    assert Bucket(a, AnyEvent) == Bucket(b, AnyEvent);
  }

  lemma SameTags(a: Index, b: Index)
    requires NoEmptyBuckets(a) && NoEmptyBuckets(b) && forall c, v :: Bucket(a, ByTag(c, v)) == Bucket(b, ByTag(c, v))
    ensures a.tags == b.tags
  {
    forall c ensures GetTag(a, c) == GetTag(b, c) {
      forall v ensures v in GetTag(a, c) <==> v in GetTag(b, c)
               ensures v in GetTag(a, c) ==> GetTag(a, c)[v] == GetTag(b, c)[v] {
        assert Bucket(a, ByTag(c, v)) == Bucket(b, ByTag(c, v));
      }
    }
    forall c ensures c in a.tags <==> c in b.tags
             ensures c in a.tags ==> a.tags[c] == b.tags[c] { assert GetTag(a, c) == GetTag(b, c); }
  }

  lemma SameBucket(a: Index, b: Index, k: BucketKey)
    requires Valid(a) && Valid(b) && a.all == b.all
    ensures Bucket(a, k) == Bucket(b, k)
  {
    assert BucketOk(a, k) && BucketOk(b, k);
    forall t ensures t in Bucket(a, k) <==> t in Bucket(b, k) { assert Live(a, t) == Live(b, t); }
    AscendingUnique(Bucket(a, k), Bucket(b, k));
  }

  /** An addition changes nothing the index held before, except the group it adds to. */
  ghost predicate Extends(ix: Index, r: Index, key: Key, n: nat)
    requires key in ix.groups
  {
    && key in r.groups && r.nextId == ix.nextId + n
    && (forall id | id in r.groups[key].ids && id !in ix.groups[key].ids :: ix.nextId <= id)
    && r.all.Keys == ix.all.Keys + r.groups[key].ids
    && (forall id | id in ix.all :: r.all[id] == ix.all[id])
    && r.filterSeen == ix.filterSeen
    && r.groups - {key} == ix.groups - {key}
  }

  lemma ExtendsStep(ix: Index, mid: Index, key: Key, f: Filter, n: nat)
    requires key in ix.groups && Extends(ix, mid, key, n) && Valid(mid)
    ensures Extends(ix, AddFilter(mid, key, f), key, n + 1)
  {
    AddFilterFrame(mid, key, f);
    var r := AddFilter(mid, key, f);
    assert r.groups - {key} == mid.groups - {key};
  }

  lemma {:induction false} AddFiltersExtends(ix: Index, key: Key, fs: seq<Filter>)
    requires Valid(ix) && key in ix.groups
    ensures Extends(ix, AddFilters(ix, key, fs), key, |fs|)
    decreases |fs|
  {
    if fs == [] {
      forall id | id in ix.groups[key].ids ensures id in ix.all { assert ix.all[id].owner == key; }
    } else {
      var init := fs[..|fs| - 1];
      AddFiltersExtends(ix, key, init);
      AddFiltersValid(ix, key, init);
      ExtendsStep(ix, AddFilters(ix, key, init), key, fs[|fs| - 1], |init|);
    }
  }

  lemma RemoveExtension(ix: Index, mid: Index, added: Index, key: Key, n: nat)
    requires Valid(ix) && key !in ix.groups && mid == EnsureGroup(ix, key)
    requires Extends(mid, added, key, n)
    ensures var r := RemoveSubscription(added, key);
            r.all == ix.all && r.filterSeen == ix.filterSeen && r.groups == ix.groups && r.nextId == ix.nextId + n
  {
    var ids := added.groups[key].ids;
    forall id | id in ids ensures id !in ix.all { assert id !in mid.groups[key].ids; }
    assert added.all - ids == ix.all;
    assert added.filterSeen - ids == ix.filterSeen;
    assert added.groups - {key} == mid.groups - {key} == ix.groups;
  }

  /** Removing a subscription that was just added restores every map and list, order included. */
  lemma AddThenRemove(ix: Index, key: Key, fs: seq<Filter>)
    requires Valid(ix) && key !in ix.groups
    ensures RemoveSubscription(AddSubscription(ix, key, fs), key) == ix.(nextId := ix.nextId + |fs|)
  {
    var mid, added := EnsureGroup(ix, key), AddSubscription(ix, key, fs);
    EnsureGroupValid(ix, key);
    AddFiltersExtends(mid, key, fs);
    RemoveExtension(ix, mid, added, key, |fs|);
    AddSubscriptionValid(ix, key, fs);
    RemoveSubscriptionValid(added, key);
    CanonicalForm(RemoveSubscription(added, key), ix);
  }

  // ----- The candidate lookup misses no match -----

  /** The buckets consulted for an event: every value of a single-letter tag is looked up. */
  predicate LooksUp(e: Event, k: BucketKey)
  {
    match k
    case AnyEvent => true
    case ById(x) => x == e.id
    case ByAuthor(p) => p == e.pubkey
    case ByKind(n) => n == e.kind
    case ByTag(c, v) => exists i :: 0 <= i < |e.tags| && ParseLetter(e.tags[i].name) == Some(c) && v in e.tags[i].values
  }

  ghost predicate IsCandidate(t: Tracked, e: Event)
  {
    exists k :: LooksUp(e, k) && Covers(t, k)
  }

  /** Whichever field a filter is indexed by, an event it matches looks up one of its buckets. */
  lemma MatchIsCandidate(t: Tracked, e: Event)
    requires t.field == ChooseIndexField(t.filter) && Matches(t.filter, e)
    ensures IsCandidate(t, e)
  {
    ChosenFieldFits(t.filter);
    match t.field
    case None => assert LooksUp(e, AnyEvent) && Covers(t, AnyEvent);
    case Some(EventIdField) => assert LooksUp(e, ById(e.id)) && Covers(t, ById(e.id));
    case Some(AuthorField) => assert LooksUp(e, ByAuthor(e.pubkey)) && Covers(t, ByAuthor(e.pubkey));
    case Some(KindField) => assert LooksUp(e, ByKind(e.kind)) && Covers(t, ByKind(e.kind));
    case Some(TagField(c)) =>
      assert AdmitsTag(t.filter.tags[c], c, e);
      var i :| 0 <= i < |e.tags| && ParseLetter(e.tags[i].name) == Some(c) &&
               |e.tags[i].values| > 0 && e.tags[i].values[0] in t.filter.tags[c];
      assert LooksUp(e, ByTag(c, e.tags[i].values[0])) && Covers(t, ByTag(c, e.tags[i].values[0]));
  }

  // ----- Refinement of the linear scan -----

  /** The reference: every subscription with at least one matching filter. */
  function LinearScan(subscriptions: map<Key, seq<Filter>>, e: Event): (r: set<Key>)
  {
    set key | key in subscriptions && AnyMatches(subscriptions[key], e)
  }

  /** The event ids the markers hold. */
  function Markers(ix: Index): (r: set<EventId>)
  {
    ix.filterSeen.Values +
      (set key | key in ix.groups && ix.groups[key].lastSeen.Some? :: ix.groups[key].lastSeen.value)
  }

  /** Only subscriptions the scan would find are ever reported. */
  lemma FreshMatchesWithinScan(ix: Index, e: Event)
    ensures FreshMatches(ix, e) <= LinearScan(Contents(ix), e)
  {
    forall key | key in FreshMatches(ix, e) ensures key in LinearScan(Contents(ix), e) {
      ListFiltersMatch(ix.all, ix.groups[key].ids, e);
    }
  }

  /** An event the markers do not hold is reported to exactly the subscriptions the scan finds. */
  lemma FreshMatchesIsScan(ix: Index, e: Event)
    requires e.id !in Markers(ix)
    ensures FreshMatches(ix, e) == LinearScan(Contents(ix), e)
  {
    FreshMatchesWithinScan(ix, e);
    forall key | key in LinearScan(Contents(ix), e) ensures key in FreshMatches(ix, e) {
      ListFiltersMatch(ix.all, ix.groups[key].ids, e);
      assert ix.groups[key].lastSeen != Some(e.id);
      forall id ensures !FilterSaw(ix, id, e.id) {}
    }
  }

  /** Distributing an event again at once reports nothing. */
  lemma RepeatReportsNothing(ix: Index, e: Event)
    ensures FreshMatches(MarkSeen(ix, e), e) == {}
  {
    var r := MarkSeen(ix, e);
    forall key | key in r.groups ensures !HasUnseenMatch(r, key, e) {
      forall id | id in r.all && Matches(r.all[id].filter, e) ensures FilterSaw(r, id, e.id) {}
    }
  }

  lemma MarkSeenMarkers(ix: Index, e: Event)
    ensures Markers(MarkSeen(ix, e)) <= Markers(ix) + {e.id}
  {
    var r := MarkSeen(ix, e);
    forall m | m in Markers(r) ensures m in Markers(ix) + {e.id} {
      if m in r.filterSeen.Values {
        var id :| id in r.filterSeen && r.filterSeen[id] == m;
        if m != e.id { assert ix.filterSeen[id] == m; }
      }
    }
  }

  // ----- Whole runs -----

  datatype Op = Add(key: Key, filters: seq<Filter>) | Remove(key: Key) | Distribute(event: Event)

  function Step(ix: Index, op: Op): (r: Index)
  {
    match op
    case Add(key, fs) => AddSubscription(ix, key, fs)
    case Remove(key) => RemoveSubscription(ix, key)
    case Distribute(e) => MarkSeen(ix, e)
  }

  function Run(ops: seq<Op>): (ix: Index)
  {
    if ops == [] then Empty else Step(Run(ops[..|ops| - 1]), ops[|ops| - 1])
  }

  /** The reference run keeps nothing but each subscription's filter list. */
  function ScanRun(ops: seq<Op>): (m: map<Key, seq<Filter>>)
  {
    if ops == [] then map[]
    else
      var m := ScanRun(ops[..|ops| - 1]);
      match ops[|ops| - 1]
      case Add(key, fs) => m[key := Get(m, key) + fs]
      case Remove(key) => m - {key}
      case Distribute(_) => m
  }

  predicate Distributed(ops: seq<Op>, id: EventId)
  {
    exists i :: 0 <= i < |ops| && ops[i].Distribute? && ops[i].event.id == id
  }

  lemma RemoveMarkers(ix: Index, key: Key)
    ensures Markers(RemoveSubscription(ix, key)) <= Markers(ix)
  {
    var r := RemoveSubscription(ix, key);
    forall m | m in r.filterSeen.Values ensures m in Markers(ix) {
      var id :| id in r.filterSeen && r.filterSeen[id] == m;
      assert ix.filterSeen[id] == m;
    }
  }

  lemma SameMarkers(a: Index, b: Index)
    requires a.filterSeen == b.filterSeen
    requires forall key | key in b.groups && b.groups[key].lastSeen.Some? ::
               key in a.groups && a.groups[key].lastSeen == b.groups[key].lastSeen
    ensures Markers(b) <= Markers(a)
  {
  }

  lemma AddFiltersMarkers(ix: Index, key: Key, fs: seq<Filter>)
    requires Valid(ix) && key in ix.groups
    ensures Markers(AddFilters(ix, key, fs)) <= Markers(ix)
  {
    AddFiltersGroups(ix, key, fs);
    SameMarkers(ix, AddFilters(ix, key, fs));
  }

  lemma AddMarkers(ix: Index, key: Key, fs: seq<Filter>)
    requires Valid(ix)
    ensures Markers(AddSubscription(ix, key, fs)) <= Markers(ix)
  {
    EnsureGroupValid(ix, key);
    EnsureGroupMarkers(ix, key);
    AddFiltersMarkers(EnsureGroup(ix, key), key, fs);
  }

  lemma EnsureGroupMarkers(ix: Index, key: Key)
    ensures Markers(EnsureGroup(ix, key)) <= Markers(ix) && key in EnsureGroup(ix, key).groups
  {
    SameMarkers(ix, EnsureGroup(ix, key));
  }

  lemma StepMarkers(ix: Index, op: Op)
    requires Valid(ix)
    ensures Markers(Step(ix, op)) <= Markers(ix) + if op.Distribute? then {op.event.id} else {}
  {
    match op
    case Distribute(e) => MarkSeenMarkers(ix, e);
    case Remove(key) => RemoveMarkers(ix, key);
    case Add(key, fs) => AddMarkers(ix, key, fs);
  }

  lemma {:induction false} AddFiltersGroups(ix: Index, key: Key, fs: seq<Filter>)
    requires Valid(ix) && key in ix.groups
    ensures var r := AddFilters(ix, key, fs);
            r.filterSeen == ix.filterSeen && r.groups.Keys == ix.groups.Keys &&
            forall k | k in r.groups :: r.groups[k].lastSeen == ix.groups[k].lastSeen
    decreases |fs|
  {
    if fs != [] {
      AddFiltersGroups(ix, key, fs[..|fs| - 1]);
      AddFiltersValid(ix, key, fs[..|fs| - 1]);
      AddFilterFrame(AddFilters(ix, key, fs[..|fs| - 1]), key, fs[|fs| - 1]);
    }
  }

  // ----- The operations seen through the filter lists and the markers -----

  /** The index is valid, holds exactly the given filter lists, and marks only distributed events. */
  ghost predicate IndexOk(ix: Index, lists: map<Key, seq<Filter>>, distributed: set<EventId>)
  {
    Valid(ix) && Contents(ix) == lists && Markers(ix) <= distributed
  }

  lemma EmptyIndexOk(distributed: set<EventId>)
    ensures IndexOk(Empty, map[], distributed)
  {
    EmptyValid();
  }

  lemma AddIndexOk(ix: Index, m: map<Key, seq<Filter>>, distributed: set<EventId>, key: Key, fs: seq<Filter>)
    requires IndexOk(ix, m, distributed)
    ensures IndexOk(AddSubscription(ix, key, fs), m[key := Get(m, key) + fs], distributed)
  {
    AddSubscriptionValid(ix, key, fs);
    ContentsAdd(ix, key, fs);
    AddMarkers(ix, key, fs);
  }

  lemma RemoveIndexOk(ix: Index, m: map<Key, seq<Filter>>, distributed: set<EventId>, key: Key)
    requires IndexOk(ix, m, distributed)
    ensures IndexOk(RemoveSubscription(ix, key), m - {key}, distributed)
  {
    RemoveSubscriptionValid(ix, key);
    ContentsRemove(ix, key);
    RemoveMarkers(ix, key);
  }

  lemma MarkIndexOk(ix: Index, m: map<Key, seq<Filter>>, distributed: set<EventId>, e: Event)
    requires IndexOk(ix, m, distributed)
    ensures IndexOk(MarkSeen(ix, e), m, distributed + {e.id})
  {
    MarkSeenValid(ix, e);
    ContentsMarkSeen(ix, e);
    MarkSeenMarkers(ix, e);
  }

  /** Every run reaches a valid index that holds the reference's filter lists and marks only distributed events. */
  lemma {:induction false} RunInvariant(ops: seq<Op>)
    ensures Valid(Run(ops))
    ensures Contents(Run(ops)) == ScanRun(ops)
    ensures forall id | id in Markers(Run(ops)) :: Distributed(ops, id)
  {
    if ops == [] {
      EmptyValid();
    } else {
      var init, op := ops[..|ops| - 1], ops[|ops| - 1];
      var ix := Run(init);
      RunInvariant(init);
      match op {
        case Add(key, fs) => AddSubscriptionValid(ix, key, fs); ContentsAdd(ix, key, fs);
        case Remove(key) => RemoveSubscriptionValid(ix, key); ContentsRemove(ix, key);
        case Distribute(e) => MarkSeenValid(ix, e); ContentsMarkSeen(ix, e);
      }
      StepMarkers(ix, op);
      forall id | id in Markers(Run(ops)) ensures Distributed(ops, id) {
        if id in Markers(ix) {
          var i :| 0 <= i < |init| && init[i].Distribute? && init[i].event.id == id;
          assert ops[i] == init[i];
        }
      }
    }
  }

  /**
    The index refines the linear scan over whole runs: after any sequence of additions, removals
    and distributions, a new event is reported to exactly the subscriptions a scan of all live
    filters finds, and only to such subscriptions if the event is not new.
   */
  lemma RunRefinesScan(ops: seq<Op>, e: Event)
    ensures FreshMatches(Run(ops), e) <= LinearScan(ScanRun(ops), e)
    ensures !Distributed(ops, e.id) ==> FreshMatches(Run(ops), e) == LinearScan(ScanRun(ops), e)
    ensures FreshMatches(Run(ops + [Distribute(e)]), e) == {}
  {
    RunInvariant(ops);
    FreshMatchesWithinScan(Run(ops), e);
    if !Distributed(ops, e.id) { FreshMatchesIsScan(Run(ops), e); }
    assert (ops + [Distribute(e)])[..|ops|] == ops;
    RepeatReportsNothing(Run(ops), e);
  }
}
