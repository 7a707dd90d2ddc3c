/**
  What distributions report when events are repeated, told from the operations alone: which filters
  are live, which event each of them matched last, and which event was last reported for each
  subscription, all by the indices of the operations that made it so.
 */
module IndexHistory {
  import opened Nostr
  import opened IndexModel
  import opened IndexRefinement

  // ----- The account of the operations -----

  /** The `n`-th filter of the addition at index `a` belongs to the subscription, which was not removed since. */
  ghost predicate Owns(ops: seq<Op>, key: Key, a: nat, n: nat)
  {
    a < |ops| && ops[a].Add? && ops[a].key == key && n < |ops[a].filters| &&
    forall j | a < j < |ops| :: ops[j] != Remove(key)
  }

  /** The last event distributed after index `a` that the filter matches has this id. */
  ghost predicate LastMatched(ops: seq<Op>, a: nat, f: Filter, id: EventId)
  {
    exists j :: a < j < |ops| && ops[j].Distribute? && Matches(f, ops[j].event) && ops[j].event.id == id &&
                forall k | j < k < |ops| :: ops[k].Distribute? ==> !Matches(f, ops[k].event)
  }

  /** The last event reported for the subscription, which was not removed since, has this id. */
  ghost predicate LastReported(ops: seq<Op>, reports: seq<set<Key>>, key: Key, id: EventId)
    requires |reports| == |ops|
  {
    exists j :: 0 <= j < |ops| && ops[j].Distribute? && ops[j].event.id == id && key in reports[j] &&
                forall k | j < k < |ops| :: ops[k] != Remove(key) && key !in reports[k]
  }

  /**
    The subscription is to be told of the event: it is not the last one reported for it, and a live
    filter of its matches it, which did not match it last.
   */
  ghost predicate Due(ops: seq<Op>, reports: seq<set<Key>>, e: Event, key: Key)
    requires |reports| == |ops|
  {
    && !LastReported(ops, reports, key, e.id)
    && exists a: nat, n: nat :: Owns(ops, key, a, n) && Matches(ops[a].filters[n], e) &&
                      !LastMatched(ops, a, ops[a].filters[n], e.id)
  }

  /** What each operation of a run reports. */
  function Reports(ops: seq<Op>): (rs: seq<set<Key>>)
    ensures |rs| == |ops|
    decreases |ops|
  {
    if ops == [] then []
    else
      var init, op := ops[..|ops| - 1], ops[|ops| - 1];
      Reports(init) + [if op.Distribute? then FreshMatches(Run(init), op.event) else {}]
  }

  // ----- One more operation -----

  lemma OwnsNext(init: seq<Op>, op: Op, key: Key, a: nat, n: nat)
    requires a < |init|
    ensures Owns(init + [op], key, a, n) <==> Owns(init, key, a, n) && op != Remove(key)
  {
    var ops := init + [op];
    assert ops[|init|] == op && forall j | 0 <= j < |init| :: ops[j] == init[j];
  }

  lemma LastMatchedNext(init: seq<Op>, op: Op, a: nat, f: Filter, id: EventId)
    requires a < |init|
    ensures LastMatched(init + [op], a, f, id) <==>
            if op.Distribute? && Matches(f, op.event) then op.event.id == id else LastMatched(init, a, f, id)
  {
    var ops := init + [op];
    assert ops[|init|] == op && forall j | 0 <= j < |init| :: ops[j] == init[j];
    if j :| a < j < |init| && init[j].Distribute? && Matches(f, init[j].event) && init[j].event.id == id &&
            forall k | j < k < |init| :: init[k].Distribute? ==> !Matches(f, init[k].event) {
      assert ops[j] == init[j];
    }
    if j :| a < j < |ops| && ops[j].Distribute? && Matches(f, ops[j].event) && ops[j].event.id == id &&
            forall k | j < k < |ops| :: ops[k].Distribute? ==> !Matches(f, ops[k].event) {
      if j < |init| {
        assert init[j] == ops[j];
        assert forall k | j < k < |init| :: init[k] == ops[k];
      }
    }
  }

  lemma LastReportedNext(init: seq<Op>, rs: seq<set<Key>>, op: Op, r: set<Key>, key: Key, id: EventId)
    requires |rs| == |init| && (!op.Distribute? ==> r == {})
    ensures LastReported(init + [op], rs + [r], key, id) <==>
            if key in r then op.event.id == id else op != Remove(key) && LastReported(init, rs, key, id)
  {
    var ops, reports := init + [op], rs + [r];
    assert ops[|init|] == op && reports[|init|] == r;
    assert forall j | 0 <= j < |init| :: ops[j] == init[j] && reports[j] == rs[j];
    if j :| 0 <= j < |init| && init[j].Distribute? && init[j].event.id == id && key in rs[j] &&
            forall k | j < k < |init| :: init[k] != Remove(key) && key !in rs[k] {
      assert ops[j] == init[j] && reports[j] == rs[j];
    }
    if j :| 0 <= j < |ops| && ops[j].Distribute? && ops[j].event.id == id && key in reports[j] &&
            forall k | j < k < |ops| :: ops[k] != Remove(key) && key !in reports[k] {
      if j < |init| {
        assert init[j] == ops[j] && rs[j] == reports[j];
        assert forall k | j < k < |init| :: init[k] == ops[k] && rs[k] == reports[k];
      }
    }
  }

  // ----- Live filters and their origins -----

  /** The id of the `n`-th filter of the addition at index `a`: ids are given out in order. */
  function IdOf(ops: seq<Op>, a: nat, n: nat): (id: FilterId)
    requires a <= |ops|
  {
    Run(ops[..a]).nextId + n
  }

  /** The index holds the filters added, under their ids, and nothing else has changed but their group. */
  ghost predicate Added(ix: Index, r: Index, key: Key, fs: seq<Filter>)
  {
    && r.nextId == ix.nextId + |fs|
    && (forall id :: id in r.all <==> id in ix.all || ix.nextId <= id < r.nextId)
    && (forall id | id in ix.all :: r.all[id] == ix.all[id])
    && (forall id: nat | ix.nextId <= id < r.nextId ::
          r.all[id].owner == key && r.all[id].filter == fs[id - ix.nextId])
    && r.filterSeen == ix.filterSeen
  }

  lemma AddedMore(ix: Index, mid: Index, r: Index, key: Key, init: seq<Filter>, f: Filter)
    requires Added(ix, mid, key, init) && r.nextId == mid.nextId + 1 && r.filterSeen == mid.filterSeen
    requires r.all.Keys == mid.all.Keys + {mid.nextId} && forall id | id in mid.all :: r.all[id] == mid.all[id]
    requires r.all[mid.nextId].owner == key && r.all[mid.nextId].filter == f
    ensures Added(ix, r, key, init + [f])
  {
    forall id: nat | ix.nextId <= id < r.nextId
      ensures r.all[id].owner == key && r.all[id].filter == (init + [f])[id - ix.nextId]
    {
      if id < mid.nextId { assert id in mid.all; }
    }
  }

  lemma AddedNext(ix: Index, mid: Index, key: Key, init: seq<Filter>, f: Filter)
    requires Valid(mid) && key in mid.groups && Added(ix, mid, key, init)
    ensures Added(ix, AddFilter(mid, key, f), key, init + [f])
  {
    AddFilterFrame(mid, key, f);
    AddedMore(ix, mid, AddFilter(mid, key, f), key, init, f);
  }

  lemma {:induction false} FiltersAdded(ix: Index, key: Key, fs: seq<Filter>)
    requires Valid(ix) && key in ix.groups
    ensures Added(ix, AddFilters(ix, key, fs), key, fs)
    decreases |fs|
  {
    if fs != [] {
      var init := fs[..|fs| - 1];
      FiltersAdded(ix, key, init);
      AddFiltersValid(ix, key, init);
      AddedNext(ix, AddFilters(ix, key, init), key, init, fs[|fs| - 1]);
      InitLast(fs);
    }
  }

  predicate GroupSaw(ix: Index, key: Key, id: EventId)
  {
    key in ix.groups && ix.groups[key].lastSeen == Some(id)
  }

  lemma AddedFrom(ix: Index, mid: Index, r: Index, key: Key, fs: seq<Filter>)
    requires Added(mid, r, key, fs) && mid.all == ix.all && mid.filterSeen == ix.filterSeen && mid.nextId == ix.nextId
    ensures Added(ix, r, key, fs)
  {
  }

  lemma EnsureGroupFrame(ix: Index, key: Key)
    ensures var mid := EnsureGroup(ix, key);
            mid.all == ix.all && mid.filterSeen == ix.filterSeen && mid.nextId == ix.nextId && key in mid.groups
    ensures forall k, id :: GroupSaw(EnsureGroup(ix, key), k, id) <==> GroupSaw(ix, k, id)
  {
  }

  lemma SubscriptionAdded(ix: Index, key: Key, fs: seq<Filter>)
    requires Valid(ix)
    ensures Added(ix, AddSubscription(ix, key, fs), key, fs)
  {
    var mid := EnsureGroup(ix, key);
    EnsureGroupValid(ix, key);
    EnsureGroupFrame(ix, key);
    FiltersAdded(mid, key, fs);
    AddedFrom(ix, mid, AddFilters(mid, key, fs), key, fs);
    assert AddSubscription(ix, key, fs) == AddFilters(mid, key, fs);
  }

  /** The index after a step holds a filter that was live before it, and marks it if it matches. */
  ghost predicate Kept(ix: Index, op: Op, r: Index, id: FilterId)
    requires id in ix.all
  {
    && (id in r.all <==> op != Remove(ix.all[id].owner))
    && (id in r.all ==> r.all[id].owner == ix.all[id].owner && r.all[id].filter == ix.all[id].filter)
    && (id in r.all ==> forall x :: FilterSaw(r, id, x) <==>
          if op.Distribute? && Matches(ix.all[id].filter, op.event) then op.event.id == x else FilterSaw(ix, id, x))
  }

  lemma AddKeeps(ix: Index, key: Key, fs: seq<Filter>, id: FilterId)
    requires Valid(ix) && id in ix.all
    ensures Kept(ix, Add(key, fs), AddSubscription(ix, key, fs), id)
  {
    SubscriptionAdded(ix, key, fs);
  }

  lemma RemoveKeeps(ix: Index, key: Key, id: FilterId)
    requires Valid(ix) && id in ix.all
    ensures Kept(ix, Remove(key), RemoveSubscription(ix, key), id)
  {
    assert key in ix.groups ==> (id in ix.groups[key].ids <==> ix.all[id].owner == key);
    assert key !in ix.groups ==> ix.all[id].owner != key;
  }

  lemma MarkKeeps(ix: Index, e: Event, id: FilterId)
    requires id in ix.all
    ensures Kept(ix, Distribute(e), MarkSeen(ix, e), id)
  {
  }

  lemma StepFilters(ix: Index, op: Op, id: FilterId)
    requires Valid(ix) && id in ix.all
    ensures Kept(ix, op, Step(ix, op), id)
  {
    match op
    case Add(key, fs) => AddKeeps(ix, key, fs, id);
    case Remove(key) => RemoveKeeps(ix, key, id);
    case Distribute(e) => MarkKeeps(ix, e, id);
  }

  lemma RunNext(init: seq<Op>, op: Op)
    ensures Run(init + [op]) == Step(Run(init), op) && Valid(Run(init))
  {
    assert (init + [op])[..|init|] == init;
    RunInvariant(init);
  }

  lemma SameIdOf(init: seq<Op>, op: Op, a: nat, n: nat)
    requires a <= |init|
    ensures IdOf(init + [op], a, n) == IdOf(init, a, n)
  {
    assert (init + [op])[..a] == init[..a];
  }

  /** The filter is live under its id, and its marker is the last event it matched. */
  ghost predicate Tracks(ix: Index, id: FilterId, key: Key, f: Filter, ops: seq<Op>, a: nat)
  {
    && id in ix.all && ix.all[id].owner == key && ix.all[id].filter == f
    && forall x :: FilterSaw(ix, id, x) <==> LastMatched(ops, a, f, x)
  }

  lemma TracksAdded(ix: Index, r: Index, key: Key, ops: seq<Op>, a: nat, n: nat)
    requires Valid(ix) && a == |ops| - 1 && ops[a].Add? && n < |ops[a].filters| && Added(ix, r, key, ops[a].filters)
    ensures Tracks(r, ix.nextId + n, key, ops[a].filters[n], ops, a)
  {
    assert ix.nextId + n !in ix.all;
    forall x ensures !LastMatched(ops, a, ops[a].filters[n], x) {}
  }

  lemma TracksNext(ix: Index, r: Index, id: FilterId, key: Key, f: Filter, init: seq<Op>, op: Op, a: nat)
    requires Tracks(ix, id, key, f, init, a) && Kept(ix, op, r, id) && op != Remove(key) && a < |init|
    ensures Tracks(r, id, key, f, init + [op], a)
  {
    forall x ensures FilterSaw(r, id, x) <==> LastMatched(init + [op], a, f, x) {
      LastMatchedNext(init, op, a, f, x);
    }
  }

  lemma AddTracks(ix: Index, r: Index, id: FilterId, init: seq<Op>, op: Op, key: Key, n: nat)
    requires Valid(ix) && op.Add? && op.key == key && n < |op.filters| && r == Step(ix, op) && id == ix.nextId + n
    ensures Tracks(r, id, key, op.filters[n], init + [op], |init|)
  {
    SubscriptionAdded(ix, key, op.filters);
    TracksAdded(ix, r, key, init + [op], |init|, n);
  }

  lemma OwnedFirst(init: seq<Op>, op: Op, key: Key, n: nat)
    requires op.Add? && op.key == key && n < |op.filters|
    ensures Tracks(Run(init + [op]), IdOf(init + [op], |init|, n), key, op.filters[n], init + [op], |init|)
  {
    RunNext(init, op);
    assert (init + [op])[..|init|] == init;
    AddTracks(Run(init), Run(init + [op]), IdOf(init + [op], |init|, n), init, op, key, n);
  }

  lemma OwnedLater(init: seq<Op>, op: Op, key: Key, f: Filter, a: nat, n: nat)
    requires a < |init| && Tracks(Run(init), IdOf(init, a, n), key, f, init, a) && op != Remove(key)
    ensures Tracks(Run(init + [op]), IdOf(init + [op], a, n), key, f, init + [op], a)
  {
    var ix, id := Run(init), IdOf(init, a, n);
    RunNext(init, op);
    SameIdOf(init, op, a, n);
    StepFilters(ix, op, id);
    TracksNext(ix, Step(ix, op), id, key, f, init, op, a);
  }

  /** Every filter added and not removed since is live under its id, marked with the last event it matched. */
  lemma {:induction false} OwnedIsLive(ops: seq<Op>, key: Key, a: nat, n: nat)
    requires Owns(ops, key, a, n)
    ensures Tracks(Run(ops), IdOf(ops, a, n), key, ops[a].filters[n], ops, a)
    decreases |ops|
  {
    var last := |ops| - 1;
    InitLast(ops);
    if a == last {
      OwnedFirst(ops[..last], ops[last], key, n);
    } else {
      OwnsNext(ops[..last], ops[last], key, a, n);
      OwnedIsLive(ops[..last], key, a, n);
      OwnedLater(ops[..last], ops[last], key, ops[a].filters[n], a, n);
    }
  }

  /** Every live filter was added by some operation, and its subscription was not removed since. */
  lemma {:induction false} LiveIsOwned(ops: seq<Op>, id: FilterId) returns (a: nat, n: nat)
    requires id in Run(ops).all
    ensures Owns(ops, Run(ops).all[id].owner, a, n) && IdOf(ops, a, n) == id
    decreases |ops|
  {
    var last := |ops| - 1;
    var init, op := ops[..last], ops[last];
    var ix := Run(init);
    RunNext(init, op);
    InitLast(ops);
    SameIdOf(init, op, last, 0);
    if id in ix.all {
      a, n := LiveIsOwned(init, id);
      StepFilters(ix, op, id);
      OwnsNext(init, op, ix.all[id].owner, a, n);
      SameIdOf(init, op, a, n);
    } else {
      SubscriptionAdded(ix, op.key, op.filters);
      a, n := last, id - ix.nextId;
    }
  }

  // ----- Groups -----

  lemma AddFiltersGroup(ix: Index, key: Key, fs: seq<Filter>, k: Key, id: EventId)
    requires Valid(ix) && key in ix.groups
    ensures GroupSaw(AddFilters(ix, key, fs), k, id) <==> GroupSaw(ix, k, id)
  {
    AddFiltersGroups(ix, key, fs);
  }

  lemma AddGroups(ix: Index, key: Key, fs: seq<Filter>, k: Key, id: EventId)
    requires Valid(ix)
    ensures GroupSaw(AddSubscription(ix, key, fs), k, id) <==> GroupSaw(ix, k, id)
  {
    EnsureGroupValid(ix, key);
    EnsureGroupFrame(ix, key);
    AddFiltersGroup(EnsureGroup(ix, key), key, fs, k, id);
  }

  lemma StepGroups(ix: Index, op: Op, key: Key, id: EventId)
    requires Valid(ix)
    ensures GroupSaw(Step(ix, op), key, id) <==>
            if op.Distribute? && key in FreshMatches(ix, op.event) then op.event.id == id
            else op != Remove(key) && GroupSaw(ix, key, id)
  {
    match op
    case Add(added, fs) => AddGroups(ix, added, fs, key, id);
    case Remove(_) =>
    case Distribute(_) =>
  }

  /** A subscription's marker is the last event reported for it. */
  lemma {:induction false} MarkerIsLastReported(ops: seq<Op>, key: Key, id: EventId)
    ensures GroupSaw(Run(ops), key, id) <==> LastReported(ops, Reports(ops), key, id)
    decreases |ops|
  {
    if ops != [] {
      var init, op := ops[..|ops| - 1], ops[|ops| - 1];
      var r := if op.Distribute? then FreshMatches(Run(init), op.event) else {};
      RunNext(init, op);
      InitLast(ops);
      MarkerIsLastReported(init, key, id);
      StepGroups(Run(init), op, key, id);
      LastReportedNext(init, Reports(init), op, r, key, id);
    }
  }

  // ----- Exactly what is reported -----

  lemma DueIfFresh(ops: seq<Op>, e: Event, key: Key)
    requires key in FreshMatches(Run(ops), e)
    ensures Due(ops, Reports(ops), e, key)
  {
    var ix := Run(ops);
    RunInvariant(ops);
    MarkerIsLastReported(ops, key, e.id);
    var id :| id in ix.groups[key].ids && id in ix.all && Matches(ix.all[id].filter, e) && !FilterSaw(ix, id, e.id);
    var a, n := LiveIsOwned(ops, id);
    OwnedIsLive(ops, key, a, n);
  }

  lemma FreshIfDue(ops: seq<Op>, e: Event, key: Key)
    requires Due(ops, Reports(ops), e, key)
    ensures key in FreshMatches(Run(ops), e)
  {
    RunInvariant(ops);
    MarkerIsLastReported(ops, key, e.id);
    var a: nat, n: nat :| Owns(ops, key, a, n) && Matches(ops[a].filters[n], e) &&
                          !LastMatched(ops, a, ops[a].filters[n], e.id);
    OwnedIsLive(ops, key, a, n);
    assert IdOf(ops, a, n) in Run(ops).groups[key].ids;
  }

  /**
    After any run, repeated events included, a distribution reports exactly the subscriptions whose
    last report is not this event and that own a matching filter whose last match is not this event.
   */
  lemma ReportsAreDue(ops: seq<Op>, e: Event, key: Key)
    ensures key in FreshMatches(Run(ops), e) <==> Due(ops, Reports(ops), e, key)
  {
    if key in FreshMatches(Run(ops), e) { DueIfFresh(ops, e, key); }
    if Due(ops, Reports(ops), e, key) { FreshIfDue(ops, e, key); }
  }

  /** The same of every operation of a run: what was reported before determines what is reported next. */
  lemma {:induction false} EveryReportIsDue(ops: seq<Op>, i: nat, key: Key)
    requires i < |ops|
    ensures Reports(ops)[..i] == Reports(ops[..i])
    ensures key in Reports(ops)[i] <==>
            ops[i].Distribute? && Due(ops[..i], Reports(ops)[..i], ops[i].event, key)
    decreases |ops|
  {
    var last := |ops| - 1;
    if i < last {
      assert ops[..last][..i] == ops[..i];
      EveryReportIsDue(ops[..last], i, key);
      assert Reports(ops)[..i] == Reports(ops[..last])[..i];
    } else if ops[i].Distribute? {
      ReportsAreDue(ops[..i], ops[i].event, key);
    }
  }
}
