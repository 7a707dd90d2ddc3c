/**
  The subscription index: an object whose five structures, groups and markers are updated in
  place. Each method is proved against the value-level operation of `IndexModel`.
 */
module SubscriptionIndexes {
  import opened Nostr
  import opened IndexModel
  import opened IndexRefinement
  import opened Hearing

  // ----- Updating one structure -----

  method PushEach<K(==)>(m: map<K, seq<Tracked>>, keys: set<K>, t: Tracked) returns (r: map<K, seq<Tracked>>)
    ensures r == PushAll(m, keys, t)
  {
    r := m;
    var todo := keys;
    while todo != {}
      invariant todo <= keys
      invariant r == PushAll(m, keys - todo, t)
      decreases todo
    {
      var k :| k in todo;
      r := r[k := Get(r, k) + [t]];
      todo := todo - {k};
    }
  }

  /** Drops one id from the lists of the given keys only. */
  function DropFrom<K>(m: map<K, seq<Tracked>>, keys: set<K>, id: FilterId): (r: map<K, seq<Tracked>>)
  {
    map k | k in m && (k in keys ==> Keep(m[k], {id}) != []) :: if k in keys then Keep(m[k], {id}) else m[k]
  }

  method RetainEach<K(==)>(m: map<K, seq<Tracked>>, keys: set<K>, id: FilterId) returns (r: map<K, seq<Tracked>>)
    ensures r == DropFrom(m, keys, id)
  {
    r := m;
    var todo := keys;
    while todo != {}
      invariant todo <= keys
      invariant r == DropFrom(m, keys - todo, id)
      decreases todo
    {
      var k :| k in todo;
      if k in r {
        var kept := Keep(r[k], {id});
        r := if kept == [] then r - {k} else r[k := kept];
      }
      todo := todo - {k};
    }
  }

  ghost predicate HeldOnlyUnder<K>(m: map<K, seq<Tracked>>, keys: set<K>, id: FilterId)
  {
    forall k | k in m && k !in keys :: forall t | t in m[k] :: t.id != id
  }

  lemma {:induction false} KeepAll(s: seq<Tracked>, id: FilterId)
    requires forall t | t in s :: t.id != id
    ensures Keep(s, {id}) == s
    decreases |s|
  {
    if s != [] {
      KeepAll(s[..|s| - 1], id);
      assert s[|s| - 1] in s;
    }
  }

  /** A filter held only under its own keys is gone once it is dropped from those. */
  lemma DropFromOwnKeys<K>(m: map<K, seq<Tracked>>, keys: set<K>, id: FilterId)
    requires AllNonEmpty(m) && HeldOnlyUnder(m, keys, id)
    ensures DropFrom(m, keys, id) == DropIds(m, {id})
  {
    forall k | k in m && k !in keys ensures Keep(m[k], {id}) == m[k] { KeepAll(m[k], id); }
  }

  lemma {:induction false} KeepTwice(s: seq<Tracked>, a: set<FilterId>, b: set<FilterId>)
    ensures Keep(Keep(s, a), b) == Keep(s, a + b)
    decreases |s|
  {
    if s != [] { KeepTwice(s[..|s| - 1], a, b); }
  }

  lemma DropTwice<K>(m: map<K, seq<Tracked>>, a: set<FilterId>, b: set<FilterId>)
    ensures DropIds(DropIds(m, a), b) == DropIds(m, a + b)
  {
    forall k | k in m ensures Keep(Keep(m[k], a), b) == Keep(m[k], a + b) { KeepTwice(m[k], a, b); }
  }

  lemma DropTagsTwice(m: map<Letter, map<string, seq<Tracked>>>, a: set<FilterId>, b: set<FilterId>)
    ensures DropTags(DropTags(m, a), b) == DropTags(m, a + b)
  {
    var left, right := DropTags(DropTags(m, a), b), DropTags(m, a + b);
    forall c ensures c in left <==> c in right
             ensures c in left && c in right ==> left[c] == right[c] {
      if c in m { DropTwice(m[c], a, b); }
    }
  }

  lemma RemoveTwice(ix: Index, a: set<FilterId>, b: set<FilterId>)
    ensures RemoveIds(RemoveIds(ix, a), b) == RemoveIds(ix, a + b)
  {
    DropTwice(ix.authors, a, b);
    DropTwice(ix.kinds, a, b);
    DropTwice(ix.eventIds, a, b);
    DropTagsTwice(ix.tags, a, b);
    KeepTwice(ix.matchAll, a, b);
    assert ix.all - a - b == ix.all - (a + b);
    assert ix.filterSeen - a - b == ix.filterSeen - (a + b);
  }

  lemma {:induction false} KeepNone(s: seq<Tracked>)
    ensures Keep(s, {}) == s
    decreases |s|
  {
    if s != [] { KeepNone(s[..|s| - 1]); }
  }

  lemma DropNone<K>(m: map<K, seq<Tracked>>)
    requires AllNonEmpty(m)
    ensures DropIds(m, {}) == m
  {
    forall k | k in m ensures Keep(m[k], {}) == m[k] { KeepNone(m[k]); }
  }

  lemma DropTagsNone(m: map<Letter, map<string, seq<Tracked>>>)
    requires forall c | c in m :: m[c] != map[] && AllNonEmpty(m[c])
    ensures DropTags(m, {}) == m
  {
    forall c | c in m ensures DropIds(m[c], {}) == m[c] { DropNone(m[c]); }
  }

  lemma RemoveNone(ix: Index)
    requires NoEmptyBuckets(ix)
    ensures RemoveIds(ix, {}) == ix
  {
    DropNone(ix.authors);
    DropNone(ix.kinds);
    DropNone(ix.eventIds);
    DropTagsNone(ix.tags);
    KeepNone(ix.matchAll);
  }

  /** Every list holding this filter's id is a list the filter belongs in. */
  ghost predicate HeldWhereCovered(ix: Index, t: Tracked)
  {
    forall k, x :: x in Bucket(ix, k) && x.id == t.id ==> Covers(t, k)
  }

  lemma ValidHeldWhereCovered(ix: Index, t: Tracked)
    requires BucketsOk(ix) && Live(ix, t)
    ensures HeldWhereCovered(ix, t)
  {
    forall k, x | x in Bucket(ix, k) && x.id == t.id ensures Covers(t, k) { assert BucketOk(ix, k) && Live(ix, x); }
  }

  // One lemma per structure: dropping the filter from the lists of its own keys drops it altogether.

  lemma DropEventIds(ix: Index, t: Tracked)
    requires AllNonEmpty(ix.eventIds) && HeldWhereCovered(ix, t)
    ensures DropFrom(ix.eventIds, IdKeys(t), t.id) == DropIds(ix.eventIds, {t.id})
    ensures IdKeys(t) == {} ==> DropIds(ix.eventIds, {t.id}) == ix.eventIds
  {
    forall k, x | k in ix.eventIds && k !in IdKeys(t) && x in ix.eventIds[k] ensures x.id != t.id {
      assert x in Bucket(ix, ById(k));
    }
    DropFromOwnKeys(ix.eventIds, IdKeys(t), t.id);
    DropFromNoKeys(ix.eventIds, t.id);
  }

  lemma DropAuthors(ix: Index, t: Tracked)
    requires AllNonEmpty(ix.authors) && HeldWhereCovered(ix, t)
    ensures DropFrom(ix.authors, AuthorKeys(t), t.id) == DropIds(ix.authors, {t.id})
    ensures AuthorKeys(t) == {} ==> DropIds(ix.authors, {t.id}) == ix.authors
  {
    forall k, x | k in ix.authors && k !in AuthorKeys(t) && x in ix.authors[k] ensures x.id != t.id {
      assert x in Bucket(ix, ByAuthor(k));
    }
    DropFromOwnKeys(ix.authors, AuthorKeys(t), t.id);
    DropFromNoKeys(ix.authors, t.id);
  }

  lemma DropKinds(ix: Index, t: Tracked)
    requires AllNonEmpty(ix.kinds) && HeldWhereCovered(ix, t)
    ensures DropFrom(ix.kinds, KindKeys(t), t.id) == DropIds(ix.kinds, {t.id})
    ensures KindKeys(t) == {} ==> DropIds(ix.kinds, {t.id}) == ix.kinds
  {
    forall k, x | k in ix.kinds && k !in KindKeys(t) && x in ix.kinds[k] ensures x.id != t.id {
      assert x in Bucket(ix, ByKind(k));
    }
    DropFromOwnKeys(ix.kinds, KindKeys(t), t.id);
    DropFromNoKeys(ix.kinds, t.id);
  }

  lemma DropTagLetter(ix: Index, t: Tracked, c: Letter)
    requires c in ix.tags && AllNonEmpty(ix.tags[c]) && HeldWhereCovered(ix, t)
    ensures DropFrom(ix.tags[c], TagKeys(t, c), t.id) == DropIds(ix.tags[c], {t.id})
  {
    forall v, x | v in ix.tags[c] && v !in TagKeys(t, c) && x in ix.tags[c][v] ensures x.id != t.id {
      assert x in Bucket(ix, ByTag(c, v));
    }
    DropFromOwnKeys(ix.tags[c], TagKeys(t, c), t.id);
  }

  lemma DropMatchAll(ix: Index, t: Tracked)
    requires t.field.Some? && HeldWhereCovered(ix, t)
    ensures Keep(ix.matchAll, {t.id}) == ix.matchAll
  {
    forall x | x in ix.matchAll ensures x.id != t.id { assert x in Bucket(ix, AnyEvent); }
    KeepAll(ix.matchAll, t.id);
  }

  lemma DropFromNoKeys<K>(m: map<K, seq<Tracked>>, id: FilterId)
    ensures DropFrom(m, {}, id) == m
  {
  }

  lemma PushToNone<K>(m: map<K, seq<Tracked>>, t: Tracked)
    ensures PushAll(m, {}, t) == m
  {
  }

  /** Inserting changes only the structure of the filter's own field. */
  lemma InsertByField(ix: Index, t: Tracked)
    ensures var r := Insert(ix, t);
            match t.field
            case None => r == ix.(matchAll := ix.matchAll + [t])
            case Some(EventIdField) => r == ix.(eventIds := PushAll(ix.eventIds, IdKeys(t), t))
            case Some(AuthorField) => r == ix.(authors := PushAll(ix.authors, AuthorKeys(t), t))
            case Some(KindField) => r == ix.(kinds := PushAll(ix.kinds, KindKeys(t), t))
            case Some(TagField(c)) => r == ix.(tags := PushTags(ix.tags, t))
  {
    PushToNone(ix.eventIds, t);
    PushToNone(ix.authors, t);
    PushToNone(ix.kinds, t);
  }

  lemma DropTagsAt(m: map<Letter, map<string, seq<Tracked>>>, c: Letter, ids: set<FilterId>)
    requires forall d | d in m && d != c :: m[d] != map[] && DropIds(m[d], ids) == m[d]
    ensures c !in m ==> DropTags(m, ids) == m
    ensures c in m ==> DropTags(m, ids) == if DropIds(m[c], ids) == map[] then m - {c} else m[c := DropIds(m[c], ids)]
  {
    var r := if c !in m then m else if DropIds(m[c], ids) == map[] then m - {c} else m[c := DropIds(m[c], ids)];
    SameMap(DropTags(m, ids), r);
  }

  lemma DropTagsOne(ix: Index, t: Tracked, c: Letter)
    requires NoEmptyBuckets(ix) && HeldWhereCovered(ix, t)
    requires forall d | d != c :: TagKeys(t, d) == {}
    ensures c !in ix.tags ==> DropTags(ix.tags, {t.id}) == ix.tags
    ensures c in ix.tags ==>
              var m := DropFrom(ix.tags[c], TagKeys(t, c), t.id);
              DropTags(ix.tags, {t.id}) == if m == map[] then ix.tags - {c} else ix.tags[c := m]
  {
    forall d | d in ix.tags && d != c ensures DropIds(ix.tags[d], {t.id}) == ix.tags[d] {
      DropTagLetter(ix, t, d);
      DropFromNoKeys(ix.tags[d], t.id);
    }
    DropTagsAt(ix.tags, c, {t.id});
    if c in ix.tags { DropTagLetter(ix, t, c); }
  }

  lemma DropTagsOther(ix: Index, t: Tracked)
    requires NoEmptyBuckets(ix) && HeldWhereCovered(ix, t)
    requires forall d :: TagKeys(t, d) == {}
    ensures DropTags(ix.tags, {t.id}) == ix.tags
  {
    forall d | d in ix.tags ensures DropIds(ix.tags[d], {t.id}) == ix.tags[d] {
      DropTagLetter(ix, t, d);
      DropFromNoKeys(ix.tags[d], t.id);
    }
  }

  function DropTagFrom(m: map<Letter, map<string, seq<Tracked>>>, c: Letter, values: set<string>, id: FilterId)
    : (r: map<Letter, map<string, seq<Tracked>>>)
  {
    if c !in m then m
    else if DropFrom(m[c], values, id) == map[] then m - {c}
    else m[c := DropFrom(m[c], values, id)]
  }

  /** Takes a filter out of the lists of its own keys only. */
  function RemoveOwnKeys(ix: Index, t: Tracked): (r: Index)
  {
    match t.field
    case None => ix.(matchAll := Keep(ix.matchAll, {t.id}))
    case Some(EventIdField) => ix.(eventIds := DropFrom(ix.eventIds, IdKeys(t), t.id))
    case Some(AuthorField) => ix.(authors := DropFrom(ix.authors, AuthorKeys(t), t.id))
    case Some(KindField) => ix.(kinds := DropFrom(ix.kinds, KindKeys(t), t.id))
    case Some(TagField(c)) => ix.(tags := DropTagFrom(ix.tags, c, TagKeys(t, c), t.id))
  }

  /** A filter held only where it belongs is gone from the whole index once its own keys are cleaned. */
  lemma RemoveOwnKeysRemoves(ix: Index, t: Tracked)
    requires NoEmptyBuckets(ix) && HeldWhereCovered(ix, t)
    ensures RemoveOwnKeys(ix, t) == RemoveFromBuckets(ix, {t.id})
  {
    DropEventIds(ix, t);
    DropAuthors(ix, t);
    DropKinds(ix, t);
    DropTagField(ix, t);
    if t.field.Some? { DropMatchAll(ix, t); }
  }

  lemma DropTagField(ix: Index, t: Tracked)
    requires NoEmptyBuckets(ix) && HeldWhereCovered(ix, t)
    ensures DropTags(ix.tags, {t.id}) ==
            if t.field.Some? && t.field.value.TagField?
            then DropTagFrom(ix.tags, t.field.value.letter, TagKeys(t, t.field.value.letter), t.id)
            else ix.tags
  {
    if t.field.Some? && t.field.value.TagField? {
      DropTagsOne(ix, t, t.field.value.letter);
    } else {
      DropTagsOther(ix, t);
    }
  }

  method RetainTag(m: map<Letter, map<string, seq<Tracked>>>, c: Letter, values: set<string>, id: FilterId)
    returns (r: map<Letter, map<string, seq<Tracked>>>)
    ensures r == DropTagFrom(m, c, values, id)
  {
    r := m;
    if c in r {
      var tagIndex := RetainEach(r[c], values, id);
      r := if tagIndex == map[] then r - {c} else r[c := tagIndex];
    }
  }

  // ----- Collecting candidates -----

  /** A list of distinct filters together with the set of their ids. */
  ghost predicate Collected(cs: seq<Tracked>, seen: set<FilterId>)
  {
    && (forall i, j :: 0 <= i < j < |cs| ==> cs[i].id != cs[j].id)
    && (forall id :: id in seen <==> exists i :: 0 <= i < |cs| && cs[i].id == id)
  }

  ghost predicate AllLive(ix: Index, s: seq<Tracked>)
  {
    forall t | t in s :: Live(ix, t)
  }

  lemma CollectOne(ix: Index, cs: seq<Tracked>, seen: set<FilterId>, t: Tracked)
    requires Collected(cs, seen) && AllLive(ix, cs) && Live(ix, t)
    ensures t.id in seen <==> t in cs
    ensures t.id !in seen ==> Collected(cs + [t], seen + {t.id}) && AllLive(ix, cs + [t])
  {
    if t.id in seen {
      var i :| 0 <= i < |cs| && cs[i].id == t.id;
      assert cs[i] in cs;
    } else {
      var r := cs + [t];
      forall id ensures id in seen + {t.id} <==> exists i :: 0 <= i < |r| && r[i].id == id {
        if id in seen {
          var i :| 0 <= i < |cs| && cs[i].id == id;
          assert r[i].id == id;
        }
        if id == t.id { assert r[|cs|].id == id; }
      }
      forall x | x in r ensures Live(ix, x) { assert x in cs || x == t; }
    }
  }

  method AppendUnseen(ghost ix: Index, cs: seq<Tracked>, seen: set<FilterId>, bucket: seq<Tracked>)
    returns (cs': seq<Tracked>, seen': set<FilterId>)
    requires Collected(cs, seen) && AllLive(ix, cs) && AllLive(ix, bucket)
    ensures Collected(cs', seen') && AllLive(ix, cs')
    ensures forall t :: t in cs' <==> t in cs || t in bucket
  {
    cs', seen' := cs, seen;
    for i := 0 to |bucket|
      invariant Collected(cs', seen') && AllLive(ix, cs')
      invariant forall t :: t in cs' <==> t in cs || t in bucket[..i]
    {
      assert bucket[i] in bucket;
      CollectOne(ix, cs', seen', bucket[i]);
      assert bucket[..i + 1] == bucket[..i] + [bucket[i]];
      if bucket[i].id !in seen' {
        cs', seen' := cs' + [bucket[i]], seen' + {bucket[i].id};
      }
    }
    assert bucket[..|bucket|] == bucket;
  }

  /** The candidates gathered so far are the filters of the buckets consulted so far. */
  ghost predicate Gathered(ix: Index, cs: seq<Tracked>, looked: set<BucketKey>)
  {
    forall t :: t in cs <==> exists k :: k in looked && t in Bucket(ix, k)
  }

  lemma GatherBucket(ix: Index, cs: seq<Tracked>, cs': seq<Tracked>, looked: set<BucketKey>, k: BucketKey)
    requires Gathered(ix, cs, looked)
    requires forall t :: t in cs' <==> t in cs || t in Bucket(ix, k)
    ensures Gathered(ix, cs', looked + {k})
  {
    forall t ensures t in cs' <==> exists k' :: k' in looked + {k} && t in Bucket(ix, k') {
      if t in cs {
        var k' :| k' in looked && t in Bucket(ix, k');
        assert k' in looked + {k};
      }
      if t in Bucket(ix, k) { assert k in looked + {k}; }
      if k' :| k' in looked + {k} && t in Bucket(ix, k') {
        if k' != k { assert k' in looked; }
      }
    }
  }

  lemma BucketLive(ix: Index, k: BucketKey)
    requires Valid(ix)
    ensures AllLive(ix, Bucket(ix, k))
  {
    assert BucketOk(ix, k);
  }

  /** Once exactly the event's buckets have been consulted, the candidates are exactly the live candidate filters. */
  lemma GatheredAll(ix: Index, cs: seq<Tracked>, looked: set<BucketKey>, e: Event)
    requires Valid(ix) && Gathered(ix, cs, looked) && forall k :: k in looked <==> LooksUp(e, k)
    ensures forall t :: t in cs <==> Live(ix, t) && IsCandidate(t, e)
  {
    forall t ensures t in cs <==> Live(ix, t) && IsCandidate(t, e) {
      if t in cs {
        var k :| k in looked && t in Bucket(ix, k);
        assert BucketOk(ix, k);
      }
      if Live(ix, t) && IsCandidate(t, e) {
        var k :| LooksUp(e, k) && Covers(t, k);
        assert BucketOk(ix, k) && t in Bucket(ix, k);
      }
    }
  }

  // ----- The distribution loop -----

  function MarkIds(m: map<FilterId, EventId>, ids: set<FilterId>, e: EventId): (r: map<FilterId, EventId>)
  {
    map id | id in m.Keys + ids :: if id in ids then e else m[id]
  }

  function MarkGroups(m: map<Key, Group>, keys: set<Key>, e: EventId): (r: map<Key, Group>)
  {
    map key | key in m :: if key in keys then m[key].(lastSeen := Some(e)) else m[key]
  }

  /** The filter counts for this event: it matches, and was not marked with it before. */
  predicate Hits(ix: Index, t: Tracked, e: Event)
  {
    Matches(t.filter, e) && !FilterSaw(ix, t.id, e.id)
  }

  /** The state of the loop once the filters `done` have been looked at. */
  ghost predicate LoopState(ix: Index, e: Event, done: seq<Tracked>, hit: set<FilterId>, checked: set<Key>, r: seq<Key>)
  {
    && (forall id :: id in hit <==> exists i :: 0 <= i < |done| && done[i].id == id && Hits(ix, done[i], e))
    && (forall key :: key in checked <==> exists i :: 0 <= i < |done| && done[i].owner == key && Hits(ix, done[i], e))
    && (forall key :: key in r <==> key in checked && key in ix.groups && ix.groups[key].lastSeen != Some(e.id))
    && NoDuplicates(r)
  }

  lemma LoopSkip(ix: Index, e: Event, done: seq<Tracked>, t: Tracked, hit: set<FilterId>, checked: set<Key>,
                 r: seq<Key>)
    requires LoopState(ix, e, done, hit, checked, r) && !Hits(ix, t, e)
    ensures LoopState(ix, e, done + [t], hit, checked, r)
  {
    var next := done + [t];
    assert forall i :: 0 <= i < |done| ==> next[i] == done[i];
  }

  lemma LoopHit(ix: Index, e: Event, done: seq<Tracked>, t: Tracked, hit: set<FilterId>, checked: set<Key>, r: seq<Key>)
    requires LoopState(ix, e, done, hit, checked, r) && Hits(ix, t, e) && t.owner in ix.groups
    ensures LoopState(ix, e, done + [t], hit + {t.id}, checked + {t.owner},
                      if t.owner in checked || ix.groups[t.owner].lastSeen == Some(e.id) then r else r + [t.owner])
  {
    var next := done + [t];
    assert forall i :: 0 <= i < |done| ==> next[i] == done[i];
    assert next[|done|] == t;
  }

  lemma CheckedIsUnseenMatch(ix: Index, e: Event, cs: seq<Tracked>, checked: set<Key>, key: Key)
    requires Valid(ix) && forall t :: t in cs <==> Live(ix, t) && IsCandidate(t, e)
    requires key in checked <==> exists i :: 0 <= i < |cs| && cs[i].owner == key && Hits(ix, cs[i], e)
    ensures key in checked <==> key in ix.groups && HasUnseenMatch(ix, key, e)
  {
    if key in checked {
      var i :| 0 <= i < |cs| && cs[i].owner == key && Hits(ix, cs[i], e);
      assert cs[i] in cs && Live(ix, cs[i]);
      assert cs[i].id in ix.groups[key].ids;
    }
    if key in ix.groups && HasUnseenMatch(ix, key, e) {
      var id :| id in ix.groups[key].ids && id in ix.all && Matches(ix.all[id].filter, e) && !FilterSaw(ix, id, e.id);
      MatchIsCandidate(ix.all[id], e);
      assert Live(ix, ix.all[id]) && ix.all[id] in cs;
      var i :| 0 <= i < |cs| && cs[i] == ix.all[id];
      assert cs[i].owner == key && Hits(ix, cs[i], e);
    }
  }

  lemma MarkIdsIsMarkSeen(ix: Index, e: Event, hit: set<FilterId>)
    requires FiltersOk(ix) && forall id :: id in hit <==> id in ix.all && Hits(ix, ix.all[id], e)
    ensures MarkIds(ix.filterSeen, hit, e.id) == MarkSeen(ix, e).filterSeen
  {
    var a, b := MarkIds(ix.filterSeen, hit, e.id), MarkSeen(ix, e).filterSeen;
    forall id ensures id in a <==> id in b
              ensures id in a ==> a[id] == b[id] {
      assert id in hit <==> id in ix.all && Hits(ix, ix.all[id], e);
    }
  }

  /** After the last candidate, exactly the fresh matches are reported and exactly the matching filters are marked. */
  lemma LoopDone(ix: Index, e: Event, cs: seq<Tracked>, hit: set<FilterId>, checked: set<Key>, r: seq<Key>)
    requires Valid(ix) && LoopState(ix, e, cs, hit, checked, r)
    requires forall t :: t in cs <==> Live(ix, t) && IsCandidate(t, e)
    ensures Elements(r) == FreshMatches(ix, e)
    ensures MarkIds(ix.filterSeen, hit, e.id) == MarkSeen(ix, e).filterSeen
  {
    forall id ensures id in hit <==> id in ix.all && Hits(ix, ix.all[id], e) { HitIsLiveMatch(ix, e, cs, hit, id); }
    MarkIdsIsMarkSeen(ix, e, hit);
    forall key
      ensures key in Elements(r) <==> key in FreshMatches(ix, e)
    {
      CheckedIsUnseenMatch(ix, e, cs, checked, key);
    }
  }

  lemma MarkMore(m: map<FilterId, EventId>, g: map<Key, Group>, ids: set<FilterId>, r: seq<Key>, id: FilterId,
                 key: Key, e: EventId)
    ensures MarkIds(m, ids, e)[id := e] == MarkIds(m, ids + {id}, e)
    ensures key in g ==>
      MarkGroups(g, Elements(r), e)[key := MarkGroups(g, Elements(r), e)[key].(lastSeen := Some(e))] ==
        MarkGroups(g, Elements(r + [key]), e)
  {
  }

  lemma HitIsLiveMatch(ix: Index, e: Event, cs: seq<Tracked>, hit: set<FilterId>, id: FilterId)
    requires Valid(ix) && forall t :: t in cs <==> Live(ix, t) && IsCandidate(t, e)
    requires id in hit <==> exists i :: 0 <= i < |cs| && cs[i].id == id && Hits(ix, cs[i], e)
    ensures id in hit <==> id in ix.all && Hits(ix, ix.all[id], e)
  {
    if id in hit {
      var i :| 0 <= i < |cs| && cs[i].id == id && Hits(ix, cs[i], e);
      assert cs[i] in cs;
    }
    if id in ix.all && Hits(ix, ix.all[id], e) {
      MatchIsCandidate(ix.all[id], e);
      assert Live(ix, ix.all[id]) && ix.all[id] in cs;
    }
  }

  /** A valid index holding these lists, marked with what was heard and nothing but `marked`. */
  ghost predicate Sound(ix: Index, m: map<Key, seq<Filter>>, marked: set<EventId>, heard: Hearings)
  {
    IndexOk(ix, m, marked) && Recalls(ix, m, heard)
  }

  /**
    What a distribution reports: only what a scan of all filters finds, and for a new event all of it;
    for any event, if every subscription got its filters at once, exactly those to be told of it.
   */
  ghost predicate ReportOk(m: map<Key, seq<Filter>>, marked: set<EventId>, heard: Hearings, e: Event, r: set<Key>)
  {
    && r <= LinearScan(m, e)
    && (e.id !in marked ==> r == LinearScan(m, e))
    && (m.Keys <= heard.Keys ==> forall key :: key in r <==> key in m && Told(m[key], heard[key], e))
  }

  /** What a distribution reports and leaves, seen through the filter lists and what was heard. */
  lemma DistributionOk(ix: Index, m: map<Key, seq<Filter>>, marked: set<EventId>, heard: Hearings, e: Event)
    requires Sound(ix, m, marked, heard)
    ensures ReportOk(m, marked, heard, e, FreshMatches(ix, e))
    ensures Sound(MarkSeen(ix, e), m, marked + {e.id}, Hear(heard, e))
  {
    FreshMatchesWithinScan(ix, e);
    if e.id !in marked { FreshMatchesIsScan(ix, e); }
    if m.Keys <= heard.Keys { RecallsFresh(ix, m, heard, e); }
    MarkIndexOk(ix, m, marked, e);
    RecallsMark(ix, m, heard, e);
  }

  class SubscriptionIndex {
    var authors: map<PublicKey, seq<Tracked>>
    var kinds: map<Kind, seq<Tracked>>
    var eventIds: map<EventId, seq<Tracked>>
    var tags: map<Letter, map<string, seq<Tracked>>>
    var matchAll: seq<Tracked>
    var allFilters: map<FilterId, Tracked>
    var filterSeen: map<FilterId, EventId>
    var groups: map<Key, Group>
    var nextFilterId: FilterId

    /** The filter list of every subscription, and the events distributed so far. */
    ghost var contents: map<Key, seq<Filter>>
    ghost var marked: set<EventId>
    /** What every subscription has heard since it was opened, unless filters were added to it later. */
    ghost var heard: Hearings

    /** The object invariant: a valid index holding `contents`, marked with what was heard and nothing but `marked`. */
    ghost predicate Ok()
      reads this
    {
      forall n: nat {:trigger Unfold(n)} :: Unfold(n) ==> Sound(View(), contents, marked, heard)
    }

    ghost function View(): (ix: Index)
      reads this
    {
      Index(authors, kinds, eventIds, tags, matchAll, allFilters, filterSeen, groups, nextFilterId)
    }

    constructor ()
      ensures View() == Empty && Ok() && contents == map[] && marked == {} && heard == map[]
    {
      EmptyIndexOk({});
      contents, marked, heard := map[], {}, map[];
      authors, kinds, eventIds, tags, matchAll := map[], map[], map[], map[], [];
      allFilters, filterSeen, groups, nextFilterId := map[], map[], map[], 1;
    }

    method AddFilterToIndexes(t: Tracked)
      requires FieldFits(t.filter, t.field)
      modifies this`authors, this`kinds, this`eventIds, this`tags, this`matchAll
      ensures View() == Insert(old(View()), t)
    {
      InsertByField(View(), t);
      match t.field
      case None => matchAll := matchAll + [t];
      case Some(EventIdField) => eventIds := PushEach(eventIds, t.filter.ids.value, t);
      case Some(AuthorField) => authors := PushEach(authors, t.filter.authors.value, t);
      case Some(KindField) => kinds := PushEach(kinds, t.filter.kinds.value, t);
      case Some(TagField(c)) =>
        var tagIndex := PushEach(if c in tags then tags[c] else map[], t.filter.tags[c], t);
        tags := tags[c := tagIndex];
    }

    method AddSubscription(conn: ConnId, sub: SubId, filters: seq<Filter>)
      requires Ok()
      modifies this
      ensures View() == IndexModel.AddSubscription(old(View()), (conn, sub), filters)
      ensures Ok() && marked == old(marked)
      ensures contents == old(contents)[(conn, sub) := Get(old(contents), (conn, sub)) + filters]
      ensures heard == HeardAdd(old(contents), old(heard), (conn, sub))
    {
      AddFilters((conn, sub), filters);
      assert Unfold(0);
      AddIndexOk(old(View()), contents, marked, (conn, sub), filters);
      RecallsAdd(old(View()), contents, heard, (conn, sub), filters);
      heard := HeardAdd(contents, heard, (conn, sub));
      contents := contents[(conn, sub) := Get(contents, (conn, sub)) + filters];
    }

    method AddFilters(key: Key, filters: seq<Filter>)
      modifies this`authors, this`kinds, this`eventIds, this`tags, this`matchAll
      modifies this`allFilters, this`filterSeen, this`groups, this`nextFilterId
      ensures View() == IndexModel.AddSubscription(old(View()), key, filters)
    {
      OpenGroup(key);
      AddEach(key, filters);
    }

    method OpenGroup(key: Key)
      modifies this`groups
      ensures View() == EnsureGroup(old(View()), key) && key in groups
    {
      if key !in groups {
        groups := groups[key := Group({}, None)];
      }
    }

    method AddEach(key: Key, filters: seq<Filter>)
      requires key in groups
      modifies this`authors, this`kinds, this`eventIds, this`tags, this`matchAll
      modifies this`allFilters, this`filterSeen, this`groups, this`nextFilterId
      ensures View() == IndexModel.AddFilters(old(View()), key, filters)
    {
      for i := 0 to |filters|
        invariant View() == IndexModel.AddFilters(old(View()), key, filters[..i])
        invariant key in groups
      {
        AddFilter(key, filters[i]);
        PrefixNext(filters, i);
      }
      assert filters[..|filters|] == filters;
    }

    method AddFilter(key: Key, filter: Filter)
      requires key in groups
      modifies this`authors, this`kinds, this`eventIds, this`tags, this`matchAll
      modifies this`allFilters, this`filterSeen, this`groups, this`nextFilterId
      ensures View() == IndexModel.AddFilter(old(View()), key, filter) && key in groups
    {
      var t := Tracked(nextFilterId, filter, key, ChooseIndexField(filter));
      ChosenFieldFits(filter);
      nextFilterId := nextFilterId + 1;
      allFilters := allFilters[t.id := t];
      filterSeen := filterSeen - {t.id};
      groups := groups[key := groups[key].(ids := groups[key].ids + {t.id})];
      AddFilterToIndexes(t);
    }

    method RemoveFilterFromIndexes(t: Tracked)
      requires FieldFits(t.filter, t.field)
      modifies this`authors, this`kinds, this`eventIds, this`tags, this`matchAll
      ensures View() == RemoveOwnKeys(old(View()), t)
    {
      match t.field
      case None => matchAll := Keep(matchAll, {t.id});
      case Some(EventIdField) => eventIds := RetainEach(eventIds, t.filter.ids.value, t.id);
      case Some(AuthorField) => authors := RetainEach(authors, t.filter.authors.value, t.id);
      case Some(KindField) => kinds := RetainEach(kinds, t.filter.kinds.value, t.id);
      case Some(TagField(c)) => tags := RetainTag(tags, c, t.filter.tags[c], t.id);
    }

    method RemoveSubscription(conn: ConnId, sub: SubId)
      requires Ok()
      modifies this
      ensures View() == IndexModel.RemoveSubscription(old(View()), (conn, sub))
      ensures Ok() && marked == old(marked) && heard == old(heard) && contents == old(contents) - {(conn, sub)}
    {
      assert Unfold(0);
      RemoveFilters((conn, sub));
      RecallsRemove(old(View()), contents, heard, (conn, sub));
      RemoveIndexOk(old(View()), contents, marked, (conn, sub));
      contents := contents - {(conn, sub)};
    }

    method RemoveFilters(key: Key)
      requires Valid(View())
      modifies this`authors, this`kinds, this`eventIds, this`tags, this`matchAll
      modifies this`allFilters, this`filterSeen, this`groups
      ensures View() == IndexModel.RemoveSubscription(old(View()), key)
    {
      if key in groups {
        var ids := groups[key].ids;
        groups := groups - {key};
        ghost var start := View();
        BucketsFrame(old(View()), start);
        RemoveNone(start);
        var todo := ids;
        assert ids - todo == {};
        while todo != {}
          invariant todo <= ids
          invariant View() == RemoveIds(start, ids - todo)
          decreases todo
        {
          var id :| id in todo;
          RemoveIdsBuckets(start, ids - todo);
          RemoveTwice(start, ids - todo, {id});
          assert old(View()).all[id].owner == key;
          assert ids - (todo - {id}) == ids - todo + {id};
          RemoveFilter(id);
          todo := todo - {id};
        }
        assert ids - todo == ids;
      }
    }

    method RemoveFilter(id: FilterId)
      requires FiltersOk(View()) && BucketsOk(View()) && NoEmptyBuckets(View()) && id in allFilters
      modifies this`authors, this`kinds, this`eventIds, this`tags, this`matchAll, this`allFilters, this`filterSeen
      ensures View() == RemoveIds(old(View()), {id})
    {
      var t := allFilters[id];
      ValidHeldWhereCovered(View(), t);
      ChosenFieldFits(t.filter);
      allFilters := allFilters - {id};
      filterSeen := filterSeen - {id};
      assert forall k :: Bucket(View(), k) == old(Bucket(View(), k));
      RemoveOwnKeysRemoves(View(), t);
      RemoveFilterFromIndexes(t);
    }

    /** The filters of one bucket not collected yet. */
    method CollectBucket(k: BucketKey, cs: seq<Tracked>, seen: set<FilterId>, ghost looked: set<BucketKey>)
      returns (cs': seq<Tracked>, seen': set<FilterId>)
      requires Valid(View()) && Collected(cs, seen) && AllLive(View(), cs) && Gathered(View(), cs, looked)
      ensures Collected(cs', seen') && AllLive(View(), cs') && Gathered(View(), cs', looked + {k})
    {
      BucketLive(View(), k);
      var bucket :=
        match k
        case AnyEvent => matchAll
        case ById(x) => Get(eventIds, x)
        case ByAuthor(p) => Get(authors, p)
        case ByKind(n) => Get(kinds, n)
        case ByTag(c, v) => if c in tags then Get(tags[c], v) else [];
      assert bucket == Bucket(View(), k);
      cs', seen' := AppendUnseen(View(), cs, seen, bucket);
      GatherBucket(View(), cs, cs', looked, k);
    }

    /** The filters that might match the event: each live filter one of whose buckets the event looks up, once. */
    method GetCandidateFilters(e: Event) returns (cs: seq<Tracked>)
      requires Valid(View())
      ensures forall i, j :: 0 <= i < j < |cs| ==> cs[i].id != cs[j].id
      ensures forall t :: t in cs <==> Live(View(), t) && IsCandidate(t, e)
    {
      var seen: set<FilterId> := {};
      ghost var looked: set<BucketKey> := {};
      cs := [];
      cs, seen := CollectBucket(AnyEvent, cs, seen, looked);
      cs, seen := CollectBucket(ById(e.id), cs, seen, {} + {AnyEvent});
      cs, seen := CollectBucket(ByAuthor(e.pubkey), cs, seen, {} + {AnyEvent} + {ById(e.id)});
      cs, seen := CollectBucket(ByKind(e.kind), cs, seen, {} + {AnyEvent} + {ById(e.id)} + {ByAuthor(e.pubkey)});
      looked := {} + {AnyEvent} + {ById(e.id)} + {ByAuthor(e.pubkey)} + {ByKind(e.kind)};
      cs, seen, looked := CollectTags(e, cs, seen, looked);
      GatheredAll(View(), cs, looked, e);
    }

    method CollectTags(e: Event, cs: seq<Tracked>, seen: set<FilterId>, ghost looked: set<BucketKey>)
      returns (cs': seq<Tracked>, seen': set<FilterId>, ghost looked': set<BucketKey>)
      requires Valid(View()) && Collected(cs, seen) && AllLive(View(), cs) && Gathered(View(), cs, looked)
      requires looked == {AnyEvent, ById(e.id), ByAuthor(e.pubkey), ByKind(e.kind)}
      ensures Collected(cs', seen') && AllLive(View(), cs') && Gathered(View(), cs', looked')
      ensures forall k :: k in looked' <==> LooksUp(e, k)
    {
      cs', seen', looked' := cs, seen, looked;
      for i := 0 to |e.tags|
        invariant Collected(cs', seen') && AllLive(View(), cs') && Gathered(View(), cs', looked')
        invariant looked <= looked' && forall k | k in looked' :: LooksUp(e, k)
        invariant forall n, v | 0 <= n < i && ParseLetter(e.tags[n].name).Some? && v in e.tags[n].values ::
                    ByTag(ParseLetter(e.tags[n].name).value, v) in looked'
      {
        var letter := ParseLetter(e.tags[i].name);
        if letter.Some? {
          cs', seen', looked' := CollectTag(e, i, letter.value, cs', seen', looked');
        }
      }
      forall k | LooksUp(e, k) ensures k in looked' {
        if k.ByTag? {
          var n :| 0 <= n < |e.tags| && ParseLetter(e.tags[n].name) == Some(k.letter) && k.value in e.tags[n].values;
        } else {
          assert k in looked;
        }
      }
    }

    method CollectTag(e: Event, i: nat, c: Letter, cs: seq<Tracked>, seen: set<FilterId>, ghost looked: set<BucketKey>)
      returns (cs': seq<Tracked>, seen': set<FilterId>, ghost looked': set<BucketKey>)
      requires i < |e.tags| && ParseLetter(e.tags[i].name) == Some(c)
      requires Valid(View()) && Collected(cs, seen) && AllLive(View(), cs) && Gathered(View(), cs, looked)
      requires forall k | k in looked :: LooksUp(e, k)
      ensures Collected(cs', seen') && AllLive(View(), cs') && Gathered(View(), cs', looked')
      ensures looked <= looked' && forall k | k in looked' :: LooksUp(e, k)
      ensures forall v | v in e.tags[i].values :: ByTag(c, v) in looked'
    {
      cs', seen', looked' := cs, seen, looked;
      var values := e.tags[i].values;
      for j := 0 to |values|
        invariant Collected(cs', seen') && AllLive(View(), cs') && Gathered(View(), cs', looked')
        invariant looked <= looked' && forall k | k in looked' :: LooksUp(e, k)
        invariant forall n | 0 <= n < j :: ByTag(c, values[n]) in looked'
      {
        cs', seen' := CollectBucket(ByTag(c, values[j]), cs', seen', looked');
        assert values[j] in values;
        looked' := looked' + {ByTag(c, values[j])};
      }
    }

    /** One turn of the distribution loop. */
    method VisitFilter(ghost ix: Index, e: Event, ghost done: seq<Tracked>, t: Tracked, ghost hit: set<FilterId>,
                       checked: set<Key>, r: seq<Key>)
      returns (ghost hit': set<FilterId>, checked': set<Key>, r': seq<Key>)
      requires LoopState(ix, e, done, hit, checked, r) && t.id !in hit && t.owner in ix.groups
      requires View() == Marking(ix, e.id, hit, r)
      modifies this`filterSeen, this`groups
      ensures LoopState(ix, e, done + [t], hit', checked', r') && hit' <= hit + {t.id}
      ensures View() == Marking(ix, e.id, hit', r')
    {
      hit', checked', r' := hit, checked, r;
      if (t.id in filterSeen && filterSeen[t.id] == e.id) || !Matches(t.filter, e) {
        LoopSkip(ix, e, done, t, hit, checked, r);
        return;
      }
      LoopHit(ix, e, done, t, hit, checked, r);
      MarkMore(ix.filterSeen, ix.groups, hit, r, t.id, t.owner, e.id);
      filterSeen := filterSeen[t.id := e.id];
      hit', checked' := hit + {t.id}, checked + {t.owner};
      if t.owner !in checked && t.owner in groups && groups[t.owner].lastSeen != Some(e.id) {
        groups := groups[t.owner := groups[t.owner].(lastSeen := Some(e.id))];
        r' := r + [t.owner];
      }
    }

    /**
      Reports, once each, exactly the groups not marked with the event that own a matching filter
      not marked with it: for a new event, exactly the subscriptions a scan of all filters finds; and
      for any event, if every subscription got its filters at once, exactly those to be told of it
      after what they heard.
     */
    method DistributeEvent(e: Event) returns (r: seq<Key>)
      requires Ok()
      modifies this
      ensures NoDuplicates(r) && Elements(r) == FreshMatches(old(View()), e)
      ensures ReportOk(contents, old(marked), old(heard), e, Elements(r))
      ensures View() == MarkSeen(old(View()), e)
      ensures Ok() && contents == old(contents) && marked == old(marked) + {e.id} && heard == Hear(old(heard), e)
    {
      assert Sound(View(), contents, marked, heard) by { assert Unfold(0); }
      DistributionOk(View(), contents, marked, heard, e);
      r := MarkAndReport(e);
      marked, heard := marked + {e.id}, Hear(heard, e);
    }

    /** Reports the fresh matches, once each, and marks them and all matching filters. */
    method MarkAndReport(e: Event) returns (r: seq<Key>)
      requires Valid(View())
      modifies this`filterSeen, this`groups
      ensures NoDuplicates(r) && Elements(r) == FreshMatches(old(View()), e)
      ensures View() == MarkSeen(old(View()), e)
    {
      ghost var ix, hit, checked := View(), {}, {};
      var cs := GetCandidateFilters(e);
      r, hit, checked := MarkEach(ix, e, cs);
      LoopDone(ix, e, cs, hit, checked, r);
    }

    /** The distribution loop. */
    method MarkEach(ghost ix: Index, e: Event, cs: seq<Tracked>)
      returns (r: seq<Key>, ghost hit: set<FilterId>, ghost checked: set<Key>)
      requires View() == ix && forall t | t in cs :: t.owner in ix.groups
      requires forall i, j :: 0 <= i < j < |cs| ==> cs[i].id != cs[j].id
      modifies this`filterSeen, this`groups
      ensures LoopState(ix, e, cs, hit, checked, r) && View() == Marking(ix, e.id, hit, r)
    {
      var checkedFilters: set<FilterId>, checkedGroups: set<Key> := {}, {};
      hit, r := {}, [];
      MarkNothing(ix, e.id);
      for i := 0 to |cs|
        invariant checkedFilters == IdsOf(cs[..i]) && hit <= checkedFilters
        invariant LoopState(ix, e, cs[..i], hit, checkedGroups, r)
        invariant View() == Marking(ix, e.id, hit, r)
      {
        IdsOfNext(cs, i);
        assert cs[i] in cs;
        if cs[i].id !in checkedFilters {
          hit, checkedGroups, r := VisitFilter(ix, e, cs[..i], cs[i], hit, checkedGroups, r);
          checkedFilters := checkedFilters + {cs[i].id};
        }
      }
      assert cs[..|cs|] == cs;
      checked := checkedGroups;
    }
  }

  ghost function IdsOf(cs: seq<Tracked>): (r: set<FilterId>)
  {
    set n | 0 <= n < |cs| :: cs[n].id
  }

  lemma IdsOfNext(cs: seq<Tracked>, i: nat)
    requires i < |cs|
    ensures cs[..i + 1] == cs[..i] + [cs[i]]
    ensures IdsOf(cs[..i + 1]) == IdsOf(cs[..i]) + {cs[i].id}
  {
    var more := cs[..i + 1];
    assert more[i] == cs[i] && forall n | 0 <= n < i :: more[n] == cs[..i][n];
    forall id | id in IdsOf(cs[..i]) ensures id in IdsOf(more) {
      var n :| 0 <= n < i && cs[..i][n].id == id;
      assert more[n].id == id;
    }
  }

  /** The index with some filters and groups marked. */
  ghost function Marking(ix: Index, e: EventId, hit: set<FilterId>, r: seq<Key>): (ix': Index)
  {
    ix.(filterSeen := MarkIds(ix.filterSeen, hit, e), groups := MarkGroups(ix.groups, Elements(r), e))
  }

  lemma MarkNothing(ix: Index, e: EventId)
    ensures MarkIds(ix.filterSeen, {}, e) == ix.filterSeen && MarkGroups(ix.groups, Elements([]), e) == ix.groups
  {
  }

  lemma BucketsFrame(a: Index, b: Index)
    requires BucketsOk(a) && b.all == a.all
    requires b.authors == a.authors && b.kinds == a.kinds && b.eventIds == a.eventIds && b.tags == a.tags &&
             b.matchAll == a.matchAll
    ensures BucketsOk(b)
  {
    forall k ensures BucketOk(b, k) { assert BucketOk(a, k) && Bucket(a, k) == Bucket(b, k); }
  }
}
