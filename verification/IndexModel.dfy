/**
  The inverted index as a value: its representation, what each operation does to it, and the
  representation invariant that every operation keeps.
 */
module IndexModel {
  import opened Nostr

  type FilterId = nat
  /** A subscription is named by its connection and its own id. */
  type Key = (ConnId, SubId)

  datatype Field = EventIdField | AuthorField | KindField | TagField(letter: Letter)

  /** A live filter. Its last-seen marker lives in `Index.filterSeen`. */
  datatype Tracked = Tracked(id: FilterId, filter: Filter, owner: Key, field: Option<Field>)

  datatype Group = Group(ids: set<FilterId>, lastSeen: Option<EventId>)

  datatype Index = Index(
    authors: map<PublicKey, seq<Tracked>>,
    kinds: map<Kind, seq<Tracked>>,
    eventIds: map<EventId, seq<Tracked>>,
    tags: map<Letter, map<string, seq<Tracked>>>,
    matchAll: seq<Tracked>,
    all: map<FilterId, Tracked>,
    filterSeen: map<FilterId, EventId>,
    groups: map<Key, Group>,
    nextId: FilterId)

  const Empty := Index(map[], map[], map[], map[], [], map[], map[], map[], 1)

  // ----- Choosing the field a filter is indexed by -----

  lemma LeastLetterExists(s: set<Letter>)
    requires s != {}
    ensures exists c :: c in s && forall d | d in s :: Rank(c) <= Rank(d)
  {
    var c :| c in s;
    var rest := s - {c};
    if rest != {} {
      LeastLetterExists(rest);
      var b :| b in rest && forall d | d in rest :: Rank(b) <= Rank(d);
      var least := if Rank(b) <= Rank(c) then b else c;
      assert least in s && forall d | d in s :: Rank(least) <= Rank(d) by {
        forall d | d in s ensures Rank(least) <= Rank(d) { assert d == c || d in rest; }
      }
    } else {
      assert s == {c};
    }
  }

  function LeastLetter(s: set<Letter>): (c: Letter)
    requires s != {}
    ensures c in s
    ensures forall d | d in s :: Rank(c) <= Rank(d)
  {
    LeastLetterExists(s);
    var c :| c in s && forall d | d in s :: Rank(c) <= Rank(d);
    c
  }

  function ChooseIndexField(f: Filter): (field: Option<Field>)
  {
    if f.ids.Some? && f.ids.value != {} then Some(EventIdField)
    else if f.authors.Some? && f.authors.value != {} then Some(AuthorField)
    else if f.kinds.Some? && f.kinds.value != {} then Some(KindField)
    else
      var constrained := set c | c in f.tags && f.tags[c] != {};
      if constrained == {} then None else Some(TagField(LeastLetter(constrained)))
  }

  /** A filter is only indexed by a field whose constraint is present and not empty. */
  predicate FieldFits(f: Filter, field: Option<Field>)
  {
    match field
    case None => true
    case Some(EventIdField) => f.ids.Some? && f.ids.value != {}
    case Some(AuthorField) => f.authors.Some? && f.authors.value != {}
    case Some(KindField) => f.kinds.Some? && f.kinds.value != {}
    case Some(TagField(c)) => c in f.tags && f.tags[c] != {}
  }

  lemma ChosenFieldFits(f: Filter)
    ensures FieldFits(f, ChooseIndexField(f))
  {
  }

  /** The constraint is present and not empty. */
  predicate Constrains<T(==)>(allowed: Option<set<T>>)
  {
    allowed.Some? && allowed.value != {}
  }

  predicate ConstrainsTag(f: Filter, c: Letter)
  {
    c in f.tags && f.tags[c] != {}
  }

  lemma RankDistinct(c: Letter, d: Letter)
    ensures Rank(c) == Rank(d) <==> c == d
  {
  }

  /** A filter is indexed by ids, or else authors, or else kinds, or else the first constrained tag letter, if any. */
  lemma ChosenFieldExactly(f: Filter, c: Letter)
    ensures var field := ChooseIndexField(f);
            var untagged := Constrains(f.ids) || Constrains(f.authors) || Constrains(f.kinds);
            && (field == Some(EventIdField) <==> Constrains(f.ids))
            && (field == Some(AuthorField) <==> !Constrains(f.ids) && Constrains(f.authors))
            && (field == Some(KindField) <==>
                  !Constrains(f.ids) && !Constrains(f.authors) && Constrains(f.kinds))
            && (field == Some(TagField(c)) <==>
                  !untagged && ConstrainsTag(f, c) && forall d | ConstrainsTag(f, d) :: Rank(c) <= Rank(d))
            && (field == None <==> !untagged && forall d :: !ConstrainsTag(f, d))
  {
    var constrained := set d | d in f.tags && f.tags[d] != {};
    assert forall d :: d in constrained <==> ConstrainsTag(f, d);
    if constrained != {} { RankDistinct(c, LeastLetter(constrained)); }
  }

  // ----- Buckets -----

  /** The address of one list of the index, across its five structures. */
  datatype BucketKey =
    | AnyEvent
    | ById(id: EventId)
    | ByAuthor(author: PublicKey)
    | ByKind(kind: Kind)
    | ByTag(letter: Letter, value: string)

  function Get<K, V>(m: map<K, seq<V>>, k: K): (s: seq<V>)
  {
    if k in m then m[k] else []
  }

  function GetTag(ix: Index, c: Letter): (m: map<string, seq<Tracked>>)
  {
    if c in ix.tags then ix.tags[c] else map[]
  }

  function Bucket(ix: Index, k: BucketKey): (s: seq<Tracked>)
  {
    match k
    case AnyEvent => ix.matchAll
    case ById(x) => Get(ix.eventIds, x)
    case ByAuthor(p) => Get(ix.authors, p)
    case ByKind(n) => Get(ix.kinds, n)
    case ByTag(c, v) => Get(GetTag(ix, c), v)
  }

  // The keys of a filter in each structure: those of its chosen field, and none elsewhere.

  function IdKeys(t: Tracked): (ks: set<EventId>)
  {
    if t.field == Some(EventIdField) && t.filter.ids.Some? then t.filter.ids.value else {}
  }

  function AuthorKeys(t: Tracked): (ks: set<PublicKey>)
  {
    if t.field == Some(AuthorField) && t.filter.authors.Some? then t.filter.authors.value else {}
  }

  function KindKeys(t: Tracked): (ks: set<Kind>)
  {
    if t.field == Some(KindField) && t.filter.kinds.Some? then t.filter.kinds.value else {}
  }

  function TagKeys(t: Tracked, c: Letter): (ks: set<string>)
  {
    if t.field == Some(TagField(c)) && c in t.filter.tags then t.filter.tags[c] else {}
  }

  /** The buckets a filter belongs in. */
  predicate Covers(t: Tracked, k: BucketKey)
  {
    match k
    case AnyEvent => t.field.None?
    case ById(x) => x in IdKeys(t)
    case ByAuthor(p) => p in AuthorKeys(t)
    case ByKind(n) => n in KindKeys(t)
    case ByTag(c, v) => v in TagKeys(t, c)
  }

  // ----- Representation invariant -----

  predicate Live(ix: Index, t: Tracked)
  {
    t.id in ix.all && ix.all[t.id] == t
  }

  ghost predicate Ascending(s: seq<Tracked>)
  {
    forall i, j :: 0 <= i < j < |s| ==> s[i].id < s[j].id
  }

  /** Ids are unique, below the next id, and every filter carries its chosen field. */
  ghost predicate FiltersOk(ix: Index)
  {
    forall id | id in ix.all ::
      ix.all[id].id == id && id < ix.nextId && ix.all[id].field == ChooseIndexField(ix.all[id].filter)
  }

  /** A bucket lists, by increasing id, exactly the live filters that cover its key. */
  ghost predicate BucketOk(ix: Index, k: BucketKey)
  {
    Ascending(Bucket(ix, k)) && forall t :: t in Bucket(ix, k) <==> Live(ix, t) && Covers(t, k)
  }

  ghost predicate BucketsOk(ix: Index)
  {
    forall k :: BucketOk(ix, k)
  }

  ghost predicate AllNonEmpty<K, V>(m: map<K, seq<V>>)
  {
    forall k | k in m :: m[k] != []
  }

  /** No bucket, and no per-letter map of buckets, is kept once it is empty. */
  ghost predicate NoEmptyBuckets(ix: Index)
  {
    && AllNonEmpty(ix.authors) && AllNonEmpty(ix.kinds) && AllNonEmpty(ix.eventIds)
    && forall c | c in ix.tags :: ix.tags[c] != map[] && AllNonEmpty(ix.tags[c])
  }

  /** The id sets of the groups partition the live filters by owner. */
  ghost predicate GroupsOk(ix: Index)
  {
    && (forall id | id in ix.all :: ix.all[id].owner in ix.groups && id in ix.groups[ix.all[id].owner].ids)
    && (forall key, id | key in ix.groups && id in ix.groups[key].ids :: id in ix.all && ix.all[id].owner == key)
  }

  ghost predicate Valid(ix: Index)
  {
    FiltersOk(ix) && BucketsOk(ix) && NoEmptyBuckets(ix) && GroupsOk(ix) && ix.filterSeen.Keys <= ix.all.Keys
  }

  // ----- Operations -----

  function PushAll<K, V>(m: map<K, seq<V>>, keys: set<K>, t: V): (r: map<K, seq<V>>)
  {
    map k | k in m.Keys + keys :: if k in keys then Get(m, k) + [t] else m[k]
  }

  function PushTags(m: map<Letter, map<string, seq<Tracked>>>, t: Tracked): (r: map<Letter, map<string, seq<Tracked>>>)
  {
    if t.field.Some? && t.field.value.TagField? then
      var c := t.field.value.letter;
      m[c := PushAll(if c in m then m[c] else map[], TagKeys(t, c), t)]
    else m
  }

  /** Pushes a filter onto every bucket it belongs in. */
  function Insert(ix: Index, t: Tracked): (r: Index)
  {
    ix.(matchAll := ix.matchAll + if t.field.None? then [t] else [],
        eventIds := PushAll(ix.eventIds, IdKeys(t), t),
        authors := PushAll(ix.authors, AuthorKeys(t), t),
        kinds := PushAll(ix.kinds, KindKeys(t), t),
        tags := PushTags(ix.tags, t))
  }

  function EnsureGroup(ix: Index, key: Key): (r: Index)
  {
    if key in ix.groups then ix else ix.(groups := ix.groups[key := Group({}, None)])
  }

  function AddFilter(ix: Index, key: Key, f: Filter): (r: Index)
    requires key in ix.groups
  {
    var t := Tracked(ix.nextId, f, key, ChooseIndexField(f));
    var g := ix.groups[key];
    Insert(ix.(nextId := ix.nextId + 1,
               all := ix.all[ix.nextId := t],
               filterSeen := ix.filterSeen - {ix.nextId},
               groups := ix.groups[key := g.(ids := g.ids + {ix.nextId})]), t)
  }

  function AddFilters(ix: Index, key: Key, fs: seq<Filter>): (r: Index)
    requires key in ix.groups
    decreases |fs|
  {
    if fs == [] then ix else AddFilter(AddFilters(ix, key, fs[..|fs| - 1]), key, fs[|fs| - 1])
  }

  function AddSubscription(ix: Index, key: Key, fs: seq<Filter>): (r: Index)
  {
    AddFilters(EnsureGroup(ix, key), key, fs)
  }

  /** The filters of a list whose ids are not in the given set, in order (`Vec::retain`). */
  function Keep(s: seq<Tracked>, ids: set<FilterId>): (r: seq<Tracked>)
    decreases |s|
  {
    if s == [] then []
    else
      var init := Keep(s[..|s| - 1], ids);
      if s[|s| - 1].id in ids then init else init + [s[|s| - 1]]
  }

  /** Drops ids from every list of a map, and the lists that become empty. */
  function DropIds<K>(m: map<K, seq<Tracked>>, ids: set<FilterId>): (r: map<K, seq<Tracked>>)
  {
    map k | k in m && Keep(m[k], ids) != [] :: Keep(m[k], ids)
  }

  /** Takes the filters with the given ids out of every bucket. */
  function RemoveFromBuckets(ix: Index, ids: set<FilterId>): (r: Index)
  {
    ix.(authors := DropIds(ix.authors, ids),
        kinds := DropIds(ix.kinds, ids),
        eventIds := DropIds(ix.eventIds, ids),
        tags := DropTags(ix.tags, ids),
        matchAll := Keep(ix.matchAll, ids))
  }

  function DropTags(m: map<Letter, map<string, seq<Tracked>>>, ids: set<FilterId>)
    : (r: map<Letter, map<string, seq<Tracked>>>)
  {
    map c | c in m && DropIds(m[c], ids) != map[] :: DropIds(m[c], ids)
  }

  /** Takes the filters with the given ids out of every structure. */
  function RemoveIds(ix: Index, ids: set<FilterId>): (r: Index)
  {
    RemoveFromBuckets(ix.(all := ix.all - ids, filterSeen := ix.filterSeen - ids), ids)
  }

  function RemoveSubscription(ix: Index, key: Key): (r: Index)
  {
    if key in ix.groups then RemoveIds(ix.(groups := ix.groups - {key}), ix.groups[key].ids) else ix
  }

  // ----- Distribution -----

  predicate FilterSaw(ix: Index, id: FilterId, e: EventId)
  {
    id in ix.filterSeen && ix.filterSeen[id] == e
  }

  /** The group owns a live filter that matches the event and is not marked with it. */
  predicate HasUnseenMatch(ix: Index, key: Key, e: Event)
    requires key in ix.groups
  {
    exists id :: id in ix.groups[key].ids && id in ix.all && Matches(ix.all[id].filter, e) && !FilterSaw(ix, id, e.id)
  }

  /** The groups one distribution reports: not marked with the event, and owning an unmarked matching filter. */
  function FreshMatches(ix: Index, e: Event): (r: set<Key>)
  {
    set key | key in ix.groups && ix.groups[key].lastSeen != Some(e.id) && HasUnseenMatch(ix, key, e)
  }

  /** What one distribution leaves behind: every matching filter and every reported group is marked. */
  function MarkSeen(ix: Index, e: Event): (r: Index)
  {
    var reported := FreshMatches(ix, e);
    ix.(filterSeen := map id | id in ix.filterSeen.Keys + ix.all.Keys &&
                               (id in ix.filterSeen || Matches(ix.all[id].filter, e))
                        :: if id in ix.all && Matches(ix.all[id].filter, e) then e.id else ix.filterSeen[id],
        groups := map key | key in ix.groups
                    :: if key in reported then ix.groups[key].(lastSeen := Some(e.id)) else ix.groups[key])
  }

  // ----- How the operations act on buckets -----

  lemma PushAllGet<K, V>(m: map<K, seq<V>>, keys: set<K>, t: V, k: K)
    ensures Get(PushAll(m, keys, t), k) == Get(m, k) + if k in keys then [t] else []
  {
  }

  lemma InsertBucket(ix: Index, t: Tracked, k: BucketKey)
    ensures Bucket(Insert(ix, t), k) == Bucket(ix, k) + if Covers(t, k) then [t] else []
  {
    match k
    case AnyEvent =>
    case ById(x) => PushAllGet(ix.eventIds, IdKeys(t), t, x);
    case ByAuthor(p) => PushAllGet(ix.authors, AuthorKeys(t), t, p);
    case ByKind(n) => PushAllGet(ix.kinds, KindKeys(t), t, n);
    case ByTag(c, v) => PushAllGet(GetTag(ix, c), TagKeys(t, c), t, v);
  }

  lemma DropIdsGet<K>(m: map<K, seq<Tracked>>, ids: set<FilterId>, k: K)
    ensures Get(DropIds(m, ids), k) == Keep(Get(m, k), ids)
  {
  }

  lemma DropTagsGet(m: map<Letter, map<string, seq<Tracked>>>, ids: set<FilterId>, c: Letter)
    ensures (if c in DropTags(m, ids) then DropTags(m, ids)[c] else map[]) ==
            DropIds(if c in m then m[c] else map[], ids)
  {
    assert DropIds<string>(map[], ids) == map[];
  }

  lemma RemoveBucket(ix: Index, ids: set<FilterId>, k: BucketKey)
    ensures Bucket(RemoveIds(ix, ids), k) == Keep(Bucket(ix, k), ids)
  {
    match k
    case AnyEvent =>
    case ById(x) => DropIdsGet(ix.eventIds, ids, x);
    case ByAuthor(p) => DropIdsGet(ix.authors, ids, p);
    case ByKind(n) => DropIdsGet(ix.kinds, ids, n);
    case ByTag(c, v) => DropTagsGet(ix.tags, ids, c); DropIdsGet(GetTag(ix, c), ids, v);
  }

  lemma {:induction false} KeepElements(s: seq<Tracked>, ids: set<FilterId>)
    ensures forall t :: t in Keep(s, ids) <==> t in s && t.id !in ids
    ensures Ascending(s) ==> Ascending(Keep(s, ids))
    decreases |s|
  {
    if s != [] {
      var init, last := s[..|s| - 1], s[|s| - 1];
      KeepElements(init, ids);
      assert s == init + [last];
      if Ascending(s) && last.id !in ids {
        forall t | t in Keep(init, ids) ensures t.id < last.id {
          var i :| 0 <= i < |init| && init[i] == t;
          assert s[i] == t;
        }
      }
    }
  }

  lemma InitElements(s: seq<Tracked>, t: Tracked)
    requires Ascending(s) && s != []
    ensures t in s[..|s| - 1] <==> t in s && t.id < s[|s| - 1].id
    ensures t in s ==> t == s[|s| - 1] || t.id < s[|s| - 1].id
  {
    if t in s {
      var i :| 0 <= i < |s| && s[i] == t;
      if i < |s| - 1 { assert s[..|s| - 1][i] == t; }
    }
  }

  lemma SameLast(a: seq<Tracked>, b: seq<Tracked>)
    requires Ascending(a) && Ascending(b) && a != [] && forall t :: t in a <==> t in b
    ensures b != [] && a[|a| - 1] == b[|b| - 1]
  {
    assert a[0] in b;
    var x, y := a[|a| - 1], b[|b| - 1];
    assert x in a && y in b;
    InitElements(a, y);
    InitElements(b, x);
  }

  /** Two lists in increasing id order with the same elements are the same list. */
  lemma {:induction false} AscendingUnique(a: seq<Tracked>, b: seq<Tracked>)
    requires Ascending(a) && Ascending(b) && forall t :: t in a <==> t in b
    ensures a == b
    decreases |a|
  {
    assert b != [] ==> b[0] in a;
    if a != [] {
      SameLast(a, b);
      var a', b' := a[..|a| - 1], b[..|b| - 1];
      forall t ensures t in a' <==> t in b' {
        InitElements(a, t);
        InitElements(b, t);
      }
      AscendingUnique(a', b');
      assert a == a' + [a[|a| - 1]] && b == b' + [a[|a| - 1]];
    }
  }

  // ----- Every operation keeps the invariant -----

  lemma EmptyValid()
    ensures Valid(Empty)
  {
    forall k ensures BucketOk(Empty, k) { assert Bucket(Empty, k) == []; }
  }

  lemma EnsureGroupValid(ix: Index, key: Key)
    requires Valid(ix)
    ensures Valid(EnsureGroup(ix, key))
  {
    var r := EnsureGroup(ix, key);
    forall k ensures BucketOk(r, k) { assert BucketOk(ix, k) && Bucket(r, k) == Bucket(ix, k); }
  }

  /** Inserting a filter with a new, larger id keeps every bucket exact. */
  lemma InsertBucketOk(ix: Index, mid: Index, t: Tracked, k: BucketKey)
    requires BucketOk(ix, k) && Bucket(mid, k) == Bucket(ix, k)
    requires mid.all == ix.all[t.id := t]
    requires forall id | id in ix.all :: ix.all[id].id == id && id < t.id
    ensures BucketOk(Insert(mid, t), k)
  {
    var r := Insert(mid, t);
    InsertBucket(mid, t, k);
    forall x | x in Bucket(ix, k) ensures x.id < t.id { assert Live(ix, x); }
    AppendedElements(Bucket(ix, k), if Covers(t, k) then [t] else []);
    forall x ensures x in Bucket(r, k) <==> Live(r, x) && Covers(x, k) {
      assert x in Bucket(ix, k) <==> Live(ix, x) && Covers(x, k);
      assert Live(r, x) <==> Live(ix, x) || x == t;
    }
  }

  lemma AppendedElements<T>(a: seq<T>, b: seq<T>)
    ensures forall x :: x in a + b <==> x in a || x in b
  {
  }

  lemma PushAllNonEmpty<K, V>(m: map<K, seq<V>>, keys: set<K>, t: V)
    requires AllNonEmpty(m)
    ensures AllNonEmpty(PushAll(m, keys, t))
    ensures keys != {} ==> PushAll(m, keys, t) != map[]
  {
    if k :| k in keys { assert k in PushAll(m, keys, t); }
  }

  lemma InsertNonEmpty(ix: Index, t: Tracked)
    requires NoEmptyBuckets(ix) && FieldFits(t.filter, t.field)
    ensures NoEmptyBuckets(Insert(ix, t))
  {
    PushAllNonEmpty(ix.eventIds, IdKeys(t), t);
    PushAllNonEmpty(ix.authors, AuthorKeys(t), t);
    PushAllNonEmpty(ix.kinds, KindKeys(t), t);
    PushTagsNonEmpty(ix.tags, t);
  }

  lemma PushTagsNonEmpty(m: map<Letter, map<string, seq<Tracked>>>, t: Tracked)
    requires forall c | c in m :: m[c] != map[] && AllNonEmpty(m[c])
    requires FieldFits(t.filter, t.field)
    ensures var r := PushTags(m, t); forall c | c in r :: r[c] != map[] && AllNonEmpty(r[c])
  {
    if t.field.Some? && t.field.value.TagField? {
      var c := t.field.value.letter;
      PushAllNonEmpty(if c in m then m[c] else map[], TagKeys(t, c), t);
    }
  }

  lemma InsertKeepsBuckets(ix: Index, mid: Index, t: Tracked)
    requires BucketsOk(ix) && FiltersOk(ix) && ix.nextId == t.id
    requires mid.authors == ix.authors && mid.kinds == ix.kinds && mid.eventIds == ix.eventIds && mid.tags == ix.tags &&
             mid.matchAll == ix.matchAll
    requires mid.all == ix.all[t.id := t]
    ensures BucketsOk(Insert(mid, t))
  {
    forall k ensures BucketOk(Insert(mid, t), k) {
      assert BucketOk(ix, k) && Bucket(mid, k) == Bucket(ix, k);
      InsertBucketOk(ix, mid, t, k);
    }
  }

  lemma JoinGroup(ix: Index, mid: Index, t: Tracked)
    requires FiltersOk(ix) && GroupsOk(ix) && t.owner in ix.groups && ix.nextId == t.id
    requires mid.all == ix.all[t.id := t]
    requires mid.groups == ix.groups[t.owner := ix.groups[t.owner].(ids := ix.groups[t.owner].ids + {t.id})]
    ensures GroupsOk(mid)
  {
    assert t.id !in ix.all;
    forall other, id | other in mid.groups && id in mid.groups[other].ids
      ensures id in mid.all && mid.all[id].owner == other
    {
      if other != t.owner || id != t.id { assert id in ix.groups[other].ids; }
    }
  }

  lemma AddFilterValid(ix: Index, key: Key, f: Filter)
    requires Valid(ix) && key in ix.groups
    ensures Valid(AddFilter(ix, key, f))
  {
    var t := Tracked(ix.nextId, f, key, ChooseIndexField(f));
    var g := ix.groups[key];
    var mid := ix.(nextId := ix.nextId + 1, all := ix.all[ix.nextId := t], filterSeen := ix.filterSeen - {ix.nextId},
                   groups := ix.groups[key := g.(ids := g.ids + {ix.nextId})]);
    ChosenFieldFits(f);
    InsertNonEmpty(mid, t);
    InsertKeepsBuckets(ix, mid, t);
    JoinGroup(ix, mid, t);
  }

  lemma {:induction false} AddFiltersValid(ix: Index, key: Key, fs: seq<Filter>)
    requires Valid(ix) && key in ix.groups
    ensures Valid(AddFilters(ix, key, fs)) && key in AddFilters(ix, key, fs).groups
    decreases |fs|
  {
    if fs != [] {
      AddFiltersValid(ix, key, fs[..|fs| - 1]);
      AddFilterValid(AddFilters(ix, key, fs[..|fs| - 1]), key, fs[|fs| - 1]);
    }
  }

  lemma AddSubscriptionValid(ix: Index, key: Key, fs: seq<Filter>)
    requires Valid(ix)
    ensures Valid(AddSubscription(ix, key, fs))
  {
    EnsureGroupValid(ix, key);
    AddFiltersValid(EnsureGroup(ix, key), key, fs);
  }

  lemma RemoveIdsBuckets(ix: Index, ids: set<FilterId>)
    requires BucketsOk(ix) && NoEmptyBuckets(ix)
    ensures BucketsOk(RemoveIds(ix, ids)) && NoEmptyBuckets(RemoveIds(ix, ids))
  {
    var r := RemoveIds(ix, ids);
    forall k ensures BucketOk(r, k) {
      assert BucketOk(ix, k);
      RemoveBucket(ix, ids, k);
      KeepElements(Bucket(ix, k), ids);
      forall t ensures t in Bucket(r, k) <==> Live(r, t) && Covers(t, k) {
        assert Live(r, t) <==> Live(ix, t) && t.id !in ids;
      }
    }
  }

  lemma RemoveSubscriptionValid(ix: Index, key: Key)
    requires Valid(ix)
    ensures Valid(RemoveSubscription(ix, key))
  {
    if key in ix.groups {
      var mid := ix.(groups := ix.groups - {key});
      forall k ensures BucketOk(mid, k) { assert BucketOk(ix, k) && Bucket(mid, k) == Bucket(ix, k); }
      RemoveIdsBuckets(mid, ix.groups[key].ids);
      var r := RemoveSubscription(ix, key);
      forall other, id | other in r.groups && id in r.groups[other].ids
        ensures id in r.all && r.all[id].owner == other
      {
        assert id in ix.groups[other].ids && ix.all[id].owner == other;
        assert id !in ix.groups[key].ids;
      }
    }
  }

  lemma MarkSeenValid(ix: Index, e: Event)
    requires Valid(ix)
    ensures Valid(MarkSeen(ix, e))
  {
    var r := MarkSeen(ix, e);
    forall k ensures BucketOk(r, k) { assert BucketOk(ix, k) && Bucket(r, k) == Bucket(ix, k); }
  }
}
