/**
  Nostr values shared by every module: events, filters, and the conjunctive filter match of NIP-01.
 */
module Nostr {

  datatype Option<+T> = None | Some(value: T)

  type EventId = nat
  type PublicKey = nat
  type Kind = nat
  type Timestamp = nat
  type ConnId = string
  type SubId = string

  /** The name of a single-letter tag. */
  type Letter = c: char | 'a' <= c <= 'z' || 'A' <= c <= 'Z' witness 'a'

  /** An event tag: its name followed by its values. */
  datatype Tag = Tag(name: string, values: seq<string>)

  /** The parts of an event that filters and the relay look at. */
  datatype Event = Event(id: EventId, pubkey: PublicKey, kind: Kind, createdAt: Timestamp, tags: seq<Tag>)

  datatype Filter = Filter(
    ids: Option<set<EventId>>,
    authors: Option<set<PublicKey>>,
    kinds: Option<set<Kind>>,
    tags: map<Letter, set<string>>,
    since: Option<Timestamp>,
    until: Option<Timestamp>,
    limit: Option<nat>)

  /** The storage scope of a connection: the default one, or one named after a subdomain. */
  datatype Scope = Default | Named(name: string)

  /** The single letter a tag name stands for, if it is one. */
  function ParseLetter(name: string): (c: Option<Letter>)
  {
    if |name| == 1 && ('a' <= name[0] <= 'z' || 'A' <= name[0] <= 'Z') then Some(name[0]) else None
  }

  /** The order in which a filter's tag constraints are listed: by letter, lower case first. */
  function Rank(c: Letter): (n: nat)
  {
    if 'a' <= c <= 'z' then 2 * (c as int - 'a' as int) else 2 * (c as int - 'A' as int) + 1
  }

  /** An absent or empty constraint admits everything. */
  predicate Admits<T(==)>(allowed: Option<set<T>>, x: T)
  {
    allowed.None? || allowed.value == {} || x in allowed.value
  }

  /** A tag constraint looks at the first value of each tag of that name. */
  predicate AdmitsTag(values: set<string>, c: Letter, e: Event)
  {
    values == {} ||
    exists i :: 0 <= i < |e.tags| && ParseLetter(e.tags[i].name) == Some(c) &&
                |e.tags[i].values| > 0 && e.tags[i].values[0] in values
  }

  predicate Matches(f: Filter, e: Event)
  {
    && Admits(f.ids, e.id)
    && Admits(f.authors, e.pubkey)
    && Admits(f.kinds, e.kind)
    && (forall c | c in f.tags :: AdmitsTag(f.tags[c], c, e))
    && (f.since.Some? ==> f.since.value <= e.createdAt)
    && (f.until.Some? ==> e.createdAt <= f.until.value)
  }

  /** Some filter of the list matches the event. */
  predicate AnyMatches(fs: seq<Filter>, e: Event)
  {
    exists i :: 0 <= i < |fs| && Matches(fs[i], e)
  }

  /** The first `n` elements, or all. */
  function Take<T>(s: seq<T>, n: nat): (r: seq<T>)
  {
    if |s| <= n then s else s[..n]
  }

  lemma InitLast<T>(s: seq<T>)
    requires s != []
    ensures s == s[..|s| - 1] + [s[|s| - 1]]
  {
  }

  lemma PrefixNext<T>(s: seq<T>, i: nat)
    requires i < |s|
    ensures s[..i + 1] == s[..i] + [s[i]] && s[..i + 1][..i] == s[..i]
  {
  }

  /**
    A definition of the form `forall n {:trigger Unfold(n)} :: Unfold(n) ==> D` is an atom to the
    verifier until a proof mentions `Unfold`.
   */
  predicate Unfold(n: nat)
  {
    true
  }

  ghost predicate NoDuplicates<T>(s: seq<T>)
  {
    forall i, j :: 0 <= i < j < |s| ==> s[i] != s[j]
  }

  ghost function Elements<T>(s: seq<T>): (r: set<T>)
  {
    set x | x in s
  }

  lemma SubsetSize<T>(a: set<T>, b: set<T>)
    requires a <= b
    ensures |a| <= |b|
  {
    assert b == a + (b - a);
  }

  lemma {:induction false} DistinctMultiset<T>(s: seq<T>)
    requires NoDuplicates(s)
    ensures multiset(s) == multiset(Elements(s)) && |s| == |Elements(s)|
    decreases |s|
  {
    if s != [] {
      var init, last := s[..|s| - 1], s[|s| - 1];
      assert s == init + [last];
      DistinctMultiset(init);
      assert last !in Elements(init);
      assert Elements(s) == Elements(init) + {last};
    }
  }
}
