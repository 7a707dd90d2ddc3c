/**
  The buffer for relay-generated replaceable events: within a flush period the last event per
  author, kind and scope wins, and a flush signs, saves and broadcasts each of them at most once.
 */
module ReplaceableBuffer {
  import opened Nostr

  /** An event the relay has not signed yet. */
  datatype Unsigned = Unsigned(pubkey: PublicKey, kind: Kind, createdAt: Timestamp, content: string)

  type Key = (PublicKey, Kind, Scope)

  function KeyOf(u: Unsigned, s: Scope): (k: Key)
  {
    (u.pubkey, u.kind, s)
  }

  // ----- What a flush does, as a trace -----

  datatype Action =
    | Submit(unsigned: Unsigned, scope: Scope)
    | Save(event: Event, scope: Scope, ok: bool)
    | Broadcast(event: Event, scope: Scope)

  /** The signer answers with the signed event, or not at all; the store says whether it saved. */
  datatype Services = Services(sign: (Unsigned, Scope) -> Option<Event>, save: (Event, Scope) -> bool)

  function ItemTrace(sv: Services, u: Unsigned, s: Scope): (t: seq<Action>)
  {
    match sv.sign(u, s)
    case None => [Submit(u, s)]
    case Some(e) =>
      if sv.save(e, s) then [Submit(u, s), Save(e, s, true), Broadcast(e, s)] else [Submit(u, s), Save(e, s, false)]
  }

  function FlushTrace(sv: Services, items: seq<(Unsigned, Scope)>): (t: seq<Action>)
    decreases |items|
  {
    if items == [] then []
    else FlushTrace(sv, items[..|items| - 1]) + ItemTrace(sv, items[|items| - 1].0, items[|items| - 1].1)
  }

  /** The items a buffer holds: one per key. */
  ghost predicate Drains(buffer: map<Key, Unsigned>, items: seq<(Unsigned, Scope)>)
  {
    && NoDuplicates(items)
    && forall u, s :: (u, s) in items <==> KeyOf(u, s) in buffer && buffer[KeyOf(u, s)] == u
  }

  class ReplaceableEventsBuffer {
    /** Which kinds are replaceable or addressable. */
    const isReplaceable: Kind -> bool
    var buffer: map<Key, Unsigned>

    ghost predicate Valid()
      reads this
    {
      forall k | k in buffer :: k.0 == buffer[k].pubkey && k.1 == buffer[k].kind && isReplaceable(k.1)
    }

    constructor (isReplaceable: Kind -> bool)
      ensures Valid() && buffer == map[] && this.isReplaceable == isReplaceable
    {
      this.isReplaceable := isReplaceable;
      buffer := map[];
    }

    method Insert(u: Unsigned, s: Scope)
      requires Valid()
      modifies this`buffer
      ensures Valid() && buffer == Pending(isReplaceable, old(buffer), Inserted(u, s))
    {
      if !isReplaceable(u.kind) { return; }
      buffer := buffer[KeyOf(u, s) := u];
    }

    /** Empties the buffer and takes each of its events once through signing, saving and broadcasting. */
    method Flush(sv: Services) returns (trace: seq<Action>, ghost items: seq<(Unsigned, Scope)>)
      requires Valid()
      modifies this`buffer
      ensures Valid() && buffer == map[]
      ensures Drains(old(buffer), items) && trace == FlushTrace(sv, items)
    {
      trace, items := [], [];
      ghost var start := buffer;
      while buffer != map[]
        invariant buffer.Keys <= start.Keys && forall k | k in buffer :: buffer[k] == start[k]
        invariant NoDuplicates(items)
        invariant forall u, s :: (u, s) in items <==>
                  KeyOf(u, s) in start && KeyOf(u, s) !in buffer && start[KeyOf(u, s)] == u
        invariant trace == FlushTrace(sv, items)
        decreases |buffer|
      {
        var k :| k in buffer;
        var u, s := buffer[k], k.2;
        assert KeyOf(u, s) == k;
        FlushOneMore(sv, items, u, s);
        var t := FlushOne(sv, u, s);
        trace := trace + t;
        items := items + [(u, s)];
        buffer := buffer - {k};
      }
    }

    /** One event: submit it for signing, save what comes back, and broadcast what was saved. */
    method FlushOne(sv: Services, u: Unsigned, s: Scope) returns (t: seq<Action>)
      ensures t == ItemTrace(sv, u, s)
    {
      t := [Submit(u, s)];
      var signed := sv.sign(u, s);
      if signed.Some? {
        var ok := sv.save(signed.value, s);
        t := t + [Save(signed.value, s, ok)];
        if ok {
          t := t + [Broadcast(signed.value, s)];
        }
      }
    }
  }

  lemma FlushOneMore(sv: Services, items: seq<(Unsigned, Scope)>, u: Unsigned, s: Scope)
    ensures FlushTrace(sv, items + [(u, s)]) == FlushTrace(sv, items) + ItemTrace(sv, u, s)
  {
    assert (items + [(u, s)])[..|items|] == items;
  }

  // ----- What a flush broadcasts -----

  /** Every broadcast follows the successful save of the same event in the same scope, directly. */
  lemma {:induction false} BroadcastsAfterSave(sv: Services, items: seq<(Unsigned, Scope)>, i: nat)
    requires i < |FlushTrace(sv, items)| && FlushTrace(sv, items)[i].Broadcast?
    ensures var t := FlushTrace(sv, items); i > 0 && t[i - 1] == Save(t[i].event, t[i].scope, true)
    decreases |items|
  {
    if items != [] {
      var init := items[..|items| - 1];
      var before := FlushTrace(sv, init);
      if i < |before| { BroadcastsAfterSave(sv, init, i); }
    }
  }

  /** The action at the index is this one. */
  predicate At(t: seq<Action>, i: int, a: Action)
  {
    0 <= i < |t| && t[i] == a
  }

  /**
    What comes before and after an action of a flush: every event submitted that comes back signed is
    saved next, in its scope, and nothing is saved otherwise; every event saved successfully is
    broadcast next, and nothing is broadcast otherwise.
   */
  predicate InOrder(sv: Services, t: seq<Action>, i: nat)
    requires i < |t|
  {
    match t[i]
    case Submit(u, s) =>
      var signed := sv.sign(u, s);
      signed.Some? ==> At(t, i + 1, Save(signed.value, s, sv.save(signed.value, s)))
    case Save(e, s, ok) =>
      && ok == sv.save(e, s) && (ok ==> At(t, i + 1, Broadcast(e, s)))
      && i > 0 && t[i - 1].Submit? && t[i - 1].scope == s && sv.sign(t[i - 1].unsigned, s) == Some(e)
    case Broadcast(e, s) => At(t, i - 1, Save(e, s, true))
  }

  ghost predicate AllInOrder(sv: Services, t: seq<Action>)
  {
    forall i | 0 <= i < |t| :: InOrder(sv, t, i)
  }

  lemma InOrderAppend(sv: Services, a: seq<Action>, b: seq<Action>)
    requires AllInOrder(sv, a) && AllInOrder(sv, b)
    ensures AllInOrder(sv, a + b)
  {
    var t := a + b;
    forall i | 0 <= i < |t| ensures InOrder(sv, t, i) {
      if i < |a| {
        assert InOrder(sv, a, i);
      } else {
        assert InOrder(sv, b, i - |a|);
      }
    }
  }

  /** Every event a flush gets signed is saved once, and broadcast once exactly if it was saved. */
  lemma {:induction false} FlushInOrder(sv: Services, items: seq<(Unsigned, Scope)>)
    ensures AllInOrder(sv, FlushTrace(sv, items))
    decreases |items|
  {
    if items != [] {
      var init, last := items[..|items| - 1], items[|items| - 1];
      FlushInOrder(sv, init);
      InOrderAppend(sv, FlushTrace(sv, init), ItemTrace(sv, last.0, last.1));
    }
  }

  lemma ItemSubmits(sv: Services, u': Unsigned, s': Scope, u: Unsigned, s: Scope)
    ensures multiset(ItemTrace(sv, u', s'))[Submit(u, s)] == if (u', s') == (u, s) then 1 else 0
  {
    var signed := sv.sign(u', s');
    if signed.Some? {
      var e := signed.value;
      assert multiset([Submit(u', s'), Save(e, s', true), Broadcast(e, s')]) ==
        multiset{Submit(u', s'), Save(e, s', true), Broadcast(e, s')};
      assert multiset([Submit(u', s'), Save(e, s', false)]) == multiset{Submit(u', s'), Save(e, s', false)};
    }
  }

  lemma CountAppend<T>(a: seq<T>, b: seq<T>, x: T)
    ensures multiset(a + b)[x] == multiset(a)[x] + multiset(b)[x]
  {
  }

  lemma SubmitsNext(sv: Services, init: seq<(Unsigned, Scope)>, u': Unsigned, s': Scope, u: Unsigned, s: Scope)
    ensures multiset(FlushTrace(sv, init + [(u', s')]))[Submit(u, s)] ==
            multiset(FlushTrace(sv, init))[Submit(u, s)] + if (u', s') == (u, s) then 1 else 0
  {
    FlushOneMore(sv, init, u', s');
    CountAppend(FlushTrace(sv, init), ItemTrace(sv, u', s'), Submit(u, s));
    ItemSubmits(sv, u', s', u, s);
  }

  /** Each drained event is submitted exactly once, and nothing else is. */
  lemma {:induction false} SubmitsEachOnce(sv: Services, items: seq<(Unsigned, Scope)>, u: Unsigned, s: Scope)
    ensures multiset(FlushTrace(sv, items))[Submit(u, s)] == multiset(items)[(u, s)]
    decreases |items|
  {
    if items != [] {
      var init, last := items[..|items| - 1], items[|items| - 1];
      SubmitsEachOnce(sv, init, u, s);
      InitLast(items);
      CountAppend(init, [last], (u, s));
      SubmitsNext(sv, init, last.0, last.1, u, s);
    }
  }

  lemma {:induction false} CountDistinct<T>(items: seq<T>, x: T)
    requires NoDuplicates(items)
    ensures multiset(items)[x] == if x in items then 1 else 0
    decreases |items|
  {
    if items != [] {
      var init, last := items[..|items| - 1], items[|items| - 1];
      assert items == init + [last];
      CountDistinct(init, x);
      CountAppend(init, [last], x);
    }
  }

  // ----- Whole runs -----

  datatype Op = Inserted(unsigned: Unsigned, scope: Scope) | Flushed

  /** The buffer's contents after one operation. */
  function Pending(isReplaceable: Kind -> bool, m: map<Key, Unsigned>, op: Op): (r: map<Key, Unsigned>)
  {
    match op
    case Inserted(u, s) => if isReplaceable(u.kind) then m[KeyOf(u, s) := u] else m
    case Flushed => map[]
  }

  function Run(isReplaceable: Kind -> bool, ops: seq<Op>): (m: map<Key, Unsigned>)
    decreases |ops|
  {
    if ops == [] then map[] else Pending(isReplaceable, Run(isReplaceable, ops[..|ops| - 1]), ops[|ops| - 1])
  }

  /** This insertion is the last one of its key, and no flush came after it. */
  ghost predicate LastInsert(isReplaceable: Kind -> bool, ops: seq<Op>, i: nat, k: Key, u: Unsigned)
  {
    && i < |ops| && ops[i].Inserted? && ops[i].unsigned == u && KeyOf(u, ops[i].scope) == k && isReplaceable(u.kind)
    && forall j | i < j < |ops| :: ops[j].Inserted? && (KeyOf(ops[j].unsigned, ops[j].scope) != k)
  }

  /**
    At every point of every run the buffer holds, for a key, exactly the last replaceable event
    inserted under it since the last flush.
   */
  lemma {:induction false} LastWriterWins(isReplaceable: Kind -> bool, ops: seq<Op>, k: Key, u: Unsigned)
    ensures k in Run(isReplaceable, ops) && Run(isReplaceable, ops)[k] == u <==>
            exists i: nat :: LastInsert(isReplaceable, ops, i, k, u)
    decreases |ops|
  {
    if ops != [] {
      var n := |ops| - 1;
      var init := ops[..n];
      LastWriterWins(isReplaceable, init, k, u);
      var hit := ops[n].Inserted? && isReplaceable(ops[n].unsigned.kind) && KeyOf(ops[n].unsigned, ops[n].scope) == k;
      if k in Run(isReplaceable, ops) && Run(isReplaceable, ops)[k] == u {
        if hit {
          assert LastInsert(isReplaceable, ops, n, k, u);
        } else {
          var i: nat :| LastInsert(isReplaceable, init, i, k, u);
          assert LastInsert(isReplaceable, ops, i, k, u) by {
            forall j | i < j < |ops| ensures ops[j].Inserted? && KeyOf(ops[j].unsigned, ops[j].scope) != k {
              if j < n { assert ops[j] == init[j]; }
            }
          }
        }
      }
      if i: nat :| LastInsert(isReplaceable, ops, i, k, u) {
        if i < n {
          assert ops[n].Inserted?;
          assert LastInsert(isReplaceable, init, i, k, u);
        }
      }
    }
  }

  /**
    A flush after any run submits, once each, exactly the events that were the last of their key
    since the previous flush, and submits nothing that was overwritten or is not replaceable.
   */
  lemma FlushSubmitsLastWriters(isReplaceable: Kind -> bool, ops: seq<Op>, sv: Services, items: seq<(Unsigned, Scope)>,
                                u: Unsigned, s: Scope)
    requires Drains(Run(isReplaceable, ops), items)
    ensures multiset(FlushTrace(sv, items))[Submit(u, s)] ==
            if exists i: nat :: LastInsert(isReplaceable, ops, i, KeyOf(u, s), u) then 1 else 0
  {
    SubmitsEachOnce(sv, items, u, s);
    CountDistinct(items, (u, s));
    LastWriterWins(isReplaceable, ops, KeyOf(u, s), u);
  }
}
