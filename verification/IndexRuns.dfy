/** Runs of one index object, whose every report is told from the operations before it. */
module IndexRuns {
  import opened Nostr
  import opened IndexModel
  import opened IndexRefinement
  import opened IndexHistory
  import opened SubscriptionIndexes

  method DoOp(index: SubscriptionIndex, op: Op, ghost ops: seq<Op>) returns (r: seq<Key>)
    requires index.Ok() && index.View() == Run(ops)
    modifies index
    ensures index.Ok() && index.View() == Run(ops + [op]) && NoDuplicates(r)
    ensures Elements(r) == if op.Distribute? then FreshMatches(Run(ops), op.event) else {}
  {
    assert (ops + [op])[..|ops|] == ops;
    r := [];
    match op
    case Add(key, fs) => index.AddSubscription(key.0, key.1, fs);
    case Remove(key) => index.RemoveSubscription(key.0, key.1);
    case Distribute(e) => r := index.DistributeEvent(e);
  }

  /** Any run of the index object: every operation reports, once each, exactly the subscriptions due. */
  method RunIndex(ops: seq<Op>) returns (index: SubscriptionIndex, reports: seq<seq<Key>>)
    ensures fresh(index) && index.Ok() && index.View() == Run(ops)
    ensures |reports| == |ops|
    ensures forall i | 0 <= i < |ops| :: NoDuplicates(reports[i]) && Elements(reports[i]) == Reports(ops)[i]
    ensures forall i, key | 0 <= i < |ops| ::
              key in reports[i] <==> ops[i].Distribute? && Due(ops[..i], Reports(ops)[..i], ops[i].event, key)
  {
    index := new SubscriptionIndex();
    reports := [];
    for i := 0 to |ops|
      invariant fresh(index) && index.Ok() && index.View() == Run(ops[..i]) && |reports| == i
      invariant forall j | 0 <= j < i :: NoDuplicates(reports[j]) && Elements(reports[j]) == Reports(ops[..i])[j]
    {
      PrefixNext(ops, i);
      var r := DoOp(index, ops[i], ops[..i]);
      reports := reports + [r];
    }
    assert ops[..|ops|] == ops;
    forall i, key | 0 <= i < |ops|
      ensures key in reports[i] <==> ops[i].Distribute? && Due(ops[..i], Reports(ops)[..i], ops[i].event, key)
    {
      EveryReportIsDue(ops, i, key);
      assert key in reports[i] <==> key in Elements(reports[i]);
    }
  }
}
