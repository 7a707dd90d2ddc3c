/**
  REQ, CLOSE and disconnection on one connection: the quota set of the connection state always
  covers the connection's subscriptions in the registry and never exceeds the maximum.
 */
module Quota {
  import opened Nostr
  import opened Messaging
  import opened RegistryModel
  import opened SubscriptionRegistries
  import opened ConnectionStates
  import opened Coordinator = SubscriptionCoordinator

  // ----- The machine -----

  /** The slots held, the limit, and the subscriptions the registry holds for the connection. */
  datatype Slots = Slots(quota: set<SubId>, max: Option<nat>, live: set<SubId>)

  /** How far a REQ gets. */
  datatype Outcome = FiltersRefused | QuotaExceeded | NoCoordinator | Historical(result: ReqResult)

  datatype Request = Req(sub: SubId, outcome: Outcome) | Close(sub: SubId) | Gone

  predicate HasSlot(s: Slots, sub: SubId)
  {
    sub in s.quota || s.max.None? || |s.quota| < s.max.value
  }

  /** A REQ is refused for want of a slot exactly when there is none. */
  predicate Lawful(s: Slots, r: Request)
  {
    r.Req? && !r.outcome.FiltersRefused? ==> (r.outcome.QuotaExceeded? <==> !HasSlot(s, r.sub))
  }

  function Step(s: Slots, r: Request): (s': Slots)
  {
    match r
    case Req(sub, outcome) =>
      if outcome.FiltersRefused? || outcome.QuotaExceeded? then s
      else if outcome == Historical(Registered) then s.(quota := s.quota + {sub}, live := s.live + {sub})
      else s.(quota := s.quota + {sub})
    case Close(sub) => s.(quota := s.quota - {sub}, live := s.live - {sub})
    case Gone => s.(live := {})
  }

  function Run(max: Option<nat>, rs: seq<Request>): (s: Slots)
    decreases |rs|
  {
    if rs == [] then Slots({}, max, {}) else Step(Run(max, rs[..|rs| - 1]), rs[|rs| - 1])
  }

  ghost predicate LawfulRun(max: Option<nat>, rs: seq<Request>)
  {
    forall i | 0 <= i < |rs| :: Lawful(Run(max, rs[..i]), rs[i])
  }

  lemma RunNext(max: Option<nat>, rs: seq<Request>, r: Request)
    ensures Run(max, rs + [r]) == Step(Run(max, rs), r)
    ensures LawfulRun(max, rs) && Lawful(Run(max, rs), r) ==> LawfulRun(max, rs + [r])
  {
    var all := rs + [r];
    assert all[..|rs|] == rs;
    forall i | 0 <= i < |rs| ensures all[..i] == rs[..i] {}
  }

  ghost predicate Covered(s: Slots)
  {
    s.live <= s.quota && (s.max.Some? ==> |s.quota| <= s.max.value)
  }

  lemma StepCovered(s: Slots, r: Request)
    requires Covered(s) && Lawful(s, r)
    ensures Covered(Step(s, r)) && Step(s, r).max == s.max
  {
    if r.Close? { SubsetSize(s.quota - {r.sub}, s.quota); }
  }

  /** Over every run, failing REQs included, the registered subscriptions hold slots and stay within the limit. */
  lemma {:induction false} QuotaCoversRegistry(max: Option<nat>, rs: seq<Request>)
    requires LawfulRun(max, rs)
    ensures Covered(Run(max, rs)) && Run(max, rs).max == max
    ensures max.Some? ==> |Run(max, rs).live| <= max.value
    decreases |rs|
  {
    if rs != [] {
      var init, r := rs[..|rs| - 1], rs[|rs| - 1];
      assert forall i | 0 <= i < |init| :: init[..i] == rs[..i] && init[i] == rs[i];
      QuotaCoversRegistry(max, init);
      StepCovered(Run(max, init), r);
    }
    SubsetSize(Run(max, rs).live, Run(max, rs).quota);
  }

  // ----- Exactly which slots are held, and which are live -----

  /** A REQ that got a slot, whatever became of it. */
  predicate Accepted(r: Request, sub: SubId)
  {
    r.Req? && r.sub == sub && (r.outcome.NoCoordinator? || r.outcome.Historical?)
  }

  /** An accepted REQ that was not closed since. */
  ghost predicate HoldsSlot(rs: seq<Request>, sub: SubId)
  {
    exists i :: 0 <= i < |rs| && Accepted(rs[i], sub) && forall j | i < j < |rs| :: rs[j] != Close(sub)
  }

  /** A registered REQ that was neither closed nor cleaned up since. */
  ghost predicate IsLive(rs: seq<Request>, sub: SubId)
  {
    exists i :: 0 <= i < |rs| && rs[i] == Req(sub, Historical(Registered)) &&
                forall j | i < j < |rs| :: rs[j] != Close(sub) && rs[j] != Gone
  }

  lemma HoldsSlotNext(init: seq<Request>, r: Request, sub: SubId)
    ensures HoldsSlot(init + [r], sub) <==> Accepted(r, sub) || (HoldsSlot(init, sub) && r != Close(sub))
  {
    var rs := init + [r];
    assert forall j | 0 <= j < |init| :: rs[j] == init[j];
    if i :| 0 <= i < |init| && Accepted(init[i], sub) && forall j | i < j < |init| :: init[j] != Close(sub) {
      assert Accepted(rs[i], sub);
    }
    if i :| 0 <= i < |rs| && Accepted(rs[i], sub) && forall j | i < j < |rs| :: rs[j] != Close(sub) {
      if i < |init| {
        assert rs[|init|] == r && Accepted(init[i], sub);
        assert forall j | i < j < |init| :: rs[j] != Close(sub) && init[j] == rs[j];
      }
    }
    if Accepted(r, sub) { assert Accepted(rs[|init|], sub); }
  }

  lemma IsLiveNext(init: seq<Request>, r: Request, sub: SubId)
    ensures IsLive(init + [r], sub) <==>
            r == Req(sub, Historical(Registered)) || (IsLive(init, sub) && r != Close(sub) && r != Gone)
  {
    var rs, live := init + [r], Req(sub, Historical(Registered));
    assert forall j | 0 <= j < |init| :: rs[j] == init[j];
    if IsLive(init, sub) {
      var i :| 0 <= i < |init| && init[i] == live &&
        forall j | i < j < |init| :: init[j] != Close(sub) && init[j] != Gone;
      assert rs[i] == live;
    }
    if i :| 0 <= i < |rs| && rs[i] == live && forall j | i < j < |rs| :: rs[j] != Close(sub) && rs[j] != Gone {
      if i < |init| {
        assert rs[|init|] == r && init[i] == live;
        assert forall j | i < j < |init| :: rs[j] != Close(sub) && rs[j] != Gone && init[j] == rs[j];
      }
    }
    if r == live { assert rs[|init|] == live; }
  }

  /** A slot is held exactly by the ids with an accepted REQ that was not closed since. */
  lemma {:induction false} QuotaIsHeldSlots(max: Option<nat>, rs: seq<Request>, sub: SubId)
    ensures sub in Run(max, rs).quota <==> HoldsSlot(rs, sub)
    decreases |rs|
  {
    if rs != [] {
      var init, r := rs[..|rs| - 1], rs[|rs| - 1];
      assert rs == init + [r];
      QuotaIsHeldSlots(max, init, sub);
      HoldsSlotNext(init, r, sub);
    }
  }

  /** A subscription is live exactly with a registered REQ that was neither closed nor cleaned up since. */
  lemma {:induction false} LiveIsRegistered(max: Option<nat>, rs: seq<Request>, sub: SubId)
    ensures sub in Run(max, rs).live <==> IsLive(rs, sub)
    decreases |rs|
  {
    if rs != [] {
      var init, r := rs[..|rs| - 1], rs[|rs| - 1];
      assert rs == init + [r];
      LiveIsRegistered(max, init, sub);
      IsLiveNext(init, r, sub);
    }
  }

  /**
    The slots held are exactly the live subscriptions if and only if every accepted REQ not closed
    since has a live one.
   */
  lemma QuotaEqualsLiveExactly(max: Option<nat>, rs: seq<Request>)
    ensures forall sub :: sub in Run(max, rs).quota - Run(max, rs).live <==> HoldsSlot(rs, sub) && !IsLive(rs, sub)
    ensures Run(max, rs).quota == Run(max, rs).live <==> forall sub | HoldsSlot(rs, sub) :: IsLive(rs, sub)
  {
    var s := Run(max, rs);
    forall sub ensures (sub in s.quota <==> HoldsSlot(rs, sub)) && (sub in s.live <==> IsLive(rs, sub)) {
      QuotaIsHeldSlots(max, rs, sub);
      LiveIsRegistered(max, rs, sub);
    }
    LiveWithin(max, rs);
    if forall sub | HoldsSlot(rs, sub) :: IsLive(rs, sub) { assert s.quota == s.live; }
    if s.quota == s.live {
      forall sub | HoldsSlot(rs, sub) ensures IsLive(rs, sub) { assert sub in s.quota; }
    }
  }

  lemma {:induction false} LiveWithin(max: Option<nat>, rs: seq<Request>)
    ensures Run(max, rs).live <= Run(max, rs).quota
    decreases |rs|
  {
    if rs != [] { LiveWithin(max, rs[..|rs| - 1]); }
  }

  /** The slot is held without a live subscription. */
  predicate Idle(s: Slots, sub: SubId)
  {
    sub in s.quota && sub !in s.live
  }

  /** None of the requests closes the id or asks for it again. */
  ghost predicate Untouched(rs: seq<Request>, sub: SubId)
  {
    forall r | r in rs :: r != Close(sub) && (r.Req? ==> r.sub != sub)
  }

  lemma IdleStep(s: Slots, r: Request, sub: SubId)
    requires Idle(s, sub) && r != Close(sub) && (r.Req? ==> r.sub != sub)
    ensures Idle(Step(s, r), sub)
  {
  }

  /** An idle slot stays idle until its id is closed or requested again. */
  lemma {:induction false} IdleSlotStays(max: Option<nat>, rs: seq<Request>, sub: SubId, later: seq<Request>)
    requires Idle(Run(max, rs), sub) && Untouched(later, sub)
    ensures Idle(Run(max, rs + later), sub)
    decreases |later|
  {
    if later == [] {
      assert rs + later == rs;
    } else {
      var init, r := later[..|later| - 1], later[|later| - 1];
      IdleSlotStays(max, rs, sub, init);
      assert rs + later == rs + init + [r];
      RunNext(max, rs + init, r);
      assert r in later;
      IdleStep(Run(max, rs + init), r, sub);
    }
  }

  /**
    A REQ that gets a slot and then fails keeps it, without a live subscription, over any later
    requests until its id is closed or requested again.
   */
  lemma FailedReqKeepsItsSlot(max: Option<nat>, rs: seq<Request>, sub: SubId, outcome: Outcome, later: seq<Request>)
    requires Accepted(Req(sub, outcome), sub) && outcome != Historical(Registered) && sub !in Run(max, rs).live
    requires Untouched(later, sub)
    ensures Idle(Run(max, rs + [Req(sub, outcome)] + later), sub)
  {
    RunNext(max, rs, Req(sub, outcome));
    IdleSlotStays(max, rs + [Req(sub, outcome)], sub, later);
  }

  /**
    After a cleanup every slot held before it stays held, without a live subscription, over any
    later requests until its id is closed or requested again: the client gets no slot back.
   */
  lemma CleanupKeepsSlots(max: Option<nat>, rs: seq<Request>, sub: SubId, later: seq<Request>)
    requires HoldsSlot(rs, sub) && Untouched(later, sub)
    ensures Idle(Run(max, rs + [Gone] + later), sub)
  {
    QuotaIsHeldSlots(max, rs, sub);
    RunNext(max, rs, Gone);
    IdleSlotStays(max, rs + [Gone], sub, later);
  }

  // ----- The handlers -----

  ghost function LiveIds(conns: Connections, c: ConnId): (r: set<SubId>)
  {
    if c in conns then conns[c].subscriptions.Keys else {}
  }

  ghost function SlotsOf(state: ConnectionState, registry: SubscriptionRegistry, c: ConnId): (s: Slots)
    reads state, registry
  {
    Slots(state.quota, state.maxSubscriptions, LiveIds(registry.connections, c))
  }

  /** What becomes of a REQ: filters are checked first, then a slot is reserved, then the coordinator takes over. */
  function Answer(s: Slots, sub: SubId, filtersOk: bool, hasCoordinator: bool, h: HistoryRequest, room: nat,
                  registered: bool): (outcome: Outcome)
  {
    if !filtersOk then FiltersRefused
    else if !HasSlot(s, sub) then QuotaExceeded
    else if !hasCoordinator then NoCoordinator
    else Historical(ResultOf(h, room, registered))
  }

  /** Exactly when a REQ comes to each outcome, from what is asked, the slots held, and the store's answers. */
  lemma AnswerExactly(s: Slots, sub: SubId, filtersOk: bool, hasCoordinator: bool, h: HistoryRequest, room: nat,
                      registered: bool, limit: nat)
    requires IsLeastLimit(h.filters, h.maxLimit, limit)
    ensures var outcome := Answer(s, sub, filtersOk, hasCoordinator, h, room, registered);
            var granted := filtersOk && (sub in s.quota || (s.max.Some? ==> |s.quota| < s.max.value));
            var reached, fits := granted && hasCoordinator, |StoredEvents(h, limit)| < room;
            && (outcome == FiltersRefused <==> !filtersOk)
            && (outcome == QuotaExceeded <==> filtersOk && !granted)
            && (outcome == NoCoordinator <==> granted && !hasCoordinator)
            && (outcome == Historical(Registered) <==> reached && AllAnswered(h, limit) && fits && registered)
            && (outcome == Historical(Coordinator.NoConnection) <==>
                  reached && AllAnswered(h, limit) && fits && !registered)
            && (outcome == Historical(HistoryFailed(QueryFailed)) <==> reached && !AllAnswered(h, limit))
            && (outcome == Historical(HistoryFailed(EoseRefused)) <==> reached && AllAnswered(h, limit) && !fits)
  {
    ResultExactly(h, room, registered, limit);
  }

  lemma OpenedLive(conns: Connections, c: ConnId, sub: SubId, filters: seq<Filter>)
    requires c in conns
    ensures LiveIds(Opened(conns, c, sub, filters), c) == LiveIds(conns, c) + {sub}
  {
  }

  /** A REQ message. */
  method HandleSubscription(state: ConnectionState, registry: SubscriptionRegistry, c: ConnId, sender: MessageSender,
                            sub: SubId, filtersOk: bool, hasCoordinator: bool, h: HistoryRequest)
    returns (outcome: Outcome)
    requires registry.Valid()
    modifies state`quota, sender.channel`queue
    modifies registry`connections, registry`indexes, registry`active, registry`lists, registry`heard
    modifies registry`repr, registry.repr
    ensures registry.Valid() && fresh(registry.repr - old(registry.repr))
    ensures outcome == Answer(old(SlotsOf(state, registry, c)), sub, filtersOk, hasCoordinator, h,
                              old(sender.channel.Room()), c in old(registry.connections))
    ensures SlotsOf(state, registry, c) == Step(old(SlotsOf(state, registry, c)), Req(sub, outcome))
    ensures sender.channel.queue == old(sender.channel.queue) +
            if outcome.Historical? then h.Reply(sub, sender.position, old(sender.channel.Room())) else []
    ensures registry.connections ==
            if outcome == Historical(Registered) then Opened(old(registry.connections), c, sub, h.filters)
            else old(registry.connections)
    ensures registry.heard ==
            HeardIfOpened(old(registry.connections), old(registry.heard), c, sub, outcome == Historical(Registered))
  {
    if c in registry.connections { OpenedLive(registry.connections, c, sub, h.filters); }
    if !filtersOk { return FiltersRefused; }
    var ok := state.ReserveQuotaSlot(sub);
    if !ok { return QuotaExceeded; }
    if !hasCoordinator { return NoCoordinator; }
    var r := HandleReq(registry, c, sender, sub, h);
    outcome := Historical(r);
  }

  /** A CLOSE message: the slot is released and the live subscription removed. */
  method HandleClose(state: ConnectionState, registry: SubscriptionRegistry, c: ConnId, sub: SubId)
    requires registry.Valid()
    modifies state`quota, registry`connections, registry`active, registry`lists, registry.repr
    ensures registry.Valid()
    ensures SlotsOf(state, registry, c) == Step(old(SlotsOf(state, registry, c)), Close(sub))
    ensures registry.connections ==
            if c in old(registry.connections) then Closed(old(registry.connections), c, sub)
            else old(registry.connections)
  {
    var _ := state.ReleaseQuotaSlot(sub);
    RemoveSubscription(registry, c, sub);
  }

  /** The connection ends, or is cleaned up because it was too slow. */
  method HandleDisconnect(state: ConnectionState, registry: SubscriptionRegistry, c: ConnId)
    requires registry.Valid()
    modifies registry`connections, registry`active, registry`lists, registry.repr
    ensures registry.Valid()
    ensures SlotsOf(state, registry, c) == Step(old(SlotsOf(state, registry, c)), Gone)
    ensures registry.connections == old(registry.connections) - {c}
  {
    registry.CleanupConnection(c);
  }
}
