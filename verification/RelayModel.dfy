/**
  The relay seen from its clients, without any index: each client's quota set, open subscriptions
  and queued messages, and what every request and every published event does to them. A REQ is
  answered from the store; of a published event each open subscription of the scope is told that is
  to be told of it given the events published since it was opened.
 */
module RelayModel {
  import opened Nostr
  import opened Hearing
  import opened Messaging
  import opened SubscriptionCoordinator
  import opened Quota

  // ----- Clients -----

  /**
    What is queued for a client. A delivery that overflows the channel leaves some of its messages
    on it, and which ones depends on the order they were sent in.
   */
  datatype Backlog = Exactly(ms: multiset<Queued>) | Overflowed(least: multiset<Queued>, most: multiset<Queued>)

  /** What the registry holds for a live connection. */
  datatype Entry = Entry(scope: Scope, subscriptions: map<SubId, seq<Filter>>)

  datatype Client = Client(quota: set<SubId>, max: Option<nat>, position: nat, capacity: nat, connected: bool,
                           backlog: Backlog, entry: Option<Entry>, heard: map<SubId, seq<Event>>) {

    function Room(): (n: nat)
    {
      if backlog.Exactly? && connected && |backlog.ms| < capacity then capacity - |backlog.ms| else 0
    }

    function Open(): (subs: map<SubId, seq<Filter>>)
    {
      if entry.Some? then entry.value.subscriptions else map[]
    }

    function SlotView(): (s: Slots)
    {
      Slots(quota, max, Open().Keys)
    }

    function WithOpen(subs: map<SubId, seq<Filter>>): (r: Client)
    {
      if entry.Some? then this.(entry := Some(entry.value.(subscriptions := subs))) else this
    }

    /** Messages that the channel has room for. */
    function Queue(ms: multiset<Queued>): (r: Client)
    {
      if backlog.Exactly? then this.(backlog := Exactly(backlog.ms + ms)) else this
    }

    function AnswerTo(sub: SubId, filtersOk: bool, hasCoordinator: bool, h: HistoryRequest): (outcome: Outcome)
    {
      Answer(SlotView(), sub, filtersOk, hasCoordinator, h, Room(), entry.Some?)
    }

    /** After a REQ: a slot, the stored events and the end marker, and the subscription, as far as it gets. */
    function Requested(sub: SubId, filtersOk: bool, hasCoordinator: bool, h: HistoryRequest): (r: Client)
    {
      match AnswerTo(sub, filtersOk, hasCoordinator, h)
      case FiltersRefused => this
      case QuotaExceeded => this
      case NoCoordinator => this.(quota := quota + {sub})
      case Historical(result) =>
        var answered := this.(quota := quota + {sub}).Queue(multiset(h.Reply(sub, position, Room())));
        if result == Registered then answered.WithOpen(Open()[sub := h.filters]).(heard := heard[sub := []])
        else answered
    }

    function Unsubscribed(sub: SubId): (r: Client)
    {
      this.(quota := quota - {sub}).WithOpen(Open() - {sub})
    }

    /** The client is registered in the scope. */
    predicate In(s: Scope)
    {
      entry.Some? && entry.value.scope == s
    }

    /** The open subscription is to be told of the event. */
    predicate Tells(sub: SubId, s: Scope, e: Event)
    {
      In(s) && sub in Open() && sub in heard && Told(Open()[sub], heard[sub], e)
    }

    function ToldSubs(s: Scope, e: Event): (subs: set<SubId>)
    {
      set sub | sub in Open() && Tells(sub, s, e)
    }

    /** The EVENT messages of the given subscriptions. */
    function Due(subs: set<SubId>, e: Event): (ms: set<Queued>)
    {
      set sub | sub in subs :: Queued(EventMsg(sub, e), position)
    }

    /** After a delivery: one EVENT for each of the subscriptions, or the end of the registration if they do not fit. */
    function Delivered(subs: set<SubId>, e: Event): (r: Client)
    {
      var due := Due(subs, e);
      if |due| <= Room() then Queue(multiset(due))
      else if Room() == 0 then this.(entry := None)
      else this.(entry := None, backlog := Overflowed(backlog.ms, backlog.ms + multiset(due)))
    }

    /** Every subscription of the client hears what is published in its scope. */
    function Hearing(s: Scope, e: Event): (r: Client)
    {
      if In(s) then this.(heard := map sub | sub in heard :: heard[sub] + [e]) else this
    }

    /** After a publication. */
    function Published(s: Scope, e: Event): (r: Client)
    {
      Hearing(s, e).Delivered(ToldSubs(s, e), e)
    }
  }

  type Clients = map<ConnId, Client>

  // ----- Steps and runs -----

  datatype Act =
    | Connect(conn: ConnId, scope: Scope)
    | Subscribe(conn: ConnId, sub: SubId, filtersOk: bool, hasCoordinator: bool, history: HistoryRequest)
    | Unsubscribe(conn: ConnId, sub: SubId)
    | Disconnect(conn: ConnId)
    | Publish(event: Event, scope: Scope)
    | Drain(conn: ConnId)
    | HangUp(conn: ConnId)

  /** What an act does to one client. */
  function StepOne(cl: Client, c: ConnId, act: Act): (r: Client)
  {
    match act
    case Connect(d, s) => if d == c && cl.entry.None? then cl.(entry := Some(Entry(s, map[]))) else cl
    case Subscribe(d, sub, ok, has, h) => if d == c then cl.Requested(sub, ok, has, h) else cl
    case Unsubscribe(d, sub) => if d == c then cl.Unsubscribed(sub) else cl
    case Disconnect(d) => if d == c then cl.(entry := None) else cl
    case Publish(e, s) => cl.Published(s, e)
    case Drain(d) => if d == c then cl.(backlog := Exactly(multiset{})) else cl
    case HangUp(d) => if d == c then cl.(connected := false) else cl
  }

  /** Clients do not depend on each other. */
  function Step(ps: Clients, act: Act): (r: Clients)
  {
    map c | c in ps :: StepOne(ps[c], c, act)
  }

  function ClientAfter(cl: Client, c: ConnId, acts: seq<Act>): (r: Client)
    decreases |acts|
  {
    if acts == [] then cl else StepOne(ClientAfter(cl, c, acts[..|acts| - 1]), c, acts[|acts| - 1])
  }

  function After(ps: Clients, acts: seq<Act>): (r: Clients)
  {
    map c | c in ps :: ClientAfter(ps[c], c, acts)
  }

  lemma AfterNext(ps: Clients, acts: seq<Act>, act: Act)
    ensures After(ps, acts + [act]) == Step(After(ps, acts), act)
  {
    assert (acts + [act])[..|acts|] == acts;
  }

  // ----- What a subscription has heard, by the indices of the acts -----

  /** What was published in the scope, in order. */
  function PublishedIn(acts: seq<Act>, s: Scope): (es: seq<Event>)
    decreases |acts|
  {
    if acts == [] then []
    else
      var last := acts[|acts| - 1];
      PublishedIn(acts[..|acts| - 1], s) + if last.Publish? && last.scope == s then [last.event] else []
  }

  /** The act is a REQ of the client that opens the subscription with these filters. */
  predicate Opens(cl: Client, c: ConnId, act: Act, sub: SubId, fs: seq<Filter>)
  {
    && act.Subscribe? && act.conn == c && act.sub == sub && act.history.filters == fs
    && cl.AnswerTo(sub, act.filtersOk, act.hasCoordinator, act.history) == Historical(Registered)
  }

  /** The act at this index opened the subscription, and none after it closed, dropped or replaced it. */
  ghost predicate OpenSince(cl: Client, c: ConnId, acts: seq<Act>, sub: SubId, fs: seq<Filter>, j: nat)
  {
    && j < |acts| && Opens(ClientAfter(cl, c, acts[..j]), c, acts[j], sub, fs)
    && forall k | j < k < |acts| :: Leaves(ClientAfter(cl, c, acts[..k]), c, acts[k], sub)
  }

  /** The act leaves the subscription as it is. */
  ghost predicate Leaves(cl: Client, c: ConnId, act: Act, sub: SubId)
  {
    && (act.Subscribe? && act.conn == c && act.sub == sub ==> !Opens(cl, c, act, sub, act.history.filters))
    && act != Unsubscribe(c, sub) && act != Disconnect(c)
    && (act.Publish? ==> |cl.Due(cl.ToldSubs(act.scope, act.event), act.event)| <= cl.Room())
  }

  /** Every open subscription is accounted for. */
  predicate Accounted(cl: Client)
  {
    cl.Open().Keys <= cl.heard.Keys
  }

  /** A publication ends the registration or leaves it as it is. */
  lemma PublishedEntry(cl: Client, s: Scope, e: Event)
    ensures var r := cl.Published(s, e);
            && r.entry == (if |cl.Due(cl.ToldSubs(s, e), e)| <= cl.Room() then cl.entry else None)
            && r.heard == cl.Hearing(s, e).heard
            && (!cl.In(s) ==> cl.Due(cl.ToldSubs(s, e), e) == {})
  {
    assert cl.Hearing(s, e).Due(cl.ToldSubs(s, e), e) == cl.Due(cl.ToldSubs(s, e), e);
  }

  /** A REQ opens its subscription or changes none. */
  lemma RequestedEntry(cl: Client, sub: SubId, ok: bool, has: bool, h: HistoryRequest)
    ensures var r := cl.Requested(sub, ok, has, h);
            if cl.AnswerTo(sub, ok, has, h) == Historical(Registered)
            then cl.entry.Some? && r.entry == Some(cl.entry.value.(subscriptions := cl.Open()[sub := h.filters])) &&
                 r.heard == cl.heard[sub := []]
            else r.entry == cl.entry && r.heard == cl.heard
  {
  }

  lemma StepAccounted(cl: Client, c: ConnId, act: Act)
    requires Accounted(cl)
    ensures Accounted(StepOne(cl, c, act))
  {
    match act
    case Subscribe(d, sub, ok, has, h) => RequestedEntry(cl, sub, ok, has, h);
    case Publish(e, s) => PublishedEntry(cl, s, e);
    case _ =>
  }

  /** What an act does to one subscription of a client. */
  lemma StepSubscription(cl: Client, c: ConnId, act: Act, sub: SubId, fs: seq<Filter>)
    requires Accounted(cl)
    ensures var r := StepOne(cl, c, act);
            && (Opens(cl, c, act, sub, fs) ==> sub in r.Open() && r.Open()[sub] == fs && r.heard[sub] == [])
            && (sub in r.Open() && r.Open()[sub] == fs && !Opens(cl, c, act, sub, fs) ==>
                  sub in cl.Open() && cl.Open()[sub] == fs && Leaves(cl, c, act, sub))
  {
    match act
    case Subscribe(d, other, ok, has, h) => RequestedEntry(cl, other, ok, has, h);
    case Publish(e, s) => PublishedEntry(cl, s, e);
    case _ =>
  }

  lemma StepLeaves(cl: Client, c: ConnId, act: Act, sub: SubId)
    requires Accounted(cl) && sub in cl.Open() && Leaves(cl, c, act, sub)
    ensures var r, s := StepOne(cl, c, act), cl.entry.value.scope;
            && sub in r.Open() && r.Open()[sub] == cl.Open()[sub] && r.In(s)
            && r.heard[sub] == cl.heard[sub] + if act.Publish? && act.scope == s then [act.event] else []
  {
    match act
    case Subscribe(d, other, ok, has, h) => RequestedEntry(cl, other, ok, has, h);
    case Publish(e, s) => PublishedEntry(cl, s, e);
    case _ =>
  }

  lemma {:induction false} AfterAccounted(cl: Client, c: ConnId, acts: seq<Act>)
    requires cl.entry == None
    ensures Accounted(ClientAfter(cl, c, acts))
    decreases |acts|
  {
    if acts != [] {
      AfterAccounted(cl, c, acts[..|acts| - 1]);
      StepAccounted(ClientAfter(cl, c, acts[..|acts| - 1]), c, acts[|acts| - 1]);
    }
  }

  lemma OpenSinceNext(cl: Client, c: ConnId, init: seq<Act>, act: Act, sub: SubId, fs: seq<Filter>, j: nat)
    requires j < |init|
    ensures OpenSince(cl, c, init + [act], sub, fs, j) <==>
            OpenSince(cl, c, init, sub, fs, j) && Leaves(ClientAfter(cl, c, init), c, act, sub)
  {
    var acts := init + [act];
    forall k | 0 <= k <= |init| ensures acts[..k] == init[..k] && (k < |init| ==> acts[k] == init[k]) {}
    assert init[..|init|] == init;
  }

  /** The client has the subscription with these filters, which has heard just these events of its scope. */
  predicate HasHeard(cl: Client, sub: SubId, fs: seq<Filter>, later: seq<Act>)
  {
    && sub in cl.Open() && cl.Open()[sub] == fs && sub in cl.heard
    && cl.heard[sub] == PublishedIn(later, cl.entry.value.scope)
  }

  lemma HasHeardNext(cl: Client, c: ConnId, act: Act, sub: SubId, fs: seq<Filter>, later: seq<Act>)
    requires Accounted(cl) && HasHeard(cl, sub, fs, later) && Leaves(cl, c, act, sub)
    ensures HasHeard(StepOne(cl, c, act), sub, fs, later + [act])
  {
    StepAccounted(cl, c, act);
    StepLeaves(cl, c, act, sub);
    assert (later + [act])[..|later|] == later;
  }

  lemma HasHeardNothing(cl: Client, c: ConnId, act: Act, sub: SubId, fs: seq<Filter>)
    requires Accounted(cl) && Opens(cl, c, act, sub, fs)
    ensures HasHeard(StepOne(cl, c, act), sub, fs, [])
  {
    StepAccounted(cl, c, act);
    StepSubscription(cl, c, act, sub, fs);
  }

  lemma OpenSinceLast(cl: Client, c: ConnId, init: seq<Act>, act: Act, sub: SubId, fs: seq<Filter>)
    ensures OpenSince(cl, c, init + [act], sub, fs, |init|) <==> Opens(ClientAfter(cl, c, init), c, act, sub, fs)
  {
    assert (init + [act])[..|init|] == init;
  }

  lemma ClientAfterNext(cl: Client, c: ConnId, init: seq<Act>, act: Act)
    ensures ClientAfter(cl, c, init + [act]) == StepOne(ClientAfter(cl, c, init), c, act)
  {
    assert (init + [act])[..|init|] == init;
  }

  lemma HeardFirst(cl: Client, c: ConnId, init: seq<Act>, act: Act, sub: SubId, fs: seq<Filter>)
    requires cl.entry == None && OpenSince(cl, c, init + [act], sub, fs, |init|)
    ensures HasHeard(ClientAfter(cl, c, init + [act]), sub, fs, (init + [act])[|init| + 1..])
  {
    AfterAccounted(cl, c, init);
    ClientAfterNext(cl, c, init, act);
    OpenSinceLast(cl, c, init, act, sub, fs);
    HasHeardNothing(ClientAfter(cl, c, init), c, act, sub, fs);
    assert (init + [act])[|init| + 1..] == [];
  }

  lemma HeardLater(cl: Client, c: ConnId, init: seq<Act>, act: Act, sub: SubId, fs: seq<Filter>, j: nat)
    requires cl.entry == None && j < |init| && HasHeard(ClientAfter(cl, c, init), sub, fs, init[j + 1..])
    requires Leaves(ClientAfter(cl, c, init), c, act, sub)
    ensures HasHeard(ClientAfter(cl, c, init + [act]), sub, fs, (init + [act])[j + 1..])
  {
    AfterAccounted(cl, c, init);
    ClientAfterNext(cl, c, init, act);
    HasHeardNext(ClientAfter(cl, c, init), c, act, sub, fs, init[j + 1..]);
    assert (init + [act])[j + 1..] == init[j + 1..] + [act];
  }

  /** Since it was opened, a subscription has heard exactly what was published in its scope. */
  lemma {:induction false} HeardSince(cl: Client, c: ConnId, acts: seq<Act>, sub: SubId, fs: seq<Filter>, j: nat)
    requires cl.entry == None && OpenSince(cl, c, acts, sub, fs, j)
    ensures HasHeard(ClientAfter(cl, c, acts), sub, fs, acts[j + 1..])
    decreases |acts|
  {
    var n := |acts| - 1;
    InitLast(acts);
    if j == n {
      HeardFirst(cl, c, acts[..n], acts[n], sub, fs);
    } else {
      OpenSinceNext(cl, c, acts[..n], acts[n], sub, fs, j);
      HeardSince(cl, c, acts[..n], sub, fs, j);
      HeardLater(cl, c, acts[..n], acts[n], sub, fs, j);
    }
  }

  /** A subscription is open exactly if some REQ opened it, and no act after it closed, dropped or replaced it. */
  lemma {:induction false} OpenExactly(cl: Client, c: ConnId, acts: seq<Act>, sub: SubId, fs: seq<Filter>)
    requires cl.entry == None
    ensures var r := ClientAfter(cl, c, acts);
            sub in r.Open() && r.Open()[sub] == fs <==> exists j: nat :: OpenSince(cl, c, acts, sub, fs, j)
    decreases |acts|
  {
    var r := ClientAfter(cl, c, acts);
    if acts != [] && sub in r.Open() && r.Open()[sub] == fs {
      var n := |acts| - 1;
      var init, act := acts[..n], acts[n];
      var before := ClientAfter(cl, c, init);
      AfterAccounted(cl, c, init);
      InitLast(acts);
      StepSubscription(before, c, act, sub, fs);
      if Opens(before, c, act, sub, fs) {
        assert OpenSince(cl, c, acts, sub, fs, n);
      } else {
        OpenExactly(cl, c, init, sub, fs);
        var j: nat :| OpenSince(cl, c, init, sub, fs, j);
        OpenSinceNext(cl, c, init, act, sub, fs, j);
      }
    }
    if j: nat :| OpenSince(cl, c, acts, sub, fs, j) { HeardSince(cl, c, acts, sub, fs, j); }
  }

  /** An id stands for one event. */
  ghost predicate OneEvent(acts: seq<Act>, s: Scope, e: Event)
  {
    forall i | 0 <= i < |acts| && acts[i].Publish? && acts[i].scope == s && acts[i].event.id == e.id ::
      acts[i].event == e
  }

  lemma {:induction false} PublishedByActs(acts: seq<Act>, s: Scope, x: Event)
    ensures x in PublishedIn(acts, s) <==>
            exists i :: 0 <= i < |acts| && acts[i].Publish? && acts[i].scope == s && acts[i].event == x
    decreases |acts|
  {
    if acts != [] {
      var n := |acts| - 1;
      PublishedByActs(acts[..n], s, x);
      assert forall i | 0 <= i < n :: acts[..n][i] == acts[i];
      if x in PublishedIn(acts[..n], s) {
        var i :| 0 <= i < n && acts[..n][i].Publish? && acts[..n][i].scope == s && acts[..n][i].event == x;
        assert acts[i].event == x;
      }
      if i :| 0 <= i < |acts| && acts[i].Publish? && acts[i].scope == s && acts[i].event == x {
        if i < n { assert acts[..n][i].event == x; }
      }
    }
  }

  /** The subscription is open in the scope since this act, and a filter of its matches the event but not last. */
  ghost predicate ToldSince(cl: Client, c: ConnId, acts: seq<Act>, s: Scope, e: Event, sub: SubId, fs: seq<Filter>,
                            j: nat)
  {
    && OpenSince(cl, c, acts, sub, fs, j) && ClientAfter(cl, c, acts).In(s)
    && exists i :: 0 <= i < |fs| && Matches(fs[i], e) && !LastMatch(PublishedIn(acts[j + 1..], s), fs[i], e.id)
  }

  /**
    Of every event published, repeated ones included, exactly those open subscriptions of the scope
    are told that have a filter matching it whose last match published since the REQ is another event.
   */
  lemma TellsExactly(cl: Client, c: ConnId, acts: seq<Act>, s: Scope, e: Event, sub: SubId)
    requires cl.entry == None && OneEvent(acts, s, e)
    ensures sub in ClientAfter(cl, c, acts).ToldSubs(s, e) <==>
            exists fs, j: nat :: ToldSince(cl, c, acts, s, e, sub, fs, j)
  {
    var r := ClientAfter(cl, c, acts);
    if sub in r.ToldSubs(s, e) {
      var fs := r.Open()[sub];
      OpenExactly(cl, c, acts, sub, fs);
      var j: nat :| OpenSince(cl, c, acts, sub, fs, j);
      HeardSinceIsOne(cl, c, acts, s, e, sub, fs, j);
      assert ToldSince(cl, c, acts, s, e, sub, fs, j);
    }
    if fs, j: nat :| ToldSince(cl, c, acts, s, e, sub, fs, j) {
      HeardSinceIsOne(cl, c, acts, s, e, sub, fs, j);
    }
  }

  lemma HeardSinceIsOne(cl: Client, c: ConnId, acts: seq<Act>, s: Scope, e: Event, sub: SubId, fs: seq<Filter>, j: nat)
    requires cl.entry == None && OpenSince(cl, c, acts, sub, fs, j) && OneEvent(acts, s, e)
    ensures var r := ClientAfter(cl, c, acts);
            && sub in r.Open() && r.Open()[sub] == fs && sub in r.heard
            && (r.In(s) ==> r.heard[sub] == PublishedIn(acts[j + 1..], s))
            && (r.In(s) ==> (Told(fs, r.heard[sub], e) <==>
                 exists i :: 0 <= i < |fs| && Matches(fs[i], e) && !LastMatch(r.heard[sub], fs[i], e.id)))
  {
    HeardSince(cl, c, acts, sub, fs, j);
    var heard := PublishedIn(acts[j + 1..], s);
    forall i | 0 <= i < |heard| && heard[i].id == e.id ensures heard[i] == e {
      PublishedByActs(acts[j + 1..], s, heard[i]);
      assert heard[i] in heard;
      var k :| 0 <= k < |acts[j + 1..]| && acts[j + 1..][k].Publish? && acts[j + 1..][k].scope == s &&
               acts[j + 1..][k].event == heard[i];
      assert acts[j + 1..][k] == acts[j + 1 + k];
    }
    ToldExactly(fs, heard, e);
  }

  // ----- The reference for events that are not repeated: a scan of all open filters -----

  /** The event was not published in that scope before. */
  ghost predicate IsNew(acts: seq<Act>, i: nat)
    requires i < |acts| && acts[i].Publish?
  {
    forall j | 0 <= j < i :: acts[j].Publish? && acts[j].scope == acts[i].scope ==> acts[j].event.id != acts[i].event.id
  }

  /** No event is published twice in the same scope. */
  ghost predicate PublishesOnce(acts: seq<Act>)
  {
    forall i | 0 <= i < |acts| && acts[i].Publish? :: IsNew(acts, i)
  }

  /** The open subscriptions of a client of the scope with a filter that matches. */
  function Found(cl: Client, s: Scope, e: Event): (subs: set<SubId>)
  {
    set sub | sub in cl.Open() && cl.In(s) && AnyMatches(cl.Open()[sub], e)
  }

  /** An event not published before is told to exactly the subscriptions a scan of the open filters finds. */
  lemma NewIsScanned(cl: Client, c: ConnId, acts: seq<Act>, i: nat)
    requires cl.entry == None && i < |acts| && acts[i].Publish? && IsNew(acts, i)
    ensures var r := ClientAfter(cl, c, acts[..i]);
            r.ToldSubs(acts[i].scope, acts[i].event) == Found(r, acts[i].scope, acts[i].event)
  {
    var r, s, e := ClientAfter(cl, c, acts[..i]), acts[i].scope, acts[i].event;
    assert forall j | 0 <= j < i :: acts[..i][j] == acts[j];
    AfterAccounted(cl, c, acts[..i]);
    forall sub | sub in r.Open() && r.In(s)
      ensures Told(r.Open()[sub], r.heard[sub], e) <==> AnyMatches(r.Open()[sub], e)
    {
      HeardIsNew(cl, c, acts[..i], s, e, sub);
      NewIsTold(r.Open()[sub], r.heard[sub], e);
    }
  }

  lemma HeardIsNew(cl: Client, c: ConnId, acts: seq<Act>, s: Scope, e: Event, sub: SubId)
    requires cl.entry == None && sub in ClientAfter(cl, c, acts).Open() && ClientAfter(cl, c, acts).In(s)
    requires forall j | 0 <= j < |acts| && acts[j].Publish? && acts[j].scope == s :: acts[j].event.id != e.id
    ensures sub in ClientAfter(cl, c, acts).heard
    ensures forall x | x in ClientAfter(cl, c, acts).heard[sub] :: x.id != e.id
  {
    var r := ClientAfter(cl, c, acts);
    OpenExactly(cl, c, acts, sub, r.Open()[sub]);
    var j: nat :| OpenSince(cl, c, acts, sub, r.Open()[sub], j);
    HeardSince(cl, c, acts, sub, r.Open()[sub], j);
    forall x | x in r.heard[sub] ensures x.id != e.id {
      PublishedByActs(acts[j + 1..], s, x);
      var k :| 0 <= k < |acts[j + 1..]| && acts[j + 1..][k].Publish? && acts[j + 1..][k].scope == s &&
               acts[j + 1..][k].event == x;
      assert acts[j + 1..][k] == acts[j + 1 + k];
    }
  }

  /** The reference that scans: every published event is delivered to what a scan of the open filters finds. */
  function ScanOne(cl: Client, c: ConnId, act: Act): (r: Client)
  {
    if act.Publish? then cl.Hearing(act.scope, act.event).Delivered(Found(cl, act.scope, act.event), act.event)
    else StepOne(cl, c, act)
  }

  function ScanAfter(cl: Client, c: ConnId, acts: seq<Act>): (r: Client)
    decreases |acts|
  {
    if acts == [] then cl else ScanOne(ScanAfter(cl, c, acts[..|acts| - 1]), c, acts[|acts| - 1])
  }

  /** A run that publishes no event twice in a scope is the run of the reference that scans. */
  lemma {:induction false} NewOnlyRun(cl: Client, c: ConnId, acts: seq<Act>)
    requires cl.entry == None && PublishesOnce(acts)
    ensures ClientAfter(cl, c, acts) == ScanAfter(cl, c, acts)
    decreases |acts|
  {
    if acts != [] {
      var n := |acts| - 1;
      forall i | 0 <= i < n && acts[..n][i].Publish? ensures IsNew(acts[..n], i) { NewBefore(acts, n, i); }
      NewOnlyRun(cl, c, acts[..n]);
      if acts[n].Publish? { NewIsScanned(cl, c, acts, n); }
    }
  }

  lemma NewBefore(acts: seq<Act>, n: nat, i: nat)
    requires i < n <= |acts| && acts[i].Publish?
    ensures IsNew(acts[..n], i) == IsNew(acts, i)
  {
    assert forall j | 0 <= j <= i :: acts[..n][j] == acts[j];
  }

  // ----- The quota machine of each client -----

  /** What an act is for a client: the part of its log of requests. */
  function PartOf(cl: Client, c: ConnId, act: Act): (rs: seq<Request>)
  {
    match act
    case Connect(d, s) => []
    case Subscribe(d, sub, ok, has, h) => if d == c then [Req(sub, cl.AnswerTo(sub, ok, has, h))] else []
    case Unsubscribe(d, sub) => if d == c then [Close(sub)] else []
    case Disconnect(d) => if d == c then [Gone] else []
    case Publish(e, s) => if |cl.Due(cl.ToldSubs(s, e), e)| > cl.Room() then [Gone] else []
    case Drain(d) => []
    case HangUp(d) => []
  }

  /** What the acts come to for one client: its REQs with their outcomes, its CLOSEs and its cleanups, in order. */
  function Requests(cl: Client, c: ConnId, acts: seq<Act>): (rs: seq<Request>)
    decreases |acts|
  {
    if acts == [] then []
    else
      var init := acts[..|acts| - 1];
      Requests(cl, c, init) + PartOf(ClientAfter(cl, c, init), c, acts[|acts| - 1])
  }

  lemma RequestedSlots(cl: Client, sub: SubId, ok: bool, has: bool, h: HistoryRequest)
    ensures var outcome := cl.AnswerTo(sub, ok, has, h);
            && cl.Requested(sub, ok, has, h).SlotView() == Quota.Step(cl.SlotView(), Req(sub, outcome))
            && Lawful(cl.SlotView(), Req(sub, outcome))
  {
  }

  lemma PublishedSlots(cl: Client, s: Scope, e: Event)
    ensures cl.Published(s, e).SlotView() ==
            if |cl.Due(cl.ToldSubs(s, e), e)| > cl.Room() then Quota.Step(cl.SlotView(), Gone) else cl.SlotView()
  {
    assert cl.Hearing(s, e).Due(cl.ToldSubs(s, e), e) == cl.Due(cl.ToldSubs(s, e), e);
  }

  /** One act moves a client's slots and live subscriptions as its part of the log does. */
  lemma StepSlots(cl: Client, c: ConnId, act: Act)
    ensures var part := PartOf(cl, c, act);
            && |part| <= 1
            && StepOne(cl, c, act).SlotView() ==
               (if part == [] then cl.SlotView() else Quota.Step(cl.SlotView(), part[0]))
            && (part != [] ==> Lawful(cl.SlotView(), part[0]))
  {
    match act
    case Subscribe(d, sub, ok, has, h) => RequestedSlots(cl, sub, ok, has, h);
    case Publish(e, s) => PublishedSlots(cl, s, e);
    case _ =>
  }

  lemma RunPart(max: Option<nat>, rs: seq<Request>, part: seq<Request>, s: Slots)
    requires LawfulRun(max, rs) && |part| <= 1 && (part != [] ==> Lawful(Run(max, rs), part[0]))
    requires s == if part == [] then Run(max, rs) else Quota.Step(Run(max, rs), part[0])
    ensures LawfulRun(max, rs + part) && Run(max, rs + part) == s
  {
    if part == [] {
      assert rs + part == rs;
    } else {
      assert part == [part[0]];
      RunNext(max, rs, part[0]);
    }
  }

  /**
    For a client that starts without slots and registration, the acts move its slots and live
    subscriptions as the quota machine run on its requests does.
   */
  lemma {:induction false} SlotsFollowActs(cl: Client, c: ConnId, acts: seq<Act>)
    requires cl.quota == {} && cl.entry == None
    ensures LawfulRun(cl.max, Requests(cl, c, acts))
    ensures ClientAfter(cl, c, acts).SlotView() == Run(cl.max, Requests(cl, c, acts))
    decreases |acts|
  {
    if acts != [] {
      var n := |acts| - 1;
      SlotsFollowActs(cl, c, acts[..n]);
      var before := ClientAfter(cl, c, acts[..n]);
      StepSlots(before, c, acts[n]);
      RunPart(cl.max, Requests(cl, c, acts[..n]), PartOf(before, c, acts[n]), StepOne(before, c, acts[n]).SlotView());
    }
  }
}
