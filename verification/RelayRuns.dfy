/**
  Whole runs of the relay's objects for many clients over one registry: connecting, REQ, CLOSE,
  disconnecting, published events that go through the index and drop slow connections, clients
  that take what is queued, and clients that go away. After any run, every client's quota set, open
  subscriptions and queued messages are those of the reference of `RelayModel`.
 */
module RelayRuns {
  import opened Nostr
  import opened IndexModel
  import opened Hearing
  import opened Messaging
  import opened RegistryModel
  import opened SubscriptionRegistries
  import opened ConnectionStates
  import opened SubscriptionCoordinator
  import opened Quota
  import opened RelayModel

  // ----- The objects seen as clients -----

  /** A client's objects: its connection state and its sender. */
  datatype Peer = Peer(state: ConnectionState, sender: MessageSender)

  type Peers = map<ConnId, Peer>

  /** What the objects of a client hold. */
  datatype Seen = Seen(quota: set<SubId>, max: Option<nat>, position: nat, capacity: nat, connected: bool,
                       queue: seq<Queued>) {

    function Room(): (n: nat)
    {
      if connected && |queue| < capacity then capacity - |queue| else 0
    }
  }

  type Views = map<ConnId, Seen>

  /** No two clients share their state or their channel. */
  ghost predicate Apart(peers: Peers)
  {
    forall c, d | c in peers && d in peers && c != d ::
      peers[c].state != peers[d].state && peers[c].sender.channel != peers[d].sender.channel
  }

  ghost function States(peers: Peers): (r: set<ConnectionState>)
  {
    set c | c in peers :: peers[c].state
  }

  ghost function PeerChannels(peers: Peers): (r: set<Channel>)
  {
    set c | c in peers :: peers[c].sender.channel
  }

  ghost function SeenOf(p: Peer): (seen: Seen)
    reads p.state, p.sender.channel
  {
    var ch := p.sender.channel;
    Seen(p.state.quota, p.state.maxSubscriptions, p.sender.position, ch.capacity, ch.connected, ch.queue)
  }

  ghost function View(peers: Peers): (seen: Views)
    reads States(peers), PeerChannels(peers)
  {
    map c | c in peers :: SeenOf(peers[c])
  }

  /** Every live connection is one of the peers, under its own sender. */
  ghost predicate Known(conns: Connections, peers: Peers)
  {
    forall c | c in conns :: c in peers && conns[c].sender == peers[c].sender
  }

  function EntryOf(conns: Connections, c: ConnId): (r: Option<Entry>)
  {
    if c in conns then Some(Entry(conns[c].scope, conns[c].subscriptions)) else None
  }

  // ----- Agreement with the reference -----

  predicate Queues(backlog: Backlog, seen: Seen)
  {
    match backlog
    case Exactly(ms) => multiset(seen.queue) == ms
    case Overflowed(least, most) => least <= multiset(seen.queue) <= most && seen.Room() == 0
  }

  /** The objects and the registry's entry are as the reference says. */
  predicate Fits(cl: Client, seen: Seen, entry: Option<Entry>)
  {
    && cl.quota == seen.quota && cl.max == seen.max && cl.entry == entry
    && cl.position == seen.position && cl.capacity == seen.capacity && cl.connected == seen.connected
    && Queues(cl.backlog, seen)
  }

  /** Mentioned where a proof looks at the clients one by one. */
  predicate Consult(n: nat)
  {
    true
  }

  ghost predicate Agree(ps: Clients, seen: Views, conns: Connections)
  {
    ps.Keys == seen.Keys &&
    forall n: nat {:trigger Consult(n)} :: Consult(n) ==> AllFit(ps, seen, conns)
  }

  ghost predicate AllFit(ps: Clients, seen: Views, conns: Connections)
    requires ps.Keys == seen.Keys
  {
    forall c | c in ps :: Fits(ps[c], seen[c], EntryOf(conns, c))
  }

  lemma SameRoom(cl: Client, seen: Seen, entry: Option<Entry>)
    requires Fits(cl, seen, entry)
    ensures cl.Room() == seen.Room()
  {
    assert |multiset(seen.queue)| == |seen.queue|;
  }

  lemma LiveIdsOpen(cl: Client, seen: Seen, conns: Connections, c: ConnId)
    requires Fits(cl, seen, EntryOf(conns, c))
    ensures cl.SlotView() == Slots(seen.quota, seen.max, LiveIds(conns, c))
  {
  }

  /** Only one client's objects have changed. */
  ghost predicate OneChanged(views: Views, c: ConnId, views': Views)
  {
    views'.Keys == views.Keys &&
    forall n: nat {:trigger Consult(n)} :: Consult(n) ==> forall d | d in views && d != c :: views'[d] == views[d]
  }

  /** One client acts: everything else stays. */
  lemma AgreeOne(ps: Clients, views: Views, conns: Connections, c: ConnId, act: Act, views': Views, conns': Connections)
    requires Agree(ps, views, conns) && c in ps && !act.Publish? && act.conn == c && OneChanged(views, c, views')
    requires Fits(ps[c], views[c], EntryOf(conns, c)) ==>
             Fits(StepOne(ps[c], c, act), views'[c], EntryOf(conns', c))
    requires forall d | d != c :: EntryOf(conns', d) == EntryOf(conns, d)
    ensures Agree(RelayModel.Step(ps, act), views', conns')
  {
    assert Consult(0);
  }

  // ----- REQ, CLOSE and the rest -----

  lemma FitsQueue(cl: Client, seen: Seen, entry: Option<Entry>, ms: seq<Queued>)
    requires Fits(cl, seen, entry) && |ms| <= seen.Room()
    ensures Fits(cl.Queue(multiset(ms)), seen.(queue := seen.queue + ms), entry)
  {
    if cl.backlog.Overflowed? { assert seen.queue + ms == seen.queue; }
  }

  lemma FitsOpen(cl: Client, seen: Seen, conns: Connections, c: ConnId, sub: SubId, filters: seq<Filter>)
    requires Fits(cl, seen, EntryOf(conns, c)) && c in conns
    ensures Fits(cl.WithOpen(cl.Open()[sub := filters]), seen, EntryOf(Opened(conns, c, sub, filters), c))
    ensures Fits(cl.WithOpen(cl.Open() - {sub}), seen, EntryOf(Closed(conns, c, sub), c))
  {
  }

  lemma ReplyFits(h: HistoryRequest, sub: SubId, position: nat, room: nat)
    ensures |h.Reply(sub, position, room)| <= room
  {
  }

  lemma FitsHistorical(cl: Client, seen: Seen, conns: Connections, c: ConnId, sub: SubId, h: HistoryRequest,
                       result: ReqResult, conns': Connections)
    requires Fits(cl, seen, EntryOf(conns, c)) && (result == Registered ==> c in conns)
    requires conns' == if result == Registered then Opened(conns, c, sub, h.filters) else conns
    ensures var ms := h.Reply(sub, seen.position, seen.Room());
            var answered := cl.(quota := cl.quota + {sub}).Queue(multiset(ms));
            Fits(if result == Registered then answered.WithOpen(cl.Open()[sub := h.filters]) else answered,
                 seen.(quota := seen.quota + {sub}, queue := seen.queue + ms), EntryOf(conns', c))
  {
    var ms := h.Reply(sub, seen.position, seen.Room());
    ReplyFits(h, sub, seen.position, seen.Room());
    FitsQueue(cl.(quota := cl.quota + {sub}), seen.(quota := seen.quota + {sub}), EntryOf(conns, c), ms);
    if result == Registered {
      FitsOpen(cl.(quota := cl.quota + {sub}).Queue(multiset(ms)),
               seen.(quota := seen.quota + {sub}, queue := seen.queue + ms), conns, c, sub, h.filters);
    }
  }

  lemma AnswerFits(cl: Client, seen: Seen, conns: Connections, c: ConnId, sub: SubId, filtersOk: bool,
                   hasCoordinator: bool, h: HistoryRequest)
    requires Fits(cl, seen, EntryOf(conns, c))
    ensures cl.AnswerTo(sub, filtersOk, hasCoordinator, h) ==
            Answer(Slots(seen.quota, seen.max, LiveIds(conns, c)), sub, filtersOk, hasCoordinator, h, seen.Room(),
                   c in conns)
  {
    SameRoom(cl, seen, EntryOf(conns, c));
    LiveIdsOpen(cl, seen, conns, c);
  }

  /** What a REQ does to the objects of its client. */
  function SeenAfter(seen: Seen, sub: SubId, h: HistoryRequest, outcome: Outcome): (r: Seen)
  {
    match outcome
    case FiltersRefused => seen
    case QuotaExceeded => seen
    case NoCoordinator => seen.(quota := seen.quota + {sub})
    case Historical(result) =>
      seen.(quota := seen.quota + {sub}, queue := seen.queue + h.Reply(sub, seen.position, seen.Room()))
  }

  lemma FitsRequested(cl: Client, seen: Seen, conns: Connections, c: ConnId, sub: SubId, filtersOk: bool,
                      hasCoordinator: bool, h: HistoryRequest, outcome: Outcome, conns': Connections)
    requires Fits(cl, seen, EntryOf(conns, c))
    requires outcome == Answer(Slots(seen.quota, seen.max, LiveIds(conns, c)), sub, filtersOk, hasCoordinator, h,
                               seen.Room(), c in conns)
    requires conns' ==
             if outcome == Historical(Registered) && c in conns then Opened(conns, c, sub, h.filters) else conns
    ensures Fits(cl.Requested(sub, filtersOk, hasCoordinator, h), SeenAfter(seen, sub, h, outcome), EntryOf(conns', c))
  {
    SameRoom(cl, seen, EntryOf(conns, c));
    AnswerFits(cl, seen, conns, c, sub, filtersOk, hasCoordinator, h);
    if outcome.Historical? { FitsHistorical(cl, seen, conns, c, sub, h, outcome.result, conns'); }
  }

  lemma OthersKeepEntries(conns: Connections, c: ConnId, sub: SubId, filters: seq<Filter>)
    requires c in conns
    ensures forall d | d != c :: EntryOf(Opened(conns, c, sub, filters), d) == EntryOf(conns, d)
    ensures forall d | d != c :: EntryOf(Closed(conns, c, sub), d) == EntryOf(conns, d)
  {
  }

  lemma OpenedKnown(conns: Connections, peers: Peers, c: ConnId, sub: SubId, filters: seq<Filter>)
    requires Known(conns, peers) && c in conns
    ensures Known(Opened(conns, c, sub, filters), peers) && Known(Closed(conns, c, sub), peers)
  {
  }

  // ----- The objects of one client change -----

  /** What a REQ comes to, from the objects of its client and the registry. */
  ghost function OutcomeOf(seen: Seen, conns: Connections, c: ConnId, act: Act): (outcome: Outcome)
    requires act.Subscribe?
  {
    Answer(Slots(seen.quota, seen.max, LiveIds(conns, c)), act.sub, act.filtersOk, act.hasCoordinator, act.history,
           seen.Room(), c in conns)
  }

  /** What a REQ does to what is remembered. */
  ghost function HeardByReq(seen: Seen, conns: Connections, heard: Heard, c: ConnId, act: Act): (r: Heard)
    requires act.Subscribe?
  {
    HeardIfOpened(conns, heard, c, act.sub, OutcomeOf(seen, conns, c, act) == Historical(Registered))
  }

  /** The client's objects and the registry's connections have changed as the REQ of the act asks. */
  ghost predicate Requested(seen: Seen, conns: Connections, c: ConnId, act: Act, seen': Seen, conns': Connections)
    requires act.Subscribe?
  {
    forall n: nat {:trigger Consult(n)} :: Consult(n) ==>
      var outcome := OutcomeOf(seen, conns, c, act);
      && seen' == SeenAfter(seen, act.sub, act.history, outcome)
      && conns' ==
         if outcome == Historical(Registered) && c in conns then Opened(conns, c, act.sub, act.history.filters)
         else conns
  }

  /** A REQ of one client, seen through its objects. */
  method Request(peer: Peer, registry: SubscriptionRegistry, c: ConnId, act: Act)
    requires registry.Valid() && act.Subscribe?
    modifies peer.state`quota, peer.sender.channel`queue
    modifies registry`connections, registry`indexes, registry`active, registry`lists, registry`heard
    modifies registry`repr, registry.repr
    ensures registry.Valid() && fresh(registry.repr - old(registry.repr))
    ensures Requested(old(SeenOf(peer)), old(registry.connections), c, act, SeenOf(peer), registry.connections)
    ensures registry.heard == HeardByReq(old(SeenOf(peer)), old(registry.connections), old(registry.heard), c, act)
  {
    var _ := HandleSubscription(peer.state, registry, c, peer.sender, act.sub, act.filtersOk, act.hasCoordinator,
                                act.history);
  }

  lemma StepRequested(ps: Clients, views: Views, conns: Connections, peers: Peers, c: ConnId, act: Act, views': Views,
                      conns': Connections)
    requires Agree(ps, views, conns) && Known(conns, peers) && c in ps && act.Subscribe? && act.conn == c
    requires OneChanged(views, c, views') && Requested(views[c], conns, c, act, views'[c], conns')
    ensures Known(conns', peers) && Agree(RelayModel.Step(ps, act), views', conns')
  {
    if c in conns {
      OthersKeepEntries(conns, c, act.sub, act.history.filters);
      OpenedKnown(conns, peers, c, act.sub, act.history.filters);
    }
    assert Consult(0);
    FitsRequested(ps[c], views[c], conns, c, act.sub, act.filtersOk, act.hasCoordinator, act.history,
                  OutcomeOf(views[c], conns, c, act), conns');
    AgreeOne(ps, views, conns, c, act, views', conns');
  }

  lemma HeardAgrees(ps: Clients, views: Views, conns: Connections, heard: Heard, c: ConnId, act: Act)
    requires Agree(ps, views, conns) && c in ps && act.Subscribe? && act.conn == c
    ensures HeardByReq(views[c], conns, heard, c, act) == ReqHeard(ps, heard, act)
  {
    assert Consult(0);
    AnswerFits(ps[c], views[c], conns, c, act.sub, act.filtersOk, act.hasCoordinator, act.history);
  }

  /** A REQ of one of the clients leaves the others' objects alone. */
  method RequestOf(peers: Peers, registry: SubscriptionRegistry, c: ConnId, act: Act)
    requires registry.Valid() && act.Subscribe? && Apart(peers) && c in peers
    modifies peers[c].state`quota, peers[c].sender.channel`queue
    modifies registry`connections, registry`indexes, registry`active, registry`lists, registry`heard
    modifies registry`repr, registry.repr
    ensures registry.Valid() && fresh(registry.repr - old(registry.repr))
    ensures OneChanged(old(View(peers)), c, View(peers))
    ensures Requested(old(View(peers))[c], old(registry.connections), c, act, View(peers)[c], registry.connections)
    ensures registry.heard == HeardByReq(old(View(peers))[c], old(registry.connections), old(registry.heard), c, act)
  {
    Request(peers[c], registry, c, act);
  }

  method DoSubscribe(peers: Peers, registry: SubscriptionRegistry, c: ConnId, act: Act, ghost ps: Clients)
    requires registry.Valid() && Apart(peers) && Known(registry.connections, peers) && c in peers
    requires Agree(ps, View(peers), registry.connections) && act.Subscribe? && act.conn == c
    modifies peers[c].state`quota, peers[c].sender.channel`queue
    modifies registry`connections, registry`indexes, registry`active, registry`lists, registry`heard
    modifies registry`repr, registry.repr
    ensures registry.Valid() && Known(registry.connections, peers) && fresh(registry.repr - old(registry.repr))
    ensures Agree(RelayModel.Step(ps, act), View(peers), registry.connections)
    ensures registry.heard == ReqHeard(ps, old(registry.heard), act)
  {
    ghost var views, conns := View(peers), registry.connections;
    HeardAgrees(ps, views, conns, registry.heard, c, act);
    RequestOf(peers, registry, c, act);
    StepRequested(ps, views, conns, peers, c, act, View(peers), registry.connections);
  }

  /** A CLOSE of one of the clients. */
  method CloseOf(peers: Peers, registry: SubscriptionRegistry, c: ConnId, sub: SubId)
    requires registry.Valid() && Apart(peers) && c in peers
    modifies peers[c].state`quota, registry`connections, registry`active, registry`lists, registry.repr
    ensures registry.Valid() && OneChanged(old(View(peers)), c, View(peers))
    ensures var seen := old(View(peers))[c]; View(peers)[c] == seen.(quota := seen.quota - {sub})
    ensures registry.connections ==
            if c in old(registry.connections) then Closed(old(registry.connections), c, sub)
            else old(registry.connections)
  {
    HandleClose(peers[c].state, registry, c, sub);
  }

  lemma StepUnsubscribed(ps: Clients, views: Views, conns: Connections, peers: Peers, c: ConnId, sub: SubId,
                         views': Views, conns': Connections)
    requires Agree(ps, views, conns) && Known(conns, peers) && c in ps
    requires OneChanged(views, c, views') && views'[c] == views[c].(quota := views[c].quota - {sub})
    requires conns' == if c in conns then Closed(conns, c, sub) else conns
    ensures Known(conns', peers) && Agree(RelayModel.Step(ps, Unsubscribe(c, sub)), views', conns')
  {
    if c in conns {
      OthersKeepEntries(conns, c, sub, []);
      OpenedKnown(conns, peers, c, sub, []);
      assert Consult(0);
      FitsOpen(ps[c].(quota := ps[c].quota - {sub}), views'[c], conns, c, sub, []);
    }
    AgreeOne(ps, views, conns, c, Unsubscribe(c, sub), views', conns');
  }

  method DoUnsubscribe(peers: Peers, registry: SubscriptionRegistry, c: ConnId, sub: SubId, ghost ps: Clients)
    requires registry.Valid() && Apart(peers) && Known(registry.connections, peers) && c in peers
    requires Agree(ps, View(peers), registry.connections)
    modifies peers[c].state`quota, registry`connections, registry`active, registry`lists, registry.repr
    ensures registry.Valid() && Known(registry.connections, peers)
    ensures Agree(RelayModel.Step(ps, Unsubscribe(c, sub)), View(peers), registry.connections)
  {
    ghost var views, conns := View(peers), registry.connections;
    CloseOf(peers, registry, c, sub);
    StepUnsubscribed(ps, views, conns, peers, c, sub, View(peers), registry.connections);
  }

  /** An act that changes no client's objects, only one registration at most. */
  lemma StepEntry(ps: Clients, views: Views, conns: Connections, act: Act, conns': Connections)
    requires Agree(ps, views, conns) && !act.Publish? && act.conn in ps
    requires Fits(ps[act.conn], views[act.conn], EntryOf(conns, act.conn)) ==>
             Fits(StepOne(ps[act.conn], act.conn, act), views[act.conn], EntryOf(conns', act.conn))
    requires forall d | d != act.conn :: EntryOf(conns', d) == EntryOf(conns, d)
    ensures Agree(RelayModel.Step(ps, act), views, conns')
  {
    AgreeOne(ps, views, conns, act.conn, act, views, conns');
  }

  lemma StepConnected(ps: Clients, views: Views, conns: Connections, peers: Peers, c: ConnId, scope: Scope)
    requires Agree(ps, views, conns) && Known(conns, peers) && c in ps && c in peers
    ensures var conns' := if c in conns then conns else conns[c := Connection(map[], peers[c].sender, scope)];
            Known(conns', peers) && Agree(RelayModel.Step(ps, Connect(c, scope)), views, conns')
  {
    StepEntry(ps, views, conns, Connect(c, scope),
              if c in conns then conns else conns[c := Connection(map[], peers[c].sender, scope)]);
  }

  lemma NewChannel(conns: Connections, peers: Peers, c: ConnId)
    requires Known(conns, peers) && Apart(peers) && c in peers && c !in conns
    ensures peers[c].sender.channel !in ChannelsOf(conns)
  {
  }

  /** A client is registered under its own sender, unless it is already. */
  method ConnectOf(peers: Peers, registry: SubscriptionRegistry, c: ConnId, scope: Scope)
    requires registry.Valid() && Apart(peers) && Known(registry.connections, peers) && c in peers
    modifies registry`connections
    ensures registry.Valid() && View(peers) == old(View(peers))
    ensures registry.connections ==
            if c in old(registry.connections) then old(registry.connections)
            else old(registry.connections)[c := Connection(map[], peers[c].sender, scope)]
  {
    if c !in registry.connections {
      NewChannel(registry.connections, peers, c);
      registry.RegisterConnection(c, peers[c].sender, scope);
    }
  }

  method DoConnect(peers: Peers, registry: SubscriptionRegistry, c: ConnId, scope: Scope, ghost ps: Clients)
    requires registry.Valid() && Apart(peers) && Known(registry.connections, peers) && c in peers
    requires Agree(ps, View(peers), registry.connections)
    modifies registry`connections
    ensures registry.Valid() && Known(registry.connections, peers)
    ensures Agree(RelayModel.Step(ps, Connect(c, scope)), View(peers), registry.connections)
  {
    StepConnected(ps, View(peers), registry.connections, peers, c, scope);
    ConnectOf(peers, registry, c, scope);
  }

  lemma StepDisconnected(ps: Clients, views: Views, conns: Connections, c: ConnId)
    requires Agree(ps, views, conns) && c in ps
    ensures Agree(RelayModel.Step(ps, Disconnect(c)), views, conns - {c})
  {
    StepEntry(ps, views, conns, Disconnect(c), conns - {c});
  }

  /** A disconnection leaves all clients' objects alone. */
  method GoneOf(peers: Peers, registry: SubscriptionRegistry, c: ConnId)
    requires registry.Valid() && c in peers
    modifies registry`connections, registry`active, registry`lists, registry.repr
    ensures registry.Valid() && registry.connections == old(registry.connections) - {c}
    ensures View(peers) == old(View(peers))
  {
    HandleDisconnect(peers[c].state, registry, c);
  }

  method DoDisconnect(peers: Peers, registry: SubscriptionRegistry, c: ConnId, ghost ps: Clients)
    requires registry.Valid() && Known(registry.connections, peers) && c in peers
    requires Agree(ps, View(peers), registry.connections)
    modifies registry`connections, registry`active, registry`lists, registry.repr
    ensures registry.Valid() && Known(registry.connections, peers)
    ensures Agree(RelayModel.Step(ps, Disconnect(c)), View(peers), registry.connections)
  {
    StepDisconnected(ps, View(peers), registry.connections, c);
    GoneOf(peers, registry, c);
  }

  // ----- The client's own end of the channel -----

  lemma StepDrained(ps: Clients, views: Views, conns: Connections, c: ConnId, views': Views)
    requires Agree(ps, views, conns) && c in ps && OneChanged(views, c, views')
    ensures views'[c] == views[c].(queue := []) ==> Agree(RelayModel.Step(ps, Drain(c)), views', conns)
    ensures views'[c] == views[c].(connected := false) ==> Agree(RelayModel.Step(ps, HangUp(c)), views', conns)
  {
    if views'[c] == views[c].(queue := []) { AgreeOne(ps, views, conns, c, Drain(c), views', conns); }
    if views'[c] == views[c].(connected := false) { AgreeOne(ps, views, conns, c, HangUp(c), views', conns); }
  }

  method DrainOf(peers: Peers, c: ConnId)
    requires Apart(peers) && c in peers
    modifies peers[c].sender.channel`queue
    ensures OneChanged(old(View(peers)), c, View(peers)) && View(peers)[c] == old(View(peers))[c].(queue := [])
  {
    peers[c].sender.channel.queue := [];
  }

  method HangUpOf(peers: Peers, c: ConnId)
    requires Apart(peers) && c in peers
    modifies peers[c].sender.channel`connected
    ensures OneChanged(old(View(peers)), c, View(peers)) && View(peers)[c] == old(View(peers))[c].(connected := false)
  {
    peers[c].sender.channel.connected := false;
  }

  /** The client takes everything queued. */
  method DoDrain(peers: Peers, ghost conns: Connections, c: ConnId, ghost ps: Clients)
    requires Apart(peers) && c in peers && Agree(ps, View(peers), conns)
    modifies peers[c].sender.channel`queue
    ensures Agree(RelayModel.Step(ps, Drain(c)), View(peers), conns)
  {
    ghost var views := View(peers);
    DrainOf(peers, c);
    StepDrained(ps, views, conns, c, View(peers));
  }

  /** The client goes away: its channel refuses from now on. */
  method DoHangUp(peers: Peers, ghost conns: Connections, c: ConnId, ghost ps: Clients)
    requires Apart(peers) && c in peers && Agree(ps, View(peers), conns)
    modifies peers[c].sender.channel`connected
    ensures Agree(RelayModel.Step(ps, HangUp(c)), View(peers), conns)
  {
    ghost var views := View(peers);
    HangUpOf(peers, c);
    StepDrained(ps, views, conns, c, View(peers));
  }

  // ----- Published events -----

  /** What a delivery does to the objects of one client. */
  ghost predicate DeliveredOne(seen: Seen, ms: seq<Queued>, seen': Seen)
  {
    seen' == seen.(queue := seen.queue + Take(ms, seen.Room()))
  }

  /** The subscriptions of a connection among those reported. */
  function Of(reported: set<Key>, c: ConnId): (subs: set<SubId>)
  {
    set key | key in reported && key.0 == c :: key.1
  }

  /** A connection's batch is exactly the EVENT messages due to its reported subscriptions. */
  lemma BatchIsDue(reported: seq<Key>, c: ConnId, e: Event, cl: Client)
    requires NoDuplicates(reported)
    ensures var ms, due := Batch(reported, c, e, cl.position), cl.Due(Of(Elements(reported), c), e);
            multiset(ms) == multiset(due) && |ms| == |due|
  {
    var ms, due := Batch(reported, c, e, cl.position), cl.Due(Of(Elements(reported), c), e);
    BatchElements(reported, c, e, cl.position);
    DistinctMultiset(ms);
    forall m ensures m in Elements(ms) <==> m in due {
      if m in ms {
        assert (c, m.message.sub) in Elements(reported);
        assert m.message.sub in Of(Elements(reported), c);
      }
    }
    assert Elements(ms) == due;
  }

  lemma TakeWithin(queue: seq<Queued>, ms: seq<Queued>, room: nat)
    ensures multiset(queue) <= multiset(queue + Take(ms, room)) <= multiset(queue) + multiset(ms)
  {
    if room < |ms| { assert ms == Take(ms, room) + ms[room..]; }
  }

  /** A delivery fits the reference: all that is due, or an overflow that ends the registration. */
  lemma FitsDelivered(cl: Client, seen: Seen, entry: Option<Entry>, subs: set<SubId>, e: Event, ms: seq<Queued>,
                      seen': Seen)
    requires Fits(cl, seen, entry) && DeliveredOne(seen, ms, seen')
    requires multiset(ms) == multiset(cl.Due(subs, e)) && |ms| == |cl.Due(subs, e)|
    ensures Fits(cl.Delivered(subs, e), seen', if |ms| > seen.Room() then None else entry)
  {
    SameRoom(cl, seen, entry);
    TakeWithin(seen.queue, ms, seen.Room());
    if |ms| <= seen.Room() { FitsQueue(cl, seen, entry, ms); }
  }

  /** A delivery has sent every live connection its batch and dropped those it did not fit. */
  ghost predicate SentOut(views: Views, conns: Connections, reported: seq<Key>, e: Event, views': Views,
                          conns': Connections)
    requires views'.Keys == views.Keys
  {
    forall n: nat {:trigger Consult(n)} :: Consult(n) ==> forall c | c in views ::
        var ms := if c in conns then Batch(reported, c, e, views[c].position) else [];
        && DeliveredOne(views[c], ms, views'[c])
        && EntryOf(conns', c) == if |ms| > views[c].Room() then None else EntryOf(conns, c)
  }

  lemma KnownChannels(conns: Connections, peers: Peers)
    requires Known(conns, peers)
    ensures ChannelsOf(conns) <= PeerChannels(peers)
  {
  }

  /** The subscriptions reported, once each, are exactly those to be told. */
  ghost predicate Reports(conns: Connections, heard: Heard, s: Scope, e: Event, reported: seq<Key>)
  {
    forall n: nat {:trigger Consult(n)} :: Consult(n) ==>
      NoDuplicates(reported) && forall key :: key in reported <==> Tells(conns, HeardIn(heard, s), s, e, key)
  }

  /** The queue and the room of every connection's channel. */
  ghost function QueuesOf(conns: Connections): (r: map<ConnId, (seq<Queued>, nat)>)
    reads ChannelsOf(conns)
  {
    map c | c in conns :: (conns[c].sender.channel.queue, conns[c].sender.channel.Room())
  }

  /** Every connection's channel has taken what fits of its batch; the dead ones are those it did not fit. */
  ghost predicate Flushed(conns: Connections, before: map<ConnId, (seq<Queued>, nat)>, reported: seq<Key>, e: Event,
                          dead: set<ConnId>, after: map<ConnId, (seq<Queued>, nat)>)
    requires before.Keys == after.Keys == conns.Keys
  {
    forall n: nat {:trigger Consult(n)} :: Consult(n) ==> forall c | c in conns ::
        var ms := Batch(reported, c, e, conns[c].sender.position);
        after[c].0 == before[c].0 + Take(ms, before[c].1) && (c in dead <==> |ms| > before[c].1)
  }

  method Deliver(registry: SubscriptionRegistry, e: Event, s: Scope)
    returns (ghost reported: seq<Key>, ghost dead: set<ConnId>)
    requires registry.Valid()
    modifies registry`connections, registry`active, registry`lists, registry`heard, registry.repr
    modifies registry.Channels()`queue
    ensures registry.Valid() && registry.connections == old(registry.connections) - dead
    ensures var conns := old(registry.connections);
            Flushed(conns, old(QueuesOf(conns)), reported, e, dead, QueuesOf(conns))
    ensures Reports(old(registry.connections), old(registry.heard), s, e, reported)
    ensures registry.heard == HeardBy(old(registry.heard), s, e)
  {
    ghost var conns, before := registry.connections, QueuesOf(registry.connections);
    reported, dead := registry.DistributeEvent(e, s);
    forall c | c in conns
      ensures var ms := Batch(reported, c, e, conns[c].sender.position);
              QueuesOf(conns)[c].0 == before[c].0 + Take(ms, before[c].1) && (c in dead <==> |ms| > before[c].1)
    {
      assert Received(conns[c].sender.channel, before[c].0, before[c].1,
                      Batch(reported, c, e, conns[c].sender.position));
    }
  }

  /** What the views show of the channels of the live connections. */
  ghost predicate Mirrors(views: Views, conns: Connections, queues: map<ConnId, (seq<Queued>, nat)>)
    requires queues.Keys == conns.Keys
  {
    forall n: nat {:trigger Consult(n)} :: Consult(n) ==> forall c | c in conns ::
      c in views && views[c].position == conns[c].sender.position && queues[c] == (views[c].queue, views[c].Room())
  }

  /** Only queues have changed. */
  ghost predicate QueuesOnly(views: Views, views': Views)
  {
    views'.Keys == views.Keys &&
    forall n: nat {:trigger Consult(n)} :: Consult(n) ==> forall c | c in views ::
        views'[c] == views[c].(queue := views'[c].queue)
  }

  /** Nothing has changed but of live connections. */
  ghost predicate LiveOnly(views: Views, conns: Connections, views': Views)
  {
    views'.Keys == views.Keys &&
    forall n: nat {:trigger Consult(n)} :: Consult(n) ==> forall c | c in views && c !in conns :: views'[c] == views[c]
  }

  lemma ViewFlushed(views: Views, conns: Connections, before: map<ConnId, (seq<Queued>, nat)>, reported: seq<Key>,
                    e: Event, dead: set<ConnId>, after: map<ConnId, (seq<Queued>, nat)>, views': Views)
    requires before.Keys == after.Keys == conns.Keys && QueuesOnly(views, views') && LiveOnly(views, conns, views')
    requires Mirrors(views, conns, before) && Mirrors(views', conns, after)
    requires Flushed(conns, before, reported, e, dead, after)
    ensures SentOut(views, conns, reported, e, views', conns - dead)
  {
    assert Consult(0);
    forall c | c in views
      ensures var ms := if c in conns then Batch(reported, c, e, views[c].position) else [];
              DeliveredOne(views[c], ms, views'[c]) &&
              EntryOf(conns - dead, c) == if |ms| > views[c].Room() then None else EntryOf(conns, c)
    {
      if c !in conns { assert views[c].queue + [] == views[c].queue; }
    }
  }

  lemma ViewMirrors(peers: Peers, conns: Connections)
    requires Known(conns, peers)
    ensures Mirrors(View(peers), conns, QueuesOf(conns))
  {
  }

  /** A delivery changes nothing of the clients' objects but queues. */
  method DeliverQueues(peers: Peers, registry: SubscriptionRegistry, e: Event, s: Scope)
    returns (ghost reported: seq<Key>, ghost dead: set<ConnId>)
    requires registry.Valid()
    modifies registry`connections, registry`active, registry`lists, registry`heard, registry.repr
    modifies registry.Channels()`queue
    ensures registry.Valid() && registry.connections == old(registry.connections) - dead
    ensures QueuesOnly(old(View(peers)), View(peers))
    ensures var conns := old(registry.connections);
            Flushed(conns, old(QueuesOf(conns)), reported, e, dead, QueuesOf(conns))
    ensures Reports(old(registry.connections), old(registry.heard), s, e, reported)
    ensures registry.heard == HeardBy(old(registry.heard), s, e)
  {
    reported, dead := Deliver(registry, e, s);
  }

  /** A delivery, and what it leaves alone. */
  method DeliverAmong(peers: Peers, registry: SubscriptionRegistry, e: Event, s: Scope)
    returns (ghost reported: seq<Key>, ghost dead: set<ConnId>)
    requires registry.Valid() && Apart(peers) && Known(registry.connections, peers)
    modifies registry`connections, registry`active, registry`lists, registry`heard, registry.repr
    modifies PeerChannels(peers)`queue
    ensures registry.Valid() && registry.connections == old(registry.connections) - dead
    ensures QueuesOnly(old(View(peers)), View(peers))
    ensures LiveOnly(old(View(peers)), old(registry.connections), View(peers))
    ensures var conns := old(registry.connections);
            Flushed(conns, old(QueuesOf(conns)), reported, e, dead, QueuesOf(conns))
    ensures Reports(old(registry.connections), old(registry.heard), s, e, reported)
    ensures registry.heard == HeardBy(old(registry.heard), s, e)
  {
    KnownChannels(registry.connections, peers);
    reported, dead := DeliverQueues(peers, registry, e, s);
  }

  lemma KnownWithout(conns: Connections, peers: Peers, dead: set<ConnId>)
    requires Known(conns, peers)
    ensures Known(conns - dead, peers)
  {
  }

  method DeliverOf(peers: Peers, registry: SubscriptionRegistry, e: Event, s: Scope) returns (ghost reported: seq<Key>)
    requires registry.Valid() && Apart(peers) && Known(registry.connections, peers)
    modifies registry`connections, registry`active, registry`lists, registry`heard, registry.repr
    modifies PeerChannels(peers)`queue
    ensures registry.Valid() && Known(registry.connections, peers)
    ensures SentOut(old(View(peers)), old(registry.connections), reported, e, View(peers), registry.connections)
    ensures Reports(old(registry.connections), old(registry.heard), s, e, reported)
    ensures registry.heard == HeardBy(old(registry.heard), s, e)
  {
    ghost var views, conns, before := View(peers), registry.connections, QueuesOf(registry.connections);
    ViewMirrors(peers, conns);
    ghost var dead;
    reported, dead := DeliverAmong(peers, registry, e, s);
    KnownWithout(conns, peers, dead);
    ViewMirrors(peers, conns);
    ViewFlushed(views, conns, before, reported, e, dead, QueuesOf(conns), View(peers));
  }

  /** Under agreement the registry reports of each client exactly the subscriptions the reference tells. */
  lemma ReportsAreTold(ps: Clients, views: Views, conns: Connections, heard: Heard, s: Scope, e: Event,
                       reported: seq<Key>, c: ConnId)
    requires Agree(ps, views, conns) && Remembered(ps, heard) && Reports(conns, heard, s, e, reported) && c in ps
    ensures Of(Elements(reported), c) == ps[c].ToldSubs(s, e)
  {
    assert Consult(0) && Recall(0);
    forall sub ensures sub in Of(Elements(reported), c) <==> sub in ps[c].ToldSubs(s, e) {
      assert (c, sub) in reported <==> Tells(conns, HeardIn(heard, s), s, e, (c, sub));
      assert sub in Of(Elements(reported), c) <==> (c, sub) in Elements(reported);
    }
  }

  lemma FitsHearing(cl: Client, seen: Seen, entry: Option<Entry>, s: Scope, e: Event)
    requires Fits(cl, seen, entry)
    ensures Fits(cl.Hearing(s, e), seen, entry)
  {
  }

  lemma OnePublished(ps: Clients, views: Views, conns: Connections, reported: seq<Key>, e: Event, s: Scope,
                     views': Views, conns': Connections, c: ConnId)
    requires Agree(ps, views, conns) && views'.Keys == views.Keys && c in ps && NoDuplicates(reported)
    requires SentOut(views, conns, reported, e, views', conns')
    requires c !in conns ==> forall key | key in reported :: key.0 != c
    requires Of(Elements(reported), c) == ps[c].ToldSubs(s, e)
    ensures Fits(ps[c].Published(s, e), views'[c], EntryOf(conns', c))
  {
    assert Consult(0);
    var ms, cl := Batch(reported, c, e, views[c].position), ps[c].Hearing(s, e);
    FitsHearing(ps[c], views[c], EntryOf(conns, c), s, e);
    BatchIsDue(reported, c, e, cl);
    if c !in conns { NoBatch(reported, c, e, views[c].position); }
    FitsDelivered(cl, views[c], EntryOf(conns, c), ps[c].ToldSubs(s, e), e, ms, views'[c]);
  }

  /** A publication moves each client's objects as the reference moves the client. */
  lemma ClientPublished(ps: Clients, views: Views, conns: Connections, heard: Heard, reported: seq<Key>, e: Event,
                        s: Scope, views': Views, conns': Connections, c: ConnId)
    requires Agree(ps, views, conns) && Remembered(ps, heard) && views'.Keys == views.Keys && c in ps
    requires SentOut(views, conns, reported, e, views', conns') && Reports(conns, heard, s, e, reported)
    ensures Fits(StepOne(ps[c], c, Publish(e, s)), views'[c], EntryOf(conns', c))
  {
    assert NoDuplicates(reported) && forall key | key in reported :: key.0 in conns by { assert Consult(0); }
    ReportsAreTold(ps, views, conns, heard, s, e, reported, c);
    OnePublished(ps, views, conns, reported, e, s, views', conns', c);
  }

  lemma StepPublished(ps: Clients, views: Views, conns: Connections, heard: Heard, reported: seq<Key>, e: Event,
                      s: Scope, views': Views, conns': Connections)
    requires Agree(ps, views, conns) && Remembered(ps, heard) && views'.Keys == views.Keys
    requires SentOut(views, conns, reported, e, views', conns') && Reports(conns, heard, s, e, reported)
    ensures Agree(RelayModel.Step(ps, Publish(e, s)), views', conns')
  {
    var ps' := RelayModel.Step(ps, Publish(e, s));
    forall c | c in ps' ensures Fits(ps'[c], views'[c], EntryOf(conns', c)) {
      ClientPublished(ps, views, conns, heard, reported, e, s, views', conns', c);
    }
    assert AllFit(ps', views', conns');
  }

  method DoPublish(peers: Peers, registry: SubscriptionRegistry, e: Event, s: Scope, ghost ps: Clients)
    requires registry.Valid() && Apart(peers) && Known(registry.connections, peers)
    requires Agree(ps, View(peers), registry.connections) && Remembered(ps, registry.heard)
    modifies registry`connections, registry`active, registry`lists, registry`heard, registry.repr
    modifies PeerChannels(peers)`queue
    ensures registry.Valid() && Known(registry.connections, peers)
    ensures Agree(RelayModel.Step(ps, Publish(e, s)), View(peers), registry.connections)
    ensures registry.heard == HeardBy(old(registry.heard), s, e)
  {
    ghost var views, conns, heard := View(peers), registry.connections, registry.heard;
    ghost var reported := DeliverOf(peers, registry, e, s);
    StepPublished(ps, views, conns, heard, reported, e, s, View(peers), registry.connections);
  }

  // ----- What subscriptions have heard -----

  /** The open subscription has heard in the registry what it has heard in the reference. */
  predicate SameHeard(cl: Client, heard: Heard, c: ConnId, sub: SubId)
    requires cl.entry.Some?
  {
    var h := HeardIn(heard, cl.entry.value.scope);
    sub in cl.heard && (c, sub) in h && h[(c, sub)] == cl.heard[sub]
  }

  predicate ClientRemembered(cl: Client, heard: Heard, c: ConnId)
  {
    cl.entry.Some? ==> forall sub | sub in cl.Open() :: SameHeard(cl, heard, c, sub)
  }

  /** The registry remembers what the reference does of every open subscription. */
  ghost predicate Remembered(ps: Clients, heard: Heard)
  {
    forall n: nat {:trigger Recall(n)} :: Recall(n) ==> forall c | c in ps :: ClientRemembered(ps[c], heard, c)
  }

  /** What a REQ does to what is remembered. */
  ghost function ReqHeard(ps: Clients, heard: Heard, act: Act): (r: Heard)
    requires act.Subscribe?
  {
    if act.conn in ps && Opens(ps[act.conn], act.conn, act, act.sub, act.history.filters) && ps[act.conn].entry.Some?
    then OpenedHeard(heard, ps[act.conn].entry.value.scope, (act.conn, act.sub))
    else heard
  }

  /** What an act does to what is remembered. */
  ghost function HeardNext(ps: Clients, heard: Heard, act: Act): (r: Heard)
  {
    if act.Publish? then HeardBy(heard, act.scope, act.event)
    else if act.Subscribe? then ReqHeard(ps, heard, act)
    else heard
  }

  lemma ClientRemembersOpened(cl: Client, heard: Heard, c: ConnId, act: Act)
    requires ClientRemembered(cl, heard, c) && act.Subscribe? && act.conn == c
    ensures var opens := Opens(cl, c, act, act.sub, act.history.filters);
            && (opens ==> cl.entry.Some?)
            && ClientRemembered(StepOne(cl, c, act),
                                if opens then OpenedHeard(heard, cl.entry.value.scope, (c, act.sub)) else heard, c)
  {
    RequestedEntry(cl, act.sub, act.filtersOk, act.hasCoordinator, act.history);
  }

  lemma OthersRemember(cl: Client, heard: Heard, c: ConnId, scope: Scope, d: ConnId, sub: SubId)
    requires ClientRemembered(cl, heard, c) && c != d
    ensures ClientRemembered(cl, OpenedHeard(heard, scope, (d, sub)), c)
  {
  }

  lemma ClientRemembersPublished(cl: Client, heard: Heard, c: ConnId, s: Scope, e: Event)
    requires ClientRemembered(cl, heard, c)
    ensures ClientRemembered(cl.Published(s, e), HeardBy(heard, s, e), c)
  {
    PublishedEntry(cl, s, e);
    var r := cl.Published(s, e);
    forall sub | r.entry.Some? && sub in r.Open() ensures SameHeard(r, HeardBy(heard, s, e), c, sub) {
      assert r.entry == cl.entry && SameHeard(cl, heard, c, sub);
    }
  }

  lemma ClientRemembersOther(cl: Client, heard: Heard, c: ConnId, act: Act)
    requires ClientRemembered(cl, heard, c) && !act.Publish? && !(act.Subscribe? && act.conn == c)
    ensures ClientRemembered(StepOne(cl, c, act), heard, c)
  {
    var r := StepOne(cl, c, act);
    assert r.heard == cl.heard;
    forall sub | r.entry.Some? && sub in r.Open() ensures SameHeard(r, heard, c, sub) {
      assert cl.entry.Some? && sub in cl.Open() && r.In(cl.entry.value.scope);
      assert SameHeard(cl, heard, c, sub);
    }
  }

  /** Every act keeps what the registry remembers in step with the reference. */
  lemma StepRemembered(ps: Clients, heard: Heard, act: Act)
    requires Remembered(ps, heard)
    ensures Remembered(RelayModel.Step(ps, act), HeardNext(ps, heard, act))
  {
    assert Recall(0);
    forall c | c in ps ensures ClientRemembered(StepOne(ps[c], c, act), HeardNext(ps, heard, act), c) {
      match act
      case Subscribe(d, sub, ok, has, h) =>
        if d == c {
          ClientRemembersOpened(ps[c], heard, c, act);
        } else {
          ClientRemembersOther(ps[c], heard, c, act);
          if d in ps && ps[d].entry.Some? { OthersRemember(ps[c], heard, c, ps[d].entry.value.scope, d, sub); }
        }
      case Publish(e, s) => ClientRemembersPublished(ps[c], heard, c, s, e);
      case _ => ClientRemembersOther(ps[c], heard, c, act);
    }
  }

  // ----- Any act -----

  /** An act of a client on its connection or its end of the channel. */
  method DoConnection(peers: Peers, registry: SubscriptionRegistry, act: Act, ghost ps: Clients)
    requires registry.Valid() && Apart(peers) && Known(registry.connections, peers)
    requires Agree(ps, View(peers), registry.connections)
    requires !act.Publish? && !act.Subscribe? && act.conn in peers
    modifies registry`connections, registry`active, registry`lists, registry.repr
    modifies States(peers)`quota, PeerChannels(peers)`queue, PeerChannels(peers)`connected
    ensures registry.Valid() && Known(registry.connections, peers)
    ensures Agree(RelayModel.Step(ps, act), View(peers), registry.connections)
    ensures registry.heard == old(registry.heard) && registry.repr == old(registry.repr)
  {
    match act
    case Connect(c, s) => DoConnect(peers, registry, c, s, ps);
    case Unsubscribe(c, sub) => DoUnsubscribe(peers, registry, c, sub, ps);
    case Disconnect(c) => DoDisconnect(peers, registry, c, ps);
    case Drain(c) => DoDrain(peers, registry.connections, c, ps);
    case HangUp(c) => DoHangUp(peers, registry.connections, c, ps);
  }

  /** An act of a client. */
  method DoOwn(peers: Peers, registry: SubscriptionRegistry, act: Act, ghost ps: Clients)
    requires registry.Valid() && Apart(peers) && Known(registry.connections, peers)
    requires Agree(ps, View(peers), registry.connections) && !act.Publish? && act.conn in peers
    modifies registry`connections, registry`indexes, registry`active, registry`lists, registry`heard
    modifies registry`repr, registry.repr
    modifies States(peers)`quota, PeerChannels(peers)`queue, PeerChannels(peers)`connected
    ensures registry.Valid() && Known(registry.connections, peers) && fresh(registry.repr - old(registry.repr))
    ensures Agree(RelayModel.Step(ps, act), View(peers), registry.connections)
    ensures act.Subscribe? ==> registry.heard == ReqHeard(ps, old(registry.heard), act)
    ensures !act.Subscribe? ==> registry.heard == old(registry.heard)
  {
    if act.Subscribe? {
      DoSubscribe(peers, registry, act.conn, act, ps);
      return;
    }
    DoConnection(peers, registry, act, ps);
  }

  /** Any act moves the clients' objects as the reference moves the clients. */
  method Do(peers: Peers, registry: SubscriptionRegistry, act: Act, ghost ps: Clients)
    requires registry.Valid() && Apart(peers) && Known(registry.connections, peers)
    requires Agree(ps, View(peers), registry.connections) && Remembered(ps, registry.heard)
    requires act.Publish? || act.conn in peers
    modifies registry`connections, registry`indexes, registry`active, registry`lists, registry`heard
    modifies registry`repr, registry.repr
    modifies States(peers)`quota, PeerChannels(peers)`queue, PeerChannels(peers)`connected
    ensures registry.Valid() && Known(registry.connections, peers) && fresh(registry.repr - old(registry.repr))
    ensures Agree(RelayModel.Step(ps, act), View(peers), registry.connections)
    ensures act.Publish? ==> registry.heard == HeardBy(old(registry.heard), act.scope, act.event)
    ensures act.Subscribe? ==> registry.heard == ReqHeard(ps, old(registry.heard), act)
    ensures !act.Publish? && !act.Subscribe? ==> registry.heard == old(registry.heard)
  {
    if act.Publish? {
      DoPublish(peers, registry, act.event, act.scope, ps);
      return;
    }
    DoOwn(peers, registry, act, ps);
  }

  // ----- Whole runs -----

  /** The clients before anything happens: no slot, no registration, and whatever is queued. */
  ghost function Start(seen: Views): (ps: Clients)
  {
    map c | c in seen ::
      Client({}, seen[c].max, seen[c].position, seen[c].capacity, seen[c].connected, Exactly(multiset(seen[c].queue)),
             None, map[])
  }

  lemma AgreeAtStart(seen: Views)
    requires forall c | c in seen :: seen[c].quota == {}
    ensures Agree(Start(seen), seen, map[])
  {
  }

  /** The number of open subscriptions. */
  ghost function OpenCount(ps: Clients): (n: nat)
    decreases |ps|
  {
    if ps == map[] then 0
    else
      var c :| c in ps;
      |ps[c].Open()| + OpenCount(ps - {c})
  }

  /** The clients' registrations are the registry's connections. */
  ghost predicate SameEntries(conns: Connections, ps: Clients)
  {
    conns.Keys <= ps.Keys &&
    forall n: nat {:trigger Consult(n)} :: Consult(n) ==> forall c | c in ps :: ps[c].entry == EntryOf(conns, c)
  }

  lemma SameEntriesWithout(conns: Connections, ps: Clients, c: ConnId)
    requires SameEntries(conns, ps) && c in ps
    ensures SameEntries(conns - {c}, ps - {c}) && |ps[c].Open()| == OpenAt(conns, c)
  {
    assert Consult(0);
  }

  lemma {:induction false} CountsAgree(conns: Connections, ps: Clients)
    requires SameEntries(conns, ps)
    ensures Total(conns) == OpenCount(ps)
    decreases |ps|
  {
    if ps != map[] {
      var c :| c in ps && OpenCount(ps) == |ps[c].Open()| + OpenCount(ps - {c});
      SameEntriesWithout(conns, ps, c);
      TotalWithout(conns, c);
      CountsAgree(conns - {c}, ps - {c});
    } else {
      assert conns.Keys == {};
    }
  }

  lemma ActiveIsOpenCount(registry: SubscriptionRegistry, ps: Clients, views: Views, peers: Peers)
    requires registry.Valid() && Agree(ps, views, registry.connections) && views.Keys == peers.Keys
    requires Known(registry.connections, peers)
    ensures registry.active == OpenCount(ps)
  {
    assert Unfold(0) && Tally(0) && Consult(0);
    CountsAgree(registry.connections, ps);
  }

  /** What the log of a client's requests says of its quota set and its live subscriptions. */
  ghost predicate FollowsRequests(quota: set<SubId>, max: Option<nat>, live: set<SubId>, rs: seq<Request>)
  {
    && LawfulRun(max, rs) && Slots(quota, max, live) == Run(max, rs)
    && (forall sub :: sub in quota <==> HoldsSlot(rs, sub))
    && (forall sub :: sub in live <==> IsLive(rs, sub))
    && Covered(Slots(quota, max, live)) && (max.Some? ==> |live| <= max.value)
  }

  lemma RunFollowsRequests(cl: Client, acts: seq<Act>, c: ConnId, seen: Seen, conns: Connections)
    requires cl.quota == {} && cl.entry == None
    requires Fits(ClientAfter(cl, c, acts), seen, EntryOf(conns, c))
    ensures FollowsRequests(seen.quota, seen.max, LiveIds(conns, c), Requests(cl, c, acts))
  {
    var rs := Requests(cl, c, acts);
    SlotsFollowActs(cl, c, acts);
    QuotaCoversRegistry(cl.max, rs);
    forall sub ensures (sub in seen.quota <==> HoldsSlot(rs, sub)) && (sub in LiveIds(conns, c) <==> IsLive(rs, sub)) {
      QuotaIsHeldSlots(cl.max, rs, sub);
      LiveIsRegistered(cl.max, rs, sub);
    }
  }

  /** Every client's quota set and live subscriptions are what its requests say. */
  ghost predicate AllFollowRequests(start: Clients, acts: seq<Act>, views: Views, conns: Connections)
  {
    start.Keys == views.Keys && forall c | c in start ::
      FollowsRequests(views[c].quota, views[c].max, LiveIds(conns, c), Requests(start[c], c, acts))
  }

  lemma RunsFollowRequests(start: Clients, acts: seq<Act>, views: Views, conns: Connections)
    requires Agree(After(start, acts), views, conns)
    requires forall c | c in start :: start[c].quota == {} && start[c].entry == None
    ensures AllFollowRequests(start, acts, views, conns)
  {
    assert Consult(0);
    forall c | c in start
      ensures FollowsRequests(views[c].quota, views[c].max, LiveIds(conns, c), Requests(start[c], c, acts))
    {
      RunFollowsRequests(start[c], acts, c, views[c], conns);
    }
  }

  /** Every client's objects and its registration are as the reference says, and no one else is registered. */
  ghost predicate Follows(ps: Clients, peers: Peers, registry: SubscriptionRegistry)
    reads registry, States(peers), PeerChannels(peers)
  {
    && ps.Keys == peers.Keys && registry.connections.Keys <= peers.Keys
    && forall c | c in peers :: Fits(ps[c], SeenOf(peers[c]), EntryOf(registry.connections, c))
  }

  lemma AgreementFollows(ps: Clients, peers: Peers, registry: SubscriptionRegistry)
    requires Agree(ps, View(peers), registry.connections) && Known(registry.connections, peers)
    ensures Follows(ps, peers, registry)
  {
    assert Consult(0);
  }

  method RunActs(peers: Peers, acts: seq<Act>) returns (registry: SubscriptionRegistry)
    requires Apart(peers) && forall c | c in peers :: peers[c].state.quota == {}
    requires forall i | 0 <= i < |acts| :: acts[i].Publish? || acts[i].conn in peers
    modifies States(peers)`quota, PeerChannels(peers)`queue, PeerChannels(peers)`connected
    ensures fresh(registry) && registry.Valid() && Known(registry.connections, peers)
    ensures Agree(After(Start(old(View(peers))), acts), View(peers), registry.connections)
  {
    ghost var start := Start(View(peers));
    ghost var ps := start;
    registry := new SubscriptionRegistry();
    AgreeAtStart(View(peers));
    AfterNothing(start);
    for i := 0 to |acts|
      invariant fresh(registry) && fresh(registry.repr) && registry.Valid() && Known(registry.connections, peers)
      invariant Agree(ps, View(peers), registry.connections) && Remembered(ps, registry.heard)
      invariant ps == After(start, acts[..i])
    {
      StepRemembered(ps, registry.heard, acts[i]);
      Do(peers, registry, acts[i], ps);
      PrefixNext(acts, i);
      AfterNext(start, acts[..i], acts[i]);
      ps := RelayModel.Step(ps, acts[i]);
    }
    assert acts[..|acts|] == acts;
  }

  lemma AfterNothing(start: Clients)
    ensures After(start, []) == start
  {
  }

  /** The clients after the acts, if every published event is told to what a scan finds. */
  ghost function ScanClients(start: Clients, acts: seq<Act>): (r: Clients)
  {
    map c | c in start :: ScanAfter(start[c], c, acts)
  }

  lemma OnceIsScan(start: Clients, acts: seq<Act>)
    requires PublishesOnce(acts) && forall c | c in start :: start[c].entry == None
    ensures After(start, acts) == ScanClients(start, acts)
  {
    forall c | c in start ensures ClientAfter(start[c], c, acts) == ScanAfter(start[c], c, acts) {
      NewOnlyRun(start[c], c, acts);
    }
  }

  /**
    Any run of any number of clients, repeated events included: every client's quota set, open
    subscriptions and queued messages are those of the reference, which the acts alone determine;
    if no event is published twice in a scope, they are those of the reference that scans all open
    filters. The counter is the number of open subscriptions. Each client's slots and live
    subscriptions are those of the quota machine run on its requests, so the live ones hold slots and
    both stay within the limit.
   */
  method RunRelay(peers: Peers, acts: seq<Act>) returns (registry: SubscriptionRegistry)
    requires Apart(peers) && forall c | c in peers :: peers[c].state.quota == {}
    requires forall i | 0 <= i < |acts| :: acts[i].Publish? || acts[i].conn in peers
    modifies States(peers)`quota, PeerChannels(peers)`queue, PeerChannels(peers)`connected
    ensures fresh(registry) && registry.Valid()
    ensures Follows(After(Start(old(View(peers))), acts), peers, registry)
    ensures PublishesOnce(acts) ==> Follows(ScanClients(Start(old(View(peers))), acts), peers, registry)
    ensures registry.active == OpenCount(After(Start(old(View(peers))), acts))
    ensures AllFollowRequests(Start(old(View(peers))), acts, View(peers), registry.connections)
  {
    ghost var start := Start(View(peers));
    registry := RunActs(peers, acts);
    ghost var ps := After(start, acts);
    AgreementFollows(ps, peers, registry);
    if PublishesOnce(acts) { OnceIsScan(start, acts); }
    ActiveIsOpenCount(registry, ps, View(peers), peers);
    RunsFollowRequests(start, acts, View(peers), registry.connections);
  }
}
