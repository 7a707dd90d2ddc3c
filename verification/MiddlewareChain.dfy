/**
  The middleware chain: how it is built, which positions process an outbound message, in which
  order the connection hooks run, and why an EVENT reaches the socket only if it is visible.
  `S` is the connection state the middlewares share.
 */
module MiddlewareChain {
  import opened Nostr
  import opened Messaging

  // ----- Middlewares and chains -----

  /** The result of a hook: whether it succeeded, and the state it leaves. */
  datatype HookResult<S> = HookResult(ok: bool, state: S)

  /** The result of outbound processing; a message that is `None` has been dropped. */
  datatype OutResult<S> = OutResult(ok: bool, state: S, message: Option<RelayMessage>)

  datatype Middleware<!S> = Middleware(
    outbound: (S, Option<RelayMessage>) -> OutResult<S>,
    onConnect: S -> HookResult<S>,
    onDisconnect: S -> HookResult<S>)

  /** A chain before a connection exists: the outermost middleware first. */
  datatype Blueprint<!S> = End | Link(middleware: Middleware<S>, next: Blueprint<S>, position: nat)

  /** A chain of one connection: every middleware has its own sender. */
  datatype Connected<!S> =
    | ConnectedEnd
    | ConnectedLink(middleware: Middleware<S>, next: Connected<S>, position: nat, sender: MessageSender)

  datatype Builder<!S> = Builder(chain: Blueprint<S>, nextPosition: nat) {

    /** Adds a middleware around the chain built so far. */
    function With(m: Middleware<S>): (b: Builder<S>)
    {
      Builder(Link(m, chain, nextPosition), nextPosition + 1)
    }
  }

  /** The builder after adding the middlewares in order, innermost first. */
  function Build<S>(ms: seq<Middleware<S>>): (b: Builder<S>)
  {
    if ms == [] then Builder(End, 0) else Build(ms[..|ms| - 1]).With(ms[|ms| - 1])
  }

  function BuildConnected<S>(b: Blueprint<S>, channel: Channel): (c: Connected<S>)
  {
    match b
    case End => ConnectedEnd
    case Link(m, next, p) => ConnectedLink(m, BuildConnected(next, channel), p, MessageSender(channel, p))
  }

  function Connect<S>(ms: seq<Middleware<S>>, channel: Channel): (c: Connected<S>)
  {
    BuildConnected(Build(ms).chain, channel)
  }

  // ----- Processing, with the positions visited -----

  datatype Outbound<S> = Outbound(result: OutResult<S>, visited: seq<nat>)

  function ProcessOutbound<S>(c: Connected<S>, st: S, msg: Option<RelayMessage>, from: nat): (r: Outbound<S>)
    decreases c
  {
    match c
    case ConnectedEnd => Outbound(OutResult(true, st, msg), [])
    case ConnectedLink(m, next, p, _) =>
      var inner := ProcessOutbound(next, st, msg, from);
      if from <= p then
        if !inner.result.ok then inner
        else Outbound(m.outbound(inner.result.state, inner.result.message), inner.visited + [p])
      else inner
  }

  datatype Hooks<S> = Hooks(result: HookResult<S>, visited: seq<nat>)

  function OnConnect<S>(c: Connected<S>, st: S): (r: Hooks<S>)
    decreases c
  {
    match c
    case ConnectedEnd => Hooks(HookResult(true, st), [])
    case ConnectedLink(m, next, p, _) =>
      var own := m.onConnect(st);
      if !own.ok then Hooks(own, [p])
      else
        var rest := OnConnect(next, own.state);
        Hooks(rest.result, [p] + rest.visited)
  }

  function OnDisconnect<S>(c: Connected<S>, st: S): (r: Hooks<S>)
    decreases c
  {
    match c
    case ConnectedEnd => Hooks(HookResult(true, st), [])
    case ConnectedLink(m, next, p, _) =>
      var inner := OnDisconnect(next, st);
      if !inner.result.ok then inner
      else Hooks(m.onDisconnect(inner.result.state), inner.visited + [p])
  }

  // ----- Construction -----

  /** The link at a depth, counted from the innermost one. */
  function LinkAt<S>(c: Connected<S>, depth: nat): (r: Connected<S>)
    requires depth < Length(c)
    decreases c
  {
    if depth == Length(c) - 1 then c else LinkAt(c.next, depth)
  }

  function Length<S>(c: Connected<S>): (n: nat)
  {
    if c.ConnectedEnd? then 0 else 1 + Length(c.next)
  }

  /**
    In every built chain position `k` holds the `k`-th middleware added, with a sender of the same
    position on the one channel.
   */
  lemma {:induction false} BuiltChain<S>(ms: seq<Middleware<S>>, channel: Channel, k: nat)
    ensures Build(ms).nextPosition == |ms| && Length(Connect(ms, channel)) == |ms|
    ensures k < |ms| ==>
              var link := LinkAt(Connect(ms, channel), k);
              link.ConnectedLink? && link.middleware == ms[k] && link.position == k &&
              link.sender == MessageSender(channel, k)
    decreases |ms|
  {
    if ms != [] { BuiltChain(ms[..|ms| - 1], channel, k); }
  }

  /** The last middleware added becomes the outermost link. */
  lemma ConnectLast<S>(ms: seq<Middleware<S>>, channel: Channel)
    requires ms != []
    ensures var n := |ms| - 1;
            Connect(ms, channel) == ConnectedLink(ms[n], Connect(ms[..n], channel), n, MessageSender(channel, n))
  {
    BuiltChain(ms[..|ms| - 1], channel, 0);
  }

  // ----- Outbound routing -----

  /** The reference: middlewares one after the other until one fails. */
  function RunAll<S>(ms: seq<Middleware<S>>, st: S, msg: Option<RelayMessage>): (r: OutResult<S>)
  {
    if ms == [] then OutResult(true, st, msg)
    else
      var r := ms[0].outbound(st, msg);
      if !r.ok then r else RunAll(ms[1..], r.state, r.message)
  }

  /** How many of them run. */
  function RunCount<S>(ms: seq<Middleware<S>>, st: S, msg: Option<RelayMessage>): (n: nat)
    ensures n <= |ms|
    ensures RunAll(ms, st, msg).ok ==> n == |ms|
  {
    if ms == [] then 0
    else
      var r := ms[0].outbound(st, msg);
      if !r.ok then 1 else 1 + RunCount(ms[1..], r.state, r.message)
  }

  function Positions(from: nat, count: nat): (r: seq<nat>)
  {
    seq(count, i requires 0 <= i < count => from + i)
  }

  lemma PositionsGrow(from: nat, count: nat)
    ensures Positions(from, count + 1) == Positions(from, count) + [from + count]
  {
  }

  lemma {:induction false} RunLast<S>(ms: seq<Middleware<S>>, m: Middleware<S>, st: S, msg: Option<RelayMessage>)
    ensures var r := RunAll(ms, st, msg);
            && RunAll(ms + [m], st, msg) == (if r.ok then m.outbound(r.state, r.message) else r)
            && RunCount(ms + [m], st, msg) == RunCount(ms, st, msg) + (if r.ok then 1 else 0)
    decreases |ms|
  {
    if ms == [] {
      assert ms + [m] == [m];
    } else {
      assert (ms + [m])[1..] == ms[1..] + [m];
      var r := ms[0].outbound(st, msg);
      RunLast(ms[1..], m, r.state, r.message);
    }
  }

  function Tail<T>(s: seq<T>, n: nat): (r: seq<T>)
  {
    if n <= |s| then s[n..] else []
  }

  lemma TailLast<T>(s: seq<T>, n: nat)
    requires s != []
    ensures var init := s[..|s| - 1]; Tail(s, n) == if n <= |init| then Tail(init, n) + [s[|s| - 1]] else Tail(init, n)
    ensures n < |s| ==> |Tail(s, n)| == |s| - n
  {
  }

  /** The reference's result and positions, for a message tagged `from`. */
  function Routed<S>(ms: seq<Middleware<S>>, st: S, msg: Option<RelayMessage>, from: nat): (r: Outbound<S>)
  {
    var tail := Tail(ms, from);
    Outbound(RunAll(tail, st, msg), Positions(from, RunCount(tail, st, msg)))
  }

  lemma RoutedLast<S>(ms: seq<Middleware<S>>, st: S, msg: Option<RelayMessage>, from: nat)
    requires ms != []
    ensures var n := |ms| - 1;
            var inner := Routed(ms[..n], st, msg, from);
            Routed(ms, st, msg, from) ==
            if from <= n && inner.result.ok
            then Outbound(ms[n].outbound(inner.result.state, inner.result.message), inner.visited + [n])
            else inner
  {
    var init, m := ms[..|ms| - 1], ms[|ms| - 1];
    TailLast(ms, from);
    if from <= |init| {
      RunLast(Tail(init, from), m, st, msg);
      PositionsGrow(from, RunCount(Tail(init, from), st, msg));
    }
  }

  /**
    In a chain built from any middlewares, a message tagged `from` is processed by exactly the
    positions from there outward, in ascending order, up to the first error.
   */
  lemma {:induction false} OutboundRouting<S>(ms: seq<Middleware<S>>, channel: Channel, st: S,
                                              msg: Option<RelayMessage>, from: nat)
    ensures ProcessOutbound(Connect(ms, channel), st, msg, from) ==
            Outbound(RunAll(Tail(ms, from), st, msg), Positions(from, RunCount(Tail(ms, from), st, msg)))
    decreases |ms|
  {
    if ms != [] {
      OutboundRouting(ms[..|ms| - 1], channel, st, msg, from);
      ConnectLast(ms, channel);
      RoutedLast(ms, st, msg, from);
    }
  }

  /**
    Whatever its doc comment says, a bypassing send does not skip the sender's own middleware: it
    also enters one position further in.
   */
  lemma BypassEntersFurtherIn<S>(ms: seq<Middleware<S>>, channel: Channel, st: S, msg: Option<RelayMessage>, p: nat)
    requires p < |ms|
    ensures var sender := MessageSender(channel, p);
            var visited := ProcessOutbound(Connect(ms, channel), st, msg, sender.BypassPosition()).visited;
            && (p > 0 ==> p - 1 in visited)
            && (p in visited <==> p == 0 || ms[p - 1].outbound(st, msg).ok)
            && (p > 1 ==> p - 2 !in visited)
  {
    var from := MessageSender(channel, p).BypassPosition();
    OutboundRouting(ms, channel, st, msg, from);
    var visited := Positions(from, RunCount(Tail(ms, from), st, msg));
    assert Tail(ms, from)[0] == ms[from] && visited[0] == from;
    assert |visited| > 1 ==> visited[1] == from + 1;
    if p > 0 {
      var r := ms[p - 1].outbound(st, msg);
      assert Tail(ms, from)[1..] != [];
      assert r.ok <==> |visited| > 1;
    }
  }

  // ----- Connection hooks -----

  function Countdown(n: nat): (r: seq<nat>)
  {
    seq(n, i requires 0 <= i < n => n - 1 - i)
  }

  function Reverse<T>(s: seq<T>): (r: seq<T>)
  {
    seq(|s|, i requires 0 <= i < |s| => s[|s| - 1 - i])
  }

  /** The reference: hooks one after the other until one fails. */
  function RunHooks<S>(hooks: seq<S -> HookResult<S>>, st: S): (r: HookResult<S>)
  {
    if hooks == [] then HookResult(true, st)
    else
      var r := hooks[0](st);
      if !r.ok then r else RunHooks(hooks[1..], r.state)
  }

  /** How many of them run. */
  function HookCount<S>(hooks: seq<S -> HookResult<S>>, st: S): (n: nat)
    ensures n <= |hooks|
    ensures RunHooks(hooks, st).ok ==> n == |hooks|
  {
    if hooks == [] then 0
    else
      var r := hooks[0](st);
      if !r.ok then 1 else 1 + HookCount(hooks[1..], r.state)
  }

  lemma {:induction false} RunHooksLast<S>(hooks: seq<S -> HookResult<S>>, hook: S -> HookResult<S>, st: S)
    ensures var r := RunHooks(hooks, st);
            && RunHooks(hooks + [hook], st) == (if r.ok then hook(r.state) else r)
            && HookCount(hooks + [hook], st) == HookCount(hooks, st) + (if r.ok then 1 else 0)
    decreases |hooks|
  {
    if hooks == [] {
      assert hooks + [hook] == [hook];
    } else {
      assert (hooks + [hook])[1..] == hooks[1..] + [hook];
      RunHooksLast(hooks[1..], hook, hooks[0](st).state);
    }
  }

  function ConnectHooks<S>(ms: seq<Middleware<S>>): (hooks: seq<S -> HookResult<S>>)
  {
    seq(|ms|, i requires 0 <= i < |ms| => ms[i].onConnect)
  }

  function DisconnectHooks<S>(ms: seq<Middleware<S>>): (hooks: seq<S -> HookResult<S>>)
  {
    seq(|ms|, i requires 0 <= i < |ms| => ms[i].onDisconnect)
  }

  /**
    Connecting runs the hooks in the reverse of the order the middlewares were added in, from the
    outermost inward, each on the state the one before left, up to the first error.
   */
  lemma {:induction false} ConnectOrder<S>(ms: seq<Middleware<S>>, channel: Channel, st: S)
    ensures var hooks, r := Reverse(ConnectHooks(ms)), OnConnect(Connect(ms, channel), st);
            r.result == RunHooks(hooks, st) && r.visited == Countdown(|ms|)[..HookCount(hooks, st)]
    decreases |ms|
  {
    var hooks := Reverse(ConnectHooks(ms));
    if ms != [] {
      var init, m := ms[..|ms| - 1], ms[|ms| - 1];
      ConnectLast(ms, channel);
      var own := m.onConnect(st);
      assert Countdown(|ms|) == [|ms| - 1] + Countdown(|init|);
      assert hooks[0] == m.onConnect && hooks[1..] == Reverse(ConnectHooks(init));
      if own.ok { ConnectOrder(init, channel, own.state); }
    }
  }

  /**
    Disconnecting runs the hooks in the order the middlewares were added in, from the innermost
    outward, each on the state the one before left, up to the first error.
   */
  lemma {:induction false} DisconnectOrder<S>(ms: seq<Middleware<S>>, channel: Channel, st: S)
    ensures var hooks, r := DisconnectHooks(ms), OnDisconnect(Connect(ms, channel), st);
            r.result == RunHooks(hooks, st) && r.visited == Positions(0, HookCount(hooks, st))
    decreases |ms|
  {
    if ms != [] {
      var init, m := ms[..|ms| - 1], ms[|ms| - 1];
      ConnectLast(ms, channel);
      DisconnectOrder(init, channel, st);
      assert DisconnectHooks(ms) == DisconnectHooks(init) + [m.onDisconnect];
      RunHooksLast(DisconnectHooks(init), m.onDisconnect, st);
      PositionsGrow(0, HookCount(DisconnectHooks(init), st));
    }
  }

  /** Without errors, middlewares are disconnected in the reverse of the order they were connected in. */
  lemma DisconnectReversesConnect<S>(ms: seq<Middleware<S>>, channel: Channel, st: S, st': S)
    requires OnConnect(Connect(ms, channel), st).result.ok && OnDisconnect(Connect(ms, channel), st').result.ok
    ensures OnDisconnect(Connect(ms, channel), st').visited == Reverse(OnConnect(Connect(ms, channel), st).visited)
  {
    ConnectOrder(ms, channel, st);
    DisconnectOrder(ms, channel, st');
  }

  // ----- End-to-end visibility -----

  /**
    The relay middleware's outbound step: an EVENT passes only if the check answers yes; a failing
    check is an error.
   */
  function RelayOutbound<S>(canSee: (Event, S) -> Option<bool>, st: S, msg: Option<RelayMessage>): (r: OutResult<S>)
  {
    if msg.Some? && msg.value.EventMsg? then
      match canSee(msg.value.event, st)
      case None => OutResult(false, st, None)
      case Some(false) => OutResult(true, st, None)
      case Some(true) => OutResult(true, st, msg)
    else OutResult(true, st, msg)
  }

  function RelayMiddleware<S>(canSee: (Event, S) -> Option<bool>, onConnect: S -> HookResult<S>,
                              onDisconnect: S -> HookResult<S>): (m: Middleware<S>)
  {
    Middleware((st, msg) => RelayOutbound(canSee, st, msg), onConnect, onDisconnect)
  }

  /** The middleware only passes messages on or drops them. */
  ghost predicate PassesOrDrops<S(!new)>(m: Middleware<S>)
  {
    forall st, msg :: m.outbound(st, msg).message == msg || m.outbound(st, msg).message == None
  }

  lemma {:induction false} PassedOrDropped<S(!new)>(ms: seq<Middleware<S>>, st: S, msg: Option<RelayMessage>)
    requires forall m | m in ms :: PassesOrDrops(m)
    ensures RunAll(ms, st, msg).message == msg || RunAll(ms, st, msg).message == None
    decreases |ms|
  {
    if ms != [] {
      var r := ms[0].outbound(st, msg);
      assert PassesOrDrops(ms[0]);
      PassedOrDropped(ms[1..], r.state, r.message);
    }
  }

  /** Both ways of sending tag 0 when the relay middleware, at position 0, sends. */
  lemma RelaySendsFromZero<S>(relay: Middleware<S>, outer: seq<Middleware<S>>, channel: Channel)
    ensures var sender := LinkAtZero(relay, outer, channel).sender;
            sender.channel == channel && sender.position == 0 && sender.BypassPosition() == 0
  {
    BuiltChain([relay] + outer, channel, 0);
  }

  function LinkAtZero<S>(relay: Middleware<S>, outer: seq<Middleware<S>>, channel: Channel): (c: Connected<S>)
    ensures c.ConnectedLink?
  {
    BuiltChain([relay] + outer, channel, 0);
    LinkAt(Connect([relay] + outer, channel), 0)
  }

  /**
    A message sent by the relay, in either way, first passes the relay's own check and then the outer
    middlewares, whatever they are: an EVENT that is visible goes on to them unchanged, an EVENT that
    is not is dropped before them, a check that fails is an error, and any other message goes on.
   */
  lemma RelayPassesOn<S>(canSee: (Event, S) -> Option<bool>, onConnect: S -> HookResult<S>,
                         onDisconnect: S -> HookResult<S>, outer: seq<Middleware<S>>, channel: Channel, st: S,
                         msg: Option<RelayMessage>)
    ensures var relay := RelayMiddleware(canSee, onConnect, onDisconnect);
            var sender := LinkAtZero(relay, outer, channel).sender;
            forall tag | tag == sender.position || tag == sender.BypassPosition() ::
              var r := ProcessOutbound(Connect([relay] + outer, channel), st, msg, tag).result;
              match msg
              case Some(EventMsg(sub, e)) =>
                && (canSee(e, st) == Some(true) ==> r == RunAll(outer, st, msg))
                && (canSee(e, st) == Some(false) ==> r == RunAll(outer, st, None))
                && (canSee(e, st) == None ==> !r.ok && r.message == None)
              case _ => r == RunAll(outer, st, msg)
  {
    var relay := RelayMiddleware(canSee, onConnect, onDisconnect);
    RelaySendsFromZero(relay, outer, channel);
    var ms := [relay] + outer;
    OutboundRouting(ms, channel, st, msg, 0);
    assert Tail(ms, 0) == ms && ms[1..] == outer && ms[0] == relay;
    assert relay.outbound(st, msg) == RelayOutbound(canSee, st, msg);
  }

  /**
    In every chain whose innermost middleware is the relay's and whose outer ones only pass or
    drop, an EVENT sent by the relay, in either way, reaches the socket only if it was visible in
    the state its outbound pass started from, and then unchanged; it is handed to the outer
    middlewares if it is visible, and dropped before them exactly when the check said no.
   */
  lemma EventsOnTheSocketAreVisible<S(!new)>(
      canSee: (Event, S) -> Option<bool>, onConnect: S -> HookResult<S>, onDisconnect: S -> HookResult<S>,
      outer: seq<Middleware<S>>, channel: Channel, st: S, sub: SubId, e: Event)
    requires forall m | m in outer :: PassesOrDrops(m)
    ensures var relay := RelayMiddleware(canSee, onConnect, onDisconnect);
            var sender := LinkAtZero(relay, outer, channel).sender;
            forall tag | tag == sender.position || tag == sender.BypassPosition() ::
              var r := ProcessOutbound(Connect([relay] + outer, channel), st, Some(EventMsg(sub, e)), tag).result;
              && (r.message.Some? ==> r.message == Some(EventMsg(sub, e)) && canSee(e, st) == Some(true))
              && (canSee(e, st) == Some(true) ==> r == RunAll(outer, st, Some(EventMsg(sub, e))))
              && (relay.outbound(st, Some(EventMsg(sub, e))) == OutResult(true, st, None) <==>
                    canSee(e, st) == Some(false))
              && (canSee(e, st) == None ==> !r.ok)
              && (canSee(e, st) == Some(false) ==> r.message == None)
  {
    var msg := Some(EventMsg(sub, e));
    RelayPassesOn(canSee, onConnect, onDisconnect, outer, channel, st, msg);
    assert RelayMiddleware(canSee, onConnect, onDisconnect).outbound(st, msg) == RelayOutbound(canSee, st, msg);
    PassedOrDropped(outer, st, msg);
    PassedOrDropped(outer, st, None);
  }
}
