/**
  Exactly which matches the windows of a scan get past, for any store and whatever was sent for
  earlier filters. Each window resumes below the second of its last unsent event, so the rest of
  that second is skipped. A filter sends the newest visible unsent ones of the matches met.
 */
module PaginationWalk {
  import opened Nostr
  import opened Pagination
  import opened PaginationRefinement

  /** Mentioned where a proof looks at how far the windows get. */
  predicate Review(n: nat)
  {
    true
  }

  /** Mentioned where a proof looks at what a scan or a walk amounts to. */
  predicate Expand(n: nat)
  {
    true
  }

  // ----- Where the windows go -----

  /** Which of the matches were sent before. */
  function Sent(m: seq<Event>, ids: set<EventId>): (r: seq<bool>)
    ensures |r| == |m|
  {
    seq(|m|, i requires 0 <= i < |m| => m[i].id in ids)
  }

  /** The position just after the last unsent match; zero if all were sent. */
  function PastUnsent(sent: seq<bool>): (n: nat)
    ensures n <= |sent|
    decreases |sent|
  {
    if sent == [] then 0
    else if !sent[|sent| - 1] then |sent|
    else PastUnsent(sent[..|sent| - 1])
  }

  lemma {:induction false} PastUnsentIs(sent: seq<bool>)
    ensures PastUnsent(sent) > 0 ==> !sent[PastUnsent(sent) - 1]
    ensures forall i | PastUnsent(sent) <= i < |sent| :: sent[i]
    decreases |sent|
  {
    if sent != [] && sent[|sent| - 1] { PastUnsentIs(sent[..|sent| - 1]); }
  }

  /** How many of the matches the first window gets past. */
  function Past(sent: seq<bool>, limit: nat): (n: nat)
    ensures n <= |sent| && n <= limit
  {
    PastUnsent(Take(sent, limit))
  }

  lemma PastIs(sent: seq<bool>, limit: nat)
    ensures Past(sent, limit) > 0 ==> !sent[Past(sent, limit) - 1]
    ensures forall i | Past(sent, limit) <= i < |sent| && i < limit :: sent[i]
  {
    PastUnsentIs(Take(sent, limit));
    forall i | Past(sent, limit) <= i < |sent| && i < limit ensures sent[i] { assert Take(sent, limit)[i]; }
  }

  /** The first match from a position on that is older than the second. */
  function Resume(m: seq<Event>, t: Timestamp, n: nat): (k: nat)
    requires n <= |m|
    ensures n <= k <= |m|
    decreases |m| - n
  {
    if n == |m| || m[n].createdAt < t then n else Resume(m, t, n + 1)
  }

  lemma {:induction false} ResumeIs(m: seq<Event>, t: Timestamp, n: nat)
    requires n <= |m|
    ensures forall i | n <= i < Resume(m, t, n) :: m[i].createdAt >= t
    ensures Resume(m, t, n) < |m| ==> m[Resume(m, t, n)].createdAt < t
    decreases |m| - n
  {
    if n < |m| && m[n].createdAt >= t { ResumeIs(m, t, n + 1); }
  }

  /** Where the matches below the second of the last one before the position start. */
  function Below(m: seq<Event>, n: nat): (k: nat)
    requires 0 < n <= |m|
    ensures n <= k <= |m|
  {
    Resume(m, m[n - 1].createdAt, n)
  }

  /** At second zero: one window, or any number of further windows, which all start at the same match. */
  function AtZero(m: seq<Event>, z: nat, n: nat, limit: nat, attempts: nat): (r: seq<Event>)
    requires n <= |m|
  {
    if attempts == 1 then m[..n] else Take(m, z + limit)
  }

  /**
    The matches that the given number of windows gets past, if these were sent before. A window is
    read up to its last unsent match, and the next one starts below that match's second. The bound
    cannot go below second zero: from there the next window starts at the first match of that
    second and then repeats.
   */
  function Met(m: seq<Event>, sent: seq<bool>, limit: nat, attempts: nat): (r: seq<Event>)
    requires |sent| == |m|
    decreases attempts
  {
    var n := Past(sent, limit);
    if attempts == 0 || n == 0 then []
    else if m[n - 1].createdAt > 0 then m[..n] + Met(m[Below(m, n)..], sent[Below(m, n)..], limit, attempts - 1)
    else AtZero(m, Resume(m, 1, 0), n, limit, attempts)
  }

  /** The windows get past the last match within the attempts. */
  predicate RunsOut(m: seq<Event>, sent: seq<bool>, limit: nat, attempts: nat)
    requires |sent| == |m|
    decreases attempts
  {
    var n := Past(sent, limit);
    attempts > 0 &&
    (m == [] || (n > 0 && m[n - 1].createdAt > 0 &&
                  RunsOut(m[Below(m, n)..], sent[Below(m, n)..], limit, attempts - 1)))
  }

  lemma SentOfSlice(m: seq<Event>, ids: set<EventId>, k: nat)
    requires k <= |m|
    ensures Sent(m[k..], ids) == Sent(m, ids)[k..]
  {
  }

  lemma SentOfTake(m: seq<Event>, ids: set<EventId>, n: nat)
    ensures Sent(Take(m, n), ids) == Take(Sent(m, ids), n)
  {
  }

  /** Mentioned where a proof looks at what was sent event by event. */
  predicate Compare(n: nat)
  {
    true
  }

  /** Of these events, the same ones were sent. */
  ghost predicate SameSent(m: seq<Event>, a: set<EventId>, b: set<EventId>)
  {
    forall n: nat {:trigger Compare(n)} :: Compare(n) ==> forall e | e in m :: e.id in a <==> e.id in b
  }

  lemma SameSentWithin(part: seq<Event>, m: seq<Event>, a: set<EventId>, b: set<EventId>)
    requires SameSent(m, a, b) && forall e | e in part :: e in m
    ensures SameSent(part, a, b)
  {
    assert Compare(0);
  }

  lemma {:induction false} SamePick(w: seq<Event>, a: set<EventId>, b: set<EventId>, visible: Event -> bool)
    requires SameSent(w, a, b)
    ensures Pick(w, a, visible) == Pick(w, b, visible)
    decreases |w|
  {
    if w != [] {
      assert Compare(0);
      assert w[|w| - 1] in w;
      SamePick(w[..|w| - 1], a, b, visible);
    }
  }

  lemma SentAlike(m: seq<Event>, a: set<EventId>, b: set<EventId>)
    requires SameSent(m, a, b)
    ensures Sent(m, a) == Sent(m, b)
  {
    assert Compare(0);
  }

  /** The matches that the second window at second zero, which starts at `z`, adds to the first. */
  function NewAtZero(m: seq<Event>, z: nat, n: nat, limit: nat): (r: seq<Event>)
    requires n <= |m| && n <= z + limit
  {
    Take(m, z + limit)[n..]
  }

  /** What is met, and whether the matches run out, as an atom to the verifier. */
  ghost predicate Walks(m: seq<Event>, sent: seq<bool>, limit: nat, attempts: nat, met: seq<Event>, out: bool)
    requires |sent| == |m|
  {
    forall n: nat {:trigger Review(n)} :: Review(n) ==> WalkIs(m, sent, limit, attempts, met, out)
  }

  ghost predicate WalkIs(m: seq<Event>, sent: seq<bool>, limit: nat, attempts: nat, met: seq<Event>, out: bool)
    requires |sent| == |m|
  {
    forall n: nat {:trigger Expand(n)} :: Expand(n) ==>
      met == Met(m, sent, limit, attempts) && out == RunsOut(m, sent, limit, attempts)
  }

  lemma WalksNowhere(m: seq<Event>, sent: seq<bool>, limit: nat, attempts: nat)
    requires |sent| == |m| && (attempts == 0 || Past(sent, limit) == 0)
    ensures Walks(m, sent, limit, attempts, [], attempts > 0 && m == [])
  {
  }

  lemma WalksOnce(m: seq<Event>, n: nat, sent: seq<bool>, limit: nat)
    requires |sent| == |m| && n == Past(sent, limit) > 0
    ensures Walks(m, sent, limit, 1, m[..n], false)
  {
    if m[n - 1].createdAt > 0 { assert Met(m[Below(m, n)..], sent[Below(m, n)..], limit, 0) == []; }
  }

  lemma WalksOn(m: seq<Event>, n: nat, sent: seq<bool>, limit: nat, attempts: nat, rest: seq<Event>, out: bool)
    requires |sent| == |m| && attempts > 0 && n == Past(sent, limit) > 0 && m[n - 1].createdAt > 0
    requires Walks(m[Below(m, n)..], sent[Below(m, n)..], limit, attempts - 1, rest, out)
    ensures Walks(m, sent, limit, attempts, m[..n] + rest, out)
  {
    assert Review(0) && Expand(0);
  }

  lemma MetAtZero(m: seq<Event>, z: nat, n: nat, sent: seq<bool>, limit: nat, attempts: nat)
    requires |sent| == |m| && attempts > 1 && n == Past(sent, limit) > 0 && m[n - 1].createdAt == 0
    requires z == Resume(m, 1, 0)
    ensures Met(m, sent, limit, attempts) == Take(m, z + limit)
  {
  }

  lemma NotOutAtZero(m: seq<Event>, n: nat, sent: seq<bool>, limit: nat, attempts: nat)
    requires |sent| == |m| && n == Past(sent, limit) > 0 && m[n - 1].createdAt == 0
    ensures !RunsOut(m, sent, limit, attempts)
  {
  }

  lemma WalksAtZero(m: seq<Event>, z: nat, n: nat, sent: seq<bool>, limit: nat, attempts: nat)
    requires |sent| == |m| && attempts > 1 && n == Past(sent, limit) > 0 && m[n - 1].createdAt == 0
    requires z == Resume(m, 1, 0)
    ensures Walks(m, sent, limit, attempts, m[..n] + NewAtZero(m, z, n, limit), false)
  {
    MetAtZero(m, z, n, sent, limit, attempts);
    NotOutAtZero(m, n, sent, limit, attempts);
    TakeSplit(m, n, z + limit);
  }

  lemma TakeSplit<T>(s: seq<T>, n: nat, size: nat)
    requires n <= |s| && n <= size
    ensures |Take(s, size)| >= n && s[..n] + Take(s, size)[n..] == Take(s, size)
  {
  }

  /** What is met is met in the order of the matches. */
  lemma {:induction false} WalksInOrder(m: seq<Event>, sent: seq<bool>, limit: nat, attempts: nat)
    returns (met: seq<Event>, out: bool)
    requires |sent| == |m|
    ensures Walks(m, sent, limit, attempts, met, out) && Within(met, m)
    decreases attempts
  {
    var n := Past(sent, limit);
    if attempts == 0 || n == 0 {
      met, out := [], attempts > 0 && m == [];
      WalksNowhere(m, sent, limit, attempts);
      assert Embeds([], m, []);
    } else if m[n - 1].createdAt > 0 {
      var k := Below(m, n);
      met, out := WalksInOrder(m[k..], sent[k..], limit, attempts - 1);
      WalksOn(m, n, sent, limit, attempts, met, out);
      WithinSkip(m, n, k, met);
      met := m[..n] + met;
    } else {
      met, out := AtZero(m, Resume(m, 1, 0), n, limit, attempts), false;
      AtZeroInOrder(m, Resume(m, 1, 0), n, sent, limit, attempts);
    }
  }

  lemma AtZeroInOrder(m: seq<Event>, z: nat, n: nat, sent: seq<bool>, limit: nat, attempts: nat)
    requires |sent| == |m| && attempts > 0 && n == Past(sent, limit) > 0 && m[n - 1].createdAt == 0
    requires z == Resume(m, 1, 0)
    ensures Walks(m, sent, limit, attempts, AtZero(m, z, n, limit, attempts), false)
    ensures Within(AtZero(m, z, n, limit, attempts), m)
  {
    AtZeroWithin(m, z, n, limit, attempts);
    if attempts == 1 {
      WalksOnce(m, n, sent, limit);
    } else {
      TakeSplit(m, n, z + limit);
      WalksAtZero(m, z, n, sent, limit, attempts);
    }
  }

  lemma MetWithin(m: seq<Event>, sent: seq<bool>, limit: nat, attempts: nat)
    requires |sent| == |m|
    ensures Within(Met(m, sent, limit, attempts), m)
  {
    var _, _ := WalksInOrder(m, sent, limit, attempts);
    assert Review(0) && Expand(0);
  }

  lemma WalksAmong(m: seq<Event>, sent: seq<bool>, limit: nat, attempts: nat, met: seq<Event>, out: bool)
    requires |sent| == |m| && Walks(m, sent, limit, attempts, met, out)
    ensures forall e | e in met :: e in m
  {
    MetWithin(m, sent, limit, attempts);
    assert Review(0) && Expand(0);
    WithinElements(met, m);
  }

  lemma AtZeroWithin(m: seq<Event>, z: nat, n: nat, limit: nat, attempts: nat)
    requires n <= |m|
    ensures Within(AtZero(m, z, n, limit, attempts), m)
  {
    if attempts == 1 {
      assert m[..n] == Take(m, n);
      WithinTake(m, n);
    } else {
      WithinTake(m, z + limit);
    }
  }

  lemma WithinSkip(m: seq<Event>, n: nat, k: nat, part: seq<Event>)
    requires n <= k <= |m| && Within(part, m[k..])
    ensures Within(m[..n] + part, m)
  {
    var at :| Embeds(part, m[k..], at);
    assert Embeds(m[..n] + part, m, seq(n, i => i) + seq(|at|, i requires 0 <= i < |at| => at[i] + k));
  }

  // ----- One window of a scan -----

  /** The state of a scan that goes on. */
  ghost predicate Running(q: Scan, c: Cursor)
  {
    IsStore(q.db) && c.sent < q.limit && c.attempts < MAX_ATTEMPTS && Tracks(c)
  }

  /** How far the next window gets. */
  function Gain(q: Scan, c: Cursor): (n: nat)
    ensures n <= |Window(q, c)| <= |Reachable(q, c)|
    ensures n == Past(Sent(Reachable(q, c), c.ids), q.limit)
  {
    SentOfTake(Reachable(q, c), c.ids, q.limit);
    PastUnsent(Sent(Window(q, c), c.ids))
  }

  lemma GainIs(q: Scan, c: Cursor)
    ensures var w, n := Window(q, c), Gain(q, c);
            (n > 0 ==> w[n - 1].id !in c.ids) && forall i | n <= i < |w| :: w[i].id in c.ids
  {
    PastUnsentIs(Sent(Window(q, c), c.ids));
    assert forall i | 0 <= i < |Window(q, c)| :: Sent(Window(q, c), c.ids)[i] == (Window(q, c)[i].id in c.ids);
  }

  lemma {:induction false} OldestOfSent(w: seq<Event>, ids: set<EventId>, last: Option<Timestamp>)
    requires forall e | e in w :: e.id in ids
    ensures Oldest(w, ids, last) == last
    decreases |w|
  {
    if w != [] {
      assert w[|w| - 1] in w;
      OldestOfSent(w[..|w| - 1], ids, last);
    }
  }

  /** A window wholly sent before moves nothing, so it is queried again until the scan ends. */
  lemma {:induction false} StuckSilent(q: Scan, c: Cursor)
    requires c.sent < q.limit && Tracks(c) && forall e | e in Window(q, c) :: e.id in c.ids
    ensures Page(q, c).events == []
    ensures Window(q, c) != [] ==> Page(q, c).end == if c.last.Some? then AttemptsSpent else NoTimestamp
    decreases MAX_ATTEMPTS - c.attempts
  {
    PickNothing(Window(q, c), c.ids, q.visible);
    OldestOfSent(Window(q, c), c.ids, c.last);
    assert Sends(q, c) == [] && Ids(Sends(q, c)) == {};
    if Stop(q, c).None? {
      assert Advance(q, c) == c.(attempts := c.attempts + 1);
      StuckSilent(q, Advance(q, c));
    }
  }

  /** Otherwise the oldest timestamp is that of its last unsent event. */
  lemma OldestUnsent(q: Scan, c: Cursor)
    requires IsStore(q.db) && Tracks(c) && Gain(q, c) > 0
    ensures Oldest(Window(q, c), c.ids, c.last) == Some(Window(q, c)[Gain(q, c) - 1].createdAt)
    ensures Window(q, c)[Gain(q, c) - 1] == Reachable(q, c)[Gain(q, c) - 1]
  {
    var w, n := Window(q, c), Gain(q, c);
    QueryElements(q.db, Bounded(q, c), q.limit);
    GainIs(q, c);
    assert w[n - 1] in w;
    assert NewestFirst(w) by { assert Unfold(0); }
    OldestBound(w, c.ids, c.last);
    UnsentNotOlder(w, c.ids, n);
  }

  lemma UnsentNotOlder(w: seq<Event>, ids: set<EventId>, n: nat)
    requires NewestFirst(w) && 0 < n <= |w| && forall i | n <= i < |w| :: w[i].id in ids
    ensures forall e | e in w && e.id !in ids :: e.createdAt >= w[n - 1].createdAt
  {
  }

  /** The second of the last unsent event of the window. */
  function LastSecond(q: Scan, c: Cursor): (t: Timestamp)
    requires Gain(q, c) > 0
  {
    Reachable(q, c)[Gain(q, c) - 1].createdAt
  }

  /** Where the next window starts among this one's matches. */
  function NextStart(q: Scan, c: Cursor): (k: nat)
    requires Gain(q, c) > 0
    ensures k <= |Reachable(q, c)|
  {
    if LastSecond(q, c) > 0 then Below(Reachable(q, c), Gain(q, c)) else Resume(Reachable(q, c), 1, 0)
  }

  /** The next window starts below the second of this one's last unsent event. */
  lemma ResumesBelowSecond(q: Scan, c: Cursor)
    requires IsStore(q.db) && c.sent <= q.limit && Tracks(c) && Gain(q, c) > 0
    ensures Reachable(q, Advance(q, c)) == Reachable(q, c)[NextStart(q, c)..]
    ensures Advance(q, c).last == Some(LastSecond(q, c)) && Tracks(Advance(q, c))
  {
    var m, n, t, k := Reachable(q, c), Gain(q, c), LastSecond(q, c), NextStart(q, c);
    ReachableFacts(q, c);
    OldestUnsent(q, c);
    assert m[n - 1] in m;
    assert Bounded(q, Advance(q, c)) == Bounded(q, c).(until := Some(Before(t)));
    StartBounds(m, n);
    SelectBelow(q.db, Bounded(q, c), Before(t), k);
  }

  /** The matches before the next window's start are after its bound, and those from it on are not. */
  lemma StartBounds(m: seq<Event>, n: nat)
    requires NewestFirst(m) && 0 < n <= |m|
    ensures var t := m[n - 1].createdAt;
            var k := if t > 0 then Below(m, n) else Resume(m, 1, 0);
            && (forall i | 0 <= i < k :: m[i].createdAt > Before(t))
            && (forall i | k <= i < |m| :: m[i].createdAt <= Before(t))
  {
    var t := m[n - 1].createdAt;
    var k := if t > 0 then Below(m, n) else Resume(m, 1, 0);
    ResumeIs(m, t, n);
    ResumeIs(m, 1, 0);
    assert forall i | 0 <= i < n :: m[i].createdAt >= t;
    assert forall i | k <= i < |m| :: m[i].createdAt <= m[k].createdAt;
  }

  /** What this window sends is not met again behind it. */
  lemma SentStaysBehind(q: Scan, c: Cursor, k: nat)
    requires IsStore(q.db) && c.sent <= q.limit && Gain(q, c) <= k <= |Reachable(q, c)|
    ensures SameSent(Reachable(q, c)[k..], c.ids, Advance(q, c).ids)
  {
    var m := Reachable(q, c);
    forall i | k <= i < |m| ensures m[i].id !in Ids(Sends(q, c)) { NotSentHere(q, c, i); }
    NewIdsElsewhere(m[k..], c.ids, Ids(Sends(q, c)));
  }

  lemma NewIdsElsewhere(m: seq<Event>, ids: set<EventId>, more: set<EventId>)
    requires forall i | 0 <= i < |m| :: m[i].id !in more
    ensures SameSent(m, ids, ids + more)
  {
  }

  lemma NotSentHere(q: Scan, c: Cursor, i: nat)
    requires IsStore(q.db) && c.sent <= q.limit && Gain(q, c) <= i < |Reachable(q, c)|
    ensures Reachable(q, c)[i].id !in Ids(Sends(q, c))
  {
    var w, m, n := Window(q, c), Reachable(q, c), Gain(q, c);
    ReachableFacts(q, c);
    SendsElements(q, c);
    GainIs(q, c);
    forall k | 0 <= k < |Sends(q, c)| ensures Sends(q, c)[k].id != m[i].id {
      assert Sends(q, c)[k] in Sends(q, c);
      var j :| 0 <= j < |w| && w[j] == Sends(q, c)[k];
      assert j < n && m[j] == w[j];
    }
  }

  lemma PickTail(w: seq<Event>, n: nat, ids: set<EventId>, visible: Event -> bool)
    requires n <= |w| && forall i | n <= i < |w| :: w[i].id in ids || !visible(w[i])
    ensures Pick(w, ids, visible) == Pick(w[..n], ids, visible)
  {
    assert w == w[..n] + w[n..];
    PickAppend(w[..n], w[n..], ids, visible);
    PickNothing(w[n..], ids, visible);
  }

  /** A window sends the visible unsent events it gets past. */
  lemma SendsUnsent(q: Scan, c: Cursor)
    requires IsStore(q.db) && c.sent <= q.limit
    ensures Sends(q, c) == Take(Pick(Reachable(q, c)[..Gain(q, c)], c.ids, q.visible), q.limit - c.sent)
  {
    var w, n := Window(q, c), Gain(q, c);
    SendsElements(q, c);
    GainIs(q, c);
    PickTail(w, n, c.ids, q.visible);
    assert w[..n] == Reachable(q, c)[..n];
  }

  /** What a window picks for sending. */
  function Picked(q: Scan, c: Cursor): (r: seq<Event>)
  {
    Pick(Reachable(q, c)[..Gain(q, c)], c.ids, q.visible)
  }

  lemma StopsWhen(q: Scan, c: Cursor)
    requires Running(q, c) && Gain(q, c) > 0
    ensures Stop(q, c) != Some(EmptyWindow)
    ensures Stop(q, c).Some? <==> |Take(Picked(q, c), q.limit - c.sent)| == q.limit - c.sent ||
                                  c.attempts + 1 == MAX_ATTEMPTS
    ensures Sends(q, c) == Take(Picked(q, c), q.limit - c.sent)
  {
    OldestUnsent(q, c);
    SendsUnsent(q, c);
  }

  /** What the rest of a scan sends and whether it ends on an empty window, as an atom to the verifier. */
  ghost predicate Pages(q: Scan, c: Cursor, events: seq<Event>, empty: bool)
  {
    forall n: nat {:trigger Review(n)} :: Review(n) ==> PageIs(q, c, events, empty)
  }

  ghost predicate PageIs(q: Scan, c: Cursor, events: seq<Event>, empty: bool)
  {
    c.sent <= q.limit &&
    forall n: nat {:trigger Expand(n)} :: Expand(n) ==>
      Page(q, c).events == events && (Page(q, c).end == EmptyWindow <==> empty)
  }

  /** The rest of a scan is this much and then the rest from the next state. */
  ghost predicate PagesThen(q: Scan, c: Cursor, now: seq<Event>, next: Cursor)
  {
    forall n: nat {:trigger Review(n)} :: Review(n) ==> PageThen(q, c, now, next)
  }

  ghost predicate PageThen(q: Scan, c: Cursor, now: seq<Event>, next: Cursor)
  {
    c.sent <= q.limit && next.sent <= q.limit &&
    forall n: nat {:trigger Expand(n)} :: Expand(n) ==>
      Page(q, c).events == now + Page(q, next).events && Page(q, c).end == Page(q, next).end
  }

  lemma PagesNext(q: Scan, c: Cursor, now: seq<Event>, next: Cursor, later: seq<Event>, empty: bool)
    requires PagesThen(q, c, now, next) && Pages(q, next, later, empty)
    ensures Pages(q, c, now + later, empty)
  {
    assert Review(0) && Expand(0);
  }

  lemma StuckPages(q: Scan, c: Cursor)
    requires Running(q, c) && Gain(q, c) == 0
    ensures Pages(q, c, [], Reachable(q, c) == [])
  {
    GainIs(q, c);
    StuckSilent(q, c);
  }

  /** A window that fills the limit, or is the last attempt, ends the scan. */
  lemma LastTurn(q: Scan, c: Cursor) returns (now: seq<Event>)
    requires Running(q, c) && Gain(q, c) > 0
    requires |Picked(q, c)| >= q.limit - c.sent || c.attempts + 1 == MAX_ATTEMPTS
    ensures now == Picked(q, c)
    ensures Pages(q, c, Take(now, q.limit - c.sent), false)
  {
    StopsWhen(q, c);
    now := Picked(q, c);
  }

  /** The rest of the scan after a window that does not end it. */
  lemma NextEvents(q: Scan, c: Cursor)
    requires Running(q, c) && Gain(q, c) > 0
    requires |Picked(q, c)| < q.limit - c.sent && c.attempts + 1 < MAX_ATTEMPTS
    ensures PagesThen(q, c, Picked(q, c), Advance(q, c)) && Sends(q, c) == Picked(q, c)
    ensures Advance(q, c).sent == c.sent + |Picked(q, c)| && Advance(q, c).attempts == c.attempts + 1
  {
    StopsWhen(q, c);
  }

  lemma SentInIds(s: seq<Event>, ids: set<EventId>, e: Event)
    requires e in s
    ensures e.id in ids + Ids(s)
  {
    var i :| 0 <= i < |s| && s[i] == e;
  }

  /** What was sent is not picked again. */
  lemma PickedOnce(w: seq<Event>, ids: set<EventId>, visible: Event -> bool)
    ensures Pick(w, ids + Ids(Pick(w, ids, visible)), visible) == []
  {
    var picked := Pick(w, ids, visible);
    PickElements(w, ids, visible);
    forall e | e in w ensures e.id in ids + Ids(picked) || !visible(e) {
      if e in picked { SentInIds(picked, ids, e); }
    }
    PickNothing(w, ids + Ids(picked), visible);
  }

  /** The state after a window that does not end the scan. */
  ghost predicate Follows(q: Scan, c: Cursor, next: Cursor)
    requires c.sent <= q.limit && Gain(q, c) > 0 && IsStore(q.db)
  {
    && next.sent == c.sent + |Picked(q, c)| < q.limit && next.attempts == c.attempts + 1
    && PagesThen(q, c, Picked(q, c), next)
    && Reachable(q, next) == Reachable(q, c)[NextStart(q, c)..]
    && next.last == Some(LastSecond(q, c)) && Tracks(next)
    && SameSent(Reachable(q, c)[Gain(q, c)..], c.ids, next.ids)
    && Pick(Reachable(q, c)[..Gain(q, c)], next.ids, q.visible) == []
  }

  lemma Next(q: Scan, c: Cursor) returns (next: Cursor)
    requires Running(q, c) && Gain(q, c) > 0
    requires |Picked(q, c)| < q.limit - c.sent && c.attempts + 1 < MAX_ATTEMPTS
    ensures Follows(q, c, next)
  {
    next := Advance(q, c);
    NextEvents(q, c);
    ResumesBelowSecond(q, c);
    SentStaysBehind(q, c, Gain(q, c));
    PickedOnce(Reachable(q, c)[..Gain(q, c)], c.ids, q.visible);
  }

  // ----- The whole scan -----

  lemma WithinElements(part: seq<Event>, whole: seq<Event>)
    requires Within(part, whole)
    ensures forall e | e in part :: e in whole
  {
    var at :| Embeds(part, whole, at);
    forall e | e in part ensures e in whole {
      var i :| 0 <= i < |part| && part[i] == e;
      assert whole[at[i]] == e;
    }
  }

  lemma TakeFull<T>(now: seq<T>, later: seq<T>, room: nat)
    requires |Take(now, room)| == room || later == []
    ensures Take(now + later, room) == Take(now, room)
  {
  }

  lemma TakeMore<T>(now: seq<T>, later: seq<T>, room: nat)
    requires |Take(now, room)| < room
    ensures Take(now + later, room) == Take(now, room) + Take(later, room - |Take(now, room)|)
  {
  }

  /** What the scan makes of what it picks: it sends as much as there is room for. */
  ghost predicate Accounts(q: Scan, c: Cursor, picks: seq<Event>, out: bool)
    requires c.sent <= q.limit
  {
    Pages(q, c, Take(picks, q.limit - c.sent), out && |picks| < q.limit - c.sent)
  }

  /** A walk behind a window, seen with what was sent before the window. */
  lemma WalksBefore(m: seq<Event>, k: nat, limit: nat, attempts: nat, ids: set<EventId>, next: set<EventId>,
                    visible: Event -> bool, met: seq<Event>, out: bool)
    requires k <= |m| && SameSent(m[k..], ids, next)
    requires Walks(m[k..], Sent(m[k..], next), limit, attempts, met, out)
    ensures Walks(m[k..], Sent(m, ids)[k..], limit, attempts, met, out)
    ensures Pick(met, next, visible) == Pick(met, ids, visible)
  {
    SentAlike(m[k..], ids, next);
    SentOfSlice(m, ids, k);
    WalksAmong(m[k..], Sent(m[k..], next), limit, attempts, met, out);
    SameSentWithin(met, m[k..], ids, next);
    SamePick(met, ids, next, visible);
  }

  lemma {:induction false} PageWalks(q: Scan, c: Cursor, left: nat)
    returns (met: seq<Event>, out: bool, picks: seq<Event>)
    requires Running(q, c) && left == MAX_ATTEMPTS - c.attempts
    ensures Walks(Reachable(q, c), Sent(Reachable(q, c), c.ids), q.limit, left, met, out)
    ensures picks == Pick(met, c.ids, q.visible)
    ensures Accounts(q, c, picks, out)
    decreases left
  {
    if Gain(q, c) == 0 {
      StuckPages(q, c);
      met, out, picks := [], Reachable(q, c) == [], [];
      WalksNowhere(Reachable(q, c), Sent(Reachable(q, c), c.ids), q.limit, left);
    } else if |Picked(q, c)| >= q.limit - c.sent || left == 1 {
      met, out, picks := PageEnds(q, c, left);
    } else {
      var next := Next(q, c);
      met, out, picks := PageGoesOn(q, c, next, left);
    }
  }

  /** A window that fills the limit, or is the last attempt, sends all that is owed. */
  lemma PageEnds(q: Scan, c: Cursor, left: nat) returns (met: seq<Event>, out: bool, picks: seq<Event>)
    requires Running(q, c) && left == MAX_ATTEMPTS - c.attempts && Gain(q, c) > 0
    requires |Picked(q, c)| >= q.limit - c.sent || left == 1
    ensures Walks(Reachable(q, c), Sent(Reachable(q, c), c.ids), q.limit, left, met, out)
    ensures picks == Pick(met, c.ids, q.visible)
    ensures Accounts(q, c, picks, out)
  {
    var m, n := Reachable(q, c), Gain(q, c);
    var now := LastTurn(q, c);
    if left == 1 {
      met, out, picks := m[..n], false, now;
      WalksOnce(m, n, Sent(m, c.ids), q.limit);
    } else {
      var rest;
      rest, out := WalksFurther(m, n, Sent(m, c.ids), q.limit, left);
      met := m[..n] + rest;
      picks := PicksTogether(m[..n], rest, c.ids, q.visible, now);
      TakeFull(now, picks[|now|..], q.limit - c.sent);
    }
  }

  lemma PicksTogether(now: seq<Event>, rest: seq<Event>, ids: set<EventId>, visible: Event -> bool, first: seq<Event>)
    returns (picks: seq<Event>)
    requires first == Pick(now, ids, visible)
    ensures picks == Pick(now + rest, ids, visible)
    ensures |first| <= |picks| && picks == first + picks[|first|..] && picks[|first|..] == Pick(rest, ids, visible)
  {
    PickAppend(now, rest, ids, visible);
    picks := first + Pick(rest, ids, visible);
  }

  lemma WalksFurther(m: seq<Event>, n: nat, sent: seq<bool>, limit: nat, attempts: nat)
    returns (rest: seq<Event>, out: bool)
    requires |sent| == |m| && attempts > 1 && n == Past(sent, limit) > 0
    ensures Walks(m, sent, limit, attempts, m[..n] + rest, out)
  {
    if m[n - 1].createdAt > 0 {
      rest, out := WalksInOrder(m[Below(m, n)..], sent[Below(m, n)..], limit, attempts - 1);
      WalksOn(m, n, sent, limit, attempts, rest, out);
    } else {
      rest, out := NewAtZero(m, Resume(m, 1, 0), n, limit), false;
      WalksAtZero(m, Resume(m, 1, 0), n, sent, limit, attempts);
    }
  }

  /** The windows after one that does not end the scan. */
  lemma PageGoesOn(q: Scan, c: Cursor, next: Cursor, left: nat)
    returns (met: seq<Event>, out: bool, picks: seq<Event>)
    requires Running(q, c) && left == MAX_ATTEMPTS - c.attempts > 1 && Gain(q, c) > 0
    requires |Picked(q, c)| < q.limit - c.sent && Follows(q, c, next)
    ensures Walks(Reachable(q, c), Sent(Reachable(q, c), c.ids), q.limit, left, met, out)
    ensures picks == Pick(met, c.ids, q.visible)
    ensures Accounts(q, c, picks, out)
    decreases left, 0
  {
    var m, n := Reachable(q, c), Gain(q, c);
    var rest, later;
    if LastSecond(q, c) > 0 {
      rest, out, later := PageAbove(q, c, next, left);
    } else {
      rest, later := PageAtZero(q, c, next, left);
      out := false;
    }
    met := m[..n] + rest;
    picks := PicksTogether(m[..n], rest, c.ids, q.visible, Picked(q, c));
    AccountsTogether(q, c, next, Picked(q, c), later, picks, out);
  }

  lemma PageAbove(q: Scan, c: Cursor, next: Cursor, left: nat)
    returns (rest: seq<Event>, out: bool, later: seq<Event>)
    requires Running(q, c) && left == MAX_ATTEMPTS - c.attempts > 1 && Gain(q, c) > 0 && LastSecond(q, c) > 0
    requires Follows(q, c, next)
    ensures Walks(Reachable(q, c), Sent(Reachable(q, c), c.ids), q.limit, left, Reachable(q, c)[..Gain(q, c)] + rest,
                  out)
    ensures later == Pick(rest, c.ids, q.visible)
    ensures Accounts(q, next, later, out)
    decreases left, 0, 0
  {
    var m, n, k := Reachable(q, c), Gain(q, c), NextStart(q, c);
    rest, out, later := PageWalks(q, next, left - 1);
    SameSentWithin(m[k..], m[n..], c.ids, next.ids);
    WalksBefore(m, k, q.limit, left - 1, c.ids, next.ids, q.visible, rest, out);
    WalksOn(m, n, Sent(m, c.ids), q.limit, left, rest, out);
  }

  lemma AccountsTogether(q: Scan, c: Cursor, next: Cursor, now: seq<Event>, later: seq<Event>, picks: seq<Event>,
                         out: bool)
    requires c.sent <= next.sent == c.sent + |now| < q.limit && PagesThen(q, c, now, next) && picks == now + later
    requires Accounts(q, next, later, out)
    ensures Accounts(q, c, picks, out)
  {
    var room := q.limit - next.sent;
    PagesNext(q, c, now, next, Take(later, room), out && |later| < room);
    TakeMore(now, later, q.limit - c.sent);
  }

  /** The second window at second zero sends what the first one did not reach, and then nothing is sent. */
  lemma PageAtZero(q: Scan, c: Cursor, next: Cursor, left: nat) returns (rest: seq<Event>, later: seq<Event>)
    requires Running(q, c) && left == MAX_ATTEMPTS - c.attempts > 1 && Gain(q, c) > 0 && LastSecond(q, c) == 0
    requires Follows(q, c, next)
    ensures Walks(Reachable(q, c), Sent(Reachable(q, c), c.ids), q.limit, left, Reachable(q, c)[..Gain(q, c)] + rest,
                  false)
    ensures later == Pick(rest, c.ids, q.visible)
    ensures Accounts(q, next, later, false)
  {
    var m, n, z := Reachable(q, c), Gain(q, c), NextStart(q, c);
    StartsBefore(m, z, n);
    rest, later := RestAtZero(q, next, m, z, n, c.ids);
    WalksAtZero(m, z, n, Sent(m, c.ids), q.limit, left);
  }

  lemma RestAtZero(q: Scan, next: Cursor, m: seq<Event>, z: nat, n: nat, ids: set<EventId>)
    returns (rest: seq<Event>, later: seq<Event>)
    requires IsStore(q.db) && next.sent < q.limit && Stalled(next) && z < n <= |m| && n <= q.limit
    requires Reachable(q, next) == m[z..]
    requires SameSent(m[n..], ids, next.ids) && Pick(m[..n], next.ids, q.visible) == []
    ensures rest == NewAtZero(m, z, n, q.limit)
    ensures later == Pick(rest, ids, q.visible)
    ensures Accounts(q, next, later, false)
  {
    later := SendsAtZero(q, next);
    rest := NewAtZero(m, z, n, q.limit);
    SecondPick(m, z, n, q.limit, ids, next.ids, q.visible);
  }

  lemma SendsAtZero(q: Scan, c: Cursor) returns (picks: seq<Event>)
    requires IsStore(q.db) && c.sent < q.limit && Stalled(c) && Reachable(q, c) != []
    ensures picks == Pick(Take(Reachable(q, c), q.limit), c.ids, q.visible)
    ensures Accounts(q, c, picks, false)
  {
    SendsElements(q, c);
    AfterZero(q, c);
    StalledNeverEmpty(q, c);
    picks := Pick(Window(q, c), c.ids, q.visible);
  }

  lemma StartsBefore(m: seq<Event>, z: nat, n: nat)
    requires z == Resume(m, 1, 0) && 0 < n <= |m| && m[n - 1].createdAt == 0
    ensures z < n
  {
    ResumeIs(m, 1, 0);
  }

  lemma WindowSplit(m: seq<Event>, z: nat, n: nat, limit: nat)
    requires z <= n <= |m| && n <= z + limit
    ensures Take(m[z..], limit) == m[z..n] + Take(m, z + limit)[n..]
    ensures forall e | e in Take(m, z + limit)[n..] :: e in m[n..]
  {
    assert Take(m, z + limit)[n..] == Take(m[n..], z + limit - n);
  }

  lemma SecondPick(m: seq<Event>, z: nat, n: nat, limit: nat, ids: set<EventId>, next: set<EventId>,
                   visible: Event -> bool)
    requires z <= n <= |m| && n <= z + limit
    requires Pick(m[..n], next, visible) == [] && SameSent(m[n..], ids, next)
    ensures Pick(Take(m[z..], limit), next, visible) == Pick(Take(m, z + limit)[n..], ids, visible)
  {
    var more := Take(m, z + limit)[n..];
    WindowSplit(m, z, n, limit);
    PickAppend(m[z..n], more, next, visible);
    NothingInPart(m[..n], z, next, visible);
    assert m[..n][z..] == m[z..n];
    SameSentWithin(more, m[n..], ids, next);
    SamePick(more, ids, next, visible);
  }

  lemma NothingInPart(w: seq<Event>, z: nat, ids: set<EventId>, visible: Event -> bool)
    requires z <= |w| && Pick(w, ids, visible) == []
    ensures Pick(w[z..], ids, visible) == []
  {
    assert w == w[..z] + w[z..];
    PickAppend(w[..z], w[z..], ids, visible);
  }

  /** At second zero, whatever a window sends, nothing follows. */
  lemma AfterZero(q: Scan, c: Cursor)
    requires IsStore(q.db) && c.sent < q.limit && Stalled(c)
    ensures Page(q, c).events == Sends(q, c)
  {
    if Window(q, c) == [] {
      assert Sends(q, c) == [];
    } else if Stop(q, c).None? {
      StalledAdvance(q, c);
      SendsAllPicked(q, c);
      PickElements(Window(q, c), c.ids + Ids(Sends(q, c)), q.visible);
      forall e | e in Window(q, c) ensures e.id in Advance(q, c).ids || !q.visible(e) {
        assert e !in Pick(Window(q, c), Advance(q, c).ids, q.visible);
      }
      StalledSilent(q, Advance(q, c));
    }
  }

  lemma SendsAllPicked(q: Scan, c: Cursor)
    requires IsStore(q.db) && c.sent < q.limit && Window(q, c) != [] && Stop(q, c).None?
    ensures Pick(Window(q, c), c.ids + Ids(Sends(q, c)), q.visible) == []
  {
    SendsElements(q, c);
    PickedOnce(Window(q, c), c.ids, q.visible);
  }

  // ----- What a filter sends, and what it loses -----

  /** The matches the windows of a filter's scan get past: a matter of the store, the filter, the limit and the ids. */
  function MetBy(q: Scan, ids: set<EventId>): (r: seq<Event>)
  {
    Met(Select(q.db, q.filter), Sent(Select(q.db, q.filter), ids), q.limit, MAX_ATTEMPTS)
  }

  /**
    Exactly what one filter sends, whatever was sent before it: the newest `limit` visible unsent
    ones of the matches met.
   */
  lemma PagingSendsMet(q: Scan, ids: set<EventId>)
    requires IsStore(q.db)
    ensures PageFilter(q, ids).events == Take(Pick(MetBy(q, ids), ids, q.visible), q.limit)
  {
    var c := Begin(q, ids);
    assert Bounded(q, c) == q.filter;
    if q.limit > 0 {
      var _, _, _ := PageWalks(q, c, MAX_ATTEMPTS);
      assert Review(0) && Expand(0);
    } else {
      assert Window(q, c) == [];
    }
  }

  // ----- Filter, then take -----

  /** Picking from some of the matches is picking from all with the others hidden. */
  lemma {:induction false} PickWithin(part: seq<Event>, m: seq<Event>, ids: set<EventId>, visible: Event -> bool)
    requires Within(part, m) && DistinctIds(m)
    ensures Pick(part, ids, visible) == Pick(m, ids, e => visible(e) && e in part)
    decreases |m|
  {
    WithinElements(part, m);
    if m == [] {
      PickNothing(part, ids, visible);
    } else {
      var init, e := m[..|m| - 1], m[|m| - 1];
      var front := if e in part then WithoutLast(part, m) else part;
      if e !in part { WithinInit(part, m); }
      PickWithin(front, init, ids, visible);
      SameSight(init, ids, e => visible(e) && e in front, e => visible(e) && e in part);
    }
  }

  lemma WithinInit(part: seq<Event>, m: seq<Event>)
    requires m != [] && Within(part, m) && m[|m| - 1] !in part
    ensures Within(part, m[..|m| - 1])
  {
    var at :| Embeds(part, m, at);
    forall i | 0 <= i < |part| ensures at[i] < |m| - 1 { assert part[i] in part; }
    assert Embeds(part, m[..|m| - 1], at);
  }

  /** The part without its last element. */
  function WithoutLast(part: seq<Event>, m: seq<Event>): (front: seq<Event>)
    requires m != [] && Within(part, m) && DistinctIds(m) && m[|m| - 1] in part
    ensures part == front + [m[|m| - 1]] && Within(front, m[..|m| - 1])
    ensures forall e | e in m[..|m| - 1] :: e in part <==> e in front
  {
    LastIsLast(part, m);
    part[..|part| - 1]
  }

  lemma LastIsLast(part: seq<Event>, m: seq<Event>)
    requires m != [] && Within(part, m) && DistinctIds(m) && m[|m| - 1] in part
    ensures part[|part| - 1] == m[|m| - 1] && Within(part[..|part| - 1], m[..|m| - 1])
  {
    var n, last := |m| - 1, |part| - 1;
    var at :| Embeds(part, m, at);
    assert forall j | 0 <= j < last :: at[j] < at[last] < |m|;
    var i :| 0 <= i < |part| && part[i] == m[n];
    assert m[at[i]] == m[n];
    assert at[i] == n;
    assert i == last;
    assert Embeds(part[..last], m[..n], at[..last]);
  }

  /** Visibility matters only for the events at hand. */
  lemma {:induction false} SameSight(m: seq<Event>, ids: set<EventId>, u: Event -> bool, v: Event -> bool)
    requires forall e | e in m :: u(e) == v(e)
    ensures Pick(m, ids, u) == Pick(m, ids, v)
    decreases |m|
  {
    if m != [] {
      assert m[|m| - 1] in m;
      SameSight(m[..|m| - 1], ids, u, v);
    }
  }

  lemma PickOne(e: Event, ids: set<EventId>, visible: Event -> bool)
    ensures Pick([e], ids, visible) == if e.id !in ids && visible(e) then [e] else []
  {
    assert [e][..0] == [];
  }

  lemma PickAround(m: seq<Event>, ids: set<EventId>, visible: Event -> bool, p: nat)
    requires p < |m|
    ensures Pick(m, ids, visible) ==
            Pick(m[..p], ids, visible) + Pick([m[p]], ids, visible) + Pick(m[p + 1..], ids, visible)
  {
    assert m == m[..p] + [m[p]] + m[p + 1..];
    PickAppend(m[..p] + [m[p]], m[p + 1..], ids, visible);
    PickAppend(m[..p], [m[p]], ids, visible);
  }

  lemma TakeMiddle<T>(a: seq<T>, b: seq<T>, c: seq<T>, e: T, limit: nat)
    requires e !in a && e !in c && (b == [e] || b == [])
    ensures e in Take(a + b + c, limit) <==> b == [e] && |a| < limit
  {
    var s := a + b + c;
    if b == [e] && |a| < limit { assert Take(s, limit)[|a|] == e; }
    if e in Take(s, limit) {
      var i :| 0 <= i < |Take(s, limit)| && Take(s, limit)[i] == e;
      assert s[i] == e;
    }
  }

  lemma PickedFrom(m: seq<Event>, ids: set<EventId>, visible: Event -> bool, e: Event)
    requires e !in m
    ensures e !in Pick(m, ids, visible)
  {
    PickElements(m, ids, visible);
  }

  /** A match is taken exactly if it is visible and unsent and fewer than the limit of those come before it. */
  lemma TakenAt(m: seq<Event>, ids: set<EventId>, visible: Event -> bool, limit: nat, p: nat)
    requires DistinctIds(m) && p < |m|
    ensures m[p] in Take(Pick(m, ids, visible), limit) <==>
            m[p].id !in ids && visible(m[p]) && |Pick(m[..p], ids, visible)| < limit
  {
    PickAround(m, ids, visible, p);
    PickOne(m[p], ids, visible);
    PickedFrom(m[..p], ids, visible, m[p]);
    PickedFrom(m[p + 1..], ids, visible, m[p]);
    TakeMiddle(Pick(m[..p], ids, visible), Pick([m[p]], ids, visible), Pick(m[p + 1..], ids, visible), m[p], limit);
  }

  /** The event at the position is hidden from the stricter sight only. */
  ghost predicate Hidden(m: seq<Event>, ids: set<EventId>, v: Event -> bool, u: Event -> bool, p: nat)
    requires p < |m|
  {
    m[p].id !in ids && v(m[p]) && !u(m[p])
  }

  /** The first event hidden from the stricter sight only, if there is one. */
  lemma FirstHidden(m: seq<Event>, ids: set<EventId>, v: Event -> bool, u: Event -> bool, n: nat) returns (p: nat)
    requires n <= |m| && forall i | 0 <= i < n :: !Hidden(m, ids, v, u, i)
    ensures p <= |m| && (p < |m| ==> Hidden(m, ids, v, u, p)) && forall i | 0 <= i < p :: !Hidden(m, ids, v, u, i)
    decreases |m| - n
  {
    if n == |m| || Hidden(m, ids, v, u, n) { p := n; } else { p := FirstHidden(m, ids, v, u, n + 1); }
  }

  lemma TakePrefix<T>(a: seq<T>, b: seq<T>, c: seq<T>, limit: nat)
    requires |a| >= limit
    ensures Take(a + b, limit) == Take(a + c, limit)
  {
  }

  /** Up to the first hidden event both sights pick the same. */
  lemma SameBefore(m: seq<Event>, ids: set<EventId>, v: Event -> bool, u: Event -> bool, p: nat)
    requires p <= |m| && (forall e | e in m && u(e) :: v(e)) && forall i | 0 <= i < p :: !Hidden(m, ids, v, u, i)
    ensures Pick(m[..p], ids, u) == Pick(m[..p], ids, v)
    decreases p
  {
    if p > 0 {
      assert m[..p][..p - 1] == m[..p - 1] && m[..p][p - 1] == m[p - 1] && m[p - 1] in m;
      assert !Hidden(m, ids, v, u, p - 1);
      SameBefore(m, ids, v, u, p - 1);
    }
  }

  /** Hiding more events costs nothing exactly if those hidden come after enough others. */
  lemma HidingMore(m: seq<Event>, ids: set<EventId>, v: Event -> bool, u: Event -> bool, limit: nat)
    requires DistinctIds(m) && forall e | e in m && u(e) :: v(e)
    ensures Take(Pick(m, ids, u), limit) == Take(Pick(m, ids, v), limit) <==>
            forall p | 0 <= p < |m| && Hidden(m, ids, v, u, p) :: |Pick(m[..p], ids, v)| >= limit
  {
    if Take(Pick(m, ids, u), limit) == Take(Pick(m, ids, v), limit) {
      forall p | 0 <= p < |m| && Hidden(m, ids, v, u, p) ensures |Pick(m[..p], ids, v)| >= limit {
        TakenAt(m, ids, u, limit, p);
        TakenAt(m, ids, v, limit, p);
      }
    }
    var p := FirstHidden(m, ids, v, u, 0);
    SameBefore(m, ids, v, u, p);
    if p == |m| {
      assert m[..p] == m;
    } else if |Pick(m[..p], ids, v)| >= limit {
      assert m == m[..p] + m[p..];
      PickAppend(m[..p], m[p..], ids, u);
      PickAppend(m[..p], m[p..], ids, v);
      TakePrefix(Pick(m[..p], ids, v), Pick(m[p..], ids, u), Pick(m[p..], ids, v), limit);
    }
  }

  // ----- What a filter loses -----

  /** Paging filters by visibility, hides the matches its windows do not get past, and takes the newest. */
  lemma PagingIsMetAndVisible(q: Scan, ids: set<EventId>)
    requires IsStore(q.db)
    ensures PageFilter(q, ids).events ==
            Take(Pick(Select(q.db, q.filter), ids, e => q.visible(e) && e in MetBy(q, ids)), q.limit)
  {
    PagingSendsMet(q, ids);
    MatchesFacts(q);
    MetWithin(Select(q.db, q.filter), Sent(Select(q.db, q.filter), ids), q.limit, MAX_ATTEMPTS);
    PickWithin(MetBy(q, ids), Select(q.db, q.filter), ids, q.visible);
  }

  lemma MatchesFacts(q: Scan)
    requires IsStore(q.db)
    ensures NewestFirst(Select(q.db, q.filter)) && DistinctIds(Select(q.db, q.filter))
    ensures forall e :: e in Select(q.db, q.filter) <==> e in q.db && Matches(q.filter, e)
  {
    assert Bounded(q, Begin(q, {})) == q.filter;
    ReachableFacts(q, Begin(q, {}));
  }

  /**
    Exactly which matches are sent: the visible unsent ones the windows get past, while fewer than
    the limit of them come before.
   */
  lemma SentExactly(q: Scan, ids: set<EventId>, p: nat)
    requires IsStore(q.db) && p < |Select(q.db, q.filter)|
    ensures var m, met := Select(q.db, q.filter), MetBy(q, ids);
            m[p] in PageFilter(q, ids).events <==>
            && m[p].id !in ids && q.visible(m[p]) && m[p] in met
            && |Pick(m[..p], ids, e => q.visible(e) && e in met)| < q.limit
  {
    PagingIsMetAndVisible(q, ids);
    MatchesFacts(q);
    TakenAt(Select(q.db, q.filter), ids, e => q.visible(e) && e in MetBy(q, ids), q.limit, p);
  }

  /**
    A filter sends the newest visible unsent matches, losing none, if and only if each visible
    unsent match its windows skip or do not get to has at least the limit of newer ones.
   */
  lemma NothingLostExactly(q: Scan, ids: set<EventId>)
    requires IsStore(q.db)
    ensures var m := Select(q.db, q.filter);
            PageFilter(q, ids).events == Take(Pick(m, ids, q.visible), q.limit) <==>
            forall p | 0 <= p < |m| && m[p].id !in ids && q.visible(m[p]) && m[p] !in MetBy(q, ids) ::
              |Pick(m[..p], ids, q.visible)| >= q.limit
  {
    var m, met := Select(q.db, q.filter), MetBy(q, ids);
    var u := e => q.visible(e) && e in met;
    PagingIsMetAndVisible(q, ids);
    MatchesFacts(q);
    HidingMore(m, ids, q.visible, u, q.limit);
    assert forall p | 0 <= p < |m| ::
        Hidden(m, ids, q.visible, u, p) <==> m[p].id !in ids && q.visible(m[p]) && m[p] !in met;
  }

  /** Exactly what a REQ sends for each of its filters, given what it sent for those before. */
  lemma {:induction false} PageFiltersExact(db: seq<Event>, fs: seq<Filter>, limit: nat, visible: Event -> bool, i: nat)
    requires IsStore(db) && i < |fs|
    ensures var parts := PageFilters(db, fs, limit, visible);
            |parts| == |fs| &&
            var q, ids := Scan(db, fs[i], limit, visible), Ids(Flatten(parts[..i]));
            parts[i] == Take(Pick(MetBy(q, ids), ids, visible), limit)
    decreases |fs|
  {
    var init := fs[..|fs| - 1];
    PageFiltersLast(db, fs, limit, visible);
    if i < |init| {
      PageFiltersExact(db, init, limit, visible, i);
      PartBefore(PageFilters(db, init, limit, visible), PageFilters(db, fs, limit, visible), i);
    }
  }

  lemma PartBefore<T>(init: seq<T>, s: seq<T>, i: nat)
    requires |s| > 0 && init == s[..|s| - 1] && i < |init|
    ensures init[..i] == s[..i] && init[i] == s[i]
  {
  }

  lemma PageFiltersLast(db: seq<Event>, fs: seq<Filter>, limit: nat, visible: Event -> bool)
    requires IsStore(db) && fs != []
    ensures var n, parts := |fs| - 1, PageFilters(db, fs, limit, visible);
            |parts| == |fs| && parts[..n] == PageFilters(db, fs[..n], limit, visible) &&
            var q, ids := Scan(db, fs[n], limit, visible), Ids(Flatten(parts[..n]));
            parts[n] == Take(Pick(MetBy(q, ids), ids, visible), limit)
  {
    var before := PageFilters(db, fs[..|fs| - 1], limit, visible);
    PageFiltersLength(db, fs[..|fs| - 1], limit, visible);
    PagingSendsMet(Scan(db, fs[|fs| - 1], limit, visible), Ids(Flatten(before)));
  }

  lemma {:induction false} PageFiltersLength(db: seq<Event>, fs: seq<Filter>, limit: nat, visible: Event -> bool)
    ensures |PageFilters(db, fs, limit, visible)| == |fs|
    decreases |fs|
  {
    if fs != [] { PageFiltersLength(db, fs[..|fs| - 1], limit, visible); }
  }

  // ----- Scans that run out of matches -----

  /**
    A scan ends on an empty window exactly if its windows run out of matches within the attempts
    without filling the limit.
   */
  lemma EndsEmptyExactly(q: Scan, ids: set<EventId>)
    requires IsStore(q.db) && q.limit > 0
    ensures var m := Select(q.db, q.filter);
            PageFilter(q, ids).end == EmptyWindow <==>
            RunsOut(m, Sent(m, ids), q.limit, MAX_ATTEMPTS) && |Pick(MetBy(q, ids), ids, q.visible)| < q.limit
  {
    assert Bounded(q, Begin(q, ids)) == q.filter;
    var _, _, _ := PageWalks(q, Begin(q, ids), MAX_ATTEMPTS);
    assert Review(0) && Expand(0);
  }

  /** Every unsent match is met, or shares its second with an unsent one that is met. */
  ghost predicate Accounted(m: seq<Event>, sent: seq<bool>, limit: nat, attempts: nat)
    requires |sent| == |m|
  {
    forall n: nat {:trigger Review(n)} :: Review(n) ==>
      forall p | 0 <= p < |m| && !sent[p] :: AccountedAt(m, sent, Met(m, sent, limit, attempts), p)
  }

  ghost predicate AccountedAt(m: seq<Event>, sent: seq<bool>, met: seq<Event>, p: nat)
    requires p < |m| == |sent|
  {
    m[p] in met || exists j :: 0 <= j < |m| && m[j] in met && !sent[j] && m[j].createdAt == m[p].createdAt
  }

  lemma AccountedBelow(m: seq<Event>, sent: seq<bool>, k: nat, n: nat, met: seq<Event>, p: nat)
    requires n <= k <= p < |m| == |sent| && AccountedAt(m[k..], sent[k..], met, p - k)
    ensures AccountedAt(m, sent, m[..n] + met, p)
  {
    if j :| 0 <= j < |m[k..]| && m[k..][j] in met && !sent[k..][j] && m[k..][j].createdAt == m[k..][p - k].createdAt {
      assert m[k + j] in met && !sent[k + j];
    }
  }

  lemma AccountedHere(m: seq<Event>, sent: seq<bool>, limit: nat, met: seq<Event>, p: nat)
    requires |m| == |sent| && NewestFirst(m) && Past(sent, limit) > 0
    requires p < Below(m, Past(sent, limit)) && !sent[p]
    ensures AccountedAt(m, sent, m[..Past(sent, limit)] + met, p)
  {
    var n := Past(sent, limit);
    var all := m[..n] + met;
    ResumeIs(m, m[n - 1].createdAt, n);
    PastIs(sent, limit);
    assert all[n - 1] == m[n - 1];
    if p < n { assert all[p] == m[p]; }
  }

  lemma AccountedNext(m: seq<Event>, sent: seq<bool>, limit: nat, attempts: nat)
    requires |sent| == |m| && NewestFirst(m) && attempts > 0
    requires var n := Past(sent, limit);
             n > 0 && m[n - 1].createdAt > 0 && Accounted(m[Below(m, n)..], sent[Below(m, n)..], limit, attempts - 1)
    ensures Accounted(m, sent, limit, attempts)
  {
    assert Review(0);
    var n := Past(sent, limit);
    var k := Below(m, n);
    var met := Met(m[k..], sent[k..], limit, attempts - 1);
    forall p | 0 <= p < |m| && !sent[p] ensures AccountedAt(m, sent, m[..n] + met, p) {
      if p < k {
        AccountedHere(m, sent, limit, met, p);
      } else {
        assert sent[k..][p - k] == sent[p];
        AccountedBelow(m, sent, k, n, met, p);
      }
    }
  }

  /** When the windows run out of matches, what they skipped shares its second with something they met. */
  lemma {:induction false} SkippedSharesSecond(m: seq<Event>, sent: seq<bool>, limit: nat, attempts: nat)
    requires |sent| == |m| && NewestFirst(m) && RunsOut(m, sent, limit, attempts)
    ensures Accounted(m, sent, limit, attempts)
    decreases attempts
  {
    if m != [] {
      var k := Below(m, Past(sent, limit));
      SkippedSharesSecond(m[k..], sent[k..], limit, attempts - 1);
      AccountedNext(m, sent, limit, attempts);
    }
  }

  /**
    A scan that ends on an empty window sends a visible unsent match if and only if its windows get
    past it; one that is lost shares its second with another unsent match, which they got past.
   */
  lemma EmptyWindowMeansComplete(q: Scan, ids: set<EventId>, e: Event)
    requires IsStore(q.db) && q.limit > 0 && PageFilter(q, ids).end == EmptyWindow
    requires e in q.db && Matches(q.filter, e) && e.id !in ids && q.visible(e)
    ensures e in PageFilter(q, ids).events <==> e in MetBy(q, ids)
    ensures e in PageFilter(q, ids).events ||
            exists x :: x in MetBy(q, ids) && x != e && x.id !in ids && x.createdAt == e.createdAt
  {
    EndsEmptyExactly(q, ids);
    PagingSendsMet(q, ids);
    PickElements(MetBy(q, ids), ids, q.visible);
    MatchesFacts(q);
    if e !in MetBy(q, ids) {
      var m := Select(q.db, q.filter);
      var p :| 0 <= p < |m| && m[p] == e;
      SkippedSharesSecond(m, Sent(m, ids), q.limit, MAX_ATTEMPTS);
      assert Review(0) && !Sent(m, ids)[p];
      assert AccountedAt(m, Sent(m, ids), MetBy(q, ids), p);
    }
  }

  // ----- Seconds that are cut -----

  const Hidden5 := Event(1, 0, 1, 5, [])
  const Shown5 := Event(2, 0, 1, 5, [])
  const Shown4 := Event(3, 0, 1, 4, [])

  /**
    Three events, the two newest of one second, and a limit of one: an older visible event is sent
    in place of the newer one that shares its second with a hidden one.
   */
  lemma OlderInsteadExample(visible: Event -> bool)
    requires !visible(Hidden5) && visible(Shown5) && visible(Shown4)
    ensures var q := Scan([Hidden5, Shown5, Shown4], AnyFilter, 1, visible);
            && PageFilter(q, {}).events == [Shown4]
            && Take(Pick(Select(q.db, q.filter), {}, q.visible), q.limit) == [Shown5]
  {
    var q := Scan([Hidden5, Shown5, Shown4], AnyFilter, 1, visible);
    SelectThree(q.db);
    PagingSendsMet(q, {});
    MetOfThree(q.db);
    PickOfThree(visible);
  }

  lemma SelectThree(m: seq<Event>)
    requires m == [Hidden5, Shown5, Shown4]
    ensures Select(m, AnyFilter) == m
  {
    SelectTwo(Hidden5, Shown5, AnyFilter);
    assert m[..2] == [Hidden5, Shown5];
  }

  lemma PickOfThree(visible: Event -> bool)
    requires !visible(Hidden5) && visible(Shown5) && visible(Shown4)
    ensures Pick([Hidden5, Shown4], {}, visible) == [Shown4]
    ensures Pick([Hidden5, Shown5, Shown4], {}, visible) == [Shown5, Shown4]
  {
    PickOne(Hidden5, {}, visible);
    assert [Hidden5, Shown4][..1] == [Hidden5] && [Hidden5, Shown5][..1] == [Hidden5];
    assert Pick([Hidden5, Shown5], {}, visible) == [Shown5];
    assert [Hidden5, Shown5, Shown4][..2] == [Hidden5, Shown5];
  }

  lemma MetOfThree(m: seq<Event>)
    requires m == [Hidden5, Shown5, Shown4]
    ensures Met(m, Sent(m, {}), 1, MAX_ATTEMPTS) == [Hidden5, Shown4]
  {
    var sent := Sent(m, {});
    assert sent == [false, false, false] && Past(sent, 1) == 1;
    assert Resume(m, 5, 2) == 2 && Below(m, 1) == 2;
    assert m[2..] == [Shown4] && sent[2..] == [false] && Past([false], 1) == 1;
    assert Below([Shown4], 1) == 1 && [Shown4][1..] == [] && [false][1..] == [];
    assert Met([], [], 1, MAX_ATTEMPTS - 2) == [];
    assert Met([Shown4], [false], 1, MAX_ATTEMPTS - 1) == [Shown4];
  }
}
