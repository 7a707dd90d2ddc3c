/**
  What paging delivers when timestamps are distinct, whatever was already sent for earlier filters:
  no window skips anything, so a filter sends exactly its newest visible unsent matches up to the
  first run of already sent ones that fills a whole window, or up to the attempt cap.
 */
module PaginationFrontier {
  import opened Nostr
  import opened Pagination
  import opened PaginationRefinement
  import opened PaginationWalk

  // ----- The frontier -----

  /** How many of the matches the given number of windows gets past. */
  function Frontier(sent: seq<bool>, limit: nat, attempts: nat): (n: nat)
    ensures n <= |sent|
    decreases attempts, |sent|
  {
    var n := Past(sent, limit);
    if attempts == 0 || n == 0 then 0 else n + Frontier(sent[n..], limit, attempts - 1)
  }

  /** So many windows suffice to reach one that gets past nothing. */
  predicate Settled(sent: seq<bool>, limit: nat, attempts: nat)
    decreases attempts, |sent|
  {
    var n := Past(sent, limit);
    n == 0 || (attempts > 0 && Settled(sent[n..], limit, attempts - 1))
  }

  /** With distinct timestamps nothing is skipped: what is met is everything before the frontier. */
  ghost predicate MeetsFrontier(m: seq<Event>, sent: seq<bool>, limit: nat, attempts: nat)
    requires |sent| == |m|
  {
    forall n: nat {:trigger Review(n)} :: Review(n) ==> UpToFrontier(m, sent, limit, attempts)
  }

  ghost predicate UpToFrontier(m: seq<Event>, sent: seq<bool>, limit: nat, attempts: nat)
    requires |sent| == |m|
  {
    Met(m, sent, limit, attempts) == m[..Frontier(sent, limit, attempts)]
  }

  /** Strictly newest first. */
  ghost predicate Strict(m: seq<Event>)
  {
    forall n: nat {:trigger Compare(n)} :: Compare(n) ==> NewestFirst(m) && DistinctTimes(m)
  }

  lemma StrictSuffix(m: seq<Event>, n: nat)
    requires Strict(m) && n <= |m|
    ensures Strict(m[n..])
  {
    assert Compare(0);
  }

  lemma NothingSkipped(m: seq<Event>, n: nat)
    requires Strict(m) && 0 < n <= |m|
    ensures Below(m, n) == n && (m[n - 1].createdAt == 0 ==> n == |m| && Resume(m, 1, 0) >= n - 1)
  {
    assert Compare(0);
    ResumeIs(m, 1, 0);
    assert n < |m| ==> m[n - 1].createdAt > m[n].createdAt;
    assert forall i | 0 <= i < n - 1 :: m[i].createdAt > m[n - 1].createdAt;
  }

  lemma FrontierNext(m: seq<Event>, n: nat, sent: seq<bool>, limit: nat, attempts: nat)
    requires |sent| == |m| && Strict(m)
    requires attempts > 0 && n == Past(sent, limit) > 0 && m[n - 1].createdAt > 0
    requires MeetsFrontier(m[n..], sent[n..], limit, attempts - 1)
    ensures MeetsFrontier(m, sent, limit, attempts)
  {
    NothingSkipped(m, n);
    var rest, k := Met(m[n..], sent[n..], limit, attempts - 1), Frontier(sent[n..], limit, attempts - 1);
    assert rest == m[n..][..k] by { assert Review(0); }
    OnceMore(m, n, sent, limit, attempts, rest, k);
    PrefixSplit(m, n, k);
  }

  lemma OnceMore(m: seq<Event>, n: nat, sent: seq<bool>, limit: nat, attempts: nat, rest: seq<Event>, k: nat)
    requires |sent| == |m| && attempts > 0 && n == Past(sent, limit) > 0 && m[n - 1].createdAt > 0 && Below(m, n) == n
    requires rest == Met(m[n..], sent[n..], limit, attempts - 1) && k == Frontier(sent[n..], limit, attempts - 1)
    ensures Met(m, sent, limit, attempts) == m[..n] + rest && Frontier(sent, limit, attempts) == n + k
  {
  }

  lemma PrefixSplit<T>(s: seq<T>, n: nat, k: nat)
    requires n + k <= |s|
    ensures s[..n + k] == s[..n] + s[n..][..k]
  {
  }

  lemma FrontierAtEnd(m: seq<Event>, n: nat, sent: seq<bool>, limit: nat, attempts: nat)
    requires |sent| == |m| && Strict(m)
    requires n == Past(sent, limit) && (attempts == 0 || n == 0 || m[n - 1].createdAt == 0)
    ensures MeetsFrontier(m, sent, limit, attempts)
  {
    if attempts > 0 && n > 0 {
      NothingSkipped(m, n);
      assert m[..n] == m && sent[n..] == [];
      assert Frontier(sent[n..], limit, attempts - 1) == 0;
    }
  }

  lemma {:induction false} MetIsFrontier(m: seq<Event>, sent: seq<bool>, limit: nat, attempts: nat)
    requires |sent| == |m| && Strict(m)
    ensures MeetsFrontier(m, sent, limit, attempts)
    decreases attempts
  {
    var n := Past(sent, limit);
    if attempts > 0 && n > 0 && m[n - 1].createdAt > 0 {
      StrictSuffix(m, n);
      MetIsFrontier(m[n..], sent[n..], limit, attempts - 1);
      FrontierNext(m, n, sent, limit, attempts);
    } else {
      FrontierAtEnd(m, n, sent, limit, attempts);
    }
  }

  /**
    With distinct timestamps, whatever was sent before: of the matches its windows get past, the
    newest `limit` that are visible and unsent.
   */
  lemma PagingIsFrontier(q: Scan, ids: set<EventId>)
    requires IsStore(q.db) && DistinctTimes(Select(q.db, q.filter))
    ensures var m := Select(q.db, q.filter);
            PageFilter(q, ids).events ==
            Take(Pick(m[..Frontier(Sent(m, ids), q.limit, MAX_ATTEMPTS)], ids, q.visible), q.limit)
  {
    PagingSendsMet(q, ids);
    MatchesFacts(q);
    MetIsFrontier(Select(q.db, q.filter), Sent(Select(q.db, q.filter), ids), q.limit, MAX_ATTEMPTS);
    assert Review(0);
  }

  // ----- The frontier and the first gap -----

  /** A whole window of matches sent before starts here. */
  ghost predicate RunAt(sent: seq<bool>, limit: nat, k: nat)
  {
    k + limit <= |sent| && forall i | k <= i < k + limit :: sent[i]
  }

  /** The first such run, or the end. */
  ghost predicate FirstRun(sent: seq<bool>, limit: nat, k: nat)
  {
    k <= |sent| &&
    forall n: nat {:trigger Review(n)} :: Review(n) ==>
      (k == |sent| || RunAt(sent, limit, k)) && forall j | 0 <= j < k :: !RunAt(sent, limit, j)
  }

  lemma RunOfSuffix(sent: seq<bool>, limit: nat, n: nat, k: nat)
    requires n <= |sent|
    ensures RunAt(sent[n..], limit, k) <==> RunAt(sent, limit, n + k)
  {
    if RunAt(sent[n..], limit, k) {
      forall i | n + k <= i < n + k + limit ensures sent[i] { assert sent[n..][i - n]; }
    }
  }

  /** A window does not skip into a whole run. */
  lemma FirstRunOfSuffix(sent: seq<bool>, limit: nat, n: nat, k: nat)
    requires FirstRun(sent, limit, k) && n == Past(sent, limit) > 0
    ensures n <= k && FirstRun(sent[n..], limit, k - n)
  {
    assert Review(0);
    PastIs(sent, limit);
    assert !sent[n - 1];
    RunOfSuffix(sent, limit, n, k - n);
    forall j | 0 <= j < k - n ensures !RunAt(sent[n..], limit, j) { RunOfSuffix(sent, limit, n, j); }
  }

  lemma {:induction false} FrontierBeforeRun(sent: seq<bool>, limit: nat, attempts: nat, k: nat)
    requires FirstRun(sent, limit, k)
    ensures Frontier(sent, limit, attempts) <= k
    decreases attempts
  {
    var n := Past(sent, limit);
    if n > 0 && attempts > 0 {
      FirstRunOfSuffix(sent, limit, n, k);
      FrontierBeforeRun(sent[n..], limit, attempts - 1, k - n);
    }
  }

  /** Once settled, the windows have got past everything unsent before the first run. */
  lemma {:induction false} SettledPastUnsent(sent: seq<bool>, limit: nat, attempts: nat, k: nat)
    requires FirstRun(sent, limit, k) && Settled(sent, limit, attempts)
    ensures forall i | Frontier(sent, limit, attempts) <= i < k :: sent[i]
    decreases attempts
  {
    var n := Past(sent, limit);
    if n == 0 {
      AllSentBefore(sent, limit, k);
    } else {
      FirstRunOfSuffix(sent, limit, n, k);
      SettledPastUnsent(sent[n..], limit, attempts - 1, k - n);
      FrontierBeforeRun(sent[n..], limit, attempts - 1, k - n);
      ShiftSent(sent, n, Frontier(sent[n..], limit, attempts - 1), k);
    }
  }

  lemma AllSentBefore(sent: seq<bool>, limit: nat, k: nat)
    requires FirstRun(sent, limit, k) && Past(sent, limit) == 0
    ensures forall i | 0 <= i < k :: sent[i]
  {
    assert Review(0);
    PastIs(sent, limit);
    if limit <= |sent| { assert RunAt(sent, limit, 0); }
  }

  lemma ShiftSent(sent: seq<bool>, n: nat, j: nat, k: nat)
    requires n + j <= k <= |sent|
    ensures (forall i | j <= i < k - n :: sent[n..][i]) ==> forall i | n + j <= i < k :: sent[i]
  {
    if forall i | j <= i < k - n :: sent[n..][i] {
      forall i | n + j <= i < k ensures sent[i] { assert sent[n..][i - n]; }
    }
  }

  // ----- The attempt cap -----

  /** Two windows that both get past something get past more than one window's worth. */
  lemma TwoWindows(sent: seq<bool>, limit: nat)
    ensures var n := Past(sent, limit);
            var k := Past(sent[n..], limit);
            k > 0 ==> n + k > limit
  {
    var n := Past(sent, limit);
    var k := Past(sent[n..], limit);
    PastIs(sent, limit);
    PastIs(sent[n..], limit);
    if k > 0 { assert !sent[n..][k - 1] && !sent[n + k - 1]; }
  }

  /** So many attempts settle the scan or get past the given number of matches. */
  ghost predicate SettlesOrGains(sent: seq<bool>, limit: nat, attempts: nat, goal: nat)
  {
    forall n: nat {:trigger Review(n)} :: Review(n) ==> SettledOrPast(sent, limit, attempts, goal)
  }

  predicate SettledOrPast(sent: seq<bool>, limit: nat, attempts: nat, goal: nat)
  {
    Settled(sent, limit, attempts) || Frontier(sent, limit, attempts) >= goal
  }

  lemma AtOnce(sent: seq<bool>, limit: nat, attempts: nat, goal: nat)
    requires goal == 0 || Past(sent, limit) == 0
    ensures SettlesOrGains(sent, limit, attempts, goal)
  {
  }

  lemma OneTurn(sent: seq<bool>, n: nat, limit: nat, attempts: nat, goal: nat)
    requires attempts > 0 && n == Past(sent, limit) > 0
    requires SettlesOrGains(sent[n..], limit, attempts - 1, goal)
    ensures SettlesOrGains(sent, limit, attempts, n + goal)
  {
    assert Review(0);
  }

  lemma LowerGoal(sent: seq<bool>, limit: nat, attempts: nat, goal: nat, lower: nat)
    requires SettlesOrGains(sent, limit, attempts, goal) && lower <= goal
    ensures SettlesOrGains(sent, limit, attempts, lower)
  {
    assert Review(0);
  }

  /** Twice as many attempts as windows settle the scan or get past one more than a window's worth each. */
  lemma {:induction false} SettlesOrReaches(sent: seq<bool>, limit: nat, turns: nat, goal: nat)
    requires goal == turns * (limit + 1)
    ensures SettlesOrGains(sent, limit, 2 * turns, goal)
    decreases turns
  {
    var n := Past(sent, limit);
    if turns == 0 || n == 0 {
      AtOnce(sent, limit, 2 * turns, goal);
    } else {
      var k := Past(sent[n..], limit);
      OneMore(turns, limit + 1);
      var left := goal - (limit + 1);
      if k > 0 {
        SettlesOrReaches(sent[n..][k..], limit, turns - 1, left);
      }
      TwoTurns(sent, n, k, limit, 2 * turns, left);
    }
  }

  lemma TwoTurns(sent: seq<bool>, n: nat, k: nat, limit: nat, attempts: nat, left: nat)
    requires attempts >= 2 && n == Past(sent, limit) > 0 && k == Past(sent[n..], limit)
    requires k > 0 ==> SettlesOrGains(sent[n..][k..], limit, attempts - 2, left)
    ensures SettlesOrGains(sent, limit, attempts, left + (limit + 1))
  {
    if k == 0 {
      AtOnce(sent[n..], limit, attempts - 1, limit + 1 + left);
      OneTurn(sent, n, limit, attempts, limit + 1 + left);
      LowerGoal(sent, limit, attempts, n + (limit + 1 + left), left + (limit + 1));
    } else {
      TwoWindows(sent, limit);
      OneTurn(sent[n..], k, limit, attempts - 1, left);
      OneTurn(sent, n, limit, attempts, k + left);
      LowerGoal(sent, limit, attempts, n + (k + left), left + (limit + 1));
    }
  }

  lemma OneMore(n: nat, size: nat)
    requires n > 0
    ensures n * size == (n - 1) * size + size
  {
  }

  lemma {:induction false} SettledAtEnd(sent: seq<bool>, limit: nat, attempts: nat)
    requires Frontier(sent, limit, attempts) == |sent|
    ensures Settled(sent, limit, attempts)
    decreases attempts
  {
    var n := Past(sent, limit);
    if attempts > 0 && n > 0 { SettledAtEnd(sent[n..], limit, attempts - 1); }
  }

  lemma SettlesIfReached(sent: seq<bool>, limit: nat, attempts: nat, left: nat)
    requires SettlesOrGains(sent, limit, attempts, left) && |sent| <= left
    ensures Settled(sent, limit, attempts)
  {
    assert Review(0);
    if Frontier(sent, limit, attempts) == |sent| { SettledAtEnd(sent, limit, attempts); }
  }

  /** Whatever was sent before, fifty attempts settle a scan with at most 25 (limit + 1) matches. */
  lemma CapSuffices(sent: seq<bool>, limit: nat)
    requires |sent| <= 25 * (limit + 1)
    ensures Settled(sent, limit, MAX_ATTEMPTS)
  {
    SettlesOrReaches(sent, limit, 25, 25 * (limit + 1));
    SettlesIfReached(sent, limit, MAX_ATTEMPTS, 25 * (limit + 1));
  }

  function Smaller(a: nat, b: nat): (r: nat)
  {
    if a <= b then a else b
  }

  lemma SmallerNext(size: nat, limit: nat, attempts: nat)
    requires attempts > 0
    ensures var n := Smaller(size, limit);
            n + Smaller(size - n, (attempts - 1) * limit) == Smaller(size, attempts * limit)
  {
    OneMore(attempts, limit);
  }

  /** If nothing was sent before, they get past exactly fifty windows' worth. */
  lemma {:induction false} FrontierOfUnsent(sent: seq<bool>, limit: nat, attempts: nat)
    requires forall i | 0 <= i < |sent| :: !sent[i]
    ensures Frontier(sent, limit, attempts) == Smaller(|sent|, attempts * limit)
    decreases attempts
  {
    WholeUnsent(sent, limit);
    var n := Smaller(|sent|, limit);
    if attempts > 0 {
      SmallerNext(|sent|, limit, attempts);
      if n > 0 { FrontierOfUnsent(sent[n..], limit, attempts - 1); }
    }
  }

  lemma WholeUnsent(sent: seq<bool>, limit: nat)
    requires forall i | 0 <= i < |sent| :: !sent[i]
    ensures Past(sent, limit) == Smaller(|sent|, limit)
  {
    var w := Take(sent, limit);
    assert w != [] ==> !w[|w| - 1];
  }

  // ----- What a filter sends -----

  /**
    A filter sends its newest visible unsent matches up to the first run of matches already sent
    that fills a window, unless the attempts run out before.
   */
  lemma PagingStopsAtFirstRun(q: Scan, ids: set<EventId>, k: nat)
    requires IsStore(q.db) && DistinctTimes(Select(q.db, q.filter))
    requires var sent := Sent(Select(q.db, q.filter), ids);
             FirstRun(sent, q.limit, k) && Settled(sent, q.limit, MAX_ATTEMPTS)
    ensures PageFilter(q, ids).events == Take(Pick(Select(q.db, q.filter)[..k], ids, q.visible), q.limit)
  {
    PagingIsFrontier(q, ids);
    PickToFirstRun(Select(q.db, q.filter), ids, q.limit, MAX_ATTEMPTS, k, q.visible);
  }

  lemma PickToFirstRun(m: seq<Event>, ids: set<EventId>, limit: nat, attempts: nat, k: nat, visible: Event -> bool)
    requires FirstRun(Sent(m, ids), limit, k) && Settled(Sent(m, ids), limit, attempts)
    ensures Pick(m[..Frontier(Sent(m, ids), limit, attempts)], ids, visible) == Pick(m[..k], ids, visible)
  {
    var n := Frontier(Sent(m, ids), limit, attempts);
    FrontierBeforeRun(Sent(m, ids), limit, attempts, k);
    SettledPastUnsent(Sent(m, ids), limit, attempts, k);
    assert m[..k][..n] == m[..n];
    forall i | n <= i < k ensures m[..k][i].id in ids { assert Sent(m, ids)[i]; }
    PickTail(m[..k], n, ids, visible);
  }

  /** Stopping after `k` matches loses nothing exactly if they fill the limit or nothing sendable follows. */
  lemma PrefixSuffices(m: seq<Event>, k: nat, ids: set<EventId>, visible: Event -> bool, limit: nat)
    requires k <= |m|
    ensures Take(Pick(m[..k], ids, visible), limit) == Take(Pick(m, ids, visible), limit) <==>
            |Pick(m[..k], ids, visible)| >= limit || forall e | e in m[k..] :: e.id in ids || !visible(e)
  {
    var a, b := Pick(m[..k], ids, visible), Pick(m[k..], ids, visible);
    assert m == m[..k] + m[k..];
    PickAppend(m[..k], m[k..], ids, visible);
    PickElements(m[k..], ids, visible);
    TakeAppend(a, b, limit);
    assert b == [] <==> forall e | e in m[k..] :: e.id in ids || !visible(e) by {
      if b != [] { assert b[0] in b; }
    }
    if |a| < limit && b != [] { assert |Take(a + b, limit)| > |Take(a, limit)|; }
  }

  /**
    A filter sends the newest visible unsent matches, losing none, if and only if those before its
    frontier fill the limit or no visible unsent match lies beyond it.
   */
  lemma NothingLostBeyondFrontier(q: Scan, ids: set<EventId>)
    requires IsStore(q.db) && DistinctTimes(Select(q.db, q.filter))
    ensures var m := Select(q.db, q.filter);
            var n := Frontier(Sent(m, ids), q.limit, MAX_ATTEMPTS);
            PageFilter(q, ids).events == Take(Pick(m, ids, q.visible), q.limit) <==>
            |Pick(m[..n], ids, q.visible)| >= q.limit || forall e | e in m[n..] :: e.id in ids || !q.visible(e)
  {
    var m := Select(q.db, q.filter);
    PagingIsFrontier(q, ids);
    PrefixSuffices(m, Frontier(Sent(m, ids), q.limit, MAX_ATTEMPTS), ids, q.visible, q.limit);
  }

  /** The same, seen from the first run: what a caller can tell from the matches already sent. */
  lemma NothingLostBeforeFirstRun(q: Scan, ids: set<EventId>, k: nat)
    requires IsStore(q.db) && DistinctTimes(Select(q.db, q.filter))
    requires var sent := Sent(Select(q.db, q.filter), ids);
             FirstRun(sent, q.limit, k) && Settled(sent, q.limit, MAX_ATTEMPTS)
    ensures var m := Select(q.db, q.filter);
            PageFilter(q, ids).events == Take(Pick(m, ids, q.visible), q.limit) <==>
            |Pick(m[..k], ids, q.visible)| >= q.limit || forall e | e in m[k..] :: e.id in ids || !q.visible(e)
  {
    PagingStopsAtFirstRun(q, ids, k);
    PrefixSuffices(Select(q.db, q.filter), k, ids, q.visible, q.limit);
  }

  lemma FewSentNoRun(m: seq<Event>, ids: set<EventId>, limit: nat)
    requires NoDuplicates(m) && |set e | e in m && e.id in ids| < limit
    ensures FirstRun(Sent(m, ids), limit, |m|)
  {
    forall k: nat | RunAt(Sent(m, ids), limit, k) ensures false {
      var run := m[k..k + limit];
      DistinctMultiset(run);
      forall e | e in run ensures e in m && e.id in ids {
        var i :| 0 <= i < |run| && run[i] == e;
        assert m[k + i] == e && Sent(m, ids)[k + i];
      }
      SubsetSize(Elements(run), set e | e in m && e.id in ids);
    }
  }

  /** Fewer matches already sent than the limit: the filter loses nothing, unless the attempts run out. */
  lemma FewOverlapsLoseNothing(q: Scan, ids: set<EventId>)
    requires IsStore(q.db) && DistinctTimes(Select(q.db, q.filter))
    requires |set e | e in Select(q.db, q.filter) && e.id in ids| < q.limit
    requires Settled(Sent(Select(q.db, q.filter), ids), q.limit, MAX_ATTEMPTS)
    ensures PageFilter(q, ids).events == Take(Pick(Select(q.db, q.filter), ids, q.visible), q.limit)
  {
    var m := Select(q.db, q.filter);
    MatchesFacts(q);
    FewSentNoRun(m, ids, q.limit);
    PagingStopsAtFirstRun(q, ids, |m|);
    assert m[..|m|] == m;
  }

  /**
    A single filter whose matches have distinct timestamps: paging sends exactly the newest
    `limit` visible ones among the newest fifty times `limit` matches, in order.
   */
  lemma PagingIsNewestVisible(q: Scan)
    requires IsStore(q.db) && DistinctTimes(Select(q.db, q.filter))
    ensures PageFilter(q, {}).events ==
            Take(Pick(Take(Select(q.db, q.filter), 50 * q.limit), {}, q.visible), q.limit)
  {
    PagingIsFrontier(q, {});
    FrontierOfFresh(Select(q.db, q.filter), q.limit, MAX_ATTEMPTS);
  }

  lemma FrontierOfFresh(m: seq<Event>, limit: nat, attempts: nat)
    ensures m[..Frontier(Sent(m, {}), limit, attempts)] == Take(m, attempts * limit)
  {
    FrontierOfUnsent(Sent(m, {}), limit, attempts);
  }

  // ----- Overlapping filters -----

  /** Every event of the filter's newest window was sent for an earlier filter. */
  ghost predicate FirstWindowSent(q: Scan, ids: set<EventId>)
  {
    Window(q, Begin(q, ids)) != [] && forall e | e in Window(q, Begin(q, ids)) :: e.id in ids
  }

  lemma {:induction false} OnceSeen(q: Scan, c: Cursor)
    requires c.sent <= q.limit && c.last.Some?
    ensures Page(q, c).end != NoTimestamp
    decreases MAX_ATTEMPTS - c.attempts
  {
    OldestBound(Window(q, c), c.ids, c.last);
    if Stop(q, c).None? { OnceSeen(q, Advance(q, c)); }
  }

  /**
    A filter gives up for want of a timestamp exactly when its newest window was already sent, and
    then sends nothing.
   */
  lemma GivesUpExactlyWhenSent(q: Scan, ids: set<EventId>)
    ensures PageFilter(q, ids).end == NoTimestamp <==> FirstWindowSent(q, ids)
    ensures FirstWindowSent(q, ids) ==> PageFilter(q, ids).events == []
  {
    var c := Begin(q, ids);
    var w := Window(q, c);
    OldestBound(w, ids, None);
    if FirstWindowSent(q, ids) {
      OldestOfSent(w, ids, None);
      PickNothing(w, ids, q.visible);
      assert Sends(q, c) == [];
    } else if Stop(q, c).None? {
      OnceSeen(q, Advance(q, c));
    } else if w != [] {
      var e :| e in w && e.id !in ids;
      assert Advance(q, c).last.Some?;
    }
  }

  const Newer := Event(1, 0, 1, 2, [])
  const Older := Event(2, 0, 1, 1, [])

  /**
    An overlapping filter that gives up early: once the newer event has been sent for another
    filter, this one sends nothing, although the older event matches, is visible and unsent, and the
    limit is not reached.
   */
  lemma OverlapExample(visible: Event -> bool)
    requires visible(Older)
    ensures var q := Scan([Newer, Older], AnyFilter, 1, visible);
            && PageFilter(q, {Newer.id}).events == [] && q.limit > 0
            && Older in q.db && Matches(q.filter, Older) && q.visible(Older) && Older.id !in {Newer.id}
  {
    var q := Scan([Newer, Older], AnyFilter, 1, visible);
    assert Bounded(q, Begin(q, {Newer.id})) == AnyFilter;
    SelectTwo(Newer, Older, AnyFilter);
    assert Window(q, Begin(q, {Newer.id})) == [Newer];
    GivesUpExactlyWhenSent(q, {Newer.id});
    assert Older == [Newer, Older][1];
  }

  const At5 := Event(1, 0, 1, 5, [])
  const At4 := Event(2, 0, 1, 4, [])
  const At3 := Event(3, 0, 1, 3, [])
  const At2 := Event(4, 0, 1, 2, [])

  lemma FourEvents(f: Filter)
    requires Matches(f, At5) && Matches(f, At4) && Matches(f, At3) && Matches(f, At2)
    ensures Select([At5, At4, At3, At2], f) == [At5, At4, At3, At2]
  {
    assert [At5, At4, At3, At2][..3] == [At5, At4, At3] && [At5, At4, At3][..2] == [At5, At4] &&
      [At5, At4][..1] == [At5];
    assert Select([At5], f) == [At5];
    assert Select([At5, At4], f) == [At5, At4];
    assert Select([At5, At4, At3], f) == [At5, At4, At3];
  }

  /**
    An overlapping filter that stalls later: its first window holds an unsent event, its second
    one does not, and the older event behind it is never sent although the limit is not reached.
   */
  lemma StallExample(visible: Event -> bool)
    requires visible(At5) && visible(At2)
    ensures var q, ids := Scan([At5, At4, At3, At2], AnyFilter, 2, visible), {At4.id, At3.id};
            && !FirstWindowSent(q, ids) && PageFilter(q, ids).end != NoTimestamp && PageFilter(q, ids).events == [At5]
            && At2 in q.db && Matches(q.filter, At2) && q.visible(At2) && At2.id !in ids
  {
    var q, ids := Scan([At5, At4, At3, At2], AnyFilter, 2, visible), {At4.id, At3.id};
    var m := q.db;
    FourEvents(AnyFilter);
    assert IsStore(m);
    var sent := Sent(m, ids);
    assert sent == [false, true, true, false];
    assert !sent[0] && RunAt(sent, 2, 1);
    assert FirstRun(sent, 2, 1);
    CapSuffices(sent, 2);
    PagingStopsAtFirstRun(q, ids, 1);
    assert m[..1] == [At5];
    assert Pick([At5], ids, visible) == [At5];
    GivesUpExactlyWhenSent(q, ids);
    assert Bounded(q, Begin(q, ids)) == AnyFilter && m[0] == At5 && m[3] == At2;
    assert Window(q, Begin(q, ids))[0] == At5;
  }
}
