/**
  NIP-42 authentication: the AUTH checks, their effect on the connection state and on the
  channel, and what every run of a connection keeps.
 */
module Nip42 {
  import opened Nostr
  import opened Messaging
  import opened ConnectionStates
  import opened Subdomain

  const AUTH_KIND: Kind := 22242
  const MAX_AGE: nat := 600

  datatype AuthTag = ChallengeTag(challenge: string) | RelayTag(url: string) | OtherTag

  /** An AUTH event; `signatureOk` is the result of its verification. */
  datatype AuthEvent = AuthEvent(id: EventId, pubkey: PublicKey, kind: Kind, createdAt: Timestamp, signatureOk: bool,
                                 tags: seq<AuthTag>)

  datatype Reason =
    | NoChallenge
    | WrongKind
    | BadSignature
    | ChallengeMismatch
    | NoChallengeTag
    | RelayMismatch
    | NoRelayTag
    | Expired

  /** Where the relay judges a relay URL from. */
  datatype Site = Site(config: AuthConfig, scope: Scope, hostOf: string -> Option<string>, isIp: string -> bool)

  predicate RelayOk(site: Site, url: string)
  {
    ValidateRelayUrl(site.config, url, site.scope, site.hostOf, site.isIp)
  }

  // ----- The checks -----

  function FirstChallenge(tags: seq<AuthTag>): (r: Option<string>)
  {
    if tags == [] then None
    else if tags[0].ChallengeTag? then Some(tags[0].challenge)
    else FirstChallenge(tags[1..])
  }

  function FirstRelay(tags: seq<AuthTag>): (r: Option<string>)
  {
    if tags == [] then None
    else if tags[0].RelayTag? then Some(tags[0].url)
    else FirstRelay(tags[1..])
  }

  /** The first check that fails, in the order they are made. */
  function Verdict(site: Site, challenge: Option<string>, e: AuthEvent, now: Timestamp): (r: Option<Reason>)
  {
    if challenge.None? then Some(NoChallenge)
    else if e.kind != AUTH_KIND then Some(WrongKind)
    else if !e.signatureOk then Some(BadSignature)
    else if FirstChallenge(e.tags).Some? && FirstChallenge(e.tags) != challenge then Some(ChallengeMismatch)
    else if FirstChallenge(e.tags).None? then Some(NoChallengeTag)
    else if FirstRelay(e.tags).Some? && !RelayOk(site, FirstRelay(e.tags).value) then Some(RelayMismatch)
    else if FirstRelay(e.tags).None? then Some(NoRelayTag)
    else if e.createdAt < (if now >= MAX_AGE then now - MAX_AGE else 0) then Some(Expired)
    else None
  }

  /** The first relay tag names this relay. */
  ghost predicate GoodRelayFirst(site: Site, tags: seq<AuthTag>)
  {
    exists i :: 0 <= i < |tags| && tags[i].RelayTag? && RelayOk(site, tags[i].url) &&
      forall j | 0 <= j < i :: !tags[j].RelayTag?
  }

  /** What the protocol asks of an AUTH event answering a challenge. */
  ghost predicate Answers(site: Site, challenge: string, e: AuthEvent, now: Timestamp)
  {
    && e.kind == AUTH_KIND && e.signatureOk
    && (exists i :: 0 <= i < |e.tags| && e.tags[i] == ChallengeTag(challenge) &&
                    forall j | 0 <= j < i :: !e.tags[j].ChallengeTag?)
    && GoodRelayFirst(site, e.tags)
    && now <= e.createdAt + MAX_AGE
  }

  lemma {:induction false} FirstChallengeIs(tags: seq<AuthTag>, challenge: string)
    ensures FirstChallenge(tags) == Some(challenge) <==>
            exists i :: 0 <= i < |tags| && tags[i] == ChallengeTag(challenge) &&
              forall j | 0 <= j < i :: !tags[j].ChallengeTag?
  {
    if tags != [] && !tags[0].ChallengeTag? {
      FirstChallengeIs(tags[1..], challenge);
      if FirstChallenge(tags) == Some(challenge) {
        var i :| 0 <= i < |tags[1..]| && tags[1..][i] == ChallengeTag(challenge) &&
          forall j | 0 <= j < i :: !tags[1..][j].ChallengeTag?;
        assert tags[i + 1] == ChallengeTag(challenge);
        forall j | 0 <= j < i + 1 ensures !tags[j].ChallengeTag? { if j > 0 { assert tags[1..][j - 1] == tags[j]; } }
      }
      if i :| 0 <= i < |tags| && tags[i] == ChallengeTag(challenge) && forall j | 0 <= j < i :: !tags[j].ChallengeTag? {
        assert tags[1..][i - 1] == tags[i];
        assert forall j | 0 <= j < i - 1 :: tags[1..][j] == tags[j + 1];
      }
    }
  }

  lemma {:induction false} FirstRelayIs(tags: seq<AuthTag>, url: string)
    ensures FirstRelay(tags) == Some(url) <==>
            exists i :: 0 <= i < |tags| && tags[i] == RelayTag(url) && forall j | 0 <= j < i :: !tags[j].RelayTag?
  {
    if tags != [] && !tags[0].RelayTag? {
      FirstRelayIs(tags[1..], url);
      if FirstRelay(tags) == Some(url) {
        var i :| 0 <= i < |tags[1..]| && tags[1..][i] == RelayTag(url) &&
          forall j | 0 <= j < i :: !tags[1..][j].RelayTag?;
        assert tags[i + 1] == RelayTag(url);
        forall j | 0 <= j < i + 1 ensures !tags[j].RelayTag? { if j > 0 { assert tags[1..][j - 1] == tags[j]; } }
      }
      if i :| 0 <= i < |tags| && tags[i] == RelayTag(url) && forall j | 0 <= j < i :: !tags[j].RelayTag? {
        assert tags[1..][i - 1] == tags[i];
        assert forall j | 0 <= j < i - 1 :: tags[1..][j] == tags[j + 1];
      }
    }
  }

  lemma FirstRelayGood(site: Site, tags: seq<AuthTag>)
    ensures FirstRelay(tags).Some? && RelayOk(site, FirstRelay(tags).value) <==> GoodRelayFirst(site, tags)
  {
    if FirstRelay(tags).Some? {
      FirstRelayIs(tags, FirstRelay(tags).value);
    }
    if GoodRelayFirst(site, tags) {
      var i :| 0 <= i < |tags| && tags[i].RelayTag? && RelayOk(site, tags[i].url) &&
        forall j | 0 <= j < i :: !tags[j].RelayTag?;
      FirstRelayIs(tags, tags[i].url);
    }
  }

  /** An AUTH passes every check exactly when it answers the pending challenge. */
  lemma VerdictExact(site: Site, challenge: Option<string>, e: AuthEvent, now: Timestamp)
    ensures Verdict(site, challenge, e, now) == None <==> challenge.Some? && Answers(site, challenge.value, e, now)
  {
    if challenge.Some? {
      FirstChallengeIs(e.tags, challenge.value);
      FirstRelayGood(site, e.tags);
    }
  }

  /** The checks in the order they are made, each with its reason to refuse. */
  ghost function Checks(site: Site, challenge: Option<string>, e: AuthEvent, now: Timestamp): (cs: seq<(Reason, bool)>)
  {
    [(NoChallenge, challenge.Some?),
     (WrongKind, e.kind == 22242),
     (BadSignature, e.signatureOk),
     (ChallengeMismatch, forall i | 0 <= i < |e.tags| && e.tags[i].ChallengeTag? && IsFirst(e.tags, i) ::
                           challenge == Some(e.tags[i].challenge)),
     (NoChallengeTag, exists i :: 0 <= i < |e.tags| && e.tags[i].ChallengeTag?),
     (RelayMismatch, forall i | 0 <= i < |e.tags| && e.tags[i].RelayTag? && IsFirst(e.tags, i) ::
                       RelayOk(site, e.tags[i].url)),
     (NoRelayTag, exists i :: 0 <= i < |e.tags| && e.tags[i].RelayTag?),
     (Expired, now <= e.createdAt + 600)]
  }

  /** No tag of the same kind comes before. */
  predicate IsFirst(tags: seq<AuthTag>, i: nat)
    requires i < |tags|
  {
    forall j | 0 <= j < i ::
      (tags[i].ChallengeTag? ==> !tags[j].ChallengeTag?) && (tags[i].RelayTag? ==> !tags[j].RelayTag?)
  }

  lemma {:induction false} FirstTags(tags: seq<AuthTag>)
    ensures FirstChallenge(tags) == None <==> forall i | 0 <= i < |tags| :: !tags[i].ChallengeTag?
    ensures FirstRelay(tags) == None <==> forall i | 0 <= i < |tags| :: !tags[i].RelayTag?
    decreases |tags|
  {
    if tags != [] {
      FirstTags(tags[1..]);
      assert forall i | 0 <= i < |tags[1..]| :: tags[1..][i] == tags[i + 1];
      assert forall i | 0 < i < |tags| :: tags[i] == tags[1..][i - 1];
    }
  }

  lemma FirstTagIs(tags: seq<AuthTag>, i: nat)
    requires i < |tags| && IsFirst(tags, i)
    ensures tags[i].ChallengeTag? ==> FirstChallenge(tags) == Some(tags[i].challenge)
    ensures tags[i].RelayTag? ==> FirstRelay(tags) == Some(tags[i].url)
  {
    if tags[i].ChallengeTag? { FirstChallengeIs(tags, tags[i].challenge); }
    if tags[i].RelayTag? { FirstRelayIs(tags, tags[i].url); }
  }

  /** The first challenge and relay tags are the ones compared. */
  lemma FirstTagsCompared(site: Site, challenge: Option<string>, tags: seq<AuthTag>)
    ensures FirstChallenge(tags).Some? ==>
              (FirstChallenge(tags) == challenge <==>
               forall i | 0 <= i < |tags| && tags[i].ChallengeTag? && IsFirst(tags, i) ::
                 challenge == Some(tags[i].challenge))
    ensures FirstRelay(tags).Some? ==>
              (RelayOk(site, FirstRelay(tags).value) <==>
               forall i | 0 <= i < |tags| && tags[i].RelayTag? && IsFirst(tags, i) :: RelayOk(site, tags[i].url))
  {
    forall i: nat | i < |tags| && IsFirst(tags, i) { FirstTagIs(tags, i); }
    if FirstChallenge(tags).Some? {
      var c := FirstChallenge(tags).value;
      FirstChallengeIs(tags, c);
      var i :| 0 <= i < |tags| && tags[i] == ChallengeTag(c) && forall j | 0 <= j < i :: !tags[j].ChallengeTag?;
      assert IsFirst(tags, i);
    }
    if FirstRelay(tags).Some? {
      var u := FirstRelay(tags).value;
      FirstRelayIs(tags, u);
      var i :| 0 <= i < |tags| && tags[i] == RelayTag(u) && forall j | 0 <= j < i :: !tags[j].RelayTag?;
      assert IsFirst(tags, i);
    }
  }

  lemma ChecksMade(site: Site, challenge: Option<string>, e: AuthEvent, now: Timestamp)
    ensures var c, r := FirstChallenge(e.tags), FirstRelay(e.tags);
            Checks(site, challenge, e, now) ==
            [(NoChallenge, challenge.Some?), (WrongKind, e.kind == AUTH_KIND), (BadSignature, e.signatureOk),
             (ChallengeMismatch, c == None || c == challenge), (NoChallengeTag, c.Some?),
             (RelayMismatch, r == None || RelayOk(site, r.value)), (NoRelayTag, r.Some?),
             (Expired, e.createdAt >= if now >= MAX_AGE then now - MAX_AGE else 0)]
  {
    FirstTags(e.tags);
    FirstTagsCompared(site, challenge, e.tags);
  }

  /** The first check of the list that fails. */
  function FirstFailure(cs: seq<(Reason, bool)>): (r: Option<Reason>)
  {
    if cs == [] then None else if !cs[0].1 then Some(cs[0].0) else FirstFailure(cs[1..])
  }

  lemma {:induction false} FirstFailureIs(cs: seq<(Reason, bool)>, r: Reason)
    ensures FirstFailure(cs) == Some(r) <==>
            exists k :: 0 <= k < |cs| && cs[k] == (r, false) && forall j | 0 <= j < k :: cs[j].1
  {
    if cs != [] {
      FirstFailureIs(cs[1..], r);
      if cs[0].1 {
        if k :| 0 <= k < |cs[1..]| && cs[1..][k] == (r, false) && forall j | 0 <= j < k :: cs[1..][j].1 {
          assert cs[k + 1] == (r, false);
          forall j | 0 <= j < k + 1 ensures cs[j].1 { if j > 0 { assert cs[1..][j - 1] == cs[j]; } }
        }
        if k :| 0 <= k < |cs| && cs[k] == (r, false) && forall j | 0 <= j < k :: cs[j].1 {
          assert cs[1..][k - 1] == (r, false);
          assert forall j | 0 <= j < k - 1 :: cs[1..][j] == cs[j + 1];
        }
      }
    }
  }

  /** A refusal names the first check that fails. */
  lemma VerdictIsFirstFailure(site: Site, challenge: Option<string>, e: AuthEvent, now: Timestamp, r: Reason)
    ensures var cs := Checks(site, challenge, e, now);
            Verdict(site, challenge, e, now) == Some(r) <==>
            exists k :: 0 <= k < |cs| && cs[k] == (r, false) && forall j | 0 <= j < k :: cs[j].1
  {
    ChecksMade(site, challenge, e, now);
    FirstFailureIs(Checks(site, challenge, e, now), r);
    VerdictIsFold(site, challenge, e, now);
  }

  lemma FailureFrom(cs: seq<(Reason, bool)>, k: nat)
    requires k < |cs|
    ensures FirstFailure(cs[k..]) == if !cs[k].1 then Some(cs[k].0) else FirstFailure(cs[k + 1..])
  {
    assert cs[k..][1..] == cs[k + 1..];
  }

  lemma VerdictIsFold(site: Site, challenge: Option<string>, e: AuthEvent, now: Timestamp)
    ensures Verdict(site, challenge, e, now) == FirstFailure(Checks(site, challenge, e, now))
  {
    ChecksMade(site, challenge, e, now);
    var cs := Checks(site, challenge, e, now);
    FailureFrom(cs, 0); FailureFrom(cs, 1); FailureFrom(cs, 2); FailureFrom(cs, 3);
    FailureFrom(cs, 4); FailureFrom(cs, 5); FailureFrom(cs, 6); FailureFrom(cs, 7);
    assert cs[0..] == cs && cs[8..] == [];
  }

  // ----- The state machine -----

  /** The authentication part of the connection state, with the shared context. */
  datatype AuthState = AuthState(challenge: Option<string>, authed: Option<PublicKey>, context: Option<PublicKey>)

  datatype Input = Connecting(random: string) | Auth(event: AuthEvent, now: Timestamp)

  predicate Succeeds(site: Site, s: AuthState, i: Input)
  {
    i.Auth? && Verdict(site, s.challenge, i.event, i.now) == None
  }

  function Step(site: Site, s: AuthState, i: Input): (s': AuthState)
  {
    match i
    case Connecting(random) => if s.challenge.Some? then s else s.(challenge := Some(random))
    case Auth(e, now) => if Succeeds(site, s, i) then AuthState(None, Some(e.pubkey), Some(e.pubkey)) else s
  }

  function Run(site: Site, ins: seq<Input>): (s: AuthState)
    decreases |ins|
  {
    if ins == [] then AuthState(None, None, None) else Step(site, Run(site, ins[..|ins| - 1]), ins[|ins| - 1])
  }

  function Connects(ins: seq<Input>): (n: nat)
    decreases |ins|
  {
    if ins == [] then 0 else Connects(ins[..|ins| - 1]) + if ins[|ins| - 1].Connecting? then 1 else 0
  }

  function Successes(site: Site, ins: seq<Input>): (n: nat)
    decreases |ins|
  {
    if ins == [] then 0
    else
      var init := ins[..|ins| - 1];
      Successes(site, init) + if Succeeds(site, Run(site, init), ins[|ins| - 1]) then 1 else 0
  }

  /** The pending challenge was issued to this connection, and every success uses one up. */
  lemma {:induction false} ChallengesAreSpent(site: Site, ins: seq<Input>)
    ensures Run(site, ins).challenge.Some? ==>
            exists i :: 0 <= i < |ins| && ins[i] == Connecting(Run(site, ins).challenge.value)
    ensures Successes(site, ins) + (if Run(site, ins).challenge.Some? then 1 else 0) <= Connects(ins)
    decreases |ins|
  {
    if ins != [] {
      var init := ins[..|ins| - 1];
      ChallengesAreSpent(site, init);
      if Run(site, init).challenge.Some? && Run(site, ins).challenge.Some? {
        var i :| 0 <= i < |init| && init[i] == Connecting(Run(site, init).challenge.value);
        assert ins[i] == init[i];
      }
    }
  }

  /** A connection that is greeted once authenticates at most once. */
  lemma AtMostOnce(site: Site, ins: seq<Input>)
    requires Connects(ins) <= 1
    ensures Successes(site, ins) <= 1
  {
    ChallengesAreSpent(site, ins);
  }

  /**
    In every run the shared context mirrors the state, and the connection is authenticated as `p`
    only by an AUTH of `p` that answered a challenge issued to this very connection earlier.
   */
  lemma {:induction false} AuthenticatedOnlyByAnswer(site: Site, ins: seq<Input>)
    ensures Run(site, ins).context == Run(site, ins).authed
    ensures Run(site, ins).authed.Some? ==> exists i: nat :: GrantedAt(site, ins, i, Run(site, ins).authed.value)
    decreases |ins|
  {
    if ins != [] {
      var n := |ins| - 1;
      var init := ins[..n];
      var before := Run(site, init);
      AuthenticatedOnlyByAnswer(site, init);
      if Succeeds(site, before, ins[n]) {
        VerdictExact(site, before.challenge, ins[n].event, ins[n].now);
        ChallengesAreSpent(site, init);
        assert GrantedAt(site, ins, n, ins[n].event.pubkey);
      } else if before.authed.Some? {
        var i: nat :| GrantedAt(site, init, i, before.authed.value);
        GrantedLater(site, init, ins, i, before.authed.value);
      }
    }
  }

  /**
    The input at this index is an AUTH of `p` that answers the challenge pending then, which an
    earlier greeting issued.
   */
  ghost predicate GrantedAt(site: Site, ins: seq<Input>, i: nat, p: PublicKey)
  {
    && i < |ins| && ins[i].Auth? && ins[i].event.pubkey == p
    && Run(site, ins[..i]).challenge.Some?
    && Answers(site, Run(site, ins[..i]).challenge.value, ins[i].event, ins[i].now)
    && exists j :: 0 <= j < i && ins[j] == Connecting(Run(site, ins[..i]).challenge.value)
  }

  lemma GrantedLater(site: Site, init: seq<Input>, ins: seq<Input>, i: nat, p: PublicKey)
    requires GrantedAt(site, init, i, p) && ins != [] && init == ins[..|ins| - 1]
    ensures GrantedAt(site, ins, i, p)
  {
    assert ins[..i] == init[..i] && ins[i] == init[i];
    var j :| 0 <= j < i && init[j] == Connecting(Run(site, init[..i]).challenge.value);
    assert ins[j] == init[j];
  }

  // ----- Exactly who is authenticated, by the indices of the inputs -----

  /** This input is an AUTH that answers the challenge pending at its index. */
  ghost predicate Granted(site: Site, ins: seq<Input>, i: nat)
    decreases i, 3
  {
    i < |ins| && ins[i].Auth? &&
    exists c :: Pending(site, ins[..i], c) && Answers(site, c, ins[i].event, ins[i].now)
  }

  /** The challenge is that of the first greeting since the last AUTH that was granted, and none was since. */
  ghost predicate Pending(site: Site, ins: seq<Input>, c: string)
    decreases |ins|, 2
  {
    exists j: nat :: PendingFrom(site, ins, c, j)
  }

  ghost predicate PendingFrom(site: Site, ins: seq<Input>, c: string, j: nat)
    decreases |ins|, 1
  {
    j < |ins| && ins[j] == Connecting(c) && Spent(site, ins, j) && forall k | j < k < |ins| :: !Granted(site, ins, k)
  }

  /** After every greeting before the index, some AUTH before it was granted. */
  ghost predicate Spent(site: Site, ins: seq<Input>, i: nat)
    requires i <= |ins|
    decreases i, 1
  {
    forall k: nat | k < i && ins[k].Connecting? :: GrantedBetween(site, ins, k, i)
  }

  ghost predicate GrantedBetween(site: Site, ins: seq<Input>, k: nat, i: nat)
    decreases i, 0
  {
    exists m: nat :: k < m < i && Granted(site, ins, m)
  }

  /** The last AUTH that was granted, if any, is this one's. */
  ghost predicate LastGranted(site: Site, ins: seq<Input>, p: PublicKey)
  {
    exists i: nat :: Granted(site, ins, i) && ins[i].event.pubkey == p &&
                     forall k | i < k < |ins| :: !Granted(site, ins, k)
  }

  lemma GrantedBefore(site: Site, init: seq<Input>, x: Input, i: nat)
    requires i < |init|
    ensures Granted(site, init + [x], i) <==> Granted(site, init, i)
  {
    assert (init + [x])[..i] == init[..i];
  }

  lemma SpentBefore(site: Site, init: seq<Input>, x: Input, i: nat)
    requires i <= |init|
    ensures Spent(site, init + [x], i) <==> Spent(site, init, i)
  {
    var ins := init + [x];
    forall m: nat | m < i ensures ins[m] == init[m] && (Granted(site, ins, m) <==> Granted(site, init, m)) {
      GrantedBefore(site, init, x, m);
    }
    forall k: nat ensures GrantedBetween(site, ins, k, i) <==> GrantedBetween(site, init, k, i) {
      if m: nat :| k < m < i && Granted(site, ins, m) { assert Granted(site, init, m); }
      if m: nat :| k < m < i && Granted(site, init, m) { assert Granted(site, ins, m); }
    }
  }

  lemma PendingFromNext(site: Site, init: seq<Input>, x: Input, c: string, j: nat)
    ensures PendingFrom(site, init + [x], c, j) <==>
            if j == |init| then x == Connecting(c) && Spent(site, init, j)
            else PendingFrom(site, init, c, j) && !Granted(site, init + [x], |init|)
  {
    var ins := init + [x];
    if j < |init| {
      assert ins[j] == init[j];
      forall k: nat | k < |init| ensures Granted(site, ins, k) <==> Granted(site, init, k) {
        GrantedBefore(site, init, x, k);
      }
    }
    if j <= |init| { SpentBefore(site, init, x, j); }
  }

  lemma PendingNext(site: Site, init: seq<Input>, x: Input, c: string)
    ensures Pending(site, init + [x], c) <==>
            (Pending(site, init, c) && !Granted(site, init + [x], |init|)) ||
            (x == Connecting(c) && Spent(site, init, |init|))
  {
    forall j: nat { PendingFromNext(site, init, x, c, j); }
    assert PendingFrom(site, init + [x], c, |init|) <==> x == Connecting(c) && Spent(site, init, |init|);
    if j: nat :| PendingFrom(site, init, c, j) { assert j < |init|; }
    if j: nat :| PendingFrom(site, init + [x], c, j) {
      if j != |init| { assert PendingFrom(site, init, c, j); }
    }
  }

  lemma SpentNext(site: Site, init: seq<Input>, x: Input)
    ensures Spent(site, init + [x], |init| + 1) <==>
            (Spent(site, init, |init|) && !x.Connecting?) || Granted(site, init + [x], |init|)
  {
    var ins := init + [x];
    SpentBefore(site, init, x, |init|);
    assert ins[|init|] == x;
  }

  lemma LastGrantedNext(site: Site, init: seq<Input>, x: Input, p: PublicKey)
    ensures LastGranted(site, init + [x], p) <==>
            if Granted(site, init + [x], |init|) then x.event.pubkey == p else LastGranted(site, init, p)
  {
    var ins := init + [x];
    forall k: nat | k < |init| ensures Granted(site, ins, k) <==> Granted(site, init, k) {
      GrantedBefore(site, init, x, k);
    }
    if i: nat :| Granted(site, init, i) && init[i].event.pubkey == p &&
                 forall k | i < k < |init| :: !Granted(site, init, k) {
      assert ins[i] == init[i];
    }
    if i: nat :| Granted(site, ins, i) && ins[i].event.pubkey == p &&
                 forall k | i < k < |ins| :: !Granted(site, ins, k) {
      if i < |init| { assert ins[i] == init[i]; }
    }
  }

  /**
    In every run the pending challenge is exactly that of the first greeting since the last AUTH that
    was granted, and the connection and its shared context are authenticated exactly as the key of
    that AUTH: of the last one that answered the challenge pending at its index.
   */
  lemma {:induction false} AuthenticatedExactly(site: Site, ins: seq<Input>)
    ensures forall c :: Run(site, ins).challenge == Some(c) <==> Pending(site, ins, c)
    ensures Run(site, ins).challenge == None <==> Spent(site, ins, |ins|)
    ensures forall p: PublicKey :: Run(site, ins).authed == Some(p) <==> LastGranted(site, ins, p)
    ensures forall p: PublicKey :: Run(site, ins).context == Some(p) <==> LastGranted(site, ins, p)
    decreases |ins|
  {
    if ins != [] {
      var n := |ins| - 1;
      var init, x := ins[..n], ins[n];
      var s := Run(site, init);
      AuthenticatedExactly(site, init);
      InitLast(ins);
      GrantedIfSucceeds(site, init, x);
      SpentNext(site, init, x);
      forall c ensures Run(site, ins).challenge == Some(c) <==> Pending(site, ins, c) { PendingNext(site, init, x, c); }
      forall p: PublicKey
        ensures LastGranted(site, ins, p) <==>
                if Succeeds(site, s, x) then x.event.pubkey == p else s.authed == Some(p)
      {
        LastGrantedNext(site, init, x, p);
      }
    }
  }

  lemma GrantedIfSucceeds(site: Site, init: seq<Input>, x: Input)
    requires forall c :: Run(site, init).challenge == Some(c) <==> Pending(site, init, c)
    ensures Granted(site, init + [x], |init|) <==> Succeeds(site, Run(site, init), x)
  {
    var challenge := Run(site, init).challenge;
    assert (init + [x])[..|init|] == init && (init + [x])[|init|] == x;
    if x.Auth? { VerdictExact(site, challenge, x.event, x.now); }
    if challenge.Some? { assert Pending(site, init, challenge.value); }
  }

  /** Right after an AUTH that answered the pending challenge, its key is authenticated and the challenge used up. */
  lemma AnswerAuthenticates(site: Site, ins: seq<Input>, c: string, e: AuthEvent, now: Timestamp)
    requires Pending(site, ins, c) && Answers(site, c, e, now)
    ensures Run(site, ins + [Auth(e, now)]) == AuthState(None, Some(e.pubkey), Some(e.pubkey))
  {
    AuthenticatedExactly(site, ins);
    VerdictExact(site, Some(c), e, now);
    assert (ins + [Auth(e, now)])[..|ins|] == ins;
  }

  // ----- The middleware -----

  ghost function StateOf(state: ConnectionState, metadata: ConnectionMetadata): (s: AuthState)
    reads state, metadata
  {
    AuthState(state.challenge, state.authedPubkey, metadata.contextPubkey)
  }

  datatype Reply = Authenticated | AuthRequired(reason: Reason) | SendFailed

  /** Greets the client with a challenge. */
  method OnConnect(site: Site, state: ConnectionState, metadata: ConnectionMetadata, sender: MessageSender,
                   random: string)
    returns (sent: bool)
    modifies state`challenge, sender.channel`queue
    ensures StateOf(state, metadata) == Step(site, old(StateOf(state, metadata)), Connecting(random))
    ensures state.challenge.Some?
    ensures sent <==> old(sender.channel.Room()) > 0
    ensures sender.channel.queue == old(sender.channel.queue) +
            if sent then [Queued(AuthMsg(state.challenge.value), sender.position)] else []
  {
    var m := state.GetChallengeEvent(random);
    var r := sender.Send(m);
    sent := r == Sent;
  }

  /**
    Handles an AUTH message. The state changes exactly when every check passes, even if the OK
    cannot be queued; the client is sent one OK, positive exactly in that case. `text` words it.
   */
  method ProcessAuth(site: Site, state: ConnectionState, metadata: ConnectionMetadata, sender: MessageSender,
                     e: AuthEvent, now: Timestamp, text: Option<Reason> -> string)
    returns (reply: Reply)
    modifies state`challenge, state`authedPubkey, metadata`contextPubkey, sender.channel`queue
    ensures StateOf(state, metadata) == Step(site, old(StateOf(state, metadata)), Auth(e, now))
    ensures var passes := old(state.challenge).Some? && Answers(site, old(state.challenge).value, e, now);
            && (passes ==> state.authedPubkey == metadata.contextPubkey == Some(e.pubkey) && state.challenge == None)
            && (!passes ==> StateOf(state, metadata) == old(StateOf(state, metadata)))
    ensures reply == SendFailed <==> old(sender.channel.Room()) == 0
    ensures reply == Authenticated ==> Succeeds(site, old(StateOf(state, metadata)), Auth(e, now))
    ensures reply.AuthRequired? ==> Some(reply.reason) == Verdict(site, old(state.challenge), e, now)
    ensures var verdict := Verdict(site, old(state.challenge), e, now);
            sender.channel.queue ==
            old(sender.channel.queue) +
              if reply == SendFailed then [] else [Queued(Ok(e.id, verdict == None, text(verdict)), sender.position)]
  {
    VerdictExact(site, state.challenge, e, now);
    var verdict := Verdict(site, state.challenge, e, now);
    if verdict == None {
      state.SetAuthenticated(e.pubkey, metadata);
    }
    var r := sender.Send(Ok(e.id, verdict == None, text(verdict)));
    reply := if r != Sent then SendFailed else if verdict == None then Authenticated else AuthRequired(verdict.value);
  }
}
