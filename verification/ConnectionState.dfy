/**
  The state of one connection: the challenge and the authenticated key of NIP-42, and the quota
  set that limits how many subscriptions the connection may hold.
 */
module ConnectionStates {
  import opened Nostr
  import opened Messaging

  /** The shared event context: read without taking the state's lock. */
  class ConnectionMetadata {
    const scope: Scope
    var contextPubkey: Option<PublicKey>

    constructor (scope: Scope)
      ensures this.scope == scope && contextPubkey == None
    {
      this.scope := scope;
      contextPubkey := None;
    }
  }

  class ConnectionState {
    var challenge: Option<string>
    var authedPubkey: Option<PublicKey>
    var maxSubscriptions: Option<nat>
    var quota: set<SubId>

    constructor ()
      ensures challenge == None && authedPubkey == None && maxSubscriptions == None && quota == {}
    {
      challenge, authedPubkey, maxSubscriptions, quota := None, None, None, {};
    }

    /** A new subscription needs a free slot; one that already holds a slot does not. */
    method ReserveQuotaSlot(sub: SubId) returns (ok: bool)
      modifies this`quota
      ensures ok <==> sub in old(quota) || maxSubscriptions.None? || |old(quota)| < maxSubscriptions.value
      ensures quota == if ok then old(quota) + {sub} else old(quota)
      ensures old(WithinQuota()) ==> WithinQuota()
    {
      if sub in quota {
        return true;
      }
      if maxSubscriptions.Some? && |quota| >= maxSubscriptions.value {
        return false;
      }
      quota := quota + {sub};
      return true;
    }

    method ReleaseQuotaSlot(sub: SubId) returns (held: bool)
      modifies this`quota
      ensures held <==> sub in old(quota)
      ensures quota == old(quota) - {sub}
    {
      held := sub in quota;
      quota := quota - {sub};
    }

    ghost predicate WithinQuota()
      reads this
    {
      maxSubscriptions.Some? ==> |quota| <= maxSubscriptions.value
    }

    /** Records the key, uses up the challenge, and updates the shared context. */
    method SetAuthenticated(pubkey: PublicKey, metadata: ConnectionMetadata)
      modifies this`authedPubkey, this`challenge, metadata`contextPubkey
      ensures authedPubkey == Some(pubkey) && challenge == None && metadata.contextPubkey == authedPubkey
    {
      authedPubkey := Some(pubkey);
      challenge := None;
      metadata.contextPubkey := Some(pubkey);
    }

    /** The pending challenge, or a new random one. */
    method GetChallengeEvent(random: string) returns (m: RelayMessage)
      modifies this`challenge
      ensures challenge == if old(challenge).Some? then old(challenge) else Some(random)
      ensures m == AuthMsg(challenge.value)
    {
      if challenge.None? {
        challenge := Some(random);
      }
      m := AuthMsg(challenge.value);
    }
  }
}
