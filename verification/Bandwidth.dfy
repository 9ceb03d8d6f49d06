/** Simple-queue shaping of `src/server/bandwidth.ts` and `src/server/bandwidth-service.ts`: the desired queue,
    the operation that applies it, the operation that observes it, and the cleanup of a peer's queues. */
module Bandwidth {
  import opened Wrappers
  import opened IpCidr
  import opened RouterModel
  import opened AddressText

  /** Effective rates; `None` is SQL NULL. */
  datatype Policy = Policy(
    download: Option<nat>, upload: Option<nat>, burstDownload: Option<nat>, burstUpload: Option<nat>,
    thresholdDownload: Option<nat>, thresholdUpload: Option<nat>, burstSeconds: Option<nat>)

  datatype PeerRef = PeerRef(id: PeerId, queueName: string, clientIp: Ip)

  /** JavaScript truthiness of an optional number. */
  predicate Positive(value: Option<nat>) {
    value.Some? && value.value > 0
  }

  function Rate(value: Option<nat>): nat {
    if value.Some? then value.value else 0
  }

  function OrElse(value: Option<nat>, fallback: Option<nat>): Option<nat> {
    if value.Some? then value else fallback
  }

  /** RouterOS pairs are upload/download while the policy is download/upload. */
  function DesiredSimpleQueue(peer: PeerRef, policy: Policy): Option<SimpleQueue> {
    if !Positive(policy.download) || !Positive(policy.upload) then None
    else
      var burst := Positive(policy.burstDownload) && Positive(policy.burstUpload) && Positive(policy.burstSeconds);
      var none := RatePair(0, 0);
      Some(SimpleQueue(
             peer.queueName,
             [Target(Dotted(peer.clientIp) + "/32", Block(Cidr(peer.clientIp, 32)))],
             RatePair(Rate(policy.upload), Rate(policy.download)),
             if burst then RatePair(Rate(policy.burstUpload), Rate(policy.burstDownload)) else none,
             if burst
             then RatePair(Rate(OrElse(policy.thresholdUpload, policy.upload)),
                           Rate(OrElse(policy.thresholdDownload, policy.download)))
             else none,
             if burst then RatePair(Rate(policy.burstSeconds), Rate(policy.burstSeconds)) else none,
             false,
             OwnedBy(peer.id)))
  }

  /** What `simpleQueueFingerprint` hashes: the order of the targets does not matter. */
  predicate QueueMatchesDesired(queue: SimpleQueue, desired: SimpleQueue) {
    queue.(targets := []) == desired.(targets := []) && multiset(queue.targets) == multiset(desired.targets)
  }

  predicate QueueTargetsIp(queue: SimpleQueue, ip: Ip) {
    exists i :: 0 <= i < |queue.targets| && AllowedOwnsIp([queue.targets[i].denotes], ip)
  }

  predicate BurstAsLimited(queue: SimpleQueue, policy: Policy) {
    && Some(queue.burstLimit.upload) == policy.burstUpload && Some(queue.burstLimit.download) == policy.burstDownload
    && policy.thresholdUpload in {None, Some(queue.burstThreshold.upload)}
    && policy.thresholdDownload in {None, Some(queue.burstThreshold.download)}
    && (policy.thresholdUpload == None ==> queue.burstThreshold.upload == queue.maxLimit.upload)
    && (policy.thresholdDownload == None ==> queue.burstThreshold.download == queue.maxLimit.download)
    && Some(queue.burstTime.upload) == Some(queue.burstTime.download) == policy.burstSeconds
  }

  /** The desired queue exists exactly when both rates are limited, shapes the peer's own address and no other, as text
      and as block, and carries its mark. RouterOS reads the first number of each pair as upload. Bursts are set exactly
      when both burst rates and the time are positive; a threshold falls back to the limit of its own direction. */
  lemma DesiredQueueShapesPeer(peer: PeerRef, policy: Policy, ip: Ip)
    ensures var desired := DesiredSimpleQueue(peer, policy);
            && (desired.Some? <==> Positive(policy.download) && Positive(policy.upload))
            && (desired.Some? ==>
                  && (QueueTargetsIp(desired.value, ip) <==> ip == peer.clientIp)
                  && desired.value.comment == OwnedBy(peer.id) && !desired.value.disabled
                  && Some(desired.value.maxLimit.upload) == policy.upload
                  && Some(desired.value.maxLimit.download) == policy.download
                  && desired.value.name == peer.queueName
                  && (forall t :: t in desired.value.targets ==> Entries(t.text) == [t.denotes])
                  && (if Positive(policy.burstDownload) && Positive(policy.burstUpload) && Positive(policy.burstSeconds)
                      then BurstAsLimited(desired.value, policy)
                      else desired.value.burstLimit == desired.value.burstThreshold == desired.value.burstTime
                           == RatePair(0, 0)))
  {
    var desired := DesiredSimpleQueue(peer, policy);
    if desired.Some? {
      SingleAddressBlock(peer.clientIp, ip);
      OwnEntries(peer.clientIp);
      assert desired.value.targets[0].denotes == Block(Cidr(peer.clientIp, 32));
      assert AllowedOwnsIp([desired.value.targets[0].denotes], ip) <==> ip == peer.clientIp;
    }
  }

  function OwnedQueues(queues: map<QueueId, SimpleQueue>, peer: PeerId): set<QueueId> {
    set id | id in queues && queues[id].comment == OwnedBy(peer)
  }

  function ForeignQueues(queues: map<QueueId, SimpleQueue>, peer: PeerId): map<QueueId, SimpleQueue> {
    map id | id in queues && queues[id].comment != OwnedBy(peer) :: queues[id]
  }

  predicate QueueConflict(queues: map<QueueId, SimpleQueue>, peer: PeerRef) {
    exists id :: id in queues && queues[id].comment != OwnedBy(peer.id) && QueueTargetsIp(queues[id], peer.clientIp)
  }

  predicate MatcherTargetsIp(matcher: AddressMatcher, ip: Ip) {
    matcher.Listed? && AllowedOwnsIp(matcher.entries, ip)
  }

  predicate Marks(rule: MangleRule, ip: Ip, mark: string) {
    !rule.disabled && rule.newPacketMark == mark
    && (MatcherTargetsIp(rule.source, ip) || MatcherTargetsIp(rule.destination, ip))
  }

  predicate AdvancedConflict(s: Shaping, ip: Ip) {
    exists t, m :: 0 <= t < |s.trees| && 0 <= m < |s.mangles|
      && !s.trees[t].disabled && s.trees[t].packetMark != "" && Marks(s.mangles[m], ip, s.trees[t].packetMark)
  }

  predicate FastTrackConflict(s: Shaping) {
    exists i :: 0 <= i < |s.filters| && !s.filters[i].disabled && s.filters[i].action == "fasttrack-connection"
  }

  predicate AnyConflict(s: Shaping, peer: PeerRef, desired: Option<SimpleQueue>) {
    QueueConflict(s.queues, peer) || (desired.Some? && (AdvancedConflict(s, peer.clientIp) || FastTrackConflict(s)))
  }

  /** What stands in the way of shaping a peer: a queue of somebody else whose targets contain its address; and, if
      it is to be limited, an enabled fasttrack rule, or an enabled queue tree whose mark an enabled mangle rule puts
      on the peer's packets, in either direction. */
  lemma ConflictMeans(s: Shaping, peer: PeerRef, desired: Option<SimpleQueue>)
    ensures AnyConflict(s, peer, desired) <==>
              || (exists id, target ::
                    && id in s.queues && s.queues[id].comment != OwnedBy(peer.id) && target in s.queues[id].targets
                    && AllowedOwnsIp([target.denotes], peer.clientIp))
              || (desired.Some? && exists f :: f in s.filters && f == FilterRule(false, "fasttrack-connection"))
              || (desired.Some? && exists t, m ::
                    && t in s.trees && m in s.mangles && !t.disabled && !m.disabled
                    && m.newPacketMark == t.packetMark != ""
                    && ((m.source.Listed? && AllowedOwnsIp(m.source.entries, peer.clientIp))
                        || (m.destination.Listed? && AllowedOwnsIp(m.destination.entries, peer.clientIp))))
  {
    hide AllowedOwnsIp;
    if t,
    m :| t in s.trees && m in s.mangles && !t.disabled && t.packetMark != "" && Marks(m, peer.clientIp, t.packetMark) {
      var i, j :| 0 <= i < |s.trees| && s.trees[i] == t && 0 <= j < |s.mangles| && s.mangles[j] == m;
    }
    if i, j :| 0 <= i < |s.trees| && 0 <= j < |s.mangles| && !s.trees[i].disabled && s.trees[i].packetMark != ""
               && Marks(s.mangles[j], peer.clientIp, s.trees[i].packetMark) {
      assert s.trees[i] in s.trees && s.mangles[j] in s.mangles;
    }
    if i :| 0 <= i < |s.filters| && !s.filters[i].disabled && s.filters[i].action == "fasttrack-connection" {
      assert s.filters[i] in s.filters;
    }
    if id, i :| id in s.queues && s.queues[id].comment != OwnedBy(peer.id) && 0 <= i < |s.queues[id].targets|
                && AllowedOwnsIp([s.queues[id].targets[i].denotes], peer.clientIp) {
      assert s.queues[id].targets[i] in s.queues[id].targets;
    }
  }

  // ---------------------------------------------------------------------------------------------
  // Observe

  datatype Observation = Conflict | Duplicate | Missing | ChangedExternally | Synced

  function Observe(s: Shaping, peer: PeerRef, policy: Policy): Observation {
    var desired := DesiredSimpleQueue(peer, policy);
    var owned := OwnedQueues(s.queues, peer.id);
    if AnyConflict(s, peer, desired) then Conflict
    else if |owned| > 1 then Duplicate
    else if desired.Some? && owned == {} then Missing
    else if desired == None && owned != {} then ChangedExternally
    else if desired.Some? && (exists id :: id in owned && !QueueMatchesDesired(s.queues[id], desired.value))
    then ChangedExternally
    else Synced
  }

  /** The queue on the router limits exactly the peer's own address to exactly the rates of the policy. */
  predicate ShapedAs(queue: SimpleQueue, peer: PeerRef, policy: Policy) {
    && queue.name == peer.queueName && queue.comment == OwnedBy(peer.id) && !queue.disabled
    && (forall ip: Ip :: QueueTargetsIp(queue, ip) <==> ip == peer.clientIp)
    && Some(queue.maxLimit.upload) == policy.upload && Some(queue.maxLimit.download) == policy.download
    && (if Positive(policy.burstDownload) && Positive(policy.burstUpload) && Positive(policy.burstSeconds)
        then BurstAsLimited(queue, policy)
        else queue.burstLimit == queue.burstThreshold == queue.burstTime == RatePair(0, 0))
  }

  lemma MatchIsShaped(queue: SimpleQueue, peer: PeerRef, policy: Policy)
    requires DesiredSimpleQueue(peer, policy).Some?
             && QueueMatchesDesired(queue, DesiredSimpleQueue(peer, policy).value)
    ensures ShapedAs(queue, peer, policy)
  {
    var desired := DesiredSimpleQueue(peer, policy).value;
    assert multiset(queue.targets) == multiset{desired.targets[0]} && |queue.targets| == |multiset(queue.targets)|;
    assert queue.targets == [queue.targets[0]] && queue.targets[0] in multiset(queue.targets);
    assert queue.targets == desired.targets;
    forall ip: Ip ensures QueueTargetsIp(queue, ip) <==> ip == peer.clientIp {
      DesiredQueueShapesPeer(peer, policy, ip);
      assert QueueTargetsIp(queue, ip) == QueueTargetsIp(desired, ip);
    }
    DesiredQueueShapesPeer(peer, policy, peer.clientIp);
  }

  lemma SingletonOwned(queues: map<QueueId, SimpleQueue>, peer: PeerId, id: QueueId)
    requires id in OwnedQueues(queues, peer) && |OwnedQueues(queues, peer)| <= 1
    ensures OwnedQueues(queues, peer) == {id}
  {
    var others := OwnedQueues(queues, peer) - {id};
    assert |others| == |OwnedQueues(queues, peer)| - 1;
    assert others == {};
  }

  /** What `Synced` promises: nothing shapes the peer against its policy, and it is shaped by exactly one queue of
      its own if both rates are limited and by none otherwise. */
  lemma SyncedMeans(s: Shaping, peer: PeerRef, policy: Policy)
    requires Observe(s, peer, policy) == Synced
    ensures !AnyConflict(s, peer, DesiredSimpleQueue(peer, policy))
    ensures if Positive(policy.download) && Positive(policy.upload) then
              exists id :: id in s.queues && OwnedQueues(s.queues, peer.id) == {id}
                && ShapedAs(s.queues[id], peer, policy)
            else OwnedQueues(s.queues, peer.id) == {}
  {
    var desired, owned := DesiredSimpleQueue(peer, policy), OwnedQueues(s.queues, peer.id);
    DesiredQueueShapesPeer(peer, policy, peer.clientIp);
    if desired.Some? {
      var id :| id in owned;
      SingletonOwned(s.queues, peer.id, id);
      MatchIsShaped(s.queues[id], peer, policy);
    }
  }

  // ---------------------------------------------------------------------------------------------
  // Apply

  datatype Action = Nothing | Created | Updated | Deleted
  datatype Failure = ConflictError | RouterError | VerificationError
  datatype ApplyResult = Applied(action: Action) | Failed(why: Failure)

  /** Nothing but queues marked with this peer's ownership comment differs between two router states. */
  ghost predicate OnlyOwnedQueuesDiffer(before: RouterState, after: RouterState, peer: PeerId) {
    && after.peers == before.peers && after.nextPeer == before.nextPeer
    && after.shaping.(queues := before.shaping.queues) == before.shaping
    && ForeignQueues(after.shaping.queues, peer) == ForeignQueues(before.shaping.queues, peer)
  }

  lemma ConflictsIgnoreOwned(before: RouterState, after: RouterState, peer: PeerRef, desired: Option<SimpleQueue>)
    requires OnlyOwnedQueuesDiffer(before, after, peer.id)
    ensures AnyConflict(after.shaping, peer, desired) == AnyConflict(before.shaping, peer, desired)
  {
    var f, g := ForeignQueues(before.shaping.queues, peer.id), ForeignQueues(after.shaping.queues, peer.id);
    assert forall id :: id in f <==>
             id in before.shaping.queues && before.shaping.queues[id].comment != OwnedBy(peer.id);
    assert forall id :: id in g <==> id in after.shaping.queues && after.shaping.queues[id].comment != OwnedBy(peer.id);
    assert forall id :: id in f ==> f[id] == before.shaping.queues[id];
    assert forall id :: id in g ==> g[id] == after.shaping.queues[id];
  }

  lemma SyncedAfterWrite(before: RouterState, after: RouterState, peer: PeerRef, policy: Policy, id: QueueId)
    requires OnlyOwnedQueuesDiffer(before, after, peer.id)
    requires var desired := DesiredSimpleQueue(peer, policy);
             desired.Some? && !AnyConflict(before.shaping, peer, desired)
             && OwnedQueues(after.shaping.queues, peer.id) == {id} && after.shaping.queues[id] == desired.value
    ensures Observe(after.shaping, peer, policy) == Synced
  {
    ConflictsIgnoreOwned(before, after, peer, DesiredSimpleQueue(peer, policy));
  }

  /** The branch without a limit: delete the one owned queue and verify that none is left. */
  method RemoveQueue(client: RouterOsClient, peer: PeerRef, policy: Policy, current: QueueId) returns (r: ApplyResult)
    requires FreshIds(client.state) && DesiredSimpleQueue(peer, policy) == None
    requires OwnedQueues(client.state.shaping.queues, peer.id) == {current}
             && !AnyConflict(client.state.shaping, peer, None)
    modifies client
    ensures client.calls >= old(client.calls) && FreshIds(client.state)
    ensures OnlyOwnedQueuesDiffer(old(client.state), client.state, peer.id)
    ensures r.Applied? ==> r == Applied(Deleted) && Observe(client.state.shaping, peer, policy) == Synced
    ensures r.Failed? ==> r.why != ConflictError
    ensures old(client.Reliable()) ==> r.Applied?
  {
    var deleted := client.DeleteSimpleQueue(current);
    if !deleted { return Failed(RouterError); }
    assert OwnedQueues(client.state.shaping.queues, peer.id) == {};
    ConflictsIgnoreOwned(old(client.state), client.state, peer, None);
    var after := client.GetShaping();
    if after == None { return Failed(RouterError); }
    if OwnedQueues(after.value.queues, peer.id) != {} { return Failed(VerificationError); }
    return Applied(Deleted);
  }

  /** The writing branch: overwrite the owned queue or create one, then verify what the router now holds. */
  method WriteQueue(client: RouterOsClient, peer: PeerRef, policy: Policy, current: Option<QueueId>,
                    desired: SimpleQueue)
    returns (r: ApplyResult)
    requires FreshIds(client.state) && DesiredSimpleQueue(peer, policy) == Some(desired)
    requires OwnedQueues(client.state.shaping.queues, peer.id) == (if current.Some? then {current.value} else {})
    requires !AnyConflict(client.state.shaping, peer, Some(desired))
    modifies client
    ensures client.calls >= old(client.calls) && FreshIds(client.state)
    ensures OnlyOwnedQueuesDiffer(old(client.state), client.state, peer.id)
    ensures r.Applied? ==> r.action != Nothing && Observe(client.state.shaping, peer, policy) == Synced
    ensures r.Failed? ==> r.why != ConflictError
    ensures old(client.Reliable()) ==> r.Applied?
  {
    hide AnyConflict, Observe, DesiredSimpleQueue, QueueTargetsIp;
    DesiredQueueShapesPeer(peer, policy, peer.clientIp);
    var remoteId: QueueId;
    if current.Some? {
      remoteId := current.value;
      var updated := client.UpdateSimpleQueue(remoteId, desired);
      if !updated { return Failed(RouterError); }
    } else {
      var created := client.CreateSimpleQueue(desired);
      if created == None { return Failed(RouterError); }
      remoteId := created.value;
    }
    assert OwnedQueues(client.state.shaping.queues, peer.id) == {remoteId};
    SyncedAfterWrite(old(client.state), client.state, peer, policy, remoteId);
    var after := client.GetShaping();
    if after == None { return Failed(RouterError); }
    var found := set id | id in after.value.queues
        && (id == remoteId || after.value.queues[id].comment == OwnedBy(peer.id));
    assert found == {remoteId};
    var verified :| verified in found;
    if !QueueMatchesDesired(after.value.queues[verified], desired) { return Failed(VerificationError); }
    return Applied(if current.Some? then Updated else Created);
  }

  /** `applyPeerBandwidthRemote`. On every path only this peer's own queues change; success leaves a router on which
      `Observe` says `Synced`; and on a reliable router it does nothing exactly when `Observe` already said so. */
  method ApplyPeerBandwidthRemote(client: RouterOsClient, peer: PeerRef, policy: Policy, force: bool)
      returns (r: ApplyResult)
    requires FreshIds(client.state)
    modifies client
    ensures client.calls >= old(client.calls) && FreshIds(client.state)
    ensures OnlyOwnedQueuesDiffer(old(client.state), client.state, peer.id)
    ensures r.Applied? ==> Observe(client.state.shaping, peer, policy) == Synced
    ensures r == Applied(Nothing) || r == Failed(ConflictError) ==> client.state == old(client.state)
    ensures r == Applied(Nothing) ==> Observe(old(client.state).shaping, peer, policy) == Synced
    ensures old(client.Reliable()) ==>
              var seen := Observe(old(client.state).shaping, peer, policy);
              && (r == Applied(Nothing) <==> seen == Synced)
              && (r == Failed(ConflictError) <==>
                    seen in {Conflict, Duplicate}
                    || (seen == ChangedExternally && !force && Positive(policy.download) && Positive(policy.upload)))
              && (r.Failed? ==> r.why == ConflictError)
  {
    var read := client.GetShaping();
    if read == None { return Failed(RouterError); }
    var shaping := read.value;
    var owned := OwnedQueues(shaping.queues, peer.id);
    var desired := DesiredSimpleQueue(peer, policy);
    if |owned| > 1 { return Failed(ConflictError); }
    if AnyConflict(shaping, peer, desired) { return Failed(ConflictError); }

    var current: Option<QueueId> := None;
    if owned != {} {
      var id :| id in owned;
      SingletonOwned(shaping.queues, peer.id, id);
      current := Some(id);
    }
    if desired == None {
      if current == None { return Applied(Nothing); }
      r := RemoveQueue(client, peer, policy, current.value);
      return;
    }
    if current.Some? && QueueMatchesDesired(shaping.queues[current.value], desired.value) { return Applied(Nothing); }
    if current.Some? && !force { return Failed(ConflictError); }
    r := WriteQueue(client, peer, policy, current, desired.value);
  }

  // ---------------------------------------------------------------------------------------------
  // Cleanup

  /** No peer owns a queue it did not own before. */
  ghost predicate QueuesShrink(before: Shaping, after: Shaping) {
    forall q: PeerId :: OwnedQueues(after.queues, q) <= OwnedQueues(before.queues, q)
  }

  lemma CleanupShrinks(before: RouterState, after: RouterState, peer: PeerId)
    requires OnlyOwnedQueuesDiffer(before, after, peer)
             && OwnedQueues(after.shaping.queues, peer) <= OwnedQueues(before.shaping.queues, peer)
    ensures QueuesShrink(before.shaping, after.shaping)
  {
    forall q: PeerId | q != peer ensures OwnedQueues(after.shaping.queues, q) <= OwnedQueues(before.shaping.queues, q) {
      forall id | id in OwnedQueues(after.shaping.queues, q) ensures id in OwnedQueues(before.shaping.queues, q) {
        assert id in ForeignQueues(after.shaping.queues, peer);
        assert id in ForeignQueues(before.shaping.queues, peer)
               && ForeignQueues(before.shaping.queues, peer)[id] == after.shaping.queues[id];
      }
    }
  }

  /** `deleteOwnedPeerQueueRemote`: one removal per owned queue, then a verifying read. */
  method DeleteOwnedPeerQueueRemote(client: RouterOsClient, peer: PeerId) returns (removed: Option<nat>)
    requires FreshIds(client.state)
    modifies client
    ensures client.calls >= old(client.calls) && FreshIds(client.state)
    ensures OnlyOwnedQueuesDiffer(old(client.state), client.state, peer)
    ensures OwnedQueues(client.state.shaping.queues, peer) <= OwnedQueues(old(client.state).shaping.queues, peer)
    ensures removed.Some? ==> OwnedQueues(client.state.shaping.queues, peer) == {}
    ensures removed.Some? ==> removed.value == |OwnedQueues(old(client.state).shaping.queues, peer)|
    ensures old(client.Reliable()) ==> removed.Some?
  {
    var read := client.GetShaping();
    if read == None { return None; }
    var owned := OwnedQueues(read.value.queues, peer);
    var pending := owned;
    while pending != {}
      invariant client.calls >= old(client.calls) && FreshIds(client.state)
      invariant OnlyOwnedQueuesDiffer(old(client.state), client.state, peer)
      invariant OwnedQueues(client.state.shaping.queues, peer) == pending
      invariant pending <= owned
      decreases pending
    {
      var id :| id in pending;
      var ok := client.DeleteSimpleQueue(id);
      if !ok { return None; }
      pending := pending - {id};
    }
    var after := client.GetShaping();
    if after == None || OwnedQueues(after.value.queues, peer) != {} { return None; }
    return Some(|owned|);
  }
}
