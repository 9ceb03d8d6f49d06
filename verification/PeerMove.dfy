/** `updatePeer` of `src/server/peer-service.ts`: moving a peer between two routers, and changing it on one router
    with rollback. Calls may fail before or after taking effect. */
module PeerMove {
  import opened Wrappers
  import opened IpCidr
  import opened RouterModel
  import opened AddressText
  import Bandwidth

  datatype Reason = Manual | Expired | Quota
  datatype Place = OnSource | OnTarget

  /** The columns the move reads and writes; `address` is the allocated pool address. */
  datatype Row = Row(
    id: PeerId, publicKey: Key, place: Place, remoteId: Option<RemoteId>, address: Ip, fingerprint: Option<RemotePeer>,
    disabled: bool, reason: Option<Reason>, expired: bool, needsReconciliation: bool) {
    function Link(): PeerLink {
      PeerLink(remoteId, publicKey)
    }
  }

  /** The submitted form, and the answers of the pool and of the quota edit at the points where they are asked. */
  datatype Request = Request(
    interfaceName: string, comment: string, keepalive: nat, allowed: string, queueName: string,
    policy: Bandwidth.Policy,
    managed: bool, chosen: Option<Ip>, stillFree: bool, recoveryClaims: bool, quotaLimit: Option<nat>, quotaUsed: nat)

  predicate Consistent(row: Row) {
    row.disabled == row.reason.Some?
  }

  /** The decision of the quota branch: the flag and the reason the row ends with. */
  function Decide(row: Row, request: Request): (bool, Option<Reason>) {
    if row.reason == Some(Quota) && (request.quotaLimit == None || request.quotaUsed < request.quotaLimit.value)
    then (false, None)
    else if request.quotaLimit.Some? && request.quotaUsed >= request.quotaLimit.value && !row.expired && !row.disabled
    then (true, Some(Quota))
    else (row.disabled, row.reason)
  }

  predicate EnabledHolder(peers: map<RemoteId, RemotePeer>, key: Key, id: RemoteId) {
    id in peers && peers[id].publicKey == key && !peers[id].disabled
  }

  ghost predicate EnabledOn(peers: map<RemoteId, RemotePeer>, key: Key) {
    exists id :: EnabledHolder(peers, key, id)
  }

  /** The two routers between two steps. */
  datatype Snapshot = Snapshot(source: map<RemoteId, RemotePeer>, target: map<RemoteId, RemotePeer>)

  ghost predicate EnabledAtMostOnce(s: Snapshot, key: Key) {
    !(EnabledOn(s.source, key) && EnabledOn(s.target, key))
  }

  predicate PresentSomewhere(s: Snapshot, key: Key) {
    Holders(s.source, key) != {} || Holders(s.target, key) != {}
  }

  lemma DisabledCopyOnly(peers: map<RemoteId, RemotePeer>, key: Key, copy: RemoteId)
    requires Holders(peers, key) == {copy} && copy in peers && peers[copy].disabled
    ensures !EnabledOn(peers, key)
  {
    assert forall id :: id in peers && id != copy ==> id !in Holders(peers, key);
  }

  /** The move may find and delete this peer. */
  predicate Deletable(peers: map<RemoteId, RemotePeer>, row: Row, id: RemoteId)
    requires id in peers
  {
    PassesGuard(row.Link(), row.fingerprint, RemoteEntry(id, peers[id]))
  }

  /** No deletable peer stands beside another, enabled holder of the key. */
  ghost predicate EnabledIsSole(peers: map<RemoteId, RemotePeer>, row: Row) {
    forall a, b :: a in peers && Deletable(peers, row, a) && EnabledHolder(peers, row.publicKey, b) ==> a == b
  }

  /** Either the copy will not be enabled, or deleting whatever the move finds leaves nothing enabled behind. */
  ghost predicate SafeToMove(peers: map<RemoteId, RemotePeer>, row: Row, request: Request) {
    Decide(row, request).0 || EnabledIsSole(peers, row)
  }

  lemma DeletionLeavesNoneEnabled(peers: map<RemoteId, RemotePeer>, row: Row, id: RemoteId)
    requires EnabledIsSole(peers, row) && id in peers && Deletable(peers, row, id)
    ensures !EnabledOn(peers - {id}, row.publicKey)
  {
    assert forall x :: EnabledHolder(peers - {id}, row.publicKey, x) ==> EnabledHolder(peers, row.publicKey, x);
  }

  /** The exact condition on the source: whichever peer the guard lets the move delete, the key is enabled at most once
      beside the settled copy, if and only if the move is safe. */
  lemma EnabledCopyNeedsSole(source: map<RemoteId, RemotePeer>, target: map<RemoteId, RemotePeer>, row: Row,
                             request: Request, copy: RemoteId)
    requires Holders(target, row.publicKey) == {copy} && copy in target
             && target[copy].disabled == Decide(row, request).0
    ensures (forall id :: id in source && Deletable(source, row, id) ==>
               EnabledAtMostOnce(Snapshot(source - {id}, target), row.publicKey))
            <==> SafeToMove(source, row, request)
  {
    hide Decide;
    assert copy in Holders(target, row.publicKey);
    assert !target[copy].disabled ==> EnabledHolder(target, row.publicKey, copy);
    if Decide(row, request).0 {
      DisabledCopyOnly(target, row.publicKey, copy);
    } else if EnabledIsSole(source, row) {
      forall id | id in source && Deletable(source, row, id) ensures !EnabledOn(source - {id}, row.publicKey) {
        DeletionLeavesNoneEnabled(source, row, id);
      }
    } else {
      var a, b :| a in source && Deletable(source, row, a) && EnabledHolder(source, row.publicKey, b) && a != b;
      assert EnabledHolder(source - {a}, row.publicKey, b);
      assert EnabledOn(source - {a}, row.publicKey) && EnabledOn(target, row.publicKey);
    }
  }

  /** Two enabled peers under one key on the source: the move deletes one and enables a third beside the other. */
  lemma SecondEnabledHolder(key: Key, peer: RemotePeer)
      returns (source: map<RemoteId, RemotePeer>, target: map<RemoteId, RemotePeer>, link: PeerLink)
    requires peer.publicKey == key && !peer.disabled
    ensures link == PeerLink(Some(0), key) && Answering(source, link) == {0, 1} && Holders(target, key) == {0}
    ensures 0 in source && EnabledOn(target, key) && !EnabledAtMostOnce(Snapshot(source - {0}, target), key)
  {
    source, target, link := map[0 := peer, 1 := peer], map[0 := peer], PeerLink(Some(0), key);
    assert EnabledHolder(source - {0}, key, 1) && EnabledHolder(target, key, 0);
  }

  lemma SoleMatchDeleted(peers: map<RemoteId, RemotePeer>, row: Row, id: RemoteId)
    requires SoleMatch(peers, row.Link()) && id in peers && Answers(row.Link(), RemoteEntry(id, peers[id]))
    ensures Holders(peers - {id}, row.publicKey) == {}
  {
    assert id in Answering(peers, row.Link());
    assert forall x :: x in Holders(peers - {id}, row.publicKey) ==> x in Answering(peers, row.Link());
  }

  function Ref(row: Row, request: Request): Bandwidth.PeerRef {
    Bandwidth.PeerRef(row.id, request.queueName, row.address)
  }

  predicate TargetShapeable(s: Shaping, row: Row, request: Request) {
    var seen := Bandwidth.Observe(s, Ref(row, request), request.policy);
    seen != Bandwidth.Conflict && seen != Bandwidth.Duplicate
  }

  /** The source is as recorded and nothing the request depends on stands in its way; forcing the queue can only be
      refused by a conflicting or duplicated queue on the target. */
  ghost predicate Expected(source: RouterState, target: RouterState, row: Row, request: Request) {
    && AsRecorded(source.peers, row.Link(), row.fingerprint) && request.managed && request.chosen.Some?
    && request.stillFree
    && TargetShapeable(target.shaping, row.(address := request.chosen.value), request)
  }

  ghost predicate QueuesFollow(source: Shaping, target: Shaping, row: Row, request: Request) {
    && Bandwidth.OwnedQueues(source.queues, row.id) == {}
    && Bandwidth.Observe(target, Ref(row, request), request.policy) == Bandwidth.Synced
  }

  /** The remote peer the move creates. */
  function Copy(key: Key, request: Request, ip: Ip, disabled: bool): RemotePeer {
    RemotePeer(request.interfaceName, request.comment, key, ReplaceClientAddress(request.allowed, ip), None, None,
               request.keepalive, disabled)
  }

  /** The row the move commits. */
  function Moved(row: Row, copy: RemoteId, request: Request): Row
    requires request.chosen.Some?
  {
    var (disabled, reason) := Decide(row, request);
    row.(place := OnTarget, remoteId := Some(copy), address := request.chosen.value, disabled := disabled,
         reason := reason, needsReconciliation := false,
         fingerprint := Some(Copy(row.publicKey, request, request.chosen.value, disabled)))
  }

  /** A quota block ends exactly when there is no limit or usage is below it; any other reason stays; and a peer that is
      neither disabled nor expired is blocked exactly when it is over its limit. */
  predicate QuotaDecided(before: Row, after: Row, request: Request) {
    var over := request.quotaLimit.Some? && request.quotaUsed >= request.quotaLimit.value;
    && Consistent(after)
    && (after.reason == Some(Quota) ==> over)
    && (before.reason == Some(Quota) ==> after.reason == if over then Some(Quota) else None)
    && (before.reason.Some? && before.reason != Some(Quota) ==> after.reason == before.reason)
    && (before.reason == None ==> after.reason == if over && !before.expired then Some(Quota) else None)
  }

  lemma DecideDecides(row: Row, request: Request)
    requires Consistent(row)
    ensures QuotaDecided(row, row.(disabled := Decide(row, request).0, reason := Decide(row, request).1), request)
  {
  }

  /** The allowed addresses denote `ip` alone in the first place, then what the rest of the submitted list denotes. */
  predicate OwnFirst(allowedAddress: string, request: Request, ip: Ip) {
    Entries(allowedAddress) == [Block(Cidr(ip, 32))] + if Entries(request.allowed) == [] then []
                                                       else Entries(request.allowed)[1..]
  }

  /** A remote peer as the form asks for it. */
  predicate AsAsked(peer: RemotePeer, key: Key, request: Request, ip: Ip, disabled: bool) {
    && peer.publicKey == key && peer.interfaceName == request.interfaceName && peer.comment == request.comment
    && peer.persistentKeepalive == request.keepalive && peer.disabled == disabled
    && OwnFirst(peer.allowedAddress, request, ip)
  }

  lemma CopyIsAsAsked(key: Key, request: Request, ip: Ip, disabled: bool)
    ensures AsAsked(Copy(key, request, ip, disabled), key, request, ip, disabled)
  {
    ReplacedAddress(request.allowed, ip);
  }

  ghost predicate AddedOne(before: map<RemoteId, RemotePeer>, after: map<RemoteId, RemotePeer>, id: RemoteId) {
    id in after && id !in before && after - {id} == before
  }

  /** The row now describes the copy on the target, which is enabled exactly when the row says so. */
  ghost predicate Arrived(before: Row, after: Row, peers: map<RemoteId, RemotePeer>, copy: RemoteId, request: Request) {
    && request.chosen.Some? && copy in peers && Holders(peers, before.publicKey) == {copy}
    && after == before.(place := OnTarget, remoteId := Some(copy), address := request.chosen.value,
                        disabled := after.disabled, reason := after.reason, needsReconciliation := false,
                        fingerprint := Some(peers[copy]))
    && QuotaDecided(before, after, request)
    && AsAsked(peers[copy], before.publicKey, request, after.address, after.disabled)
  }

  lemma ArrivedDisabled(before: Row, after: Row, peers: map<RemoteId, RemotePeer>, copy: RemoteId, request: Request)
    requires Arrived(before, after, peers, copy, request)
    ensures after.disabled ==> !EnabledOn(peers, after.publicKey)
  {
    if after.disabled { DisabledCopyOnly(peers, after.publicKey, copy); }
  }

  lemma MovedArrived(before: Row, peers: map<RemoteId, RemotePeer>, copy: RemoteId, request: Request)
    requires Consistent(before) && request.chosen.Some? && copy in peers && Holders(peers, before.publicKey) == {copy}
    requires peers[copy] == Copy(before.publicKey, request, request.chosen.value, Decide(before, request).0)
    ensures Arrived(before, Moved(before, copy, request), peers, copy, request)
    ensures Moved(before, copy, request).disabled == Decide(before, request).0
  {
    DecideDecides(before, request);
    CopyIsAsAsked(before.publicKey, request, request.chosen.value, Decide(before, request).0);
    hide Decide, Copy, OwnFirst;
  }

  /** The row describes the disabled copy the handler adopted. */
  predicate Adopted(before: Row, after: Row, copy: Option<RemoteId>, request: Request) {
    && request.chosen.Some? && after.fingerprint.Some?
    && after == before.(place := OnTarget, remoteId := copy, address := request.chosen.value, disabled := true,
                        reason := Some(Manual), fingerprint := after.fingerprint)
    && AsAsked(after.fingerprint.value, before.publicKey, request, after.address, true)
  }

  /** The row the handler stores for the copy. */
  function Adopting(row: Row, copy: RemoteId, request: Request): Row
    requires request.chosen.Some?
  {
    row.(place := OnTarget, remoteId := Some(copy), address := request.chosen.value, disabled := true,
         reason := Some(Manual), fingerprint := Some(Copy(row.publicKey, request, request.chosen.value, true)))
  }

  lemma AdoptingAdopts(row: Row, copy: RemoteId, request: Request)
    requires request.chosen.Some?
    ensures var after := Adopting(row, copy, request);
            && Adopted(row, after, Some(copy), request) && after.place == OnTarget && after.publicKey == row.publicKey
            && after.remoteId == Some(copy)
  {
    CopyIsAsAsked(row.publicKey, request, request.chosen.value, true);
  }

  class MoveService {
    const source: RouterOsClient
    const target: RouterOsClient
    const dbDown: nat -> bool
    var row: Row
    var clock: nat
    /** Every state the two routers passed through. */
    ghost var history: seq<Snapshot>

    ghost function Now(): Snapshot reads this, source, target {
      Snapshot(source.state.peers, target.state.peers)
    }

    ghost predicate Valid() reads this, source, target {
      && source != target && FreshIds(source.state) && FreshIds(target.state)
      && |history| > 0 && history[|history| - 1] == Now()
      && (forall i :: 0 <= i < |history| ==> EnabledAtMostOnce(history[i], row.publicKey))
    }

    constructor (source: RouterOsClient, target: RouterOsClient, row: Row, dbDown: nat -> bool)
      requires source != target && FreshIds(source.state) && FreshIds(target.state)
      requires !EnabledOn(target.state.peers, row.publicKey)
      ensures this.source == source && this.target == target && this.row == row && this.dbDown == dbDown && Valid()
      ensures history == [Now()]
    {
      this.source, this.target, this.row, this.dbDown, clock := source, target, row, dbDown, 0;
      history := [Snapshot(source.state.peers, target.state.peers)];
    }

    ghost predicate CleanFailures() {
      source.CleanFailures() && target.CleanFailures()
    }

    ghost predicate DatabaseUp() {
      forall n :: !dbDown(n)
    }

    /** From position `n` of the history on, the key was never absent from both routers. */
    ghost predicate PresentSince(n: nat) reads this {
      forall i :: n <= i < |history| ==> PresentSomewhere(history[i], row.publicKey)
    }

    method Query() returns (ok: bool)
      modifies this`clock
      ensures DatabaseUp() ==> ok
    {
      ok := !dbDown(clock);
      clock := clock + 1;
    }

    /** Appends the state a router call left behind. */
    ghost method Note()
      requires source != target && FreshIds(source.state) && FreshIds(target.state)
      requires forall i :: 0 <= i < |history| ==> EnabledAtMostOnce(history[i], row.publicKey)
      requires EnabledAtMostOnce(Now(), row.publicKey)
      modifies this`history
      ensures Valid() && history == old(history) + [Now()]
    {
      history := history + [Now()];
    }

    /** One edit on the target while the source no longer holds the key, or one that disables. */
    method EditTarget(id: RemoteId, disabled: bool) returns (ok: bool)
      requires Valid() && (disabled || !EnabledOn(source.state.peers, row.publicKey))
      modifies this`history, target
      ensures Valid() && old(history) <= history && |history| == |old(history)| + 1
      ensures ok ==>
                id in old(target.state).peers
                && target.state.peers
                     == old(target.state).peers[id := old(target.state).peers[id].(disabled := disabled)]
      ensures Holders(target.state.peers, row.publicKey) == Holders(old(target.state).peers, row.publicKey)
      ensures !ok && CleanFailures() ==> target.state == old(target.state)
      ensures target.state.shaping == old(target.state).shaping && target.calls >= old(target.calls)
      ensures old(target.Reliable()) && id in old(target.state).peers ==> ok
    {
      ghost var before := target.state.peers;
      ok := target.UpdatePeer(id, (p: RemotePeer) => p.(disabled := disabled));
      assert forall x :: x in before <==> x in target.state.peers;
      assert forall x :: x in before ==> before[x].publicKey == target.state.peers[x].publicKey;
      assert disabled ==>
          forall x :: EnabledHolder(target.state.peers, row.publicKey, x) ==> EnabledHolder(before, row.publicKey, x);
      Note();
    }

    // -------------------------------------------------------------------------------------------
    // Before the source is touched

    /** Creates the disabled copy on the target and reads it back. */
    method CopyToTarget(request: Request) returns (created: Option<RemoteId>, copy: Option<RemoteId>)
      requires Valid() && Holders(target.state.peers, row.publicKey) == {} && request.chosen.Some?
      modifies this`history, target
      ensures Valid() && old(history) <= history && target.calls >= old(target.calls)
      ensures !EnabledOn(target.state.peers, row.publicKey)
      ensures copy.Some? ==> copy == created && Holders(target.state.peers, row.publicKey) == {copy.value}
                             && target.state.peers[copy.value]
                                  == Copy(row.publicKey, request, request.chosen.value, true)
      ensures created.Some? ==> Holders(target.state.peers, row.publicKey) == {created.value}
      ensures created == None && (CleanFailures() || old(target.Reliable())) ==> target.state == old(target.state)
      ensures created.Some? ==> AddedOne(old(target.state).peers, target.state.peers, created.value)
      ensures forall i :: |old(history)| <= i < |history| ==> history[i].source == source.state.peers
      ensures target.state.shaping == old(target.state).shaping
      ensures old(target.Reliable()) ==> copy.Some?
    {
      copy := None;
      ghost var before := target.state.peers;
      assert forall id :: id in before ==> id !in Holders(before, row.publicKey);
      created := target.CreatePeer(Copy(row.publicKey, request, request.chosen.value, true));
      Note();
      if created == None { return; }
      var read := target.GetPeers();
      if read == None { return; }
      var found := set id | id in read.value && (id == created.value || read.value[id].publicKey == row.publicKey);
      assert found == {created.value};
      var id :| id in found;
      copy := Some(id);
    }

    // -------------------------------------------------------------------------------------------
    // The transfer

    /** Deletes the peer on the source while its copy waits, disabled, on the target. */
    method DeleteSource(remote: RemoteId) returns (ok: bool)
      requires Valid() && !EnabledOn(target.state.peers, row.publicKey)
      requires remote in source.state.peers && Deletable(source.state.peers, row, remote)
      modifies this`history, source
      ensures Valid() && old(history) <= history && |history| == |old(history)| + 1 && source.calls >= old(source.calls)
      ensures ok && EnabledIsSole(old(source.state).peers, row) ==> !EnabledOn(source.state.peers, row.publicKey)
      ensures ok && SoleMatch(old(source.state).peers, row.Link()) ==> Holders(source.state.peers, row.publicKey) == {}
      ensures ok ==> source.state.peers != old(source.state).peers
      ensures !ok && CleanFailures() ==> source.state == old(source.state)
      ensures source.state.shaping == old(source.state).shaping
      ensures old(source.Reliable()) ==> ok
    {
      if EnabledIsSole(source.state.peers, row) { DeletionLeavesNoneEnabled(source.state.peers, row, remote); }
      if SoleMatch(source.state.peers, row.Link()) { SoleMatchDeleted(source.state.peers, row, remote); }
      ok := source.DeletePeer(remote);
      Note();
    }

    /** The quota branch of the move: the copy ends enabled exactly when the row will say so. */
    method Settle(copy: RemoteId, request: Request) returns (ok: bool)
      requires Valid() && Consistent(row) && request.chosen.Some?
      requires Decide(row, request).0 || !EnabledOn(source.state.peers, row.publicKey)
      requires Holders(target.state.peers, row.publicKey) == {copy}
      requires copy in target.state.peers
               && target.state.peers[copy] == Copy(row.publicKey, request, request.chosen.value, true)
      modifies this`history, target
      ensures Valid() && old(history) <= history && target.calls >= old(target.calls)
      ensures Holders(target.state.peers, row.publicKey) == {copy}
      ensures forall i :: |old(history)| <= i < |history| ==> Holders(history[i].target, row.publicKey) == {copy}
      ensures ok ==>
                target.state.peers[copy] == Copy(row.publicKey, request, request.chosen.value, Decide(row, request).0)
      ensures target.state.shaping == old(target.state).shaping
      ensures old(target.Reliable()) ==> ok
    {
      var (disabled, reason) := Decide(row, request);
      if row.reason == Some(Quota) && !disabled { ok := EditTarget(copy, false); }
      else if disabled && !row.disabled { ok := EditTarget(copy, true); }
      else if !row.disabled { ok := EditTarget(copy, false); }
      else { ok := true; }
    }

    /** The last look at the target and at the pool, and the transaction that moves the row. */
    method CommitRow(copy: RemoteId, request: Request) returns (ok: bool)
      requires Valid() && request.chosen.Some?
      modifies this`row, this`clock, target`calls
      ensures Valid() && target.calls >= old(target.calls)
      ensures row == if ok then Moved(old(row), copy, request) else old(row)
      ensures ok ==> request.stillFree
      ensures old(target.Reliable()) && DatabaseUp() && request.stillFree ==> ok
    {
      var finalRead := target.GetPeers();
      if finalRead == None || !request.stillFree { return false; }
      ok := Query();
      if !ok { return; }
      row := Moved(row, copy, request);
    }

    /** With the source gone: the audit step, the quota decision and the commit. */
    method Install(copy: RemoteId, request: Request) returns (ok: bool)
      requires Valid() && Consistent(row) && request.chosen.Some?
      requires Decide(row, request).0 || !EnabledOn(source.state.peers, row.publicKey)
      requires Holders(target.state.peers, row.publicKey) == {copy}
      requires copy in target.state.peers
               && target.state.peers[copy] == Copy(row.publicKey, request, request.chosen.value, true)
      modifies this, target
      ensures Valid() && old(history) <= history && row.publicKey == old(row).publicKey && row.id == old(row).id
      ensures target.calls >= old(target.calls) && target.state.shaping == old(target.state).shaping
      ensures Holders(target.state.peers, row.publicKey) == {copy}
      ensures forall i :: |old(history)| <= i < |history| ==> Holders(history[i].target, row.publicKey) == {copy}
      ensures ok ==> Arrived(old(row), row, target.state.peers, copy, request)
      ensures ok ==> row.disabled == Decide(old(row), request).0
      ensures !ok ==> row == old(row)
      ensures ok ==> request.stillFree
      ensures old(target.Reliable()) && DatabaseUp() && request.stillFree ==> ok
    {
      hide EnabledOn, EnabledAtMostOnce;
      ok := Query();
      if !ok { return; }
      ok := Query();
      if !ok { return; }
      ok := Settle(copy, request);
      if !ok { return; }
      ok := CommitRow(copy, request);
      MovedArrived(old(row), target.state.peers, copy, request);
    }

    /** Deletes the source, decides the copy's state and commits the row. */
    method Transfer(remote: RemoteId, copy: RemoteId, request: Request) returns (ok: bool, sourceDeleted: bool)
      requires Valid() && Consistent(row) && row.place == OnSource && request.chosen.Some?
      requires remote in source.state.peers && Deletable(source.state.peers, row, remote)
               && SafeToMove(source.state.peers, row, request)
      requires Holders(target.state.peers, row.publicKey) == {copy}
      requires copy in target.state.peers
               && target.state.peers[copy] == Copy(row.publicKey, request, request.chosen.value, true)
      modifies this, source, target
      ensures Valid() && old(history) <= history && row.publicKey == old(row).publicKey && row.id == old(row).id
      ensures source.calls >= old(source.calls) && target.calls >= old(target.calls)
      ensures Holders(target.state.peers, row.publicKey) == {copy}
      ensures forall i :: |old(history)| <= i < |history| ==> Holders(history[i].target, row.publicKey) == {copy}
      ensures sourceDeleted ==> Decide(old(row), request).0 || !EnabledOn(source.state.peers, row.publicKey)
      ensures sourceDeleted && SoleMatch(old(source.state).peers, old(row).Link()) ==>
                Holders(source.state.peers, row.publicKey) == {}
      ensures !sourceDeleted ==> !EnabledOn(target.state.peers, row.publicKey)
      ensures !sourceDeleted ==> target.state.peers == old(target.state).peers
      ensures sourceDeleted ==> source.state.peers != old(source.state).peers
      ensures !sourceDeleted && CleanFailures() ==> source.state == old(source.state)
      ensures ok ==> sourceDeleted && Arrived(old(row), row, target.state.peers, copy, request)
      ensures ok ==> request.stillFree
      ensures ok ==> row.disabled || !EnabledOn(source.state.peers, row.publicKey)
      ensures !ok ==> row == old(row)
      ensures source.state.shaping == old(source.state).shaping && target.state.shaping == old(target.state).shaping
      ensures old(source.Reliable()) && old(target.Reliable()) && DatabaseUp() && request.stillFree ==> ok
    {
      hide EnabledOn, EnabledAtMostOnce, SoleMatch, EnabledIsSole, Arrived, Decide;
      ok := false;
      DisabledCopyOnly(target.state.peers, row.publicKey, copy);
      sourceDeleted := DeleteSource(remote);
      if !sourceDeleted { return; }
      ok := Install(copy, request);
    }

    /** The steps after the commit: the source's queue goes, the target's is forced into the desired state. */
    method FinishQueues(request: Request) returns (ok: bool)
      requires Valid()
      modifies this`clock, source, target
      ensures Valid() && source.calls >= old(source.calls) && target.calls >= old(target.calls)
      ensures source.state.peers == old(source.state).peers && target.state.peers == old(target.state).peers
      ensures ok ==> QueuesFollow(source.state.shaping, target.state.shaping, row, request)
      ensures old(source.Reliable()) && old(target.Reliable()) && DatabaseUp()
                && TargetShapeable(old(target.state).shaping, row, request)
              ==> ok
    {
      ok := Query();
      if !ok { return; }
      var removed := Bandwidth.DeleteOwnedPeerQueueRemote(source, row.id);
      if removed == None { return false; }
      ok := Query();
      if !ok { return; }
      var applied := Bandwidth.ApplyPeerBandwidthRemote(target, Ref(row, request), request.policy, true);
      if applied.Failed? { return false; }
      ok := Query();
    }

    /** Undoes a copy whose original is still there. */
    method RemoveCopy(created: RemoteId)
      requires Valid() && Holders(target.state.peers, row.publicKey) == {created}
      modifies this`history, target
      ensures Valid() && old(history) <= history && target.state.shaping == old(target.state).shaping
      ensures forall i :: |old(history)| <= i < |history| ==> history[i].source == source.state.peers
      ensures old(target.Reliable()) && created in old(target.state).peers ==>
                target.state.peers == old(target.state).peers - {created}
    {
      ghost var before := target.state.peers;
      var deleted := target.DeletePeer(created);
      assert forall x :: EnabledHolder(target.state.peers, row.publicKey, x) ==>
               EnabledHolder(before, row.publicKey, x);
      Note();
    }

    /** Adopts the copy, disabled, when the original is gone but the row could not be moved. */
    method AdoptCopy(copy: RemoteId, request: Request)
      requires Valid() && request.chosen.Some? && Holders(target.state.peers, row.publicKey) == {copy}
      modifies this, target
      ensures Valid() && old(history) <= history && row.publicKey == old(row).publicKey
      ensures target.state.shaping == old(target.state).shaping
      ensures Holders(target.state.peers, row.publicKey) == {copy}
      ensures forall i :: |old(history)| <= i < |history| ==>
                history[i].source == source.state.peers && Holders(history[i].target, row.publicKey) == {copy}
      ensures row == old(row) || Adopted(old(row), row, Some(copy), request)
      ensures DatabaseUp() && request.recoveryClaims ==> row.place == OnTarget
      ensures old(target.Reliable()) ==> !EnabledOn(target.state.peers, row.publicKey)
    {
      hide EnabledAtMostOnce, EnabledOn, Adopted, Adopting;
      assert copy in Holders(target.state.peers, row.publicKey);
      var edited := EditTarget(copy, true);
      assert copy in Holders(target.state.peers, row.publicKey);
      if edited { DisabledCopyOnly(target.state.peers, row.publicKey, copy); }
      var up := Query();
      AdoptingAdopts(row, copy, request);
      if up && request.recoveryClaims { row := Adopting(row, copy, request); }
    }

    /** The `catch` block: undo the copy, or adopt it disabled, or flag the committed row. */
    method Recover(request: Request, created: Option<RemoteId>, copy: Option<RemoteId>, sourceDeleted: bool,
                   committed: bool)
      requires Valid()
      requires !committed && sourceDeleted ==> copy.Some? && created == copy
      requires created.Some? && !committed ==> Holders(target.state.peers, row.publicKey) == {created.value}
      requires copy.Some? ==> request.chosen.Some?
      modifies this, source, target
      ensures Valid() && old(history) <= history && row.publicKey == old(row).publicKey
      ensures source.state == old(source.state) && target.state.shaping == old(target.state).shaping
      ensures sourceDeleted || committed || created == None ==>
                Holders(target.state.peers, row.publicKey) == Holders(old(target.state).peers, row.publicKey)
      ensures forall i :: |old(history)| <= i < |history| ==> history[i].source == source.state.peers
      ensures sourceDeleted || committed || created == None ==>
                forall i :: |old(history)| <= i < |history| ==>
                  Holders(history[i].target, row.publicKey) == Holders(old(target.state).peers, row.publicKey)
      ensures committed ==>
                row == old(row).(needsReconciliation := row.needsReconciliation) && target.state == old(target.state)
                && (DatabaseUp() ==> row.needsReconciliation)
      ensures !committed && !sourceDeleted ==> row == old(row)
      ensures !committed && !sourceDeleted && created == None ==> target.state == old(target.state)
      ensures !committed && sourceDeleted ==> row == old(row) || Adopted(old(row), row, copy, request)
      ensures !committed && sourceDeleted && DatabaseUp() && request.recoveryClaims ==> row.place == OnTarget
      ensures !committed && sourceDeleted && old(target.Reliable()) ==> !EnabledOn(target.state.peers, row.publicKey)
      ensures !committed && !sourceDeleted && created.Some? && old(target.Reliable())
                && created.value in old(target.state).peers
              ==> target.state.peers == old(target.state).peers - {created.value}
    {
      hide EnabledAtMostOnce, EnabledOn, Adopted;
      if committed {
        var up := Query();
        if up { row := row.(needsReconciliation := true); }
      } else if sourceDeleted {
        AdoptCopy(copy.value, request);
      } else if created.Some? {
        RemoveCopy(created.value);
      }
    }

    /** The reads and checks before anything is written. */
    method Precheck(request: Request) returns (remote: Option<RemoteId>)
      requires Valid()
      modifies this`clock, source`calls, target`calls
      ensures Valid() && source.calls >= old(source.calls) && target.calls >= old(target.calls)
      ensures remote.Some? ==>
                request.chosen.Some? && remote.value in source.state.peers
                && Deletable(source.state.peers, row, remote.value)
      ensures remote.Some? ==> request.managed
      ensures old(source.Reliable()) && old(target.Reliable()) && DatabaseUp()
              && AsRecorded(source.state.peers, row.Link(), row.fingerprint)
                && request.chosen.Some? && request.managed
              ==> remote.Some?
    {
      if AsRecorded(source.state.peers, row.Link(), row.fingerprint) {
        RecordedPasses(source.state.peers, row.Link(), row.fingerprint);
      }
      var found := AssertCurrentRemote(source, row.Link(), row.fingerprint);
      if found == None { return None; }
      remote := Some(found.value.id);
      var targetRead := target.GetPeers();
      var chose := Query();
      if targetRead == None || !chose || request.chosen == None || !request.managed { return None; }
    }

    /** The `try` block once the copy exists. */
    method FinishMove(remote: RemoteId, copy: RemoteId, request: Request)
        returns (ok: bool, sourceDeleted: bool, committed: bool)
      requires Valid() && Consistent(row) && row.place == OnSource && request.chosen.Some?
      requires remote in source.state.peers && Deletable(source.state.peers, row, remote)
               && SafeToMove(source.state.peers, row, request)
      requires Holders(target.state.peers, row.publicKey) == {copy}
      requires copy in target.state.peers
               && target.state.peers[copy] == Copy(row.publicKey, request, request.chosen.value, true)
      modifies this, source, target
      ensures Valid() && old(history) <= history && row.publicKey == old(row).publicKey
      ensures Holders(target.state.peers, row.publicKey) == {copy}
      ensures forall i :: |old(history)| <= i < |history| ==> Holders(history[i].target, row.publicKey) == {copy}
      ensures sourceDeleted ==> Decide(old(row), request).0 || !EnabledOn(source.state.peers, row.publicKey)
      ensures sourceDeleted && SoleMatch(old(source.state).peers, old(row).Link()) ==>
                Holders(source.state.peers, row.publicKey) == {}
      ensures !sourceDeleted ==> target.state.peers == old(target.state).peers
      ensures sourceDeleted ==> source.state.peers != old(source.state).peers
      ensures !sourceDeleted && CleanFailures() ==> source.state.peers == old(source.state).peers
      ensures target.calls >= old(target.calls) && (committed ==> request.stillFree)
      ensures committed ==> sourceDeleted && Arrived(old(row), row, target.state.peers, copy, request)
      ensures committed ==> row.disabled || !EnabledOn(source.state.peers, row.publicKey)
      ensures !committed ==> row == old(row) && !ok
      ensures ok ==> QueuesFollow(source.state.shaping, target.state.shaping, row, request)
      ensures old(source.Reliable()) && old(target.Reliable()) && DatabaseUp() && request.stillFree
                && TargetShapeable(old(target.state).shaping, old(row).(address := request.chosen.value), request)
              ==> ok
    {
      hide EnabledAtMostOnce, EnabledOn, SoleMatch, SafeToMove, Bandwidth.Observe, QueuesFollow, Decide;
      committed, sourceDeleted := Transfer(remote, copy, request);
      ok := committed;
      if committed { ok := FinishQueues(request); }
    }

    /** The `try` block of the move; the out-parameters are the flags its handler looks at. */
    method TryMove(request: Request)
        returns (ok: bool, created: Option<RemoteId>, copy: Option<RemoteId>, sourceDeleted: bool, committed: bool)
      requires Valid() && Consistent(row) && row.place == OnSource
      requires SafeToMove(source.state.peers, row, request) && Holders(target.state.peers, row.publicKey) == {}
      modifies this, source, target
      ensures Valid() && old(history) <= history && row.publicKey == old(row).publicKey
      ensures CleanFailures() && Holders(old(source.state).peers, row.publicKey) != {} ==> PresentSince(|old(history)|)
      ensures !sourceDeleted && CleanFailures() ==> source.state.peers == old(source.state).peers
      ensures !GuardPasses(old(source.state).peers, old(row).Link(), old(row).fingerprint) ==>
                created == None && !sourceDeleted && !committed && source.state == old(source.state)
                && target.state == old(target.state)
      ensures created.Some? ==> Holders(target.state.peers, row.publicKey) == {created.value}
      ensures copy.Some? ==> created == copy && request.chosen.Some?
      ensures sourceDeleted ==>
                copy.Some? && (Decide(old(row), request).0 || !EnabledOn(source.state.peers, row.publicKey))
      ensures sourceDeleted && SoleMatch(old(source.state).peers, old(row).Link()) ==>
                Holders(source.state.peers, row.publicKey) == {}
      ensures committed ==>
                sourceDeleted && copy.Some? && Arrived(old(row), row, target.state.peers, copy.value, request)
      ensures committed ==> row.disabled || !EnabledOn(source.state.peers, row.publicKey)
      ensures !committed ==> row == old(row) && !ok
      ensures ok ==> QueuesFollow(source.state.shaping, target.state.shaping, row, request)
      ensures committed ==> request.managed && request.stillFree
      ensures sourceDeleted ==> source.state.peers != old(source.state).peers
      ensures !sourceDeleted && created.Some? ==> AddedOne(old(target.state).peers, target.state.peers, created.value)
      ensures created == None && old(target.Reliable()) ==> target.state.peers == old(target.state).peers
      ensures target.calls >= old(target.calls)
      ensures old(source.Reliable()) && old(target.Reliable()) && DatabaseUp()
                && Expected(old(source.state), old(target.state), old(row), request)
              ==> ok
    {
      hide EnabledAtMostOnce, EnabledOn, SoleMatch, SafeToMove, Arrived, Decide, Bandwidth.Observe, QueuesFollow,
           AddedOne;
      created, copy, sourceDeleted, committed, ok := None, None, false, false, false;
      var remote := Precheck(request);
      if remote == None { return; }
      created, copy := CopyToTarget(request);
      if copy == None { return; }
      ok, sourceDeleted, committed := FinishMove(remote.value, copy.value, request);
    }

    /** `updatePeer` when the router changes. */
    method MovePeer(request: Request) returns (ok: bool)
      requires Valid() && Consistent(row) && row.place == OnSource
      requires SafeToMove(source.state.peers, row, request) && Holders(target.state.peers, row.publicKey) == {}
      modifies this, source, target
      ensures Valid() && old(history) <= history && row.publicKey == old(row).publicKey
      ensures !GuardPasses(old(source.state).peers, old(row).Link(), old(row).fingerprint) ==>
                !ok && source.state == old(source.state) && target.state == old(target.state) && row == old(row)
      ensures CleanFailures() && Holders(old(source.state).peers, row.publicKey) != {} ==> PresentSince(|old(history)|)
      ensures ok ==> && row.remoteId.Some? && Arrived(old(row), row, target.state.peers, row.remoteId.value, request)
                     && (row.disabled || !EnabledOn(source.state.peers, row.publicKey))
                     && (SoleMatch(old(source.state).peers, old(row).Link()) ==>
                           Holders(source.state.peers, row.publicKey) == {})
                     && QueuesFollow(source.state.shaping, target.state.shaping, row, request)
      ensures ok ==> request.managed && request.stillFree
      ensures !ok ==>
                || row == old(row) || Adopted(old(row), row, row.remoteId, request)
                || (&& row.remoteId.Some? && (DatabaseUp() ==> row.needsReconciliation)
                    && Arrived(old(row), row.(needsReconciliation := false), target.state.peers, row.remoteId.value,
                               request))
      ensures row.place == OnTarget && row.disabled && old(target.Reliable()) ==>
                !EnabledOn(target.state.peers, row.publicKey)
      ensures !ok && old(target.Reliable()) && source.state.peers == old(source.state).peers ==>
                row == old(row) && target.state.peers == old(target.state).peers
      ensures CleanFailures() && Holders(old(source.state).peers, row.publicKey) != {} && DatabaseUp()
              && request.recoveryClaims ==>
                Holders(if row.place == OnSource then source.state.peers else target.state.peers, row.publicKey) != {}
      ensures old(source.Reliable()) && old(target.Reliable()) && DatabaseUp()
                && Expected(old(source.state), old(target.state), old(row), request)
              ==> ok
    {
      hide EnabledAtMostOnce, EnabledOn, SoleMatch, SafeToMove, Expected, QueuesFollow, Decide, AsAsked, QuotaDecided,
           GuardPasses;
      var created, copy, sourceDeleted, committed;
      ok, created, copy, sourceDeleted, committed := TryMove(request);
      if committed { ArrivedDisabled(old(row), row, target.state.peers, copy.value, request); }
      if !ok { Recover(request, created, copy, sourceDeleted, committed); }
    }
  }

  // ---------------------------------------------------------------------------------------------
  // The same router

  function Put(peers: map<RemoteId, RemotePeer>, id: RemoteId, peer: RemotePeer): map<RemoteId, RemotePeer> {
    peers[id := peer]
  }

  lemma PutTwice(peers: map<RemoteId, RemotePeer>, id: RemoteId, a: RemotePeer, b: RemotePeer)
    ensures Put(Put(peers, id, a), id, b) == Put(peers, id, b)
    ensures id in peers ==> Put(peers, id, peers[id]) == peers
  {
  }

  /** Only the entry `id` differs. */
  predicate OnlyAt(before: map<RemoteId, RemotePeer>, after: map<RemoteId, RemotePeer>, id: RemoteId) {
    id in after && after == Put(before, id, after[id])
  }

  /** The fields an edit in place writes. */
  function Edited(p: RemotePeer, request: Request, ip: Ip): RemotePeer {
    p.(interfaceName := request.interfaceName, allowedAddress := ReplaceClientAddress(request.allowed, ip),
       comment := request.comment, persistentKeepalive := request.keepalive)
  }

  /** Every state an interrupted edit can leave the remote peer in. */
  predicate PartlyEdited(p: RemotePeer, q: RemotePeer, request: Request)
    requires request.chosen.Some?
  {
    q == p || q == Edited(p, request, request.chosen.value).(disabled := q.disabled)
  }

  /** Only a changed decision is sent to the router. */
  function EditedFlag(p: RemotePeer, row: Row, request: Request): bool {
    if Decide(row, request) == (row.disabled, row.reason) then p.disabled else Decide(row, request).0
  }

  /** How the handler of a failed edit ended. */
  datatype Undo = NothingSent | Restored | RestoreFailed

  function AfterEdit(p: RemotePeer, row: Row, request: Request): RemotePeer
    requires request.chosen.Some?
  {
    Edited(p, request, request.chosen.value).(disabled := EditedFlag(p, row, request))
  }

  /** The row a committed edit in place leaves, with the remote peer it describes. */
  function Committed(row: Row, remote: RemoteId, peers: map<RemoteId, RemotePeer>, request: Request): Row
    requires request.chosen.Some? && remote in peers
  {
    row.(remoteId := Some(remote), address := request.chosen.value, disabled := Decide(row, request).0,
         reason := Decide(row, request).1, needsReconciliation := false,
         fingerprint := Some(AfterEdit(peers[remote], row, request)))
  }

  /** Row and remote peer after an edit: the requested fields, the decision about the quota, and nothing else. The
      flag of the remote peer follows the row exactly when that decision changed something. */
  predicate EditedAsAsked(before: Row, after: Row, remote: RemoteId, p: RemotePeer, q: RemotePeer, request: Request) {
    && request.chosen.Some?
    && after == before.(remoteId := Some(remote), address := request.chosen.value, disabled := after.disabled,
                        reason := after.reason, needsReconciliation := after.needsReconciliation,
                        fingerprint := Some(q))
    && QuotaDecided(before, after, request)
    && q == p.(interfaceName := request.interfaceName, comment := request.comment,
               persistentKeepalive := request.keepalive, allowedAddress := q.allowedAddress, disabled := q.disabled)
    && OwnFirst(q.allowedAddress, request, request.chosen.value)
    && q.disabled == (if after.reason == before.reason then p.disabled else after.disabled)
  }

  lemma CommittedFacts(row: Row, remote: RemoteId, peers: map<RemoteId, RemotePeer>, request: Request)
    requires request.chosen.Some? && remote in peers && Consistent(row)
    ensures var after, q := Committed(row, remote, peers, request), AfterEdit(peers[remote], row, request);
            && Consistent(after) && !after.needsReconciliation && after.fingerprint == Some(q)
            && EditedAsAsked(row, after, remote, peers[remote], q, request)
            && EditedAsAsked(row, after.(needsReconciliation := true), remote, peers[remote], q, request)
  {
    DecideDecides(row, request);
    ReplacedAddress(request.allowed, request.chosen.value);
    hide Entries, ReplaceClientAddress;
  }

  class EditService {
    const router: RouterOsClient
    const dbDown: nat -> bool
    var row: Row
    var clock: nat

    constructor (router: RouterOsClient, row: Row, dbDown: nat -> bool)
      ensures this.router == router && this.row == row && this.dbDown == dbDown
    {
      this.router, this.row, this.dbDown, clock := router, row, dbDown, 0;
    }

    ghost predicate DatabaseUp() {
      forall n :: !dbDown(n)
    }

    method Query() returns (ok: bool)
      modifies this`clock
      ensures DatabaseUp() ==> ok
    {
      ok := !dbDown(clock);
      clock := clock + 1;
    }

    /** Sends the quota decision to the router if it changed. */
    method SendFlag(remote: RemoteId, request: Request) returns (ok: bool)
      requires FreshIds(router.state) && remote in router.state.peers
      modifies router
      ensures FreshIds(router.state) && router.calls >= old(router.calls)
              && router.state.shaping == old(router.state).shaping
      ensures var p := old(router.state).peers[remote];
              && OnlyAt(old(router.state).peers, router.state.peers, remote)
              && router.state.peers[remote].(disabled := p.disabled) == p
              && (ok ==> router.state.peers[remote].disabled == EditedFlag(p, row, request))
      ensures old(router.Reliable()) ==> ok
    {
      var (disabled, reason) := Decide(row, request);
      ghost var peers := router.state.peers;
      ok := true;
      PutTwice(peers, remote, peers[remote], peers[remote]);
      if (disabled, reason) != (row.disabled, row.reason) {
        ok := router.UpdatePeer(remote, (p: RemotePeer) => p.(disabled := disabled));
      }
    }

    /** The remote edits and the commit; on failure `mutated` says whether there is something to undo. */
    method TryEdit(remote: RemoteId, request: Request) returns (committed: bool, mutated: bool)
      requires FreshIds(router.state) && remote in router.state.peers && request.chosen.Some? && Consistent(row)
      modifies this, router
      ensures FreshIds(router.state) && router.calls >= old(router.calls)
              && router.state.shaping == old(router.state).shaping
      ensures OnlyAt(old(router.state).peers, router.state.peers, remote)
      ensures PartlyEdited(old(router.state).peers[remote], router.state.peers[remote], request)
      ensures committed ==> router.state.peers[remote] == AfterEdit(old(router.state).peers[remote], old(row), request)
      ensures !mutated && router.CleanFailures() ==> router.state == old(router.state)
      ensures committed ==> request.stillFree
      ensures old(router.Reliable()) ==> mutated
      ensures row == if committed then Committed(old(row), remote, old(router.state).peers, request) else old(row)
      ensures old(router.Reliable()) && DatabaseUp() && request.stillFree ==> committed
    {
      committed := false;
      var ip := request.chosen.value;
      ghost var peers := router.state.peers;
      ghost var e := Edited(peers[remote], request, ip);
      PutTwice(peers, remote, e, e);
      mutated := router.UpdatePeer(remote, (p: RemotePeer) => Edited(p, request, ip));
      if !mutated { return; }
      var read := router.GetPeers();
      if read == None || remote !in read.value { return; }
      var quotaRead := Query();
      if !quotaRead { return; }
      var (disabled, reason) := Decide(row, request);
      var updated := read.value[remote].(disabled := EditedFlag(read.value[remote], row, request));
      var sent := SendFlag(remote, request);
      PutTwice(peers, remote, e, router.state.peers[remote]);
      if !sent { return; }
      var finalRead := router.GetPeers();
      if finalRead == None || !request.stillFree { return; }
      committed := Query();
      if committed {
        row := row.(remoteId := Some(remote), address := ip, disabled := disabled, reason := reason,
                    needsReconciliation := false, fingerprint := Some(updated));
      }
    }

    /** The reads before anything is written. */
    method Precheck(request: Request) returns (remote: Option<RemoteId>)
      modifies this`clock, router`calls
      ensures router.calls >= old(router.calls)
      ensures remote.Some? ==>
                && request.chosen.Some? && remote.value in router.state.peers
                && Deletable(router.state.peers, row, remote.value)
                && GuardPasses(router.state.peers, row.Link(), row.fingerprint)
      ensures old(router.Reliable()) && DatabaseUp() && request.chosen.Some?
                && OnlyPasses(router.state.peers, row.Link(), row.fingerprint)
              ==> remote.Some?
    {
      var found := AssertCurrentRemote(router, row.Link(), row.fingerprint);
      if found == None { return None; }
      var read := router.GetPeers();
      var chose := Query();
      remote := if read == None || !chose || request.chosen == None then None else Some(found.value.id);
    }

    /** The handler's first step: an edit that was sent but not committed is undone. */
    method Restore(remote: RemoteId, original: RemotePeer) returns (undo: Undo)
      requires FreshIds(router.state) && remote in router.state.peers
      modifies router
      ensures FreshIds(router.state) && router.calls == old(router.calls) + 1
      ensures router.state.shaping == old(router.state).shaping
      ensures OnlyAt(old(router.state).peers, router.state.peers, remote) && undo != NothingSent
      ensures undo == Restored && old(router.state).peers[remote].publicKey == original.publicKey
                && old(router.state).peers[remote].endpointAddress == original.endpointAddress
                && old(router.state).peers[remote].endpointPort == original.endpointPort
              ==> router.state.peers == Put(old(router.state).peers, remote, original)
      ensures undo == RestoreFailed ==> router.faults(old(router.calls)) != Works
    {
      ghost var before := router.state.peers;
      var restored := router.UpdatePeer(remote, (p: RemotePeer) =>
        p.(interfaceName := original.interfaceName, allowedAddress := original.allowedAddress,
           comment := original.comment,
           persistentKeepalive := original.persistentKeepalive, disabled := original.disabled));
      PutTwice(before, remote, before[remote], router.state.peers[remote]);
      undo := if restored then Restored else RestoreFailed;
    }

    /** The steps after the commit. */
    method FinishQueue(request: Request) returns (ok: bool)
      requires FreshIds(router.state)
      modifies this`clock, router
      ensures FreshIds(router.state) && router.calls >= old(router.calls)
      ensures Bandwidth.OnlyOwnedQueuesDiffer(old(router.state), router.state, row.id)
      ensures ok ==> Bandwidth.Observe(router.state.shaping, Ref(row, request), request.policy) == Bandwidth.Synced
      ensures old(router.Reliable()) && DatabaseUp() && TargetShapeable(old(router.state).shaping, row, request) ==> ok
    {
      ok := Query();
      if !ok { return; }
      ok := Query();
      if !ok { return; }
      var applied := Bandwidth.ApplyPeerBandwidthRemote(router, Ref(row, request), request.policy, true);
      if applied.Failed? { return false; }
      ok := Query();
    }

    /** `updatePeer` on one router; `remote` is the peer the guard let pass. If nothing was committed, the row and the
        queues are untouched and the remote peer is put back exactly as it was, whatever call or statement failed after
        the edit was sent, unless the restoring call itself fails; only a lost reply to that edit goes unnoticed. Once
        committed, either the queue follows or the row is marked for reconciliation. */
    method EditPeer(request: Request) returns (ok: bool, committed: bool, undo: Undo, remote: Option<RemoteId>)
      requires FreshIds(router.state) && Consistent(row)
      modifies this, router
      ensures FreshIds(router.state) && row.publicKey == old(row).publicKey && row.id == old(row).id && Consistent(row)
      ensures !GuardPasses(old(router.state).peers, old(row).Link(), old(row).fingerprint) ==> remote == None
      ensures remote == None ==>
                !committed && undo == NothingSent && row == old(row) && router.state == old(router.state)
      ensures remote.Some? ==> && request.chosen.Some? && remote.value in old(router.state).peers
                               && Deletable(old(router.state).peers, old(row), remote.value)
                               && OnlyAt(old(router.state).peers, router.state.peers, remote.value)
      ensures committed ==>
                && remote.Some? && request.stillFree
                && EditedAsAsked(old(row), row, remote.value, old(router.state).peers[remote.value],
                                 router.state.peers[remote.value], request)
                && Bandwidth.ForeignQueues(router.state.shaping.queues, row.id)
                   == Bandwidth.ForeignQueues(old(router.state).shaping.queues, row.id)
      ensures ok ==> && committed && !row.needsReconciliation
                     && Bandwidth.Observe(router.state.shaping, Ref(row, request), request.policy) == Bandwidth.Synced
      ensures committed && !ok && DatabaseUp() ==> row.needsReconciliation
      ensures !committed ==> row == old(row) && router.state.shaping == old(router.state).shaping
      ensures !committed && undo == Restored ==> router.state.peers == old(router.state).peers
      ensures !committed && undo == NothingSent && router.CleanFailures() ==> router.state == old(router.state)
      ensures undo == RestoreFailed ==> !committed && router.calls > 0 && router.faults(router.calls - 1) != Works
      ensures old(router.Reliable()) && DatabaseUp() && request.chosen.Some? && request.stillFree
                && OnlyPasses(old(router.state).peers, old(row).Link(), old(row).fingerprint)
              ==> committed && (TargetShapeable(old(router.state).shaping, row, request) ==> ok)
    {
      hide Bandwidth.Observe, Decide, AfterEdit, GuardPasses, OnlyPasses, EditedAsAsked;
      ok, committed, undo := false, false, NothingSent;
      remote := Precheck(request);
      if remote == None { return; }
      var original := router.state.peers[remote.value];
      ghost var peers := router.state.peers;
      var mutated;
      committed, mutated := TryEdit(remote.value, request);
      PutTwice(peers, remote.value, router.state.peers[remote.value], original);
      CommittedFacts(old(row), remote.value, peers, request);
      if committed {
        ok := FinishQueue(request);
        if !ok {
          var up := Query();
          if up { row := row.(needsReconciliation := true); }
        }
      } else if mutated {
        undo := Restore(remote.value, original);
      }
    }
  }
}
