/** The router as the application sees it: the client interface of `src/server/routeros/types.ts` with the
    behaviour of `src/server/routeros/mock-client.ts`, where any call may fail. */
module RouterModel {
  import opened Wrappers
  import opened IpCidr

  type PeerId = string
  type Key = string
  type RemoteId = nat
  type QueueId = nat

  /** The fields `remotePeerFingerprint` hashes; equality of these values stands for equal fingerprints. */
  datatype RemotePeer = RemotePeer(
    interfaceName: string, comment: string, publicKey: Key, allowedAddress: string,
    endpointAddress: Option<string>, endpointPort: Option<nat>, persistentKeepalive: nat, disabled: bool)

  /** A remote peer as a listing shows it. */
  datatype RemoteEntry = RemoteEntry(id: RemoteId, peer: RemotePeer)

  /** The two columns that tie a row to the router: every lookup matches either of them. */
  datatype PeerLink = PeerLink(remoteId: Option<RemoteId>, publicKey: Key)

  predicate Answers(link: PeerLink, remote: RemoteEntry) {
    link.remoteId == Some(remote.id) || link.publicKey == remote.peer.publicKey
  }

  function Answering(peers: map<RemoteId, RemotePeer>, link: PeerLink): set<RemoteId> {
    set id | id in peers && Answers(link, RemoteEntry(id, peers[id]))
  }

  function Holders(peers: map<RemoteId, RemotePeer>, key: Key): set<RemoteId> {
    set id | id in peers && peers[id].publicKey == key
  }

  /** At most one remote peer answers to the row. */
  ghost predicate SoleMatch(peers: map<RemoteId, RemotePeer>, link: PeerLink) {
    forall a, b :: a in Answering(peers, link) && b in Answering(peers, link) ==> a == b
  }

  /** What `assertCurrentRemote` lets pass: the peer answers, and shows the stored fingerprint if there is one. */
  predicate PassesGuard(link: PeerLink, fingerprint: Option<RemotePeer>, remote: RemoteEntry) {
    Answers(link, remote) && (fingerprint.None? || fingerprint == Some(remote.peer))
  }

  ghost predicate GuardPasses(peers: map<RemoteId, RemotePeer>, link: PeerLink, fingerprint: Option<RemotePeer>) {
    exists id :: id in peers && PassesGuard(link, fingerprint, RemoteEntry(id, peers[id]))
  }

  /** Some remote peer answers to the row, and every one that does passes the guard. */
  ghost predicate OnlyPasses(peers: map<RemoteId, RemotePeer>, link: PeerLink, fingerprint: Option<RemotePeer>) {
    && Answering(peers, link) != {}
    && forall id :: id in Answering(peers, link) ==> PassesGuard(link, fingerprint, RemoteEntry(id, peers[id]))
  }

  /** The router holds the peer as it was last recorded, and only once. */
  ghost predicate AsRecorded(peers: map<RemoteId, RemotePeer>, link: PeerLink, fingerprint: Option<RemotePeer>) {
    && link.remoteId.Some? && link.remoteId.value in peers && Holders(peers, link.publicKey) == {link.remoteId.value}
    && fingerprint == Some(peers[link.remoteId.value])
  }

  datatype RatePair = RatePair(upload: nat, download: nat)

  /** A queue target as written, together with what it denotes. */
  datatype Target = Target(text: string, denotes: Allowed)

  /** Trimmed comments: the application's ownership mark, or anything else. */
  datatype Comment = OwnedBy(peer: PeerId) | Foreign(text: string)

  datatype SimpleQueue = SimpleQueue(
    name: string, targets: seq<Target>, maxLimit: RatePair, burstLimit: RatePair, burstThreshold: RatePair,
    burstTime: RatePair, disabled: bool, comment: Comment)

  datatype AddressMatcher = Absent | Negated | Listed(entries: seq<Allowed>)
  datatype QueueTree = QueueTree(disabled: bool, packetMark: string)
  datatype MangleRule = MangleRule(disabled: bool, source: AddressMatcher, destination: AddressMatcher,
                                   newPacketMark: string)
  datatype FilterRule = FilterRule(disabled: bool, action: string)

  datatype Shaping = Shaping(
    queues: map<QueueId, SimpleQueue>, trees: seq<QueueTree>, mangles: seq<MangleRule>, filters: seq<FilterRule>)

  /** The two counters hand out ids; RouterOS never reuses one. */
  datatype RouterState = RouterState(peers: map<RemoteId, RemotePeer>, shaping: Shaping, nextPeer: nat, nextQueue: nat)

  predicate FreshIds(s: RouterState) {
    && (forall id :: id in s.peers ==> id < s.nextPeer)
    && (forall id :: id in s.shaping.queues ==> id < s.nextQueue)
  }

  function WithQueues(s: RouterState, queues: map<QueueId, SimpleQueue>): RouterState {
    s.(shaping := s.shaping.(queues := queues))
  }

  /** A call works, fails without touching the router, or takes effect although its reply is lost. */
  datatype Fault = Works | FailsCleanly | ReplyLost

  class RouterOsClient {
    var state: RouterState
    var calls: nat
    const faults: nat -> Fault
    /** When set, a failed peer creation never leaves a peer behind. */
    const cleanCreate: bool

    constructor (state: RouterState, faults: nat -> Fault, cleanCreate: bool)
      ensures this.state == state && this.faults == faults && this.cleanCreate == cleanCreate && calls == 0
    {
      this.state, this.faults, this.cleanCreate, calls := state, faults, cleanCreate, 0;
    }

    ghost predicate Reliable() reads this {
      forall k :: k >= calls ==> faults(k) == Works
    }

    ghost predicate CleanFailures() {
      forall k :: faults(k) != ReplyLost
    }

    method GetPeers() returns (r: Option<map<RemoteId, RemotePeer>>)
      modifies this`calls
      ensures calls > old(calls)
      ensures r == None || r == Some(state.peers)
      ensures old(Reliable()) ==> r.Some?
    {
      r := if faults(calls) == Works then Some(state.peers) else None;
      calls := calls + 1;
    }

    method CreatePeer(peer: RemotePeer) returns (r: Option<RemoteId>)
      requires FreshIds(state)
      modifies this
      ensures calls > old(calls) && FreshIds(state)
      ensures var id := old(state).nextPeer;
              var created := old(state).(peers := old(state).peers[id := peer], nextPeer := id + 1);
              if r.Some? then r == Some(id) && state == created
              else state == old(state) || (!cleanCreate && !CleanFailures() && state == created)
      ensures old(Reliable()) ==> r.Some?
    {
      var fault := faults(calls);
      calls := calls + 1;
      r := if fault == Works then Some(state.nextPeer) else None;
      if fault == Works || (fault == ReplyLost && !cleanCreate) {
        state := state.(peers := state.peers[state.nextPeer := peer], nextPeer := state.nextPeer + 1);
      }
    }

    method UpdatePeer(id: RemoteId, edit: RemotePeer -> RemotePeer) returns (ok: bool)
      requires FreshIds(state)
      modifies this
      ensures calls == old(calls) + 1 && FreshIds(state)
      ensures ok <==> faults(old(calls)) == Works && id in old(state).peers
      ensures state == old(state)
           || (id in old(state).peers && (ok || !CleanFailures())
               && state == old(state).(peers := old(state).peers[id := edit(old(state).peers[id])]))
      ensures ok ==> state.peers == old(state).peers[id := edit(old(state).peers[id])]
      ensures old(Reliable()) ==> ok == (id in old(state).peers)
    {
      var fault := faults(calls);
      calls := calls + 1;
      ok := fault == Works && id in state.peers;
      if fault != FailsCleanly && id in state.peers {
        state := state.(peers := state.peers[id := edit(state.peers[id])]);
      }
    }

    method DeletePeer(id: RemoteId) returns (ok: bool)
      requires FreshIds(state)
      modifies this
      ensures calls > old(calls) && FreshIds(state)
      ensures ok ==> id in old(state).peers && id !in state.peers
      ensures state == old(state)
           || (id in old(state).peers && (ok || !CleanFailures())
               && state == old(state).(peers := old(state).peers - {id}))
      ensures old(Reliable()) ==> ok == (id in old(state).peers)
    {
      var fault := faults(calls);
      calls := calls + 1;
      ok := fault == Works && id in state.peers;
      if fault != FailsCleanly && id in state.peers {
        state := state.(peers := state.peers - {id});
      }
    }

    /** The four reads of simple queues, queue trees, mangle rules and filter rules. */
    method GetShaping() returns (r: Option<Shaping>)
      modifies this`calls
      ensures calls > old(calls)
      ensures r == None || r == Some(state.shaping)
      ensures old(Reliable()) ==> r.Some?
    {
      r := if faults(calls) == Works then Some(state.shaping) else None;
      calls := calls + 1;
    }

    method CreateSimpleQueue(queue: SimpleQueue) returns (r: Option<QueueId>)
      requires FreshIds(state)
      modifies this
      ensures calls > old(calls) && FreshIds(state)
      ensures var queues := old(state).shaping.queues[old(state).nextQueue := queue];
              var created := WithQueues(old(state), queues).(nextQueue := old(state).nextQueue + 1);
              if r.Some? then r == Some(old(state).nextQueue) && state == created
              else state == old(state) || (!CleanFailures() && state == created)
      ensures old(Reliable()) ==> r.Some?
    {
      var fault := faults(calls);
      calls := calls + 1;
      r := if fault == Works then Some(state.nextQueue) else None;
      if fault != FailsCleanly {
        state := WithQueues(state, state.shaping.queues[state.nextQueue := queue]).(nextQueue := state.nextQueue + 1);
      }
    }

    method UpdateSimpleQueue(id: QueueId, queue: SimpleQueue) returns (ok: bool)
      requires FreshIds(state)
      modifies this
      ensures calls > old(calls) && FreshIds(state)
      ensures ok ==>
                id in old(state).shaping.queues
                && state == WithQueues(old(state), old(state).shaping.queues[id := queue])
      ensures state == old(state)
           || (id in old(state).shaping.queues && (ok || !CleanFailures())
               && state == WithQueues(old(state), old(state).shaping.queues[id := queue]))
      ensures old(Reliable()) ==> ok == (id in old(state).shaping.queues)
    {
      var fault := faults(calls);
      calls := calls + 1;
      ok := fault == Works && id in state.shaping.queues;
      if fault != FailsCleanly && id in state.shaping.queues {
        state := WithQueues(state, state.shaping.queues[id := queue]);
      }
    }

    method DeleteSimpleQueue(id: QueueId) returns (ok: bool)
      requires FreshIds(state)
      modifies this
      ensures calls > old(calls) && FreshIds(state)
      ensures ok ==>
                id in old(state).shaping.queues && state == WithQueues(old(state), old(state).shaping.queues - {id})
      ensures state == old(state)
           || (id in old(state).shaping.queues && (ok || !CleanFailures())
               && state == WithQueues(old(state), old(state).shaping.queues - {id}))
      ensures old(Reliable()) ==> ok == (id in old(state).shaping.queues)
    {
      var fault := faults(calls);
      calls := calls + 1;
      ok := fault == Works && id in state.shaping.queues;
      if fault != FailsCleanly && id in state.shaping.queues {
        state := WithQueues(state, state.shaping.queues - {id});
      }
    }
  }

  lemma RecordedPasses(peers: map<RemoteId, RemotePeer>, link: PeerLink, fingerprint: Option<RemotePeer>)
    requires AsRecorded(peers, link, fingerprint)
    ensures Answering(peers, link) == {link.remoteId.value} && OnlyPasses(peers, link, fingerprint)
  {
    forall id | id in Answering(peers, link) ensures id == link.remoteId.value {
      assert id == link.remoteId.value || id in Holders(peers, link.publicKey);
    }
    assert link.remoteId.value in Answering(peers, link);
  }

  /** `assertCurrentRemote` of `src/server/peer-service.ts`: some peer that answers to the row, if it passes. */
  method AssertCurrentRemote(client: RouterOsClient, link: PeerLink, fingerprint: Option<RemotePeer>)
      returns (r: Option<RemoteEntry>)
    modifies client`calls
    ensures client.calls > old(client.calls)
    ensures r.Some? ==> && r.value.id in client.state.peers && client.state.peers[r.value.id] == r.value.peer
                        && PassesGuard(link, fingerprint, r.value)
    ensures old(client.Reliable()) && OnlyPasses(client.state.peers, link, fingerprint) ==> r.Some?
  {
    var read := client.GetPeers();
    if read == None { return None; }
    var found := Answering(read.value, link);
    if found == {} { return None; }
    var id :| id in found;
    var remote := RemoteEntry(id, read.value[id]);
    r := if PassesGuard(link, fingerprint, remote) then Some(remote) else None;
  }
}
