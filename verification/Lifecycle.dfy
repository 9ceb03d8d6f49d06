/** The create and delete sagas of `src/server/peer-service.ts` and the retry steps of
    `src/server/operation-reconciler.ts`. Every database transaction and every router call on peers is one atomic step
    that may fail; applying or removing a peer's queues is one step although it takes several calls. Between any two
    steps other actors may change the world. */
module Lifecycle {
  import opened Wrappers
  import opened IpCidr
  import opened RouterModel
  import opened AddressText
  import Bandwidth
  import opened LifecycleState

  /** What the caller asked for, and what the allocator answers inside the two transactions that consult it. */
  datatype CreateRequest = CreateRequest(
    interfaceExists: bool, interfaceName: string, comment: string, keepalive: nat, queueName: string,
    policy: Bandwidth.Policy, chosen: Option<Ip>, stillFree: bool)

  /** One atomic step of a run, taken by the saga named in it, or whatever everybody else did at that point. */
  datatype Step =
    | Mine(p: PeerId, k: Key, o: OperationId, before: World, after: World)
    | Theirs(n: nat, before: World, after: World)

  ghost predicate GoodStep(s: Step, others: (nat, World) -> World) {
    && Inv(s.before) && Inv(s.after)
    && (s.Mine? ==> Own(s.p, s.k, s.o, s.before, s.after))
    && (s.Theirs? ==> s.after == others(s.n, s.before))
  }

  /** A run is a chain of good steps from `start` to the current world. */
  ghost predicate GoodRun(steps: seq<Step>, start: World, now: World, others: (nat, World) -> World) {
    && (forall i :: 0 <= i < |steps| ==> GoodStep(steps[i], others))
    && (forall i :: 0 < i < |steps| ==> steps[i - 1].after == steps[i].before)
    && (if steps == [] then now == start else steps[0].before == start && steps[|steps| - 1].after == now)
  }

  /** The run goes on with steps of this saga and of others. */
  ghost predicate Extends(before: seq<Step>, after: seq<Step>, p: PeerId, k: Key, o: OperationId) {
    && before <= after
    && forall i :: |before| <= i < |after| && after[i].Mine? ==> after[i].p == p && after[i].k == k && after[i].o == o
  }

  lemma ExtensionsCompose(p: PeerId, k: Key, o: OperationId)
    ensures forall a: seq<Step> :: Extends(a, a, p, k, o)
    ensures forall a: seq<Step>, b: seq<Step>, c: seq<Step> {:trigger Extends(a, b, p, k, o), Extends(b, c, p, k, o)} ::
              Extends(a, b, p, k, o) && Extends(b, c, p, k, o) ==> Extends(a, c, p, k, o)
  {
  }

  lemma ExtendsIsPrefix(before: seq<Step>, after: seq<Step>, p: PeerId, k: Key, o: OperationId)
    requires Extends(before, after, p, k, o)
    ensures before <= after
  {
  }

  /** Everybody else leaves this saga's rows and operation alone and does not introduce its key. */
  ghost predicate Tolerates(others: (nat, World) -> World, p: PeerId, k: Key, o: OperationId) {
    forall n, w :: Inv(w) ==> Inv(others(n, w)) && Rely(p, k, o, w, others(n, w))
  }

  predicate SameButDetached(before: Operation, after: Operation) {
    after == before || after == before.(peer := None)
  }

  lemma RemovalDetaches(db: Database, p: PeerId, o: OperationId)
    requires o in db.operations
    ensures o in RemoveRow(db, p).operations && SameButDetached(db.operations[o], RemoveRow(db, p).operations[o])
    ensures o in ArchiveAndRemove(db, p).operations
    ensures SameButDetached(db.operations[o], ArchiveAndRemove(db, p).operations[o])
  {
  }

  predicate OperationKept(before: World, after: World, o: OperationId)
    requires o in before.db.operations
  {
    o in after.db.operations && SameButDetached(before.db.operations[o], after.db.operations[o])
  }

  lemma StepCarries(s: Step, others: (nat, World) -> World, q: PeerId, key: Key, other: OperationId)
    requires GoodStep(s, others) && Tolerates(others, q, key, other) && (s.Mine? && s.p == q ==> s.k == key)
    requires q in s.before.db.issued ==> s.before.db.issued[q] == key
    ensures q in s.after.db.issued ==> s.after.db.issued[q] == key
    ensures (s.Mine? ==> s.o != other) && other in s.before.db.operations ==> OperationKept(s.before, s.after, other)
    ensures (s.Mine? ==> s.p != q) && q !in s.before.db.rows ==> q !in s.after.db.rows
  {
    hide Inv;
    if s.Mine? && s.p != q {
      assert At(s.after.db.issued, q) == At(s.before.db.issued, q);
      assert At(s.after.db.rows, q) == At(s.before.db.rows, q);
    }
    if s.Theirs? {
      var x, y := LocalOf(s.before, q, key, other), LocalOf(s.after, q, key, other);
      assert y.issued == x.issued && y.operation == x.operation && y.row == x.row;
    }
  }

  /** While one saga runs, the key of another peer stays what it was; so does another operation, which may only lose
      its reference to this saga's peer; and a peer without a row gets none. */
  lemma {:induction false} KeyCarried(before: seq<Step>, after: seq<Step>, start: World, w: World, v: World,
                                      others: (nat, World) -> World,
                                      p: PeerId, k: Key, o: OperationId, q: PeerId, key: Key, other: OperationId)
    requires GoodRun(before, start, w, others) && GoodRun(after, start, v, others) && Extends(before, after, p, k, o)
    requires Tolerates(others, q, key, other) && (p == q ==> k == key)
    requires q in w.db.issued ==> w.db.issued[q] == key
    ensures q in v.db.issued ==> v.db.issued[q] == key
    ensures o != other && other in w.db.operations ==> OperationKept(w, v, other)
    ensures p != q && q !in w.db.rows ==> q !in v.db.rows
    decreases |after|
  {
    hide Inv, GoodStep, Tolerates;
    if |after| == |before| {
      assert before == after;
    } else {
      var n := |after| - 1;
      var last := after[n];
      assert GoodStep(last, others) && after[..n][..|before|] == before;
      KeyCarried(before, after[..n], start, w, last.before, others, p, k, o, q, key, other);
      StepCarries(last, others, q, key, other);
    }
  }

  function NewRemotePeer(request: CreateRequest, k: Key, ip: Ip): RemotePeer {
    RemotePeer(request.interfaceName, request.comment, k, Dotted(ip) + "/32", None, None, request.keepalive,
               false)
  }

  /** The remote peer has the requested fields, is enabled, and its allowed addresses own `ip` and no other. */
  ghost predicate AsRequested(peer: RemotePeer, request: CreateRequest, k: Key, ip: Ip) {
    && peer.publicKey == k && !peer.disabled && peer.interfaceName == request.interfaceName
    && peer.comment == request.comment && peer.persistentKeepalive == request.keepalive
    && (forall x: Ip :: TextOwnsIp(peer.allowedAddress, x) <==> x == ip)
  }

  lemma NewPeerIsAsRequested(request: CreateRequest, k: Key, ip: Ip)
    ensures AsRequested(NewRemotePeer(request, k, ip), request, k, ip)
  {
    forall x: Ip ensures TextOwnsIp(Dotted(ip) + "/32", x) <==> x == ip { OwnAddressOnly(ip, x); }
  }

  function Ref(p: PeerId, request: CreateRequest, ip: Ip): Bandwidth.PeerRef {
    Bandwidth.PeerRef(p, request.queueName, ip)
  }

  /** A limit can be put on a peer that owns no queue yet unless the router already shapes its address. */
  predicate Shapeable(s: Shaping, peer: Bandwidth.PeerRef, policy: Bandwidth.Policy) {
    Bandwidth.OwnedQueues(s.queues, peer.id) == {}
    && !Bandwidth.AnyConflict(s, peer, Bandwidth.DesiredSimpleQueue(peer, policy))
  }

  lemma ShapeableIsNotRefused(s: Shaping, peer: Bandwidth.PeerRef, policy: Bandwidth.Policy)
    ensures Shapeable(s, peer, policy) ==>
              var seen := Bandwidth.Observe(s, peer, policy);
              && seen !in {Bandwidth.Conflict, Bandwidth.Duplicate}
              && !(&& seen == Bandwidth.ChangedExternally && Bandwidth.Positive(policy.download)
                   && Bandwidth.Positive(policy.upload))
  {
    Bandwidth.DesiredQueueShapesPeer(peer, policy, peer.clientIp);
    hide Bandwidth.DesiredSimpleQueue, Bandwidth.AnyConflict, Bandwidth.OwnedQueues;
  }

  ghost predicate Submap(a: map<RemoteId, RemotePeer>, b: map<RemoteId, RemotePeer>) {
    forall id :: id in a ==> id in b && a[id] == b[id]
  }

  /** If nothing answers once a single peer was removed, or none, there was no second one. */
  lemma GoneMeansSole(before: map<RemoteId, RemotePeer>, found: set<RemoteId>, after: map<RemoteId, RemotePeer>,
                      link: PeerLink)
    requires found == Answering(before, link) && Answering(after, link) == {}
    requires if found == {} then after == before else exists id :: id in found && after == before - {id}
    ensures SoleMatch(before, link)
  {
    forall a, b | a in found && b in found ensures a == b {
      var id :| id in found && after == before - {id};
      assert a != id ==> a in Answering(after, link);
      assert b != id ==> b in Answering(after, link);
    }
  }

  lemma SoleIsGone(before: map<RemoteId, RemotePeer>, id: RemoteId, link: PeerLink)
    requires id in Answering(before, link)
    ensures SoleMatch(before, link) ==> Answering(before - {id}, link) == {}
  {
    assert forall x :: x in Answering(before - {id}, link) ==> x in Answering(before, link);
  }

  lemma FewerStaySole(fewer: map<RemoteId, RemotePeer>, peers: map<RemoteId, RemotePeer>, link: PeerLink)
    requires Submap(fewer, peers) && SoleMatch(peers, link)
    ensures SoleMatch(fewer, link)
  {
    assert Answering(fewer, link) <= Answering(peers, link);
  }

  lemma OneHolderIsSoleMatch(peers: map<RemoteId, RemotePeer>, row: PeerRow, id: Option<RemoteId>)
    requires Holders(peers, row.publicKey) <= (if id.Some? then {id.value} else {})
             && (row.remoteId == None || row.remoteId == id)
    ensures SoleMatch(peers, row.Link())
  {
    assert forall a :: a in Answering(peers, row.Link()) && row.remoteId != Some(a) ==>
             a in Holders(peers, row.publicKey);
  }

  /** Nothing the request depends on stands in its way. */
  predicate Serviceable(request: CreateRequest, p: PeerId, s: Shaping) {
    && request.interfaceExists && request.chosen.Some? && request.stillFree
    && Shapeable(s, Ref(p, request, request.chosen.value), request.policy)
  }

  predicate Retryable(status: OperationStatus) {
    status == Partial || status == NeedsReconciliation || status == PendingCleanup
  }

  // ---------------------------------------------------------------------------------------------
  // How a creation may end

  ghost predicate FullyPresent(w: World, p: PeerId, k: Key, request: CreateRequest) {
    && p in w.db.rows && w.db.rows[p].lifecycle == ActiveRow && request.chosen == Some(w.db.rows[p].clientIp)
    && w.db.rows[p].remoteId.Some? && Holders(w.router.peers, k) == {w.db.rows[p].remoteId.value}
    && AsRequested(w.router.peers[w.db.rows[p].remoteId.value], request, k, w.db.rows[p].clientIp)
    && w.db.rows[p].fingerprint == Some(w.router.peers[w.db.rows[p].remoteId.value])
    && Bandwidth.Observe(w.router.shaping, Ref(p, request, w.db.rows[p].clientIp), request.policy) == Bandwidth.Synced
  }

  ghost predicate FullyAbsent(w: World, p: PeerId, k: Key) {
    p !in w.db.rows && p !in w.db.addresses && Holders(w.router.peers, k) == {}
    && Bandwidth.OwnedQueues(w.router.shaping.queues, p) == {}
  }

  /** Row and address are kept for the reconciler. */
  ghost predicate AwaitingCleanup(w: World, p: PeerId, o: OperationId) {
    && p in w.db.rows && w.db.rows[p].lifecycle == PendingCleanupRow && p in w.db.addresses
    && o in w.db.operations && w.db.operations[o] == Operation(PeerCreate, Some(p), PendingCleanup)
  }

  // ---------------------------------------------------------------------------------------------
  // How a deletion may end

  /** The row survives with its address; only its lifecycle may differ. */
  ghost predicate KeptBy(x: Local, y: Local) {
    && x.row.Some? && y.row.Some? && y.row.value.(lifecycle := ActiveRow) == x.row.value.(lifecycle := ActiveRow)
    && y.address == x.address && y.archived == x.archived
  }

  /** Row and address are gone, the peer was archived exactly once, and no remote peer holds the key. */
  ghost predicate RemovedBy(y: Local) {
    y.row == None && y.address == None && y.archived == 1 && y.holders == {}
  }

  /** An unfinished deletion is either marked for the reconciler or reported as failed with the peer active again. */
  ghost predicate Marked(p: PeerId, y: Local) {
    && y.row.Some? && y.operation.Some?
    && (if y.row.value.lifecycle == PendingCleanupRow
        then y.operation == Some(Operation(PeerDelete, Some(p), PendingCleanup))
        else y.row.value.lifecycle == ActiveRow && y.operation == Some(Operation(PeerDelete, Some(p), Failed)))
  }

  predicate AbsentId(peers: map<RemoteId, RemotePeer>, id: Option<RemoteId>) {
    id.Some? ==> id.value !in peers
  }

  // ---------------------------------------------------------------------------------------------
  // What a reconciler pass may do

  /** A row the reconciler's query returned: an operation, and the peer it refers to if it refers to one. */
  datatype Pending = Pending(o: OperationId, p: PeerId)

  predicate Selected(db: Database, e: Pending) {
    e.o in db.operations && Retryable(db.operations[e.o].status)
    && (db.operations[e.o].peer.Some? ==> db.operations[e.o].peer.value == e.p)
  }

  /** What is neither under way nor closed is retried. */
  lemma RetriedUntilClosed(status: OperationStatus)
    ensures Retryable(status) <==> status !in {Creating, Active, Failed, Completed}
  {
  }

  /** What a cleanup needs besides a working router: a registered operation kind and an unambiguous remote peer. */
  ghost predicate Cleanable(w: World, e: Pending) {
    && e.o in w.db.operations && w.db.operations[e.o].kind != OtherKind
    && (e.p in w.db.rows ==> SoleMatch(w.router.peers, w.db.rows[e.p].Link()))
  }

  /** The database after a cleanup that went through. */
  function Reconciled(db: Database, peer: Option<PeerId>, o: OperationId, archive: bool): Database {
    var removed := if peer.Some? && peer.value in db.rows then
                     if archive then ArchiveAndRemove(db, peer.value) else RemoveRow(db, peer.value)
                   else db;
    SetStatus(removed, o, if archive then Completed else Failed)
  }

  lemma ReconciledEffect(db: Database, peer: Option<PeerId>, o: OperationId, archive: bool)
    requires o in db.operations
    ensures var after := Reconciled(db, peer, o, archive);
            && after.operations.Keys == db.operations.Keys && !Retryable(after.operations[o].status)
            && (forall x :: x in db.operations && x != o ==> after.operations[x].status == db.operations[x].status)
            && (forall q :: q in after.rows ==> q in db.rows && after.rows[q] == db.rows[q])
            && (peer.Some? ==> peer.value !in after.rows)
            && (forall q :: q in db.rows && peer != Some(q) ==> q in after.rows)
            && (forall q :: peer != Some(q) || !archive || q !in db.rows ==> after.archives[q] == db.archives[q])
            && (peer.Some? && archive && peer.value in db.rows ==>
                  after.archives[peer.value] == db.archives[peer.value] + 1)
  {
  }

  /** The entry whose operation was recorded before the pass. */
  predicate FromBefore(before: World, batch: seq<Pending>) {
    forall j :: 0 <= j < |batch| ==> Selected(before.db, batch[j])
  }

  /** The peer that entry `j` refers to, if its row was still there when the pass began. */
  predicate HadRow(before: World, e: Pending)
    requires e.o in before.db.operations
  {
    before.db.operations[e.o].peer.Some? && e.p in before.db.rows
  }

  predicate OnlyEntry(batch: seq<Pending>, i: nat)
    requires i < |batch|
  {
    forall j :: 0 <= j < |batch| && j != i ==> batch[j].p != batch[i].p
  }

  /** What the pass leaves of an entry: a closed operation and no row, and if there was a row, no queue, and for a
      deletion exactly one archive row. */
  ghost predicate Processed(before: World, now: World, batch: seq<Pending>, i: nat)
    requires FromBefore(before, batch) && i < |batch|
  {
    var e := batch[i];
    && e.o in now.db.operations && !Retryable(now.db.operations[e.o].status)
    && (before.db.operations[e.o].peer.Some? ==> e.p !in now.db.rows)
    && (HadRow(before, e) ==> Bandwidth.OwnedQueues(now.router.shaping.queues, e.p) == {})
    && (HadRow(before, e) && before.db.operations[e.o].kind == PeerDelete && OnlyEntry(batch, i) ==>
          now.db.archives[e.p] == 1)
  }

  /** A closed operation; no row, address, remote peer or queue; and exactly one archive row for a deletion. */
  ghost predicate CleanedUp(before: World, now: World, batch: seq<Pending>, i: nat)
    requires FromBefore(before, batch) && i < |batch|
  {
    && Processed(before, now, batch, i)
    && (before.db.operations[batch[i].o].peer.Some? ==>
          batch[i].p !in now.db.addresses
          && (batch[i].p in now.db.issued ==> Holders(now.router.peers, now.db.issued[batch[i].p]) == {}))
  }

  lemma LocalParts(w: World, p: PeerId, k: Key, o: OperationId)
    ensures LocalOf(w, p, k, o).operation == At(w.db.operations, o) && LocalOf(w, p, k, o).row == At(w.db.rows, p)
  {
  }

  ghost predicate KeysFit(w: World, batch: seq<Pending>, keys: PeerId -> Key) {
    forall j :: 0 <= j < |batch| ==> batch[j].p in w.db.issued ==> w.db.issued[batch[j].p] == keys(batch[j].p)
  }

  /** An attempt that did not go through leaves the operation for the next pass. */
  predicate Left(was: Operation, db: Database, e: Pending, databaseUp: bool) {
    && Selected(db, e) && db.operations[e.o].kind == was.kind
    && (databaseUp ==>
          db.operations[e.o].status == if was.status == PendingCleanup then PendingCleanup else NeedsReconciliation)
  }

  /** One that did closes it, and the peer it referred to has no row. */
  predicate Closed(was: Operation, db: Database, e: Pending) {
    && e.o in db.operations && db.operations[e.o].kind == was.kind != OtherKind
    && db.operations[e.o].status == (if was.kind == PeerDelete then Completed else Failed)
    && (was.peer.Some? ==> e.p !in db.rows)
  }

  lemma AttemptCloses(was: Operation, before: Database, after: Database, e: Pending)
    requires e.o in before.operations && SameButDetached(was, before.operations[e.o]) && was.kind != OtherKind
    requires e.o in after.operations && after.operations[e.o].kind == before.operations[e.o].kind
    requires after.operations[e.o].status == if was.kind == PeerDelete then Completed else Failed
    requires was.peer.Some? ==> e.p !in after.rows
    ensures Closed(was, after, e)
  {
  }

  lemma AttemptLeaves(was: Operation, before: Operation, tried: Operation, db: Database, e: Pending, databaseUp: bool)
    requires Retryable(was.status) && (was.peer == None || was.peer == Some(e.p))
    requires SameButDetached(was, before) && SameButDetached(before, tried) && e.o in db.operations
    requires var left := tried.(status := if was.status == PendingCleanup then PendingCleanup else NeedsReconciliation);
             db.operations[e.o] == left || (!databaseUp && db.operations[e.o] == tried)
    ensures Left(was, db, e, databaseUp)
  {
  }

  /** While one entry is processed the keys and operations of the others stay what they were. */
  lemma KeysCarried(before: seq<Step>, after: seq<Step>, start: World, w: World, v: World,
                    others: (nat, World) -> World,
                    batch: seq<Pending>, keys: PeerId -> Key, i: nat)
    requires GoodRun(before, start, w, others) && GoodRun(after, start, v, others) && i < |batch|
    requires Extends(before, after, batch[i].p, keys(batch[i].p), batch[i].o)
    requires forall j :: 0 <= j < |batch| ==> Tolerates(others, batch[j].p, keys(batch[j].p), batch[j].o)
    requires KeysFit(w, batch, keys)
    requires forall j :: 0 <= j < |batch| && j != i ==> batch[j].o != batch[i].o
    ensures KeysFit(v, batch, keys)
    ensures forall j :: 0 <= j < |batch| && j != i && batch[j].o in w.db.operations ==> OperationKept(w, v, batch[j].o)
    ensures forall j :: 0 <= j < |batch| && batch[j].p != batch[i].p && batch[j].p !in w.db.rows ==>
              batch[j].p !in v.db.rows
  {
    hide GoodRun, Extends, Tolerates, OperationKept;
    forall j | 0 <= j < |batch|
      ensures batch[j].p in v.db.issued ==> v.db.issued[batch[j].p] == keys(batch[j].p)
      ensures j != i && batch[j].o in w.db.operations ==> OperationKept(w, v, batch[j].o)
      ensures batch[j].p != batch[i].p && batch[j].p !in w.db.rows ==> batch[j].p !in v.db.rows
    {
      KeyCarried(before, after, start, w, v, others, batch[i].p, keys(batch[i].p), batch[i].o, batch[j].p,
                 keys(batch[j].p), batch[j].o);
    }
  }

  /** How an operation of the pass ended: left for the next one, or closed. */
  ghost predicate Attempted(before: World, now: World, e: Pending, databaseUp: bool) {
    && e.o in before.db.operations
    && var was := before.db.operations[e.o];
       if Selected(now.db, e) then Left(was, now.db, e, databaseUp) else Closed(was, now.db, e)
  }

  /** The first `n` entries that the next pass would select again. */
  function StillOpen(db: Database, batch: seq<Pending>, n: nat): set<int>
    requires n <= |batch|
  {
    set j | 0 <= j < n && Selected(db, batch[j])
  }

  /** What a pass has established about all operations, before it comes to entry `i`. */
  ghost predicate Outcomes(before: World, now: World, batch: seq<Pending>, i: nat, databaseUp: bool) {
    && i <= |batch|
    && (forall j :: 0 <= j < i ==> Attempted(before, now, batch[j], databaseUp))
    && (forall j :: i <= j < |batch| ==> batch[j].o in before.db.operations && OperationKept(before, now, batch[j].o))
  }

  lemma OutcomesStart(before: World, batch: seq<Pending>, databaseUp: bool)
    requires FromBefore(before, batch)
    ensures Outcomes(before, before, batch, 0, databaseUp) && StillOpen(before.db, batch, 0) == {}
  {
  }

  lemma OutcomesEnd(before: World, now: World, batch: seq<Pending>, databaseUp: bool)
    requires Outcomes(before, now, batch, |batch|, databaseUp)
    ensures forall j :: 0 <= j < |batch| ==> Attempted(before, now, batch[j], databaseUp)
  {
  }

  lemma AttemptStays(before: World, now: World, after: World, e: Pending, databaseUp: bool)
    requires Attempted(before, now, e, databaseUp) && e.o in now.db.operations && OperationKept(now, after, e.o)
    requires Selected(before.db, e) && (e.p !in now.db.rows ==> e.p !in after.db.rows)
    ensures Attempted(before, after, e, databaseUp) && Selected(after.db, e) == Selected(now.db, e)
  {
  }

  lemma AttemptMade(before: World, after: World, e: Pending, databaseUp: bool, ok: bool)
    requires e.o in before.db.operations
    requires var was := before.db.operations[e.o];
             if ok then Closed(was, after.db, e) else Left(was, after.db, e, databaseUp)
    ensures Attempted(before, after, e, databaseUp) && Selected(after.db, e) == !ok
  {
  }

  lemma KeptTwice(before: World, now: World, after: World, o: OperationId)
    requires o in before.db.operations && OperationKept(before, now, o)
    requires o in now.db.operations ==> OperationKept(now, after, o)
    ensures OperationKept(before, after, o)
  {
  }

  lemma OutcomesReady(before: World, now: World, batch: seq<Pending>, i: nat, databaseUp: bool)
    requires FromBefore(before, batch) && i < |batch| && Outcomes(before, now, batch, i, databaseUp)
    ensures batch[i].o in before.db.operations && OperationKept(before, now, batch[i].o)
    ensures forall j :: 0 <= j < |batch| ==> batch[j].o in now.db.operations
  {
    forall j | 0 <= j < |batch| ensures batch[j].o in now.db.operations {
      if j < i { assert Attempted(before, now, batch[j], databaseUp); }
    }
  }

  /** Processing entry `i` adds its own outcome and changes nothing about the others. */
  lemma OutcomesStep(before: World, now: World, after: World, batch: seq<Pending>, i: nat, databaseUp: bool, ok: bool)
    requires FromBefore(before, batch) && i < |batch| && Outcomes(before, now, batch, i, databaseUp)
    requires forall j :: 0 <= j < |batch| && j != i && batch[j].o in now.db.operations ==>
               OperationKept(now, after, batch[j].o)
    requires forall j :: 0 <= j < |batch| && batch[j].p !in now.db.rows ==> batch[j].p !in after.db.rows
    requires var was := before.db.operations[batch[i].o];
             if ok then Closed(was, after.db, batch[i]) else Left(was, after.db, batch[i], databaseUp)
    ensures Outcomes(before, after, batch, i + 1, databaseUp)
    ensures |StillOpen(after.db, batch, i + 1)| == |StillOpen(now.db, batch, i)| + if ok then 0 else 1
  {
    OutcomesReady(before, now, batch, i, databaseUp);
    AttemptMade(before, after, batch[i], databaseUp, ok);
    hide Selected, OperationKept, Attempted, Closed, Left;
    forall j | 0 <= j < i
      ensures Attempted(before, after, batch[j], databaseUp)
              && Selected(after.db, batch[j]) == Selected(now.db, batch[j])
    {
      AttemptStays(before, now, after, batch[j], databaseUp);
    }
    forall j | i < j < |batch| ensures OperationKept(before, after, batch[j].o) {
      KeptTwice(before, now, after, batch[j].o);
    }
    assert StillOpen(after.db, batch, i + 1) == StillOpen(now.db, batch, i) + if ok then {} else {i};
  }

  // ---------------------------------------------------------------------------------------------
  // How a pass proceeds

  /** One entry, processed without a failure. */
  ghost predicate EntryDone(before: World, now: World, after: World, e: Pending)
    requires e.o in before.db.operations
  {
    var operation := before.db.operations[e.o];
    && after.db == Reconciled(now.db, operation.peer, e.o, operation.kind == PeerDelete)
    && Submap(after.router.peers, now.router.peers)
    && Bandwidth.QueuesShrink(now.router.shaping, after.router.shaping)
    && (operation.peer.Some? && e.p in now.db.rows ==> Bandwidth.OwnedQueues(after.router.shaping.queues, e.p) == {})
  }

  /** None of the first `i` operations refers to `q`. */
  predicate Untouched(before: World, batch: seq<Pending>, i: nat, q: PeerId)
    requires FromBefore(before, batch) && i <= |batch|
  {
    forall j :: 0 <= j < i ==> before.db.operations[batch[j].o].peer != Some(q)
  }

  /** Peers the pass has not come to. */
  ghost predicate PassKeeps(before: World, now: World, batch: seq<Pending>, i: nat)
    requires FromBefore(before, batch) && i <= |batch|
  {
    forall q :: Untouched(before, batch, i, q) ==>
      now.db.archives[q] == before.db.archives[q] && (q in before.db.rows ==> q in now.db.rows)
  }

  /** Operations the pass has not come to, and the rows. */
  ghost predicate PassFrame(before: World, now: World, batch: seq<Pending>, i: nat)
    requires FromBefore(before, batch) && i <= |batch|
  {
    && now.db.operations.Keys == before.db.operations.Keys
    && (forall j :: i <= j < |batch| ==>
          now.db.operations[batch[j].o].status == before.db.operations[batch[j].o].status)
    && (forall q :: q in now.db.rows ==> q in before.db.rows && now.db.rows[q] == before.db.rows[q])
    && PassKeeps(before, now, batch, i)
    && Submap(now.router.peers, before.router.peers)
  }

  /** What a failure-free pass has established after `i` operations. */
  ghost predicate PassSoFar(before: World, now: World, batch: seq<Pending>, i: nat)
    requires FromBefore(before, batch) && i <= |batch|
  {
    && (forall j :: 0 <= j < i ==> Processed(before, now, batch, j))
    && PassFrame(before, now, batch, i)
  }

  lemma PassStarts(before: World, batch: seq<Pending>)
    requires FromBefore(before, batch)
    ensures PassSoFar(before, before, batch, 0)
  {
  }

  lemma PassReady(before: World, now: World, batch: seq<Pending>, i: nat)
    requires FromBefore(before, batch)
    requires i < |batch| && PassSoFar(before, now, batch, i) && Cleanable(before, batch[i])
    ensures batch[i].o in now.db.operations
            && now.db.operations[batch[i].o].status == before.db.operations[batch[i].o].status
    ensures batch[i].p in now.db.rows ==> SoleMatch(now.router.peers, now.db.rows[batch[i].p].Link())
    ensures before.db.operations[batch[i].o].kind != OtherKind
  {
    hide Processed, Untouched, SoleMatch;
    if batch[i].p in now.db.rows {
      FewerStaySole(now.router.peers, before.router.peers, now.db.rows[batch[i].p].Link());
    }
  }

  lemma PassEnds(before: World, now: World, batch: seq<Pending>)
    requires FromBefore(before, batch) && Inv(now)
    requires PassSoFar(before, now, batch, |batch|)
    ensures forall j :: 0 <= j < |batch| ==> CleanedUp(before, now, batch, j)
  {
    hide Inv;
    forall j | 0 <= j < |batch| ensures CleanedUp(before, now, batch, j) {
      RowFacts(now, batch[j].p);
      assert Processed(before, now, batch, j);
    }
  }

  /** What was established for an earlier entry stays. */
  lemma ProcessedStays(before: World, now: World, after: World, batch: seq<Pending>, i: nat, j: nat)
    requires FromBefore(before, batch) && j < i < |batch| && batch[j].o != batch[i].o && batch[i].o in now.db.operations
    requires Processed(before, now, batch, j) && EntryDone(before, now, after, batch[i])
    ensures Processed(before, after, batch, j)
  {
    hide Bandwidth.OwnedQueues;
    ReconciledEffect(now.db, before.db.operations[batch[i].o].peer, batch[i].o,
                     before.db.operations[batch[i].o].kind == PeerDelete);
    hide Reconciled;
    assert OnlyEntry(batch, j) ==> batch[i].p != batch[j].p;
    assert Bandwidth.OwnedQueues(after.router.shaping.queues, batch[j].p)
             <= Bandwidth.OwnedQueues(now.router.shaping.queues, batch[j].p);
  }

  lemma OnlyEntryIsUntouched(before: World, batch: seq<Pending>, i: nat)
    requires FromBefore(before, batch) && i < |batch|
    ensures OnlyEntry(batch, i) ==> Untouched(before, batch, i, batch[i].p)
  {
    forall j | 0 <= j < i && before.db.operations[batch[j].o].peer == Some(batch[i].p)
      ensures batch[j].p == batch[i].p
    {
      assert Selected(before.db, batch[j]);
    }
  }

  lemma ProcessedNow(before: World, now: World, after: World, batch: seq<Pending>, i: nat)
    requires FromBefore(before, batch) && i < |batch| && PassSoFar(before, now, batch, i) && Inv(before)
    requires EntryDone(before, now, after, batch[i])
    ensures Processed(before, after, batch, i)
  {
    hide Bandwidth.OwnedQueues, Inv;
    var e := batch[i];
    RowFacts(before, e.p);
    ReconciledEffect(now.db, before.db.operations[e.o].peer, e.o, before.db.operations[e.o].kind == PeerDelete);
    hide Reconciled;
    OnlyEntryIsUntouched(before, batch, i);
    if HadRow(before, e) && e.p !in now.db.rows {
      assert !Untouched(before, batch, i, e.p);
      var j :| 0 <= j < i && before.db.operations[batch[j].o].peer == Some(e.p);
      assert Selected(before.db, batch[j]);
      assert Processed(before, now, batch, j);
      assert Bandwidth.OwnedQueues(after.router.shaping.queues, e.p)
               <= Bandwidth.OwnedQueues(now.router.shaping.queues, e.p);
    }
  }

  lemma KeepsStay(before: World, now: World, after: World, batch: seq<Pending>, i: nat)
    requires FromBefore(before, batch)
    requires i < |batch| && PassKeeps(before, now, batch, i) && EntryDone(before, now, after, batch[i])
             && batch[i].o in now.db.operations
    ensures PassKeeps(before, after, batch, i + 1)
  {
    hide Bandwidth.QueuesShrink, Bandwidth.OwnedQueues;
    var peer := before.db.operations[batch[i].o].peer;
    ReconciledEffect(now.db, peer, batch[i].o, before.db.operations[batch[i].o].kind == PeerDelete);
    hide Reconciled;
    forall q | Untouched(before, batch, i + 1, q) ensures Untouched(before, batch, i, q) && peer != Some(q) {
    }
  }

  lemma EntryIsOpen(before: World, now: World, batch: seq<Pending>, i: nat)
    requires FromBefore(before, batch) && i < |batch| && PassFrame(before, now, batch, i)
    ensures batch[i].o in now.db.operations
  {
    assert Selected(before.db, batch[i]);
  }

  lemma FrameStays(before: World, now: World, after: World, batch: seq<Pending>, i: nat)
    requires FromBefore(before, batch)
    requires forall j, l :: 0 <= j < l < |batch| ==> batch[j].o != batch[l].o
    requires i < |batch| && PassFrame(before, now, batch, i) && EntryDone(before, now, after, batch[i])
    ensures PassFrame(before, after, batch, i + 1)
  {
    hide Bandwidth.QueuesShrink, Bandwidth.OwnedQueues, PassKeeps, Untouched;
    EntryIsOpen(before, now, batch, i);
    KeepsStay(before, now, after, batch, i);
    ReconciledEffect(now.db, before.db.operations[batch[i].o].peer, batch[i].o,
                     before.db.operations[batch[i].o].kind == PeerDelete);
    hide Reconciled, FromBefore;
  }

  lemma PassStep(before: World, now: World, after: World, batch: seq<Pending>, i: nat)
    requires FromBefore(before, batch) && Inv(before)
    requires forall j, l :: 0 <= j < l < |batch| ==> batch[j].o != batch[l].o
    requires i < |batch| && PassSoFar(before, now, batch, i) && EntryDone(before, now, after, batch[i])
    ensures PassSoFar(before, after, batch, i + 1)
  {
    hide Inv, Processed, PassFrame, EntryDone;
    ProcessedNow(before, now, after, batch, i);
    FrameStays(before, now, after, batch, i);
    EntryIsOpen(before, now, batch, i);
    forall j | 0 <= j < i ensures Processed(before, after, batch, j) {
      ProcessedStays(before, now, after, batch, i, j);
    }
  }

  // ---------------------------------------------------------------------------------------------
  // Whole runs

  datatype Command =
    | CreateOne(p: PeerId, k: Key, o: OperationId, request: CreateRequest)
    | DeleteOne(p: PeerId, o: OperationId)
    | ReconcileBatch(batch: seq<Pending>)

  predicate Unused(w: World, p: PeerId, k: Key, o: OperationId) {
    && p !in w.db.rows && p !in w.db.addresses && p !in w.db.issued && p !in w.db.archives && o !in w.db.operations
    && k !in w.db.issued.Values && Holders(w.router.peers, k) == {}
    && Bandwidth.OwnedQueues(w.router.shaping.queues, p) == {}
  }

  class PeerService {
    const router: RouterOsClient
    /** Decides, step by step, which database statements fail. */
    const dbDown: nat -> bool
    /** Whatever everybody else does between two steps. */
    const others: (nat, World) -> World
    var db: Database
    var clock: nat
    ghost var steps: seq<Step>
    ghost const start: World

    ghost function Now(): World reads this, router {
      World(db, router.state)
    }

    ghost predicate Valid() reads this, router {
      Inv(Now()) && GoodRun(steps, start, Now(), others)
    }

    ghost predicate DatabaseUp() {
      forall n :: !dbDown(n)
    }

    ghost predicate Alone() {
      forall n, w :: others(n, w) == w
    }

    ghost predicate Undisturbed(p: PeerId, k: Key, o: OperationId) {
      Tolerates(others, p, k, o)
    }

    ghost function Mine(p: PeerId, k: Key, o: OperationId): Local reads this, router {
      LocalOf(Now(), p, k, o)
    }

    constructor (router: RouterOsClient, db: Database, dbDown: nat -> bool, others: (nat, World) -> World)
      requires Inv(World(db, router.state))
      ensures Valid() && this.db == db && this.router == router && this.dbDown == dbDown && this.others == others
              && steps == []
      ensures start == World(db, router.state)
    {
      this.router, this.db, this.dbDown, this.others, clock, steps := router, db, dbDown, others, 0, [];
      start := World(db, router.state);
    }

    // -------------------------------------------------------------------------------------------
    // Steps

    /** Appends the step just taken to the run, then lets everybody else act. */
    method Settle(ghost p: PeerId, ghost k: Key, ghost o: OperationId, ghost before: World)
      requires Inv(before) && GoodRun(steps, start, before, others) && Inv(Now()) && Own(p, k, o, before, Now())
               && Undisturbed(p, k, o)
      modifies this, router
      ensures Valid() && Rely(p, k, o, old(Now()), Now()) && (Alone() ==> Now() == old(Now()))
      ensures Extends(old(steps), steps, p, k, o)
      ensures router.calls == old(router.calls)
    {
      hide LifecycleState.Inv, Own, Rely;
      ghost var mid := Now();
      var n := clock;
      var w := others(n, World(db, router.state));
      db, router.state, clock := w.db, w.router, n + 1;
      steps := steps + [Step.Mine(p, k, o, before, mid), Theirs(n, mid, Now())];
    }

    /** One database transaction: it commits as a whole or not at all. */
    method Commit(ghost p: PeerId, ghost k: Key, ghost o: OperationId, next: Database) returns (ok: bool)
      requires Valid() && Undisturbed(p, k, o)
      requires Inv(World(next, router.state)) && Own(p, k, o, Now(), World(next, router.state))
      requires p in db.issued ==> db.issued[p] == k
      modifies this, router
      ensures Valid() && router.calls == old(router.calls)
      ensures Extends(old(steps), steps, p, k, o)
      ensures ok ==> Rely(p, k, o, World(next, old(router.state)), Now())
      ensures !ok ==> Rely(p, k, o, old(Now()), Now())
      ensures Alone() ==> Now() == if ok then World(next, old(router.state)) else old(Now())
      ensures DatabaseUp() ==> ok
    {
      hide LifecycleState.Inv, GoodRun, Tolerates, Extends;
      ghost var before := Now();
      ok := !dbDown(clock);
      if ok { db := next; }
      Settle(p, k, o, before);
    }

    method ReadPeers(ghost p: PeerId, ghost k: Key, ghost o: OperationId) returns (r: Option<map<RemoteId, RemotePeer>>)
      requires Valid() && Undisturbed(p, k, o) && (p in db.issued ==> db.issued[p] == k)
      modifies this, router
      ensures Valid() && router.calls >= old(router.calls)
      ensures Extends(old(steps), steps, p, k, o)
      ensures r == None || r == Some(old(router.state).peers)
      ensures Rely(p, k, o, old(Now()), Now()) && (Alone() ==> Now() == old(Now()))
      ensures old(router.Reliable()) ==> r.Some?
    {
      hide LifecycleState.Inv, GoodRun, Tolerates, Extends;
      ghost var before := Now();
      r := router.GetPeers();
      Settle(p, k, o, before);
    }

    method DeleteRemote(ghost p: PeerId, ghost k: Key, ghost o: OperationId, id: RemoteId) returns (ok: bool)
      requires Valid() && Undisturbed(p, k, o) && (p in db.issued ==> db.issued[p] == k)
      modifies this, router
      ensures Valid() && router.calls >= old(router.calls)
      ensures Extends(old(steps), steps, p, k, o)
      ensures Rely(p, k, o, old(Now()), Now())
      ensures Alone() ==>
                db == old(db) && router.state.shaping == old(router.state).shaping
                && Submap(router.state.peers, old(router.state).peers)
      ensures Alone() && !ok && router.CleanFailures() ==> Now() == old(Now())
      ensures Alone() && ok ==>
                Holders(router.state.peers, k) == Holders(old(router.state).peers, k) - {id}
                && id !in router.state.peers
      ensures Alone() && ok ==> router.state.peers == old(router.state).peers - {id}
      ensures old(router.Reliable()) ==> ok == (id in old(router.state).peers)
    {
      hide LifecycleState.Inv, GoodRun, Tolerates, Extends, Own;
      InvParts(Now());
      ghost var before := Now();
      NothingIsOwn(before, p, k, o);
      DeleteRemoteIsOwn(before, p, k, o, id);
      ok := router.DeletePeer(id);
      Settle(p, k, o, before);
    }

    method DeleteQueues(p: PeerId, ghost k: Key, ghost o: OperationId) returns (removed: Option<nat>)
      requires Valid() && Undisturbed(p, k, o) && (p in db.issued ==> db.issued[p] == k)
      modifies this, router
      ensures Valid() && router.calls >= old(router.calls)
      ensures Extends(old(steps), steps, p, k, o)
      ensures Rely(p, k, o, old(Now()), Now())
      ensures Alone() ==> db == old(db) && router.state.peers == old(router.state).peers
      ensures Alone() && removed.Some? ==> Bandwidth.OwnedQueues(router.state.shaping.queues, p) == {}
      ensures Alone() ==> Bandwidth.QueuesShrink(old(router.state).shaping, router.state.shaping)
      ensures old(router.Reliable()) ==> removed.Some?
    {
      hide LifecycleState.Inv, GoodRun, Tolerates, Extends;
      InvParts(Now());
      ghost var before := Now();
      removed := Bandwidth.DeleteOwnedPeerQueueRemote(router, p);
      Bandwidth.CleanupShrinks(before.router, router.state, p);
      QueueStepIsOwn(before, p, k, o, router.state);
      Settle(p, k, o, before);
    }

    /** `UPDATE peers ... WHERE id = p`. */
    method WriteRow(p: PeerId, ghost k: Key, ghost o: OperationId, row: PeerRow) returns (ok: bool)
      requires Valid() && Undisturbed(p, k, o) && (p in db.issued ==> db.issued[p] == k)
      requires p in db.rows ==> row.publicKey == k && row.clientIp == db.rows[p].clientIp
      modifies this, router
      ensures Valid() && router.calls == old(router.calls) && (DatabaseUp() ==> ok)
      ensures Extends(old(steps), steps, p, k, o)
      ensures var x, y := old(Mine(p, k, o)), Mine(p, k, o);
              y == x.(row := if ok && x.row.Some? then Some(row) else x.row, keyTaken := y.keyTaken,
                      holders := y.holders)
              && y.holders <= x.holders
      ensures Alone() ==> Now() == World(if ok then UpdateRow(old(db), p, row) else old(db), old(router.state))
    {
      hide LifecycleState.Inv, GoodRun, Tolerates, Extends;
      RowFacts(Now(), p);
      UpdateRowIsOwn(Now(), p, k, o, row);
      ok := Commit(p, k, o, UpdateRow(db, p, row));
    }

    method WriteOperation(ghost p: PeerId, ghost k: Key, o: OperationId, operation: Operation) returns (ok: bool)
      requires Valid() && Undisturbed(p, k, o) && (p in db.issued ==> db.issued[p] == k)
      requires operation.peer.Some? ==> operation.peer.value in db.rows
      modifies this, router
      ensures Valid() && router.calls == old(router.calls) && (DatabaseUp() ==> ok)
      ensures Extends(old(steps), steps, p, k, o)
      ensures var x, y := old(Mine(p, k, o)), Mine(p, k, o);
              y == x.(operation := if ok then Some(operation) else x.operation, keyTaken := y.keyTaken,
                      holders := y.holders)
              && y.holders <= x.holders && (y.keyTaken ==> x.keyTaken)
      ensures Alone() ==>
                Now() == World(if ok then StartOperation(old(db), o, operation) else old(db), old(router.state))
    {
      hide LifecycleState.Inv, GoodRun, Tolerates, Extends;
      OperationIsOwn(Now(), p, k, o, operation);
      ok := Commit(p, k, o, StartOperation(db, o, operation));
    }

    /** `finishOperation` and `failOperation`, as far as the status goes. */
    method SetOperation(ghost p: PeerId, ghost k: Key, o: OperationId, status: OperationStatus) returns (ok: bool)
      requires Valid() && Undisturbed(p, k, o) && (p in db.issued ==> db.issued[p] == k) && o in db.operations
      modifies this, router
      ensures Valid() && router.calls == old(router.calls) && (DatabaseUp() ==> ok)
      ensures Extends(old(steps), steps, p, k, o)
      ensures var x, y := old(Mine(p, k, o)), Mine(p, k, o);
              y == x.(operation := if ok then Some(x.operation.value.(status := status)) else x.operation,
                      keyTaken := y.keyTaken, holders := y.holders)
              && y.holders <= x.holders
      ensures Alone() ==> Now() == World(if ok then SetStatus(old(db), o, status) else old(db), old(router.state))
    {
      hide LifecycleState.Inv, GoodRun, Tolerates, Extends;
      InvParts(Now());
      ok := WriteOperation(p, k, o, db.operations[o].(status := status));
    }

    /** `operationStep`: the first recorded step turns `creating` into `active`. */
    method RecordStep(ghost p: PeerId, ghost k: Key, o: OperationId) returns (ok: bool)
      requires Valid() && Undisturbed(p, k, o) && (p in db.issued ==> db.issued[p] == k) && o in db.operations
      modifies this, router
      ensures Valid() && router.calls == old(router.calls) && (DatabaseUp() ==> ok)
      ensures Extends(old(steps), steps, p, k, o)
      ensures var x, y := old(Mine(p, k, o)), Mine(p, k, o);
              y == x.(operation := y.operation, keyTaken := y.keyTaken, holders := y.holders) && y.holders <= x.holders
              && y.operation.Some? && y.operation.value.(status := Creating) == x.operation.value.(status := Creating)
              && (y.operation.value.status == x.operation.value.status || y.operation.value.status == Active)
              && (x.operation.value.status != Creating ==> y.operation == x.operation)
              && (ok && x.operation.value.status == Creating ==> y.operation.value.status == Active)
      ensures Alone() ==> router.state == old(router.state) && db.(operations := old(db).operations) == old(db)
      ensures Alone() && old(db).operations[o].status != Creating ==> db == old(db)
    {
      hide LifecycleState.Inv, GoodRun, Tolerates, Extends;
      var status := db.operations[o].status;
      ok := SetOperation(p, k, o, if status == Creating then Active else status);
    }

    /** A statement that only reads, or writes tables outside this model: all that matters is whether it fails. */
    method Query(ghost p: PeerId, ghost k: Key, ghost o: OperationId) returns (ok: bool)
      requires Valid() && Undisturbed(p, k, o) && (p in db.issued ==> db.issued[p] == k)
      modifies this, router
      ensures Valid() && router.calls == old(router.calls) && (DatabaseUp() ==> ok)
      ensures Extends(old(steps), steps, p, k, o)
      ensures Rely(p, k, o, old(Now()), Now()) && (Alone() ==> Now() == old(Now()))
    {
      hide LifecycleState.Inv, GoodRun, Tolerates, Extends;
      ok := Commit(p, k, o, db);
    }

    /** The staging transaction: the row, its address and the operation's reference commit together. */
    method Stage(p: PeerId, k: Key, o: OperationId, request: CreateRequest) returns (staged: bool)
      requires Valid() && Undisturbed(p, k, o) && o in db.operations
      requires var x := Mine(p, k, o); x.row == None && x.archived == 0 && x.issued == None && !x.keyTaken
      modifies this, router
      ensures Valid() && router.calls >= old(router.calls)
      ensures Extends(old(steps), steps, p, k, o)
      ensures staged ==> request.chosen.Some?
      ensures old(router.Reliable()) && DatabaseUp() && request.chosen.Some? ==> staged
      ensures var x, y := old(Mine(p, k, o)), Mine(p, k, o);
              y == (if staged
                    then x.(row := Some(PeerRow(k, request.chosen.value, None, None, CreatingRow)),
                            address := request.chosen,
                                      issued := Some(k), operation := Some(x.operation.value.(peer := Some(p))))
                    else x).(keyTaken := y.keyTaken, holders := y.holders)
              && y.holders <= x.holders
      ensures Alone() ==> router.state == old(router.state)
    {
      hide LifecycleState.Inv, GoodRun, Tolerates, Extends, Bandwidth.Observe, Bandwidth.OwnedQueues;
      ExtensionsCompose(p, k, o);
      var read := ReadPeers(p, k, o);
      if read == None || request.chosen == None { return false; }
      StageRowIsOwn(Now(), p, k, request.chosen.value, o);
      staged := Commit(p, k, o, StageRow(db, p, k, request.chosen.value, o));
    }

    /** Reads the router back after the creation and records the peer found there in the row. */
    method RecordRemote(p: PeerId, k: Key, o: OperationId, remoteId: RemoteId) returns (ok: bool)
      requires Valid() && Undisturbed(p, k, o) && o in db.operations
      requires var x := Mine(p, k, o);
               x.row.Some? && x.row.value.publicKey == k && x.issued == Some(k) && x.holders <= {remoteId}
      modifies this, router
      ensures Valid() && router.calls >= old(router.calls)
      ensures Extends(old(steps), steps, p, k, o)
      ensures var x, y := old(Mine(p, k, o)), Mine(p, k, o);
              y == x.(row := y.row, operation := y.operation, keyTaken := y.keyTaken, holders := y.holders)
              && y.row.Some? && y.row.value.publicKey == k && y.row.value.clientIp == x.row.value.clientIp
              && y.operation.Some? && y.operation.value.(status := Creating) == x.operation.value.(status := Creating)
              && y.holders <= x.holders
      ensures Alone() ==> router.state == old(router.state)
      ensures Alone() ==>
                var id := Mine(p, k, o).row.value.remoteId;
                id == old(Mine(p, k, o)).row.value.remoteId || id == Some(remoteId)
      ensures Alone() && ok && remoteId in router.state.peers ==>
                var row := Mine(p, k, o).row.value;
                row.remoteId == Some(remoteId) && row.fingerprint == Some(router.state.peers[remoteId])
      ensures old(router.Reliable()) && DatabaseUp() && remoteId in old(router.state).peers ==> ok
    {
      hide LifecycleState.Inv, GoodRun, Tolerates, Extends, Bandwidth.Observe, Bandwidth.OwnedQueues;
      ExtensionsCompose(p, k, o);
      ok := false;
      var verify := ReadPeers(p, k, o);
      if verify == None { return; }
      var found := set id | id in verify.value && (id == remoteId || verify.value[id].publicKey == k);
      assert remoteId in verify.value ==> remoteId in found;
      if found == {} { return; }
      var id :| id in found;
      assert verify.value[id].publicKey == k ==> id in Holders(verify.value, k);
      ok := WriteRow(p, k, o, db.rows[p].(remoteId := Some(id), fingerprint := Some(verify.value[id])));
      if !ok { return; }
      ok := RecordStep(p, k, o);
    }

    method AddRemote(ghost p: PeerId, ghost k: Key, ghost o: OperationId, peer: RemotePeer)
        returns (r: Option<RemoteId>)
      requires Valid() && Undisturbed(p, k, o) && router.cleanCreate && peer.publicKey == k
      requires Mine(p, k, o).row.Some? && Mine(p, k, o).issued == Some(k)
      modifies this, router
      ensures Valid() && router.calls >= old(router.calls)
      ensures Extends(old(steps), steps, p, k, o)
      ensures var x, y := old(Mine(p, k, o)), Mine(p, k, o);
              y == x.(keyTaken := y.keyTaken, holders := y.holders)
              && y.holders <= x.holders + (if r.Some? then {r.value} else {})
      ensures old(router.Reliable()) ==> r.Some?
      ensures Alone() ==> db == old(db) && router.state.shaping == old(router.state).shaping
      ensures Alone() && r.Some? ==> r.value in router.state.peers && router.state.peers[r.value] == peer
      ensures Alone() && r.Some? ==> Holders(router.state.peers, k) == Holders(old(router.state).peers, k) + {r.value}
      ensures Alone() && r == None ==> Now() == old(Now())
    {
      hide LifecycleState.Inv, GoodRun, Tolerates, Extends;
      InvParts(Now());
      ghost var before := Now();
      r := router.CreatePeer(peer);
      if router.state != before.router { CreateRemoteIsOwn(before, p, k, o, peer, router.state); }
      Settle(p, k, o, before);
    }

    /** Creates the remote peer and records it. */
    method Install(p: PeerId, k: Key, o: OperationId, request: CreateRequest, ip: Ip)
        returns (ok: bool, remoteId: Option<RemoteId>)
      requires Valid() && Undisturbed(p, k, o) && router.cleanCreate && o in db.operations
      requires var x := Mine(p, k, o);
               x.row == Some(PeerRow(k, ip, None, None, CreatingRow)) && x.issued == Some(k) && x.holders == {}
      modifies this, router
      ensures Valid() && router.calls >= old(router.calls)
      ensures Extends(old(steps), steps, p, k, o)
      ensures var x, y := old(Mine(p, k, o)), Mine(p, k, o);
              y == x.(row := y.row, operation := y.operation, keyTaken := y.keyTaken, holders := y.holders)
              && y.row.Some? && y.row.value.publicKey == k && y.row.value.clientIp == ip
              && y.operation.Some? && y.operation.value.(status := Creating) == x.operation.value.(status := Creating)
              && y.holders <= (if remoteId.Some? then {remoteId.value} else {})
              && (ok ==> remoteId.Some?)
      ensures Alone() ==> router.state.shaping == old(router.state).shaping
      ensures Alone() ==> var id := Mine(p, k, o).row.value.remoteId; id == None || id == remoteId
      ensures Alone() && ok ==> var row := Mine(p, k, o).row.value;
                row.remoteId == remoteId && Holders(router.state.peers, k) == {remoteId.value}
                && AsRequested(router.state.peers[remoteId.value], request, k, ip)
                && row.fingerprint == Some(router.state.peers[remoteId.value])
      ensures old(router.Reliable()) && DatabaseUp() && Alone() ==> ok
    {
      hide LifecycleState.Inv, GoodRun, Tolerates, Extends, Bandwidth.Observe, Bandwidth.OwnedQueues;
      hide AsRequested;
      ExtensionsCompose(p, k, o);
      NewPeerIsAsRequested(request, k, ip);
      remoteId := AddRemote(p, k, o, NewRemotePeer(request, k, ip));
      if remoteId == None { return false, None; }
      ok := RecordRemote(p, k, o, remoteId.value);
    }

    /** Staging and the second look at the router and at the pool. */
    method Prepare(p: PeerId, k: Key, o: OperationId, request: CreateRequest) returns (ok: bool, staged: bool)
      requires Valid() && Undisturbed(p, k, o)
      requires var x := Mine(p, k, o);
               x.row == None && x.archived == 0 && x.issued == None && !x.keyTaken
               && x.operation == Some(Operation(PeerCreate, None, Creating))
      modifies this, router
      ensures Valid() && router.calls >= old(router.calls)
      ensures Extends(old(steps), steps, p, k, o)
      ensures var x, y := old(Mine(p, k, o)), Mine(p, k, o);
              && (staged ==> request.chosen.Some?)
              && y == (if staged
                       then x.(row := Some(PeerRow(k, request.chosen.value, None, None, CreatingRow)),
                               address := request.chosen, issued := Some(k))
                       else x).(operation := y.operation, keyTaken := y.keyTaken, holders := y.holders)
              && y.holders <= x.holders && (ok ==> staged)
              && y.operation.Some?
              && y.operation.value.(status := Creating)
                   == Operation(PeerCreate, if staged then Some(p) else None, Creating)
      ensures Alone() ==> router.state == old(router.state)
      ensures ok ==> request.chosen.Some? && request.stillFree && Mine(p, k, o).operation.value.status == Active
      ensures old(router.Reliable()) && DatabaseUp() && request.chosen.Some? && request.stillFree ==> ok
    {
      hide LifecycleState.Inv, GoodRun, Tolerates, Extends, Bandwidth.Observe, Bandwidth.OwnedQueues;
      ExtensionsCompose(p, k, o);
      staged := Stage(p, k, o, request);
      if !staged { return false, false; }
      ok := RecordStep(p, k, o);
      if !ok { return; }
      var secondRead := ReadPeers(p, k, o);
      if secondRead == None { return false, true; }
      ok := Query(p, k, o);
      ok := ok && request.stillFree;
    }

    method ApplyBandwidth(p: PeerId, ghost k: Key, ghost o: OperationId, peer: Bandwidth.PeerRef,
                          policy: Bandwidth.Policy) returns (ok: bool)
      requires Valid() && Undisturbed(p, k, o) && (p in db.issued ==> db.issued[p] == k) && peer.id == p
      modifies this, router
      ensures Valid() && router.calls >= old(router.calls)
      ensures Extends(old(steps), steps, p, k, o)
      ensures Rely(p, k, o, old(Now()), Now())
      ensures Alone() ==> db == old(db) && router.state.peers == old(router.state).peers
      ensures Alone() && ok ==> Bandwidth.Observe(router.state.shaping, peer, policy) == Bandwidth.Synced
      ensures old(router.Reliable()) && Shapeable(old(router.state).shaping, peer, policy) ==> ok
    {
      hide LifecycleState.Own, LifecycleState.Inv, Bandwidth.Observe, Bandwidth.DesiredSimpleQueue,
           Bandwidth.AnyConflict,
           Bandwidth.OwnedQueues, Bandwidth.Positive, Shapeable;
      InvParts(Now());
      ghost var before := Now();
      ShapeableIsNotRefused(router.state.shaping, peer, policy);
      var applied := Bandwidth.ApplyPeerBandwidthRemote(router, peer, policy, false);
      QueueStepIsOwn(before, p, k, o, router.state);
      Settle(p, k, o, before);
      ok := applied.Applied?;
    }

    /** The bandwidth step of a creation and the statement that makes the row active. */
    method ShapeAndActivate(p: PeerId, k: Key, o: OperationId, request: CreateRequest) returns (ok: bool)
      requires Valid() && Undisturbed(p, k, o) && Mine(p, k, o).row.Some? && Mine(p, k, o).issued == Some(k)
               && o in db.operations
      requires Mine(p, k, o).row.value.publicKey == k
      modifies this, router
      ensures Valid() && router.calls >= old(router.calls)
      ensures Extends(old(steps), steps, p, k, o)
      ensures var x, y := old(Mine(p, k, o)), Mine(p, k, o);
              y == x.(row := y.row, operation := y.operation, keyTaken := y.keyTaken, holders := y.holders)
              && y.holders <= x.holders
              && y.row.Some? && y.row.value.(lifecycle := CreatingRow) == x.row.value.(lifecycle := CreatingRow)
              && (ok ==> y.row.value.lifecycle == ActiveRow)
              && y.operation.Some? && y.operation.value.(status := Creating) == x.operation.value.(status := Creating)
      ensures Alone() ==> router.state.peers == old(router.state).peers
      ensures Alone() && ok ==>
                Bandwidth.Observe(router.state.shaping, Ref(p, request, old(db).rows[p].clientIp), request.policy)
                  == Bandwidth.Synced
      ensures old(router.Reliable()) && DatabaseUp() && Alone()
                && Shapeable(old(router.state).shaping, Ref(p, request, old(db).rows[p].clientIp), request.policy)
              ==> ok
    {
      hide LifecycleState.Inv, GoodRun, Tolerates, Extends, Bandwidth.Observe, Bandwidth.OwnedQueues;
      ExtensionsCompose(p, k, o);
      ok := Query(p, k, o);
      if !ok { return; }
      ok := ApplyBandwidth(p, k, o, Ref(p, request, db.rows[p].clientIp), request.policy);
      if !ok { return; }
      ok := Query(p, k, o);
      if !ok { return; }
      ok := RecordStep(p, k, o);
      if !ok { return; }
      ok := WriteRow(p, k, o, db.rows[p].(lifecycle := ActiveRow));
    }

    /** The body of `createPeer` up to its `catch`; the out-parameters are the flags the handler looks at. */
    method TryCreate(p: PeerId, k: Key, o: OperationId, request: CreateRequest)
      returns (done: bool, staged: bool, remoteId: Option<RemoteId>)
      requires Valid() && Undisturbed(p, k, o) && router.cleanCreate
      requires var x := Mine(p, k, o);
               x.row == None && x.address == None && x.archived == 0 && x.issued == None && !x.keyTaken
               && x.holders == {}
               && x.operation == Some(Operation(PeerCreate, None, Creating))
      modifies this, router
      ensures Valid() && router.calls >= old(router.calls)
      ensures Extends(old(steps), steps, p, k, o)
      ensures var y := Mine(p, k, o);
              && staged == y.row.Some? && (staged ==> y.row.value.publicKey == k && y.issued == Some(k))
              && staged == y.address.Some? && y.archived == 0 && y.operation.Some?
              && y.operation.value.kind == PeerCreate
              && (y.issued.Some? ==> y.issued == Some(k))
              && y.operation.value.peer == (if staged then Some(p) else None)
              && y.holders <= (if remoteId.Some? then {remoteId.value} else {})
              && (remoteId.Some? ==> staged) && (done ==> remoteId.Some?)
              && (done ==> y.operation.value.status == Completed && y.row.value.lifecycle == ActiveRow)
              && (done ==> request.stillFree && request.chosen == y.address)
      ensures Alone() && remoteId == None ==> router.state.shaping == old(router.state).shaping
      ensures Alone() && staged ==> var id := Mine(p, k, o).row.value.remoteId; id == None || id == remoteId
      ensures Alone() && done ==> FullyPresent(Now(), p, k, request)
      ensures old(router.Reliable()) && DatabaseUp() && Alone()
                && Serviceable(request, p, old(router.state).shaping)
              ==> done
    {
      hide LifecycleState.Inv, GoodRun, Tolerates, Extends, Bandwidth.Observe, Bandwidth.OwnedQueues;
      hide AsRequested;
      ExtensionsCompose(p, k, o);
      done, remoteId := false, None;
      var ok;
      ok, staged := Prepare(p, k, o, request);
      if !ok { return; }
      ok, remoteId := Install(p, k, o, request, request.chosen.value);
      if !ok { return; }
      ok := ShapeAndActivate(p, k, o, request);
      if !ok { return; }
      done := SetOperation(p, k, o, Completed);
    }

    // -------------------------------------------------------------------------------------------
    // createPeer

    /** The remote half of the `catch` block: whatever cannot be verified as gone counts as an error. */
    method RemoveRemote(p: PeerId, k: Key, o: OperationId, remoteId: RemoteId) returns (errors: bool)
      requires Valid() && Undisturbed(p, k, o) && (p in db.issued ==> db.issued[p] == k)
               && Mine(p, k, o).holders <= {remoteId}
      modifies this, router
      ensures Valid() && router.calls >= old(router.calls)
      ensures Extends(old(steps), steps, p, k, o)
      ensures Rely(p, k, o, old(Now()), Now()) && (!errors ==> Mine(p, k, o).holders == {})
      ensures Alone() && !errors ==> Bandwidth.OwnedQueues(router.state.shaping.queues, p) == {}
      ensures old(router.Reliable()) && Alone() && remoteId in old(router.state).peers ==> !errors
    {
      hide LifecycleState.Inv, GoodRun, Tolerates, Extends, Bandwidth.Observe, Bandwidth.OwnedQueues;
      ExtensionsCompose(p, k, o);
      var removed := DeleteQueues(p, k, o);
      var deleted := DeleteRemote(p, k, o, remoteId);
      ghost var atRead := router.state.peers;
      var peers := ReadPeers(p, k, o);
      errors := removed == None || !deleted || peers == None || remoteId in peers.value;
      assert !errors ==> Holders(atRead, k) == {};
    }

    /** The `catch` block of `createPeer`. */
    method AbandonCreate(p: PeerId, k: Key, o: OperationId, staged: bool, remoteId: Option<RemoteId>)
      requires Valid() && Undisturbed(p, k, o)
      requires var x := Mine(p, k, o);
               && staged == x.row.Some? && (staged ==> x.row.value.publicKey == k && x.issued == Some(k))
               && (x.issued.Some? ==> x.issued == Some(k))
               && x.operation.Some? && x.operation.value.peer == (if staged then Some(p) else None)
               && x.operation.value.kind == PeerCreate
               && x.row.Some? == x.address.Some? && x.holders <= (if remoteId.Some? then {remoteId.value} else {})
               && (remoteId.Some? ==> staged)
      modifies this, router
      ensures Valid() && router.calls >= old(router.calls)
      ensures Extends(old(steps), steps, p, k, o)
      ensures DatabaseUp() ==>
                AwaitingCleanup(Now(), p, o)
                || (p !in db.rows && p !in db.addresses && Holders(router.state.peers, k) == {}
                    && At(db.operations, o) == Some(Operation(PeerCreate, None, Failed)))
      ensures Alone() && DatabaseUp() && p !in db.rows && remoteId.Some? ==>
                Bandwidth.OwnedQueues(router.state.shaping.queues, p) == {}
      ensures Alone() && remoteId == None ==> router.state == old(router.state)
      ensures var x, y := old(Mine(p, k, o)), Mine(p, k, o);
              y.holders <= x.holders
              && (y.row.Some? ==>
                    x.row.Some? && y.row.value.(lifecycle := ActiveRow) == x.row.value.(lifecycle := ActiveRow))
    {
      hide LifecycleState.Inv, GoodRun, Tolerates, Extends, Bandwidth.Observe, Bandwidth.OwnedQueues;
      ExtensionsCompose(p, k, o);
      var errors := false;
      if remoteId.Some? { errors := RemoveRemote(p, k, o, remoteId.value); }
      var ok: bool;
      if staged && !errors {
        RemoveRowIsOwn(Now(), p, k, o);
        ok := Commit(p, k, o, RemoveRow(db, p));
        if !ok { return; }
      } else if staged {
        ok := WriteRow(p, k, o, db.rows[p].(lifecycle := PendingCleanupRow));
      }
      ok := SetOperation(p, k, o, if errors then PendingCleanup else Failed);
    }

    /** `createPeer`, for an id `p`, a key `k` and an operation id `o` that were just generated. */
    method CreatePeer(p: PeerId, k: Key, o: OperationId, request: CreateRequest) returns (ok: bool)
      requires Valid() && Undisturbed(p, k, o) && router.cleanCreate
      requires Mine(p, k, o) == Local(None, None, None, 0, None, false, {})
      requires Bandwidth.OwnedQueues(router.state.shaping.queues, p) == {}
      modifies this, router
      ensures Valid()
      ensures Extends(old(steps), steps, p, k, o)
      ensures ok ==> && request.interfaceExists && request.stillFree && o in db.operations
                     && db.operations[o] == Operation(PeerCreate, Some(p), Completed)
                     && p in db.rows && db.rows[p].lifecycle == ActiveRow && p in db.addresses
                     && request.chosen == Some(db.addresses[p])
      ensures Alone() && ok ==> FullyPresent(Now(), p, k, request)
      ensures DatabaseUp() && !ok && p !in db.rows ==>
                At(db.operations, o)
                  == Some(Operation(PeerCreate, None, if request.interfaceExists then Failed else Creating))
      ensures DatabaseUp() && !ok ==>
                AwaitingCleanup(Now(), p, o)
                || (p !in db.rows && p !in db.addresses && Holders(router.state.peers, k) == {})
      ensures Alone() && DatabaseUp() && !ok ==>
                FullyAbsent(Now(), p, k)
                || (AwaitingCleanup(Now(), p, o) && Selected(db, Pending(o, p)) && Cleanable(Now(), Pending(o, p)))
      ensures old(router.Reliable()) && DatabaseUp() && Alone()
                && Serviceable(request, p, old(router.state).shaping)
              ==> ok
    {
      hide LifecycleState.Inv, GoodRun, Tolerates, Extends, Bandwidth.Observe, Bandwidth.OwnedQueues;
      ExtensionsCompose(p, k, o);
      var started := WriteOperation(p, k, o, Operation(PeerCreate, None, Creating));
      if !started || !request.interfaceExists { return false; }
      var staged, remoteId;
      ok, staged, remoteId := TryCreate(p, k, o, request);
      if !ok {
        AbandonCreate(p, k, o, staged, remoteId);
        if Alone() && p in db.rows { OneHolderIsSoleMatch(router.state.peers, db.rows[p], remoteId); }
      }
    }

    // -------------------------------------------------------------------------------------------
    // deletePeer

    /** Finds the peer by stored id or by key, as every lookup of the source does. */
    method MatchingRemotes(peers: map<RemoteId, RemotePeer>, row: PeerRow) returns (found: set<RemoteId>)
      ensures found == Answering(peers, row.Link())
      ensures found == {} ==> Holders(peers, row.publicKey) == {}
    {
      found := Answering(peers, row.Link());
      assert Holders(peers, row.publicKey) <= found;
    }

    /** `assertCurrentRemote`: the peer must exist and must not have changed since it was last recorded. */
    method AssertCurrentRemote(p: PeerId, k: Key, o: OperationId, row: PeerRow) returns (r: Option<RemoteId>)
      requires Valid() && Undisturbed(p, k, o) && Mine(p, k, o).issued == Some(k) && row.publicKey == k
      modifies this, router
      ensures Valid() && router.calls >= old(router.calls)
      ensures Extends(old(steps), steps, p, k, o)
      ensures Rely(p, k, o, old(Now()), Now()) && (Alone() ==> Now() == old(Now()))
      ensures r.Some? ==> r.value in old(router.state).peers
                          && (row.remoteId == r || old(router.state).peers[r.value].publicKey == k)
                          && (row.fingerprint.Some? ==> row.fingerprint.value == old(router.state).peers[r.value])
                          && GuardPasses(old(router.state).peers, row.Link(), row.fingerprint)
      ensures old(router.Reliable()) && AsRecorded(old(router.state).peers, row.Link(), row.fingerprint) ==>
                r.Some? && r == row.remoteId
    {
      hide LifecycleState.Inv, GoodRun, Tolerates, Extends, Bandwidth.Observe, Bandwidth.OwnedQueues;
      ExtensionsCompose(p, k, o);
      ghost var peers := router.state.peers;
      var read := ReadPeers(p, k, o);
      if read == None { return None; }
      var found := MatchingRemotes(read.value, row);
      assert forall id :: id in found && row.remoteId != Some(id) ==> id in Holders(peers, k);
      if found == {} { return None; }
      var id :| id in found;
      if row.fingerprint.Some? && row.fingerprint.value != read.value[id] { return None; }
      r := Some(id);
    }

    /** The read that must no longer show the peer, by id or by key. */
    method ConfirmGone(p: PeerId, ghost k: Key, o: OperationId, row: PeerRow, id: Option<RemoteId>) returns (ok: bool)
      requires Valid() && Undisturbed(p, k, o) && Mine(p, k, o).issued == Some(k) && row.publicKey == k
      modifies this, router
      ensures Valid() && router.calls >= old(router.calls)
      ensures Extends(old(steps), steps, p, k, o)
      ensures Rely(p, k, o, old(Now()), Now()) && (Alone() ==> Now() == old(Now()))
      ensures ok ==> Mine(p, k, o).holders == {}
      ensures Alone() && ok ==> Answering(router.state.peers, row.Link()) == {}
      ensures old(router.Reliable()) && Alone() && AbsentId(router.state.peers, id)
                && Answering(router.state.peers, row.Link()) == {}
              ==> ok
    {
      hide LifecycleState.Inv, GoodRun, Tolerates, Extends, Bandwidth.Observe, Bandwidth.OwnedQueues;
      ExtensionsCompose(p, k, o);
      ghost var peers := router.state.peers;
      var read := ReadPeers(p, k, o);
      if read == None { return false; }
      var found := MatchingRemotes(read.value, row);
      assert forall x :: x in found && row.remoteId != Some(x) ==> x in Holders(peers, k);
      ok := found == {} && (id.Some? ==> id.value !in read.value);
    }

    /** Guard, mark, delete, verify: the remote half of `deletePeer`. */
    method TryDeleteRemote(p: PeerId, k: Key, o: OperationId, row: PeerRow) returns (ok: bool, remoteDeleted: bool)
      requires Valid() && Undisturbed(p, k, o) && o in db.operations
      requires Mine(p, k, o).row == Some(row) && row.publicKey == k && Mine(p, k, o).issued == Some(k)
      modifies this, router
      ensures Valid() && router.calls >= old(router.calls)
      ensures Extends(old(steps), steps, p, k, o)
      ensures var x, y := old(Mine(p, k, o)), Mine(p, k, o);
              y == x.(row := y.row, operation := y.operation, keyTaken := y.keyTaken, holders := y.holders)
              && y.row.Some? && y.row.value.(lifecycle := row.lifecycle) == row
              && y.operation.Some? && y.operation.value.(status := Creating) == x.operation.value.(status := Creating)
              && (ok ==> remoteDeleted && y.holders == {})
              && (remoteDeleted ==> y.row.value.lifecycle == PendingCleanupRow)
      ensures Alone() && router.CleanFailures() && !remoteDeleted ==> router.state == old(router.state)
      ensures Alone() && !GuardPasses(old(router.state).peers, row.Link(), row.fingerprint) ==>
                !ok && router.state == old(router.state)
      ensures Alone() ==>
                router.state.shaping == old(router.state).shaping && Submap(router.state.peers, old(router.state).peers)
      ensures old(router.Reliable()) && DatabaseUp() && Alone()
                && AsRecorded(old(router.state).peers, row.Link(), row.fingerprint)
              ==> ok
    {
      hide LifecycleState.Inv, GoodRun, Tolerates, Extends, Bandwidth.Observe, Bandwidth.OwnedQueues;
      ExtensionsCompose(p, k, o);
      ok, remoteDeleted := false, false;
      var current := AssertCurrentRemote(p, k, o, row);
      if current == None { return; }
      var marked := WriteRow(p, k, o, db.rows[p].(lifecycle := PendingCleanupRow));
      if !marked { return; }
      remoteDeleted := DeleteRemote(p, k, o, current.value);
      if !remoteDeleted { return; }
      ok := ConfirmGone(p, k, o, row, current);
      if !ok { return; }
      ok := RecordStep(p, k, o);
    }

    /** The queue and database half of `deletePeer`. */
    method FinishDelete(p: PeerId, ghost k: Key, o: OperationId) returns (ok: bool)
      requires Valid() && Undisturbed(p, k, o) && o in db.operations
      requires var x := Mine(p, k, o);
               x.row.Some? && x.row.value.publicKey == k && x.issued == Some(k) && x.holders == {}
      modifies this, router
      ensures Valid() && router.calls >= old(router.calls)
      ensures Extends(old(steps), steps, p, k, o)
      ensures var x, y := old(Mine(p, k, o)).operation, Mine(p, k, o).operation;
              x.Some? && x.value.status != Creating ==>
                y.Some? && y.value.kind == x.value.kind && (!ok ==> SameButDetached(x.value, y.value))
      ensures var x, y := old(Mine(p, k, o)), Mine(p, k, o);
              && y.issued == x.issued && y.operation.Some? && y.operation.value.kind == x.operation.value.kind
              && (y.row == None || (y.row == x.row && y.address == x.address && y.archived == x.archived
                                    && y.operation.value.(status := Creating)
                                         == x.operation.value.(status := Creating)))
              && (y.row == None ==> y.address == None && y.archived == 1 && y.holders == {})
              && (ok ==> y.row == None && y.operation.value.status == Completed)
              && (DatabaseUp() && y.row == None ==> ok)
      ensures Alone() && ok && old(db).operations[o].status != Creating ==>
                db == SetStatus(ArchiveAndRemove(old(db), p), o, Completed)
      ensures Alone() ==>
                router.state.peers == old(router.state).peers
                && Bandwidth.QueuesShrink(old(router.state).shaping, router.state.shaping)
      ensures Alone() && p !in db.rows ==> Bandwidth.OwnedQueues(router.state.shaping.queues, p) == {}
      ensures old(router.Reliable()) && DatabaseUp() ==> ok
    {
      hide LifecycleState.Inv, GoodRun, Tolerates, Extends, Bandwidth.Observe, Bandwidth.OwnedQueues,
           Bandwidth.QueuesShrink, ArchiveAndRemove, SetStatus;
      ExtensionsCompose(p, k, o);
      ok := false;
      var removed := DeleteQueues(p, k, o);
      if removed == None { return; }
      var recorded := RecordStep(p, k, o);
      if !recorded { return; }
      ArchiveRowIsOwn(Now(), p, k, o);
      RemovalDetaches(db, p, o);
      var archived := Commit(p, k, o, ArchiveAndRemove(db, p));
      if !archived { return; }
      ok := SetOperation(p, k, o, Completed);
    }

    /** The `catch` block of `deletePeer`; both statements tolerate failure. */
    method AbandonDelete(p: PeerId, k: Key, o: OperationId, remoteDeleted: bool)
      requires Valid() && Undisturbed(p, k, o) && o in db.operations
      requires var x := Mine(p, k, o); x.issued == Some(k) && (x.row.Some? ==> x.row.value.publicKey == k)
      modifies this, router
      ensures Valid()
      ensures Extends(old(steps), steps, p, k, o)
      ensures var x, y := old(Mine(p, k, o)), Mine(p, k, o);
              && y == x.(row := y.row, operation := y.operation, keyTaken := y.keyTaken, holders := y.holders)
              && y.holders <= x.holders
              && y.row.Some? == x.row.Some?
              && (y.row.Some? ==> y.row.value.(lifecycle := ActiveRow) == x.row.value.(lifecycle := ActiveRow))
              && (y.row.Some? ==>
                    var lifecycle := if remoteDeleted then PendingCleanupRow else ActiveRow;
                    if DatabaseUp() then y.row.value.lifecycle == lifecycle
                    else y.row.value.lifecycle in {x.row.value.lifecycle, lifecycle})
              && (DatabaseUp() ==>
                    y.operation == Some(x.operation.value.(status := if remoteDeleted then PendingCleanup else Failed)))
      ensures Alone() ==> router.state == old(router.state)
    {
      hide LifecycleState.Inv, GoodRun, Tolerates, Extends, Bandwidth.Observe, Bandwidth.OwnedQueues;
      ExtensionsCompose(p, k, o);
      if p in db.rows {
        var marked := WriteRow(p, k, o, db.rows[p].(lifecycle := if remoteDeleted then PendingCleanupRow
                                                                 else ActiveRow));
      }
      var failed := SetOperation(p, k, o, if remoteDeleted then PendingCleanup else Failed);
    }

    /** The `try` block of `deletePeer` and its handler, once the operation is recorded. */
    method RunDelete(p: PeerId, k: Key, o: OperationId, row: PeerRow) returns (ok: bool)
      requires Valid() && Undisturbed(p, k, o)
      requires var x := Mine(p, k, o);
               && x.row == Some(row) && row.publicKey == k && x.issued == Some(k) && x.archived == 0
               && x.operation == Some(Operation(PeerDelete, Some(p), Creating))
      modifies this, router
      ensures Valid()
      ensures Extends(old(steps), steps, p, k, o)
      ensures var x, y := old(Mine(p, k, o)), Mine(p, k, o);
              if y.row.Some? then !ok && KeptBy(x, y) && (DatabaseUp() ==> Marked(p, y)) else RemovedBy(y)
      ensures ok ==> p !in db.rows && o in db.operations && db.operations[o].status == Completed
      ensures DatabaseUp() && p !in db.rows ==> ok
      ensures Alone() && p !in db.rows ==> Bandwidth.OwnedQueues(router.state.shaping.queues, p) == {}
      ensures Alone() ==> Submap(router.state.peers, old(router.state).peers)
      ensures Alone() && !GuardPasses(old(router.state).peers, row.Link(), row.fingerprint) ==>
                !ok && router.state == old(router.state)
      ensures Alone() && router.CleanFailures() && p in db.rows && db.rows[p].lifecycle == ActiveRow ==>
                router.state == old(router.state)
      ensures old(router.Reliable()) && DatabaseUp() && Alone()
                && AsRecorded(old(router.state).peers, row.Link(), row.fingerprint)
              ==> ok
    {
      hide LifecycleState.Inv, GoodRun, Tolerates, Extends, Bandwidth.Observe, Bandwidth.OwnedQueues;
      ExtensionsCompose(p, k, o);
      var remoteDeleted;
      ok, remoteDeleted := TryDeleteRemote(p, k, o, row);
      if ok { ok := FinishDelete(p, k, o); }
      if !ok { AbandonDelete(p, k, o, remoteDeleted); }
    }

    /** `deletePeer`: afterwards the peer is gone and archived once, or its row still holds its address. */
    method DeletePeer(p: PeerId, o: OperationId) returns (ok: bool)
      requires Valid() && o !in db.operations
      requires p in db.issued ==> Undisturbed(p, db.issued[p], o)
      modifies this, router
      ensures Valid()
      ensures old(steps) <= steps
      ensures p !in old(db).rows ==> !ok && Now() == old(Now())
      ensures p in old(db).rows ==>
                var k := old(db).rows[p].publicKey;
                var x, y := LocalOf(old(Now()), p, k, o), LocalOf(Now(), p, k, o);
                if y.row.Some? then !ok && KeptBy(x, y) && (DatabaseUp() ==> Marked(p, y)) else RemovedBy(y)
      ensures ok ==> p !in db.rows && o in db.operations && db.operations[o].status == Completed
      ensures DatabaseUp() && p in old(db).rows && p !in db.rows ==> ok
      ensures Alone() && p in old(db).rows && p !in db.rows ==>
                Bandwidth.OwnedQueues(router.state.shaping.queues, p) == {}
      ensures Alone() && p in old(db).rows
              && !GuardPasses(old(router.state).peers, old(db).rows[p].Link(), old(db).rows[p].fingerprint) ==>
                !ok && router.state == old(router.state)
      ensures Alone() && DatabaseUp() && p in old(db).rows && SoleMatch(old(router.state).peers, old(db).rows[p].Link())
                && p in db.rows && db.rows[p].lifecycle == PendingCleanupRow
              ==> Selected(db, Pending(o, p)) && Cleanable(Now(), Pending(o, p))
      ensures Alone() && router.CleanFailures() && p in db.rows && db.rows[p].lifecycle == ActiveRow ==>
                router.state == old(router.state)
      ensures old(router.Reliable()) && DatabaseUp() && Alone() && p in old(db).rows
                && AsRecorded(old(router.state).peers, old(db).rows[p].Link(), old(db).rows[p].fingerprint)
              ==> ok
    {
      if p !in db.rows { return false; }
      var row := db.rows[p];
      assert db.archives[p] == 0;
      hide SoleMatch;
      ghost var peers := router.state.peers;
      var started := WriteOperation(p, row.publicKey, o, Operation(PeerDelete, Some(p), Creating));
      if !started { return false; }
      ok := RunDelete(p, row.publicKey, o, row);
      if SoleMatch(peers, row.Link()) && Alone() && p in db.rows {
        FewerStaySole(router.state.peers, peers, db.rows[p].Link());
      }
    }

    // -------------------------------------------------------------------------------------------
    // The reconciler

    /** Removes the one remote peer that answers to the row, if any, and verifies that none is left. */
    method RemoveMatching(p: PeerId, ghost k: Key, o: OperationId, row: PeerRow) returns (ok: bool)
      requires Valid() && Undisturbed(p, k, o) && Mine(p, k, o).issued == Some(k) && row.publicKey == k
      modifies this, router
      ensures Valid() && router.calls >= old(router.calls)
      ensures Extends(old(steps), steps, p, k, o)
      ensures Rely(p, k, o, old(Now()), Now()) && (ok ==> Mine(p, k, o).holders == {})
      ensures Alone() ==>
                db == old(db) && router.state.shaping == old(router.state).shaping
                && Submap(router.state.peers, old(router.state).peers)
      ensures Alone() && ok ==> SoleMatch(old(router.state).peers, row.Link())
      ensures old(router.Reliable()) && Alone() && SoleMatch(old(router.state).peers, row.Link()) ==> ok
    {
      hide LifecycleState.Inv, GoodRun, Tolerates, Extends, Bandwidth.Observe, Bandwidth.OwnedQueues;
      ExtensionsCompose(p, k, o);
      var read := ReadPeers(p, k, o);
      if read == None { return false; }
      ghost var peers := router.state.peers;
      var found := MatchingRemotes(read.value, row);
      if found != {} {
        var id :| id in found;
        assert Alone() ==> id in peers;
        ok := DeleteRemote(p, k, o, id);
        if !ok { return; }
        SoleIsGone(read.value, id, row.Link());
      }
      ok := ConfirmGone(p, k, o, row, None);
      if Alone() && ok { GoneMeansSole(peers, found, router.state.peers, row.Link()); }
    }

    /** The database half of the cleanup of a creation. */
    method FinishUndo(p: PeerId, ghost k: Key, o: OperationId) returns (ok: bool)
      requires Valid() && Undisturbed(p, k, o) && o in db.operations
      requires var x := Mine(p, k, o);
               x.row.Some? && x.row.value.publicKey == k && x.issued == Some(k) && x.holders == {}
      modifies this, router
      ensures Valid() && router.calls >= old(router.calls) && (DatabaseUp() ==> ok)
      ensures Extends(old(steps), steps, p, k, o)
      ensures var x, y := old(Mine(p, k, o)), Mine(p, k, o);
              && y.operation.Some? && y.operation.value.kind == x.operation.value.kind
              && (!ok && x.operation.value.status != Creating ==> SameButDetached(x.operation.value, y.operation.value))
              && (ok ==> y.operation.value.status == Failed && y.row == None && y.address == None && y.holders == {})
      ensures Alone() ==> router.state == old(router.state)
      ensures Alone() && ok && old(db).operations[o].status != Creating ==>
                db == SetStatus(RemoveRow(old(db), p), o, Failed)
    {
      hide LifecycleState.Inv, GoodRun, Tolerates, Extends;
      ExtensionsCompose(p, k, o);
      RemoveRowIsOwn(Now(), p, k, o);
      RemovalDetaches(db, p, o);
      hide RemoveRow;
      ok := Commit(p, k, o, RemoveRow(db, p));
      if !ok { return; }
      ok := RecordStep(p, k, o);
      if !ok { return; }
      ok := SetOperation(p, k, o, Failed);
    }

    /** Queue, remote peer, then row and address. */
    method UndoCreate(p: PeerId, ghost k: Key, o: OperationId, row: PeerRow) returns (ok: bool)
      requires Valid() && Undisturbed(p, k, o) && o in db.operations
      requires Mine(p, k, o).row == Some(row) && row.publicKey == k && Mine(p, k, o).issued == Some(k)
      modifies this, router
      ensures Valid() && router.calls >= old(router.calls)
      ensures Extends(old(steps), steps, p, k, o)
      ensures var x, y := old(Mine(p, k, o)).operation, Mine(p, k, o).operation;
              x.Some? && x.value.status != Creating ==>
                y.Some? && y.value.kind == x.value.kind && (!ok ==> SameButDetached(x.value, y.value))
      ensures var y := Mine(p, k, o);
              ok ==>
                y.operation.Some? && y.operation.value.status == Failed && y.row == None && y.address == None
                && y.holders == {}
      ensures Alone() ==>
                Submap(router.state.peers, old(router.state).peers)
                && Bandwidth.QueuesShrink(old(router.state).shaping, router.state.shaping)
      ensures Alone() && ok && old(db).operations[o].status != Creating ==>
                db == SetStatus(RemoveRow(old(db), p), o, Failed)
      ensures Alone() && ok ==> Bandwidth.OwnedQueues(router.state.shaping.queues, p) == {}
      ensures Alone() && ok ==> SoleMatch(old(router.state).peers, row.Link())
      ensures old(router.Reliable()) && DatabaseUp() && Alone() && SoleMatch(old(router.state).peers, row.Link()) ==> ok
    {
      hide LifecycleState.Inv, GoodRun, Tolerates, Extends, Bandwidth.Observe, Bandwidth.OwnedQueues,
           Bandwidth.QueuesShrink, SoleMatch, RemoveRow;
      ExtensionsCompose(p, k, o);
      var removed := DeleteQueues(p, k, o);
      if removed == None { return false; }
      ok := RemoveMatching(p, k, o, row);
      if !ok { return; }
      ok := FinishUndo(p, k, o);
    }

    /** `reconcileCreateCleanup` for the operation `o`, whose peer reference was read when the pass began. */
    method ReconcileCreate(p: PeerId, ghost k: Key, o: OperationId, peer: Option<PeerId>) returns (ok: bool)
      requires Valid() && Undisturbed(p, k, o) && o in db.operations
      requires (p in db.issued ==> db.issued[p] == k) && (peer == None || peer == Some(p))
      modifies this, router
      ensures Valid() && router.calls >= old(router.calls)
      ensures Extends(old(steps), steps, p, k, o)
      ensures var x, y := old(Mine(p, k, o)).operation, Mine(p, k, o).operation;
              x.Some? && x.value.status != Creating ==>
                y.Some? && y.value.kind == x.value.kind && (!ok ==> SameButDetached(x.value, y.value))
      ensures old(Mine(p, k, o)).row == None ==> Mine(p, k, o).row == None
      ensures ok ==> o in db.operations && db.operations[o].status == Failed
      ensures ok && peer == Some(p) ==>
                p !in db.rows && p !in db.addresses && (p in db.issued ==> Holders(router.state.peers, k) == {})
      ensures Alone() ==>
                Submap(router.state.peers, old(router.state).peers)
                && Bandwidth.QueuesShrink(old(router.state).shaping, router.state.shaping)
      ensures Alone() && ok && old(db).operations[o].status != Creating ==> db == Reconciled(old(db), peer, o, false)
      ensures Alone() && ok && peer.Some? && p in old(db).rows ==>
                Bandwidth.OwnedQueues(router.state.shaping.queues, p) == {}
      ensures Alone() && ok && peer.Some? && p in old(db).rows ==>
                SoleMatch(old(router.state).peers, old(db).rows[p].Link())
      ensures old(router.Reliable()) && DatabaseUp() && Alone() ==>
                (ok <==>
                   (peer.Some? && p in old(db).rows ==> SoleMatch(old(router.state).peers, old(db).rows[p].Link())))
    {
      hide LifecycleState.Inv, GoodRun, Tolerates, Extends, Bandwidth.Observe, Bandwidth.OwnedQueues;
      ExtensionsCompose(p, k, o);
      if peer == None {
        ok := SetOperation(p, k, o, Failed);
        return;
      }
      ok := Query(p, k, o);
      if !ok { return; }
      RowFacts(Now(), p);
      if p !in db.rows {
        ok := SetOperation(p, k, o, Failed);
        RowFacts(Now(), p);
        return;
      }
      ok := UndoCreate(p, k, o, db.rows[p]);
    }

    /** `reconcileDeleteCleanup`: remote first, then queues, then the archive row. */
    method ReconcileDelete(p: PeerId, ghost k: Key, o: OperationId, peer: Option<PeerId>) returns (ok: bool)
      requires Valid() && Undisturbed(p, k, o) && o in db.operations
      requires (p in db.issued ==> db.issued[p] == k) && (peer == None || peer == Some(p))
      modifies this, router
      ensures Valid() && router.calls >= old(router.calls)
      ensures Extends(old(steps), steps, p, k, o)
      ensures var x, y := old(Mine(p, k, o)).operation, Mine(p, k, o).operation;
              x.Some? && x.value.status != Creating ==>
                y.Some? && y.value.kind == x.value.kind && (!ok ==> SameButDetached(x.value, y.value))
      ensures old(Mine(p, k, o)).row == None ==> Mine(p, k, o).row == None
      ensures ok ==> o in db.operations && db.operations[o].status == Completed
      ensures ok && peer == Some(p) ==>
                p !in db.rows && p !in db.addresses && (p in db.issued ==> Holders(router.state.peers, k) == {})
      ensures ok && peer == Some(p) && p in old(db).rows ==> db.archives[p] == 1
      ensures Alone() ==>
                Submap(router.state.peers, old(router.state).peers)
                && Bandwidth.QueuesShrink(old(router.state).shaping, router.state.shaping)
      ensures Alone() && ok && old(db).operations[o].status != Creating ==> db == Reconciled(old(db), peer, o, true)
      ensures Alone() && ok && peer.Some? && p in old(db).rows ==>
                Bandwidth.OwnedQueues(router.state.shaping.queues, p) == {}
      ensures Alone() && ok && peer.Some? && p in old(db).rows ==>
                SoleMatch(old(router.state).peers, old(db).rows[p].Link())
      ensures old(router.Reliable()) && DatabaseUp() && Alone() ==>
                (ok <==>
                   (peer.Some? && p in old(db).rows ==> SoleMatch(old(router.state).peers, old(db).rows[p].Link())))
    {
      hide LifecycleState.Inv, GoodRun, Tolerates, Extends, Bandwidth.Observe, Bandwidth.OwnedQueues;
      ExtensionsCompose(p, k, o);
      if peer == None {
        ok := SetOperation(p, k, o, Completed);
        return;
      }
      ok := Query(p, k, o);
      if !ok { return; }
      RowFacts(Now(), p);
      if p !in db.rows {
        ok := SetOperation(p, k, o, Completed);
        RowFacts(Now(), p);
        return;
      }
      ok := RemoveMatching(p, k, o, db.rows[p]);
      if !ok { return; }
      ok := FinishDelete(p, k, o);
    }

    /** The cleanup registered for the kind of the operation, if there is one. */
    method TryReconcile(e: Pending, ghost k: Key, operation: Operation) returns (ok: bool)
      requires Valid() && Undisturbed(e.p, k, e.o) && (e.p in db.issued ==> db.issued[e.p] == k)
      requires (operation.peer == None || operation.peer == Some(e.p)) && e.o in db.operations
      modifies this, router
      ensures Valid() && router.calls >= old(router.calls)
      ensures Extends(old(steps), steps, e.p, k, e.o)
      ensures ok ==> operation.kind != OtherKind && e.o in db.operations
                     && db.operations[e.o].status == if operation.kind == PeerDelete then Completed else Failed
      ensures var x, y := old(Mine(e.p, k, e.o)).operation, Mine(e.p, k, e.o).operation;
              x.Some? && x.value.status != Creating ==>
                y.Some? && y.value.kind == x.value.kind && (!ok ==> SameButDetached(x.value, y.value))
      ensures old(Mine(e.p, k, e.o)).row == None ==> Mine(e.p, k, e.o).row == None
      ensures ok && operation.peer == Some(e.p) ==>
                e.p !in db.rows && e.p !in db.addresses && (e.p in db.issued ==> Holders(router.state.peers, k) == {})
      ensures Alone() && ok && old(db).operations[e.o].status != Creating ==>
                && db == Reconciled(old(db), operation.peer, e.o, operation.kind == PeerDelete)
                && Submap(router.state.peers, old(router.state).peers)
                && Bandwidth.QueuesShrink(old(router.state).shaping, router.state.shaping)
                && (operation.peer.Some? && e.p in old(db).rows ==>
                      Bandwidth.OwnedQueues(router.state.shaping.queues, e.p) == {})
      ensures Alone() && DatabaseUp() && old(router.Reliable()) && operation.kind != OtherKind
                && (e.p in old(db).rows ==> SoleMatch(old(router.state).peers, old(db).rows[e.p].Link()))
              ==> ok
    {
      hide LifecycleState.Inv, GoodRun, Tolerates, Extends, Bandwidth.Observe, Bandwidth.OwnedQueues, Reconciled,
           Bandwidth.QueuesShrink, Submap, SoleMatch;
      ExtensionsCompose(e.p, k, e.o);
      ok := false;
      if operation.kind == PeerCreate { ok := ReconcileCreate(e.p, k, e.o, operation.peer); }
      else if operation.kind == PeerDelete { ok := ReconcileDelete(e.p, k, e.o, operation.peer); }
    }

    /** The body of the reconciler's loop for one operation, as it was when the pass began. */
    method ReconcileOne(e: Pending, ghost k: Key, operation: Operation) returns (ok: bool)
      requires Valid() && Undisturbed(e.p, k, e.o) && (e.p in db.issued ==> db.issued[e.p] == k)
      requires (operation.peer == None || operation.peer == Some(e.p)) && Retryable(operation.status)
      requires e.o in db.operations && SameButDetached(operation, db.operations[e.o])
      modifies this, router
      ensures Valid() && router.calls >= old(router.calls)
      ensures Extends(old(steps), steps, e.p, k, e.o)
      ensures if ok then Closed(operation, db, e) else Left(operation, db, e, DatabaseUp())
      ensures e.p !in old(db).rows ==> e.p !in db.rows
      ensures ok && operation.peer == Some(e.p) ==>
                e.p !in db.rows && e.p !in db.addresses && (e.p in db.issued ==> Holders(router.state.peers, k) == {})
      ensures Alone() && ok ==>
                && db == Reconciled(old(db), operation.peer, e.o, operation.kind == PeerDelete)
                && Submap(router.state.peers, old(router.state).peers)
                && Bandwidth.QueuesShrink(old(router.state).shaping, router.state.shaping)
                && (operation.peer.Some? && e.p in old(db).rows ==>
                      Bandwidth.OwnedQueues(router.state.shaping.queues, e.p) == {})
      ensures Alone() && DatabaseUp() && old(router.Reliable()) && operation.kind != OtherKind
                && (e.p in old(db).rows ==> SoleMatch(old(router.state).peers, old(db).rows[e.p].Link()))
              ==> ok
    {
      hide LifecycleState.Inv, GoodRun, Tolerates, Extends, Bandwidth.Observe, Bandwidth.OwnedQueues, Reconciled,
           Bandwidth.QueuesShrink, Submap, SoleMatch;
      hide LocalOf, Left, Closed;
      ExtensionsCompose(e.p, k, e.o);
      ghost var before, first := steps, Now();
      LocalParts(first, e.p, k, e.o);
      ok := TryReconcile(e, k, operation);
      LocalParts(Now(), e.p, k, e.o);
      ghost var tried := db.operations;
      if ok {
        AttemptCloses(operation, first.db, db, e);
      } else {
        KeyCarried(before, steps, start, first, Now(), others, e.p, k, e.o, e.p, k, e.o);
        var failed := SetOperation(e.p, k, e.o, if operation.status == PendingCleanup then PendingCleanup
                                                else NeedsReconciliation);
        LocalParts(Now(), e.p, k, e.o);
        AttemptLeaves(operation, first.db.operations[e.o], tried[e.o], db, e, DatabaseUp());
      }
    }

    /** One round of the reconciler's loop. */
    method ReconcileNext(batch: seq<Pending>, ghost keys: PeerId -> Key, i: nat, operation: Operation,
                         ghost before: World) returns (ok: bool)
      requires Valid() && Inv(before) && FromBefore(before, batch) && i < |batch|
      requires forall n, m :: 0 <= n < m < |batch| ==> batch[n].o != batch[m].o
      requires forall n :: 0 <= n < |batch| ==> Undisturbed(batch[n].p, keys(batch[n].p), batch[n].o)
      requires KeysFit(Now(), batch, keys) && Outcomes(before, Now(), batch, i, DatabaseUp())
      requires batch[i].o in before.db.operations && operation == before.db.operations[batch[i].o]
      modifies this, router
      ensures Valid() && old(steps) <= steps && router.calls >= old(router.calls)
      ensures KeysFit(Now(), batch, keys) && Outcomes(before, Now(), batch, i + 1, DatabaseUp())
      ensures |StillOpen(db, batch, i + 1)| == |StillOpen(old(db), batch, i)| + if ok then 0 else 1
      ensures Alone() && DatabaseUp() && old(router.Reliable()) && Cleanable(before, batch[i])
                && PassSoFar(before, old(Now()), batch, i)
              ==> ok && PassSoFar(before, Now(), batch, i + 1)
    {
      hide LifecycleState.Inv, GoodRun, PassSoFar, SoleMatch, Tolerates, Extends, Reconciled, Left, Closed, StillOpen,
           Outcomes, Cleanable, Bandwidth.QueuesShrink, Bandwidth.OwnedQueues, Submap;
      ghost var now, trail := Now(), steps;
      ghost var good := Alone() && DatabaseUp() && router.Reliable() && Cleanable(before, batch[i])
          && PassSoFar(before, now, batch, i);
      if good { PassReady(before, now, batch, i); }
      OutcomesReady(before, now, batch, i, DatabaseUp());
      assert Selected(before.db, batch[i]);
      ok := ReconcileOne(batch[i], keys(batch[i].p), operation);
      ExtendsIsPrefix(trail, steps, batch[i].p, keys(batch[i].p), batch[i].o);
      KeysCarried(trail, steps, start, now, Now(), others, batch, keys, i);
      OutcomesStep(before, now, Now(), batch, i, DatabaseUp(), ok);
      if good { PassStep(before, now, Now(), batch, i); }
    }

    /** One pass of `reconcilePendingOperations` over the rows its query returned. Other sagas and router administrators
        act throughout; `keys` are the keys of the peers that the operations are about. */
    method ReconcilePending(batch: seq<Pending>, ghost keys: PeerId -> Key)
        returns (attempted: nat, completed: nat, pending: nat)
      requires Valid()
      requires forall i :: 0 <= i < |batch| ==> Selected(db, batch[i])
      requires forall i, j :: 0 <= i < j < |batch| ==> batch[i].o != batch[j].o
      requires KeysFit(Now(), batch, keys)
      requires forall i :: 0 <= i < |batch| ==> Undisturbed(batch[i].p, keys(batch[i].p), batch[i].o)
      modifies this, router
      ensures Valid() && old(steps) <= steps
      ensures attempted == |batch| == completed + pending
      ensures pending == |StillOpen(db, batch, |batch|)|
      ensures forall i :: 0 <= i < |batch| ==> Attempted(old(Now()), Now(), batch[i], DatabaseUp())
      ensures Alone() && DatabaseUp() && old(router.Reliable())
              && (forall i :: 0 <= i < |batch| ==> Cleanable(old(Now()), batch[i])) ==>
                pending == 0 && forall i :: 0 <= i < |batch| ==> CleanedUp(old(Now()), Now(), batch, i)
    {
      hide LifecycleState.Inv, GoodRun, PassSoFar, Tolerates, CleanedUp, Attempted, StillOpen, Outcomes, Cleanable,
           KeysFit;
      attempted, completed, pending := 0, 0, 0;
      var selected := db.operations;
      ghost var before := Now();
      ghost var good := Alone() && DatabaseUp() && router.Reliable()
          && (forall i :: 0 <= i < |batch| ==> Cleanable(before, batch[i]));
      PassStarts(before, batch);
      OutcomesStart(before, batch, DatabaseUp());
      for i := 0 to |batch|
        invariant Valid() && old(steps) <= steps && attempted == i == completed + pending
                  && router.calls >= old(router.calls)
        invariant KeysFit(Now(), batch, keys) && Outcomes(before, Now(), batch, i, DatabaseUp())
        invariant pending == |StillOpen(db, batch, i)|
        invariant good ==> pending == 0 && PassSoFar(before, Now(), batch, i)
      {
        assert Selected(before.db, batch[i]);
        var ok := ReconcileNext(batch, keys, i, selected[batch[i].o], before);
        attempted := attempted + 1;
        if ok { completed := completed + 1; } else { pending := pending + 1; }
      }
      OutcomesEnd(before, Now(), batch, DatabaseUp());
      if good { PassEnds(before, Now(), batch); }
    }

    // -------------------------------------------------------------------------------------------
    // Whole runs

    /** Executes any sequence of commands; each id, key and operation id it introduces must be unused. The recorded run
        only grows, so whatever held of its states still does. */
    method Run(commands: seq<Command>)
      requires Valid() && Alone() && router.cleanCreate
      modifies this, router
      ensures Valid() && old(steps) <= steps
    {
      hide LifecycleState.Inv, GoodRun, Extends;
      for i := 0 to |commands|
        invariant Valid() && old(steps) <= steps
      {
        ghost var trail := steps;
        match commands[i]
        case CreateOne(p, k, o, request) =>
          if Unused(World(db, router.state), p, k, o) {
            var ok := CreatePeer(p, k, o, request);
            ExtendsIsPrefix(trail, steps, p, k, o);
          }
        case DeleteOne(p, o) =>
          if o !in db.operations { var ok := DeletePeer(p, o); }
        case ReconcileBatch(batch) =>
          if (forall n :: 0 <= n < |batch| ==> Selected(db, batch[n]))
          && (forall n, m :: 0 <= n < m < |batch| ==> batch[n].o != batch[m].o) {
            ghost var issued := db.issued;
            ghost var keys := (q: PeerId) => if q in issued then issued[q] else "";
            var attempted, completed, pending := ReconcilePending(batch, keys);
          }
      }
    }
  }

  /** Safety over whole runs: in every state a run ever passed through, before and after each atomic step, a remote
      peer under a generated key has its row and its address. */
  lemma EveryStateIsSafe(service: PeerService, i: nat, p: PeerId, id: RemoteId)
    requires service.Valid() && i < |service.steps|
    ensures forall w :: w in {service.steps[i].before, service.steps[i].after} && p in w.db.issued
              && id in w.router.peers
              && w.router.peers[id].publicKey == w.db.issued[p]
              ==> p in w.db.rows && p in w.db.addresses && w.db.addresses[p] == w.db.rows[p].clientIp
  {
    assert GoodStep(service.steps[i], service.others);
  }
}
