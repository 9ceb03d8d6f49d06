/** State of the two systems that `createPeer`, `deletePeer` and the reconciler keep together, the database
    transactions they run, and what every step of theirs preserves. */
module LifecycleState {
  import opened Wrappers
  import opened IpCidr
  import opened RouterModel
  import Bandwidth

  type OperationId = nat

  datatype LifecycleStatus = CreatingRow | ActiveRow | PendingCleanupRow
  datatype OperationKind = PeerCreate | PeerDelete | OtherKind
  datatype OperationStatus = Creating | Active | Partial | NeedsReconciliation | Failed | Completed | PendingCleanup

  datatype PeerRow = PeerRow(publicKey: Key, clientIp: Ip, remoteId: Option<RemoteId>, fingerprint: Option<RemotePeer>,
                             lifecycle: LifecycleStatus) {
    function Link(): PeerLink {
      PeerLink(remoteId, publicKey)
    }
  }

  datatype Operation = Operation(kind: OperationKind, peer: Option<PeerId>, status: OperationStatus)

  /** `rows` are the peers `createPeer` made, all of which have a pool address; imported peers are not among them.
      `issued` is not stored anywhere: it remembers every key `createPeer` ever generated, and for which peer. */
  datatype Database = Database(
    rows: map<PeerId, PeerRow>, addresses: map<PeerId, Ip>, archives: multiset<PeerId>,
    operations: map<OperationId, Operation>, issued: map<PeerId, Key>)

  datatype World = World(db: Database, router: RouterState)

  function At<K, V>(m: map<K, V>, k: K): Option<V> {
    if k in m then Some(m[k]) else None
  }

  ghost predicate KeysDistinct(issued: map<PeerId, Key>) {
    forall p, q :: p in issued && q in issued && p != q ==> issued[p] != issued[q]
  }

  ghost predicate RowsHaveIssuedKeys(rows: map<PeerId, PeerRow>, issued: map<PeerId, Key>) {
    forall p :: p in rows ==> p in issued && rows[p].publicKey == issued[p]
  }

  /** An address is allocated to a peer exactly while the peer's row exists. */
  ghost predicate AddressesFollowRows(rows: map<PeerId, PeerRow>, addresses: map<PeerId, Ip>) {
    && rows.Keys == addresses.Keys
    && (forall p :: p in rows ==> addresses[p] == rows[p].clientIp)
  }

  ghost predicate NoStrayRemote(rows: map<PeerId, PeerRow>, issued: map<PeerId, Key>,
                                peers: map<RemoteId, RemotePeer>) {
    forall p, id :: p in issued && id in peers && peers[id].publicKey == issued[p] ==> p in rows
  }

  ghost predicate ArchivedOnce(rows: map<PeerId, PeerRow>, archives: multiset<PeerId>) {
    forall p :: archives[p] <= if p in rows then 0 else 1
  }

  /** Foreign key of `management_operations.peer_id`. */
  ghost predicate OperationsReferToRows(rows: map<PeerId, PeerRow>, operations: map<OperationId, Operation>) {
    forall o :: o in operations && operations[o].peer.Some? ==> operations[o].peer.value in rows
  }

  ghost predicate Inv(w: World) {
    && FreshIds(w.router)
    && KeysDistinct(w.db.issued)
    && RowsHaveIssuedKeys(w.db.rows, w.db.issued)
    && AddressesFollowRows(w.db.rows, w.db.addresses)
    && NoStrayRemote(w.db.rows, w.db.issued, w.router.peers)
    && ArchivedOnce(w.db.rows, w.db.archives)
    && OperationsReferToRows(w.db.rows, w.db.operations)
  }

  lemma InvParts(w: World)
    requires Inv(w)
    ensures FreshIds(w.router) && OperationsReferToRows(w.db.rows, w.db.operations)
  {
  }

  /** The property the sagas exist for: while the router holds a peer under a generated key, the database has that
      peer's row and its address is still allocated to it. */
  lemma RemotePeerKeepsRowAndAddress(w: World, p: PeerId, id: RemoteId)
    requires Inv(w)
    requires p in w.db.issued && id in w.router.peers && w.router.peers[id].publicKey == w.db.issued[p]
    ensures p in w.db.rows && w.db.rows[p].publicKey == w.db.issued[p]
    ensures p in w.db.addresses && w.db.addresses[p] == w.db.rows[p].clientIp
  {
  }

  /** A peer without a row has no address and no remote peer; a peer with one has both key and address on record. */
  lemma RowFacts(w: World, p: PeerId)
    requires Inv(w)
    ensures if p in w.db.rows then
              && At(w.db.issued, p) == Some(w.db.rows[p].publicKey)
              && At(w.db.addresses, p) == Some(w.db.rows[p].clientIp) && w.db.archives[p] == 0
            else p !in w.db.addresses && (p in w.db.issued ==> Holders(w.router.peers, w.db.issued[p]) == {})
  {
    assert w.db.archives[p] <= if p in w.db.rows then 0 else 1;
  }

  // ---------------------------------------------------------------------------------------------
  // What one saga may do, and what it relies on

  /** Everything in the world that concerns the saga for peer `p` with key `k` under operation `o`. */
  datatype Local = Local(
    row: Option<PeerRow>, address: Option<Ip>, operation: Option<Operation>, archived: nat,
    issued: Option<Key>, keyTaken: bool, holders: set<RemoteId>)

  ghost function LocalOf(w: World, p: PeerId, k: Key, o: OperationId): Local {
    Local(At(w.db.rows, p), At(w.db.addresses, p), At(w.db.operations, o), w.db.archives[p],
          At(w.db.issued, p), exists q :: q in w.db.issued && q != p && w.db.issued[q] == k, Holders(w.router.peers, k))
  }

  /** Other actors, router administrators included, may do anything except touch this peer's rows and operation
      or introduce its id or key. They may edit or delete the remote peer. */
  ghost predicate Rely(p: PeerId, k: Key, o: OperationId, before: World, after: World) {
    var x, y := LocalOf(before, p, k, o), LocalOf(after, p, k, o);
    && y.row == x.row && y.address == x.address && y.operation == x.operation && y.archived == x.archived
    && y.issued == x.issued && (y.keyTaken ==> x.keyTaken) && y.holders <= x.holders
  }

  predicate DetachedFrom(p: PeerId, before: Operation, after: Operation) {
    after == before || (before.peer == Some(p) && after == before.(peer := None))
  }

  /** What a saga does: it writes its own rows and operation, and puts no key but its own on the router. */
  ghost predicate Own(p: PeerId, k: Key, o: OperationId, before: World, after: World) {
    && (forall q :: q != p ==>
          At(after.db.rows, q) == At(before.db.rows, q) && At(after.db.addresses, q) == At(before.db.addresses, q))
    && (forall q :: q != p ==>
          At(after.db.issued, q) == At(before.db.issued, q) && after.db.archives[q] == before.db.archives[q])
    && (p in after.db.issued ==> after.db.issued[p] == k)
    && after.db.operations.Keys - {o} == before.db.operations.Keys - {o}
    && (forall x :: x in before.db.operations && x != o ==>
          x in after.db.operations && DetachedFrom(p, before.db.operations[x], after.db.operations[x]))
    && (forall id :: id in after.router.peers && after.router.peers[id].publicKey != k ==>
          id in before.router.peers && after.router.peers[id] == before.router.peers[id])
    && Bandwidth.ForeignQueues(after.router.shaping.queues, p)
         == Bandwidth.ForeignQueues(before.router.shaping.queues, p)
  }

  /** Two sagas for different peers may interleave freely: each one's steps are what the other relies on. */
  lemma OwnStepsAreWhatOthersRelyOn(p: PeerId, k: Key, o: OperationId, q: PeerId, k': Key, o': OperationId,
                                    before: World, after: World)
    requires Own(p, k, o, before, after)
    requires p != q && k != k' && o != o'
    requires o' in before.db.operations ==> before.db.operations[o'].peer != Some(p)
    ensures Rely(q, k', o', before, after)
  {
    forall id | id in Holders(after.router.peers, k') ensures id in Holders(before.router.peers, k') {
      assert after.router.peers[id].publicKey != k;
    }
    if r :| r in after.db.issued && r != q && after.db.issued[r] == k' {
      assert At(after.db.issued, r) == At(before.db.issued, r);
    }
    if o' in before.db.operations || o' in after.db.operations {
      assert o' in before.db.operations.Keys - {o} <==> o' in after.db.operations.Keys - {o};
    }
  }

  // ---------------------------------------------------------------------------------------------
  // Database transactions

  function StageRow(db: Database, p: PeerId, k: Key, ip: Ip, o: OperationId): Database
    requires o in db.operations
  {
    db.(rows := db.rows[p := PeerRow(k, ip, None, None, CreatingRow)], addresses := db.addresses[p := ip],
        operations := db.operations[o := db.operations[o].(peer := Some(p))], issued := db.issued[p := k])
  }

  function UpdateRow(db: Database, p: PeerId, row: PeerRow): Database {
    if p in db.rows then db.(rows := db.rows[p := row]) else db
  }

  function Detach(operations: map<OperationId, Operation>, p: PeerId): map<OperationId, Operation> {
    map o | o in operations :: if operations[o].peer == Some(p) then operations[o].(peer := None) else operations[o]
  }

  /** Release the address and delete the row; operations lose their reference (ON DELETE SET NULL). */
  function RemoveRow(db: Database, p: PeerId): Database {
    db.(rows := db.rows - {p}, addresses := db.addresses - {p}, operations := Detach(db.operations, p))
  }

  function ArchiveAndRemove(db: Database, p: PeerId): Database {
    RemoveRow(db, p).(archives := db.archives + multiset{p})
  }

  function StartOperation(db: Database, o: OperationId, operation: Operation): Database {
    db.(operations := db.operations[o := operation])
  }

  function SetStatus(db: Database, o: OperationId, status: OperationStatus): Database {
    if o in db.operations then db.(operations := db.operations[o := db.operations[o].(status := status)]) else db
  }

  lemma StageRowKeepsInv(w: World, p: PeerId, k: Key, ip: Ip, o: OperationId)
    requires Inv(w) && o in w.db.operations && w.db.archives[p] == 0 && p !in w.db.rows && p !in w.db.issued
    requires forall q :: q in w.db.issued ==> w.db.issued[q] != k
    ensures Inv(World(StageRow(w.db, p, k, ip, o), w.router))
  {
    var db := StageRow(w.db, p, k, ip, o);
    assert KeysDistinct(db.issued) && RowsHaveIssuedKeys(db.rows, db.issued)
           && AddressesFollowRows(db.rows, db.addresses);
    assert ArchivedOnce(db.rows, db.archives) && NoStrayRemote(db.rows, db.issued, w.router.peers);
  }

  lemma StageRowLocal(w: World, p: PeerId, k: Key, ip: Ip, o: OperationId)
    requires o in w.db.operations
    ensures LocalOf(World(StageRow(w.db, p, k, ip, o), w.router), p, k, o)
         == LocalOf(w, p, k, o).(row := Some(PeerRow(k, ip, None, None, CreatingRow)), address := Some(ip),
                                 issued := Some(k),
                                 operation := Some(w.db.operations[o].(peer := Some(p))))
  {
    var issued := w.db.issued[p := k];
    assert forall q :: q != p ==> (q in issued && issued[q] == k <==> q in w.db.issued && w.db.issued[q] == k);
  }

  lemma StageRowTouchesOwn(w: World, p: PeerId, k: Key, ip: Ip, o: OperationId)
    requires o in w.db.operations
    ensures Own(p, k, o, w, World(StageRow(w.db, p, k, ip, o), w.router))
  {
  }

  lemma StageRowPossible(w: World, p: PeerId, k: Key, o: OperationId)
    requires var x := LocalOf(w, p, k, o); x.row == None && x.archived == 0 && x.issued == None && !x.keyTaken
    ensures w.db.archives[p] == 0 && p !in w.db.rows && p !in w.db.issued
    ensures forall q :: q in w.db.issued ==> w.db.issued[q] != k
  {
    assert At(w.db.rows, p) == None && At(w.db.issued, p) == None;
  }

  lemma StageRowIsOwn(w: World, p: PeerId, k: Key, ip: Ip, o: OperationId)
    requires Inv(w) && o in w.db.operations
    requires var x := LocalOf(w, p, k, o); x.row == None && x.archived == 0 && x.issued == None && !x.keyTaken
    ensures var after := World(StageRow(w.db, p, k, ip, o), w.router);
            && Inv(after) && Own(p, k, o, w, after)
            && LocalOf(after, p, k, o) == LocalOf(w, p, k, o).(
                 row := Some(PeerRow(k, ip, None, None, CreatingRow)), address := Some(ip), issued := Some(k),
                 operation := Some(w.db.operations[o].(peer := Some(p))))
  {
    hide Inv, LocalOf, Own;
    StageRowPossible(w, p, k, o);
    StageRowKeepsInv(w, p, k, ip, o);
    StageRowTouchesOwn(w, p, k, ip, o);
    StageRowLocal(w, p, k, ip, o);
  }

  lemma UpdateRowKeepsInv(w: World, p: PeerId, row: PeerRow)
    requires Inv(w)
             && (p in w.db.rows ==> row.publicKey == w.db.rows[p].publicKey && row.clientIp == w.db.rows[p].clientIp)
    ensures Inv(World(UpdateRow(w.db, p, row), w.router))
  {
    var rows := UpdateRow(w.db, p, row).rows;
    assert RowsHaveIssuedKeys(rows, w.db.issued) && AddressesFollowRows(rows, w.db.addresses);
    assert ArchivedOnce(rows, w.db.archives) && NoStrayRemote(rows, w.db.issued, w.router.peers);
  }

  lemma UpdateRowIsOwn(w: World, p: PeerId, k: Key, o: OperationId, row: PeerRow)
    requires Inv(w)
             && (p in w.db.rows ==>
                   row.publicKey == w.db.rows[p].publicKey == k && row.clientIp == w.db.rows[p].clientIp)
    requires p in w.db.issued ==> w.db.issued[p] == k
    ensures var after := World(UpdateRow(w.db, p, row), w.router);
            && Inv(after) && Own(p, k, o, w, after)
            && LocalOf(after, p, k, o) == LocalOf(w, p, k, o).(row := if p in w.db.rows then Some(row) else None)
  {
    UpdateRowKeepsInv(w, p, row);
    hide Inv;
  }

  lemma RemoveRowKeepsInv(w: World, p: PeerId, k: Key)
    requires Inv(w) && p in w.db.rows && w.db.issued[p] == k && Holders(w.router.peers, k) == {}
    ensures Inv(World(RemoveRow(w.db, p), w.router))
  {
    var db := RemoveRow(w.db, p);
    forall q, id | q in db.issued && id in w.router.peers && w.router.peers[id].publicKey == db.issued[q]
      ensures q in db.rows
    {
      assert id !in Holders(w.router.peers, k);
    }
  }

  lemma RemoveRowIsOwn(w: World, p: PeerId, k: Key, o: OperationId)
    requires Inv(w) && p in w.db.rows && w.db.issued[p] == k && Holders(w.router.peers, k) == {}
    ensures var after := World(RemoveRow(w.db, p), w.router);
            && Inv(after) && Own(p, k, o, w, after)
            && LocalOf(after, p, k, o)
                 == LocalOf(w, p, k, o).(row := None, address := None, operation := At(after.db.operations, o))
  {
    RemoveRowKeepsInv(w, p, k);
    assert RemoveRow(w.db, p).operations.Keys == w.db.operations.Keys;
  }

  lemma ArchiveRowIsOwn(w: World, p: PeerId, k: Key, o: OperationId)
    requires Inv(w) && p in w.db.rows && w.db.issued[p] == k && Holders(w.router.peers, k) == {}
    ensures var after := World(ArchiveAndRemove(w.db, p), w.router);
            && Inv(after) && Own(p, k, o, w, after)
            && LocalOf(after, p, k, o) == LocalOf(w, p, k, o).(row := None, address := None, archived := 1,
                                                               operation := At(after.db.operations, o))
  {
    RemoveRowIsOwn(w, p, k, o);
  }

  lemma OperationIsOwn(w: World, p: PeerId, k: Key, o: OperationId, operation: Operation)
    requires Inv(w) && (operation.peer.Some? ==> operation.peer.value in w.db.rows)
    requires p in w.db.issued ==> w.db.issued[p] == k
    ensures var after := World(StartOperation(w.db, o, operation), w.router);
            && Inv(after) && Own(p, k, o, w, after)
            && LocalOf(after, p, k, o) == LocalOf(w, p, k, o).(operation := Some(operation))
  {
  }

  // ---------------------------------------------------------------------------------------------
  // Router steps

  lemma CreateRemoteIsOwn(w: World, p: PeerId, k: Key, o: OperationId, peer: RemotePeer, after: RouterState)
    requires Inv(w) && p in w.db.rows && w.db.issued[p] == k && peer.publicKey == k
    requires after == w.router.(peers := w.router.peers[w.router.nextPeer := peer], nextPeer := w.router.nextPeer + 1)
    ensures Inv(World(w.db, after)) && Own(p, k, o, w, World(w.db, after))
    ensures Holders(after.peers, k) == Holders(w.router.peers, k) + {w.router.nextPeer}
  {
  }

  lemma NothingIsOwn(w: World, p: PeerId, k: Key, o: OperationId)
    requires p in w.db.issued ==> w.db.issued[p] == k
    ensures Own(p, k, o, w, w)
  {
  }

  lemma DeleteRemoteIsOwn(w: World, p: PeerId, k: Key, o: OperationId, id: RemoteId)
    requires Inv(w) && (p in w.db.issued ==> w.db.issued[p] == k)
    ensures var after := World(w.db, w.router.(peers := w.router.peers - {id}));
            Inv(after) && Own(p, k, o, w, after) && Holders(after.router.peers, k) == Holders(w.router.peers, k) - {id}
  {
  }

  lemma QueueStepIsOwn(w: World, p: PeerId, k: Key, o: OperationId, after: RouterState)
    requires Inv(w) && FreshIds(after) && Bandwidth.OnlyOwnedQueuesDiffer(w.router, after, p)
    requires p in w.db.issued ==> w.db.issued[p] == k
    ensures Inv(World(w.db, after)) && Own(p, k, o, w, World(w.db, after))
  {
  }
}
