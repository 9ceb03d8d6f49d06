/** `resolvePeerDrift` of `src/server/drift-service.ts`, and the mutations of `src/server/peer-service.ts` that a drift
    check guards, seen from the router. */
module DriftResolution {
  import opened Wrappers
  import opened RouterModel
  import opened Drift

  // ---------------------------------------------------------------------------------------------
  // Comparing states as text

  /** `JSON.stringify` of an object whose keys come in the given order. */
  function Serialized(order: seq<Field>, s: State): seq<(Field, Value)> {
    seq(|order|, i requires 0 <= i < |order| => (order[i], ValueOf(s, order[i])))
  }

  /** `sameState` of a state built in code with one read back from a JSONB column, whose keys come in `order`. */
  predicate SameState(current: State, stored: State, order: seq<Field>) {
    Serialized(FIELDS, current) == Serialized(order, stored)
  }

  /** The comparison is of text, so the order of the keys counts. */
  lemma SameStateIsExact(current: State, stored: State, order: seq<Field>)
    ensures SameState(current, stored, order) <==> order == FIELDS && current == stored
  {
    var a, b := Serialized(FIELDS, current), Serialized(order, stored);
    if a == b {
      assert |order| == |FIELDS|;
      forall i | 0 <= i < |order|
        ensures order[i] == FIELDS[i] && ValueOf(current, FIELDS[i]) == ValueOf(stored, FIELDS[i])
      {
        assert a[i] == b[i];
      }
      assert order == FIELDS;
      assert ValueOf(current, FIELDS[0]) == ValueOf(stored, FIELDS[0])
        && ValueOf(current, FIELDS[1]) == ValueOf(stored, FIELDS[1])
        && ValueOf(current, FIELDS[2]) == ValueOf(stored, FIELDS[2])
        && ValueOf(current, FIELDS[3]) == ValueOf(stored, FIELDS[3])
        && ValueOf(current, FIELDS[4]) == ValueOf(stored, FIELDS[4])
        && ValueOf(current, FIELDS[5]) == ValueOf(stored, FIELDS[5]);
    }
  }

  function KeyName(f: Field): string {
    match f
    case InterfaceName => "interfaceName"
    case PublicKey => "publicKey"
    case AllowedAddress => "allowedAddress"
    case CommentText => "comment"
    case PersistentKeepalive => "persistentKeepalive"
    case DisabledFlag => "disabled"
  }

  /** A store that returns shorter keys first, as JSONB does. */
  predicate ShorterKeysFirst(order: seq<Field>) {
    forall i, j :: 0 <= i < j < |order| ==> |KeyName(order[i])| <= |KeyName(order[j])|
  }

  /** With such a store the comparison fails for every pair of states: no peer drift can ever be resolved. */
  lemma JsonbDefeatsComparison(current: State, stored: State, order: seq<Field>)
    requires ShorterKeysFirst(order)
    ensures !SameState(current, stored, order)
  {
    SameStateIsExact(current, stored, order);
    assert |KeyName(FIELDS[0])| > |KeyName(FIELDS[1])|;
  }

  // ---------------------------------------------------------------------------------------------
  // Resolution

  datatype Resolution = KeepRouter | ApplyApplication

  /** The stored id names the only remote peer that answers to the row, and nobody else holds its key. */
  ghost predicate Sole(row: Row, peers: map<RemoteId, RemotePeer>, id: RemoteId) {
    && id in peers && row.remoteId == Some(id)
    && forall other :: other in peers && other != id ==>
         peers[other].publicKey != row.publicKey && peers[other].publicKey != peers[id].publicKey
  }

  /** The open drift describes the row as it is. */
  predicate OpenFor(t: Tracked) {
    t.drift.Some? && !t.drift.value.resolved && t.drift.value.application == ApplicationState(t.row)
  }

  /** The open drift describes both the row and the only remote peer that answers to it. */
  ghost predicate Resolvable(t: Tracked, peers: map<RemoteId, RemotePeer>, id: RemoteId) {
    Sole(t.row, peers, id) && OpenFor(t) && t.drift.value.router == PeerState(peers[id])
  }

  function Applied(p: RemotePeer, s: State): RemotePeer {
    p.(interfaceName := s.interfaceName, publicKey := s.publicKey, allowedAddress := s.allowedAddress,
       comment := s.comment,
       persistentKeepalive := s.persistentKeepalive, disabled := s.disabled)
  }

  /** Everything `SyncAcceptsMatch` asks for. */
  ghost predicate Settled(t: Tracked, peers: map<RemoteId, RemotePeer>) {
    && t.row.fingerprint.Some? && t.row.remoteId.Some? && t.row.remoteId.value in peers && t.row.conflict.None?
    && t.row.sync == Synced
    && (forall id :: id in peers && Answers(t.row.Link(), RemoteEntry(id, peers[id])) ==>
          peers[id] == t.row.fingerprint.value)
    && PeerState(peers[t.row.remoteId.value]) == ApplicationState(t.row)
    && t.row.fingerprint == t.row.lastRemote == Some(peers[t.row.remoteId.value])
    && t.row.lastApplied == Some(ApplicationState(t.row))
  }

  /** After a settled resolution the next sync of the unchanged router reports in sync. */
  lemma SettledSyncs(t: Tracked, peers: map<RemoteId, RemotePeer>, mine: seq<RemoteEntry>)
    requires Settled(t, peers) && Lists(mine, t.row, peers)
    ensures var after := SyncResult(t, mine, peers.Keys);
            after.row.conflict.None? && after.row.sync == Synced && after.row.fingerprint == t.row.fingerprint
            && !Drifted(t.row, peers)
  {
    hide SyncResult;
    SyncAcceptsMatch(t, peers, mine);
    assert Answers(t.row.Link(), RemoteEntry(t.row.remoteId.value, peers[t.row.remoteId.value]));
  }

  /** The peer `id` passed the guard, and only it was changed, by `edit`. */
  ghost predicate EditedOne(row: Row, before: map<RemoteId, RemotePeer>, after: map<RemoteId, RemotePeer>, id: RemoteId,
                          edit: RemotePeer -> RemotePeer) {
    && id in before && PassesGuard(row.Link(), row.fingerprint, RemoteEntry(id, before[id]))
    && after == before[id := edit(before[id])]
  }

  /** The row with `p` as the peer last seen. */
  function Recorded(row: Row, p: RemotePeer): Row {
    row.(fingerprint := Some(p), lastRemote := Some(p))
  }

  function Lifted(row: Row, write: bool, clearConflict: bool): Row {
    row.(disabled := row.disabled && !write, conflict := if clearConflict then None else row.conflict)
  }

  function Rotated(peers: map<RemoteId, RemotePeer>, id: RemoteId, key: Key): map<RemoteId, RemotePeer>
    requires id in peers
  {
    peers[id := peers[id].(publicKey := key)]
  }

  lemma RotatedHolders(peers: map<RemoteId, RemotePeer>, id: RemoteId, key: Key)
    requires id in peers
    ensures Holders(peers, key) == {} ==> Holders(Rotated(peers, id, key), key) == {id}
  {
    assert forall x :: x in peers && Holders(peers, key) == {} ==> x !in Holders(peers, key);
  }

  /** What a failed rotation needs of the row to undo itself. */
  predicate RollsBack(row: Row, remote: RemoteEntry) {
    row.remoteId == Some(remote.id) && row.publicKey == remote.peer.publicKey
  }

  /** The router after the rollback: the row's key on the peer under the stored id, if there is one. */
  function RolledBack(peers: map<RemoteId, RemotePeer>, row: Row): map<RemoteId, RemotePeer> {
    if row.remoteId.Some? && row.remoteId.value in peers
    then Rotated(peers, row.remoteId.value, row.publicKey)
    else peers
  }

  lemma RollbackIsExact(peers: map<RemoteId, RemotePeer>, id: RemoteId, key: Key, row: Row)
    requires id in peers
    ensures RollsBack(row, RemoteEntry(id, peers[id])) ==> RolledBack(Rotated(peers, id, key), row) == peers
    ensures Holders(peers, key) == {} && key != row.publicKey ==>
              (RolledBack(Rotated(peers, id, key), row) == peers <==> RollsBack(row, RemoteEntry(id, peers[id])))
  {
    var after := RolledBack(Rotated(peers, id, key), row);
    if Holders(peers, key) == {} && key != row.publicKey && after == peers {
      assert id !in Holders(peers, key);
      assert after[id].publicKey == peers[id].publicKey != key;
    }
  }

  ghost predicate Only(peers: map<RemoteId, RemotePeer>, id: RemoteId, key: Key) {
    forall other :: other in peers && other != id ==> peers[other].publicKey != key
  }

  /** The checks of keep_router. */
  predicate MayAdopt(row: Row, remote: RemotePeer, adoptable: bool) {
    (row.ownsKey ==> remote.publicKey == row.publicKey) && remote.interfaceName == row.interfaceName && adoptable
  }

  lemma SoleAnswers(row: Row, peers: map<RemoteId, RemotePeer>)
    ensures forall id: RemoteId :: Sole(row, peers, id) ==> Answering(peers, row.Link()) == {id}
  {
    forall id: RemoteId | Sole(row, peers, id) ensures Answering(peers, row.Link()) == {id} {
      assert Answers(row.Link(), RemoteEntry(id, peers[id]));
    }
  }

  class PeerDrift {
    const router: RouterOsClient
    /** The order in which the database returns the keys of a stored state. */
    const keyOrder: seq<Field>
    var t: Tracked

    constructor (router: RouterOsClient, keyOrder: seq<Field>, t: Tracked)
      ensures this.router == router && this.keyOrder == keyOrder && this.t == t
    {
      this.router, this.keyOrder, this.t := router, keyOrder, t;
    }

    /** `find` over a fresh read: some peer that answers to the row, if any. */
    method ReadAnswering(row: Row) returns (found: Option<RemoteEntry>)
      modifies router`calls
      ensures router.calls > old(router.calls)
      ensures found.Some? ==>
                found.value.id in router.state.peers && router.state.peers[found.value.id] == found.value.peer
                && Answers(row.Link(), found.value)
      ensures old(router.Reliable()) && Answering(router.state.peers, row.Link()) != {} ==> found.Some?
    {
      var read := router.GetPeers();
      if read == None { return None; }
      var ids := Answering(read.value, row.Link());
      if ids == {} { return None; }
      var id :| id in ids;
      found := Some(RemoteEntry(id, read.value[id]));
    }

    /** Write the application's state, read it back, and record what was read. */
    method ApplyState(remote: RemoteEntry, state: State, stored: bool) returns (ok: bool)
      requires FreshIds(router.state) && remote.id in router.state.peers && router.state.peers[remote.id] == remote.peer
      requires t.drift.Some?
      modifies this, router
      ensures FreshIds(router.state)
      ensures !ok ==> t == old(t)
      ensures ok ==>
                && router.state.peers == old(router.state).peers[remote.id := Applied(remote.peer, state)]
                && t.drift == Some(old(t).drift.value.(resolved := true))
                && t.row.fingerprint.Some? && PeerState(t.row.fingerprint.value) == state
                && t.row.lastRemote == t.row.fingerprint
                && (exists id :: id in router.state.peers && t.row.fingerprint == Some(router.state.peers[id]))
                && (Only(old(router.state).peers, remote.id, state.publicKey) ==>
                      t.row.fingerprint.value == Applied(remote.peer, state))
                && t.row == old(t).row.(fingerprint := t.row.fingerprint, lastRemote := t.row.lastRemote,
                                        lastApplied := Some(state), conflict := None, sync := Synced)
      ensures old(router.Reliable()) && stored && keyOrder == FIELDS
                && Only(old(router.state).peers, remote.id, state.publicKey)
              ==> ok
    {
      ok := false;
      var written := router.UpdatePeer(remote.id, (p: RemotePeer) => Applied(p, state));
      if !written { return; }
      var read := router.GetPeers();
      if read == None { return; }
      var verified := set id | id in read.value && (id == remote.id || read.value[id].publicKey == state.publicKey);
      assert remote.id in verified;
      var id :| id in verified;
      var seen := read.value[id];
      SameStateIsExact(PeerState(seen), state, keyOrder);
      if !SameState(PeerState(seen), state, keyOrder) || !stored { return; }
      t := Tracked(t.row.(fingerprint := Some(seen), lastRemote := Some(seen), lastApplied := Some(state),
                          conflict := None, sync := Synced),
                   Some(t.drift.value.(resolved := true)));
      ok := true;
    }

    /** `resolvePeerDrift`. `adoptable` is what the interface, pool and allocation checks of keep_router answer;
        `stored` says whether the final update of the row succeeds. */
    method ResolvePeerDrift(resolution: Resolution, adoptable: bool, stored: bool) returns (ok: bool)
      requires FreshIds(router.state)
      modifies this, router
      ensures FreshIds(router.state)
      ensures !ok ==> t == old(t)
      ensures ok ==>
                keyOrder == FIELDS && old(t).drift.Some? && !old(t).drift.value.resolved
                && t.drift == Some(old(t).drift.value.(resolved := true))
      ensures Takes(World(old(t), old(router.state).peers), if ok then Resolved else FailedResolution,
                    World(t, router.state.peers))
      ensures resolution == KeepRouter || keyOrder != FIELDS ==> router.state == old(router.state)
      ensures ok && resolution == KeepRouter ==> old(t).row.ownsKey ==> t.row.publicKey == old(t).row.publicKey
      ensures forall id :: ok && OpenFor(old(t)) && Sole(old(t).row, old(router.state).peers, id) ==>
                Settled(t, router.state.peers)
      ensures old(router.Reliable()) && stored && keyOrder == FIELDS ==>
                var row, peers := old(t).row, old(router.state).peers;
                forall id :: Resolvable(old(t), peers, id) ==>
                  (ok <==>
                     || resolution == ApplyApplication
                     || (&& adoptable && peers[id].interfaceName == row.interfaceName
                         && (row.ownsKey ==> peers[id].publicKey == row.publicKey)))
    {
      ok := false;
      if t.drift.None? || t.drift.value.resolved { return; }
      ghost var peers, was := router.state.peers, t;
      SoleAnswers(t.row, peers);
      var found := ReadAnswering(t.row);
      if found.None? { return; }
      var remote := found.value;
      assert remote.id in Answering(peers, t.row.Link());
      SameStateIsExact(PeerState(remote.peer), t.drift.value.router, keyOrder);
      if !SameState(PeerState(remote.peer), t.drift.value.router, keyOrder) { return; }
      if resolution == ApplyApplication {
        ok := ApplyState(remote, t.drift.value.application, stored);
        return;
      }
      if !MayAdopt(t.row, remote.peer, adoptable) || !stored { return; }
      var p := remote.peer;
      t := Tracked(
        t.row.(publicKey := p.publicKey, allowedAddress := p.allowedAddress, comment := p.comment,
               persistentKeepalive := p.persistentKeepalive, disabled := p.disabled, fingerprint := Some(p),
               lastRemote := Some(p), lastApplied := Some(PeerState(p)), conflict := None, sync := Synced),
        Some(t.drift.value.(resolved := true)));
      ok := true;
    }

    /** The guard every mutation starts with: a drifted peer is refused here. */
    ghost predicate Current() reads this, router {
      GuardPasses(router.state.peers, t.row.Link(), t.row.fingerprint)
    }

    /** `setPeerEnabled`: the row records what the router shows after the write. */
    method SetEnabled(enabled: bool, stored: bool) returns (ok: bool)
      requires FreshIds(router.state)
      modifies this, router
      ensures FreshIds(router.state)
      ensures !old(Current()) ==> !ok && router.state == old(router.state) && t == old(t)
      ensures !ok ==> t == old(t)
      ensures ok ==> exists id :: && EditedOne(old(t).row, old(router.state).peers, router.state.peers, id,
                                             (p: RemotePeer) => p.(disabled := !enabled))
                                  && t == old(t).(row := old(t).row.(disabled := !enabled, conflict := None,
                                                                  fingerprint := Some(router.state.peers[id]),
                                                                  lastRemote := Some(router.state.peers[id])))
      ensures old(router.Reliable()) && stored
                && OnlyPasses(old(router.state).peers, old(t).row.Link(), old(t).row.fingerprint)
              ==> ok
    {
      ok := false;
      var found := AssertCurrentRemote(router, t.row.Link(), t.row.fingerprint);
      if found.None? { return; }
      var remote := found.value;
      assert Current();
      var written := router.UpdatePeer(remote.id, (p: RemotePeer) => p.(disabled := !enabled));
      if !written { return; }
      var read := router.GetPeers();
      if read == None || !stored { return; }
      assert read.value[remote.id] == remote.peer.(disabled := !enabled);
      t := t.(row := Recorded(t.row.(disabled := !enabled, conflict := None), read.value[remote.id]));
      ok := true;
    }

    /** The router side of `resetPeerQuotaUsage` and `temporarilyReenablePeer`: they record the peer as the guard read
        it, enabled if `write`, without reading it again; only the second clears a conflict. */
    method LiftBlock(write: bool, clearConflict: bool, stored: bool) returns (ok: bool)
      requires FreshIds(router.state)
      modifies this, router
      ensures FreshIds(router.state)
      ensures !old(Current()) ==> !ok && router.state == old(router.state) && t == old(t)
      ensures !ok ==> t == old(t)
      ensures ok ==> exists id :: && EditedOne(old(t).row, old(router.state).peers, router.state.peers, id,
                                             (p: RemotePeer) => if write then p.(disabled := false) else p)
                                  && t == old(t).(row := old(t).row.(disabled := old(t).row.disabled && !write,
                                                                  conflict := if clearConflict then None
                                                                              else old(t).row.conflict,
                                                                  fingerprint := Some(router.state.peers[id]),
                                                                  lastRemote := Some(router.state.peers[id])))
      ensures old(router.Reliable()) && stored
                && OnlyPasses(old(router.state).peers, old(t).row.Link(), old(t).row.fingerprint)
              ==> ok
    {
      ok := false;
      var found := AssertCurrentRemote(router, t.row.Link(), t.row.fingerprint);
      if found.None? { return; }
      var remote := found.value;
      assert Current();
      var observed := remote.peer;
      assert router.state.peers == router.state.peers[remote.id := remote.peer];
      if write {
        var written := router.UpdatePeer(remote.id, (p: RemotePeer) => p.(disabled := false));
        if !written { return; }
        observed := observed.(disabled := false);
      }
      if !stored { return; }
      assert router.state.peers[remote.id] == observed;
      t := t.(row := Recorded(Lifted(t.row, write, clearConflict), observed));
      ok := true;
    }

    /** Puts the row's key back on the peer under the stored id, if there is one. */
    method RollBackKey() returns (failed: bool)
      requires FreshIds(router.state)
      modifies router
      ensures FreshIds(router.state)
      ensures old(router.Reliable()) ==> !failed
      ensures !failed ==> router.state.peers == RolledBack(old(router.state).peers, t.row)
    {
      var current := router.GetPeers();
      if current == None { return true; }
      failed := false;
      if t.row.remoteId.Some? && t.row.remoteId.value in current.value {
        var key := t.row.publicKey;
        var undone := router.UpdatePeer(t.row.remoteId.value, (p: RemotePeer) => p.(publicKey := key));
        failed := !undone;
      }
    }

    /** Reads the rotated peer back, by id or by its new key, and stores what was found with the key. */
    method RecordRotation(id: RemoteId, key: Key, stored: bool) returns (ok: bool)
      requires id in router.state.peers
      modifies this, router`calls
      ensures router.calls > old(router.calls)
      ensures !ok ==> t == old(t)
      ensures ok ==> stored
      ensures ok && Holders(router.state.peers, key) == {id} ==>
                t == old(t).(row := old(t).row.(publicKey := key, conflict := None,
                                                fingerprint := Some(router.state.peers[id]),
                                                lastRemote := Some(router.state.peers[id])))
      ensures old(router.Reliable()) ==> ok == stored
    {
      var read := router.GetPeers();
      if read == None || !stored { return false; }
      var verified := set x | x in read.value && (x == id || read.value[x].publicKey == key);
      assert id in verified && forall x :: x in verified && x != id ==> x in Holders(read.value, key);
      var x :| x in verified;
      t := t.(row := Recorded(t.row.(publicKey := key, conflict := None), read.value[x]));
      ok := true;
    }

    /** `regeneratePeerKeys` with its rollback. If the row holds the current id and key of the peer, a rotation that was
        not stored leaves the router as it was, or reports that the rollback failed; if it does not, the new key stays
        on a router whose calls all work, and nothing is reported. */
    method RegenerateKeys(key: Key, stored: bool) returns (ok: bool, rollbackFailed: bool, remote: Option<RemoteEntry>)
      requires FreshIds(router.state)
      modifies this, router
      ensures FreshIds(router.state)
      ensures !old(Current()) ==> remote == None && router.state == old(router.state)
      ensures remote.None? ==> !ok && t == old(t)
      ensures remote.Some? ==> && remote.value.id in old(router.state).peers
                               && old(router.state).peers[remote.value.id] == remote.value.peer
                               && PassesGuard(old(t).row.Link(), old(t).row.fingerprint, remote.value)
      ensures !ok ==> t == old(t)
      ensures ok && Holders(old(router.state).peers, key) == {} ==>
                && router.state.peers == Rotated(old(router.state).peers, remote.value.id, key)
                && router.state.peers[remote.value.id].publicKey == key
                && t == old(t).(row := old(t).row.(publicKey := key, conflict := None,
                                                   fingerprint := Some(router.state.peers[remote.value.id]),
                                                   lastRemote := Some(router.state.peers[remote.value.id])))
      ensures old(router.Reliable())
                && OnlyPasses(old(router.state).peers, old(t).row.Link(), old(t).row.fingerprint)
              ==> ok == stored && remote.Some? && !rollbackFailed
      ensures !ok && !rollbackFailed && remote.Some? && RollsBack(old(t).row, remote.value) && router.CleanFailures()
              ==> router.state.peers == old(router.state).peers
      ensures old(router.Reliable()) && remote.Some? && !stored && Holders(old(router.state).peers, key) == {}
                && key != old(t).row.publicKey
              ==> (router.state.peers == old(router.state).peers <==> RollsBack(old(t).row, remote.value))
    {
      hide OnlyPasses, PassesGuard, Answers, RolledBack, RollsBack, Holders;
      ok, rollbackFailed := false, false;
      remote := AssertCurrentRemote(router, t.row.Link(), t.row.fingerprint);
      if remote.None? { return; }
      assert Current();
      var id := remote.value.id;
      ghost var peers := router.state.peers;
      RotatedHolders(peers, id, key);
      RollbackIsExact(peers, id, key, t.row);
      var mutated := router.UpdatePeer(id, (p: RemotePeer) => p.(publicKey := key));
      if !mutated { return; }
      ok := RecordRotation(id, key, stored);
      if ok { return; }
      rollbackFailed := RollBackKey();
    }
  }
}
