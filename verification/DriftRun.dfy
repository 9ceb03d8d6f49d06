/** Whole runs over one tracked peer: the operations of `DriftService` and `DriftResolution` and whatever somebody else
    does to the router, in any order. */
module DriftRun {
  import opened Wrappers
  import opened RouterModel
  import opened Drift
  import opened DriftService
  import opened DriftResolution

  datatype Command =
    | Outside(peers: map<RemoteId, RemotePeer>)
    | Synchronise
    | Enable(enabled: bool, stored: bool)
    | Lift(write: bool, clearConflict: bool, stored: bool)
    | Rotate(key: Key, stored: bool)
    | Resolve(resolution: Resolution, adoptable: bool, stored: bool)

  /** The remote peers in some order. */
  method ListPeers(peers: map<RemoteId, RemotePeer>) returns (listing: seq<RemoteEntry>)
    ensures ListsRouter(listing, peers)
  {
    listing := [];
    var rest := peers.Keys;
    while rest != {}
      invariant rest <= peers.Keys
      invariant forall i :: 0 <= i < |listing| ==> listing[i].id in peers && peers[listing[i].id] == listing[i].peer
      invariant forall id :: id in peers && id !in rest ==> RemoteEntry(id, peers[id]) in listing
      decreases |rest|
    {
      var id :| id in rest;
      listing, rest := listing + [RemoteEntry(id, peers[id])], rest - {id};
    }
  }

  function Now(peer: PeerDrift): World reads peer, peer.router {
    World(peer.t, peer.router.state.peers)
  }

  lemma SynchronisedIsResult(rows: map<PeerId, Tracked>, p: PeerId, listing: seq<RemoteEntry>, known: set<string>)
    requires p in rows
    ensures Synchronised([p], rows, p, listing, known)
              == SyncResult(rows[p], Attributed([p], rows, p, listing, known), Ids(listing))
  {
  }

  /** A sync of the row, by the loops of `syncRouter`. */
  method SyncOne(peer: PeerDrift, p: PeerId) returns (ghost mine: Option<seq<RemoteEntry>>)
    modifies peer, peer.router`calls
    ensures if mine.None? then peer.t == old(peer.t) else Takes(old(Now(peer)), Sync(mine.value), Now(peer))
  {
    hide SyncResult, Attributed, FindRow, Synchronised, Answers;
    mine := None;
    var read := peer.router.GetPeers();
    if read == None { return; }
    var listing := ListPeers(read.value);
    var known := set i | 0 <= i < |listing| :: listing[i].peer.interfaceName;
    assert forall e :: e in listing ==> e.peer.interfaceName in known;
    var service := new SyncService(map[p := peer.t]);
    ghost var rows := service.rows;
    var partial := service.SyncPeers([p], listing, known);
    AttributionIsComplete([p], rows, p, listing, known, read.value);
    mine := Some(Attributed([p], rows, p, listing, known));
    SynchronisedIsResult(rows, p, listing, known);
    peer.t := service.rows[p];
  }

  /** Somebody else replaces what the router holds. */
  method Disturb(router: RouterOsClient, peers: map<RemoteId, RemotePeer>)
    requires FreshIds(router.state)
    modifies router
    ensures FreshIds(router.state)
  {
    if forall id :: id in peers ==> id < router.state.nextPeer { router.state := router.state.(peers := peers); }
  }

  lemma GuardedTakes(a: World, b: World)
    requires GuardPasses(a.peers, a.t.row.Link(), a.t.row.fingerprint) || b == a
    ensures Takes(a, GuardedMutation, b)
  {
  }

  lemma OutsideTakes(a: World, b: World)
    requires b.t == a.t
    ensures Takes(a, External, b)
  {
  }

  /** Executes any sequence of commands and records every state between two of them. What the operations do are steps of
      the relation `DriftIsNeverAbsorbed` is about; so a drift that neither the router nor a resolution ended is intact
      at the end. */
  method Run(peer: PeerDrift, p: PeerId, commands: seq<Command>)
      returns (ghost worlds: seq<World>, ghost steps: seq<Step>)
    requires FreshIds(peer.router.state)
    modifies peer, peer.router
    ensures FreshIds(peer.router.state) && IsRun(worlds, steps)
    ensures worlds[0] == old(Now(peer)) && worlds[|steps|] == Now(peer)
    ensures Drifted(old(peer.t).row, old(peer.router.state).peers) && NeverReverts(worlds, steps)
            && Unresolved(steps, |steps|) ==>
              Drifted(peer.t.row, peer.router.state.peers) && peer.t.row.fingerprint == old(peer.t).row.fingerprint
              && ApplicationState(peer.t.row) == ApplicationState(old(peer.t).row)
  {
    hide Takes, Drifted, ApplicationState;
    worlds, steps := [Now(peer)], [];
    for i := 0 to |commands|
      invariant FreshIds(peer.router.state) && IsRun(worlds, steps)
      invariant worlds[0] == old(Now(peer)) && worlds[|steps|] == Now(peer)
    {
      ghost var before := Now(peer);
      match commands[i] {
        case Outside(peers) =>
          Disturb(peer.router, peers);
          OutsideTakes(before, Now(peer));
          worlds, steps := worlds + [Now(peer)], steps + [External];
        case Synchronise =>
          ghost var mine := SyncOne(peer, p);
          if mine.Some? { worlds, steps := worlds + [Now(peer)], steps + [Sync(mine.value)]; }
        case Enable(enabled, stored) =>
          var ok := peer.SetEnabled(enabled, stored);
          GuardedTakes(before, Now(peer));
          worlds, steps := worlds + [Now(peer)], steps + [GuardedMutation];
        case Lift(write, clearConflict, stored) =>
          var ok := peer.LiftBlock(write, clearConflict, stored);
          GuardedTakes(before, Now(peer));
          worlds, steps := worlds + [Now(peer)], steps + [GuardedMutation];
        case Rotate(key, stored) =>
          var ok, rollbackFailed, remote := peer.RegenerateKeys(key, stored);
          GuardedTakes(before, Now(peer));
          worlds, steps := worlds + [Now(peer)], steps + [GuardedMutation];
        case Resolve(resolution, adoptable, stored) =>
          var ok := peer.ResolvePeerDrift(resolution, adoptable, stored);
          worlds, steps := worlds + [Now(peer)], steps + [if ok then Resolved else FailedResolution];
      }
    }
    if Drifted(worlds[0].t.row, worlds[0].peers) && NeverReverts(worlds, steps) && Unresolved(steps, |steps|) {
      DriftIsNeverAbsorbed(worlds, steps, |steps|);
    }
  }
}
