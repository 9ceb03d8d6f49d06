/** Drift between the router and the stored fingerprint: the peer branch of `src/server/sync.ts`, `classifyPeerSync` of
    `src/server/reconciliation.ts`, `fieldDifferences` of `src/server/operations.ts`. */
module Drift {
  import opened Wrappers
  import opened RouterModel

  // ---------------------------------------------------------------------------------------------
  // States and their differences

  datatype Field = InterfaceName | PublicKey | AllowedAddress | CommentText | PersistentKeepalive | DisabledFlag
  datatype Value = Text(text: string) | Number(number: nat) | Flag(flag: bool)

  datatype State = State(interfaceName: string, publicKey: Key, allowedAddress: string, comment: string,
                         persistentKeepalive: nat, disabled: bool)

  /** The order in which the object literals name the fields. */
  const FIELDS: seq<Field> := [InterfaceName, PublicKey, AllowedAddress, CommentText, PersistentKeepalive, DisabledFlag]

  function ValueOf(s: State, f: Field): Value {
    match f
    case InterfaceName => Text(s.interfaceName)
    case PublicKey => Text(s.publicKey)
    case AllowedAddress => Text(s.allowedAddress)
    case CommentText => Text(s.comment)
    case PersistentKeepalive => Number(s.persistentKeepalive)
    case DisabledFlag => Flag(s.disabled)
  }

  /** `routerPeerState` and `peerRouterState`. */
  function PeerState(r: RemotePeer): State {
    State(r.interfaceName, r.publicKey, r.allowedAddress, r.comment, r.persistentKeepalive, r.disabled)
  }

  lemma StatesDifferInAField(a: State, b: State)
    ensures a == b <==> forall f: Field :: ValueOf(a, f) == ValueOf(b, f)
  {
    if a != b {
      assert ValueOf(a, InterfaceName) != ValueOf(b, InterfaceName) || ValueOf(a, PublicKey) != ValueOf(b, PublicKey)
        || ValueOf(a, AllowedAddress) != ValueOf(b, AllowedAddress)
        || ValueOf(a, CommentText) != ValueOf(b, CommentText)
        || ValueOf(a, PersistentKeepalive) != ValueOf(b, PersistentKeepalive)
        || ValueOf(a, DisabledFlag) != ValueOf(b, DisabledFlag);
    }
  }

  datatype Difference = Difference(field: Field, application: Value, synchronized: Option<Value>, router: Value,
                                   applicationChanged: bool, routerChanged: bool)

  function BaseValue(base: Option<State>, f: Field): Option<Value> {
    if base.Some? then Some(ValueOf(base.value, f)) else None
  }

  function DifferenceAt(application: State, base: Option<State>, router: State, f: Field): Difference {
    Difference(f, ValueOf(application, f), BaseValue(base, f), ValueOf(router, f),
               Some(ValueOf(application, f)) != BaseValue(base, f), Some(ValueOf(router, f)) != BaseValue(base, f))
  }

  /** `fieldDifferences` over `fields`. */
  function Differences(application: State, base: Option<State>, router: State, fields: seq<Field>): seq<Difference>
    decreases |fields|
  {
    if fields == [] then []
    else (if ValueOf(application, fields[0]) == ValueOf(router, fields[0]) then []
          else [DifferenceAt(application, base, router, fields[0])])
         + Differences(application, base, router, fields[1..])
  }

  lemma {:induction false} DifferencesAreExact(application: State, base: Option<State>, router: State,
                                               fields: seq<Field>)
    ensures forall d :: d in Differences(application, base, router, fields) <==>
                        d.field in fields && ValueOf(application, d.field) != ValueOf(router, d.field)
                        && d == DifferenceAt(application, base, router, d.field)
    decreases |fields|
  {
    if fields != [] {
      DifferencesAreExact(application, base, router, fields[1..]);
      assert forall f :: f in fields <==> f == fields[0] || f in fields[1..];
    }
  }

  predicate SameFieldConflict(differences: seq<Difference>) {
    exists i :: 0 <= i < |differences| && differences[i].applicationChanged && differences[i].routerChanged
  }

  predicate BothChanged(application: State, base: Option<State>, router: State, f: Field) {
    ValueOf(application, f) != ValueOf(router, f) && Some(ValueOf(application, f)) != BaseValue(base, f)
    && Some(ValueOf(router, f)) != BaseValue(base, f)
  }

  lemma EveryFieldIsListed()
    ensures forall f: Field :: f in FIELDS
  {
    forall f: Field ensures f in FIELDS {
      match f
      case InterfaceName => assert FIELDS[0] == f;
      case PublicKey => assert FIELDS[1] == f;
      case AllowedAddress => assert FIELDS[2] == f;
      case CommentText => assert FIELDS[3] == f;
      case PersistentKeepalive => assert FIELDS[4] == f;
      case DisabledFlag => assert FIELDS[5] == f;
    }
  }

  /** Three-way comparison: a conflict is a field that both sides changed, to different values. */
  lemma ConflictIsThreeWay(application: State, base: Option<State>, router: State)
    ensures SameFieldConflict(Differences(application, base, router, FIELDS)) <==>
              exists f: Field :: BothChanged(application, base, router, f)
    ensures Differences(application, base, router, FIELDS) == [] <==> application == router
  {
    hide Differences, ValueOf, BaseValue;
    var ds := Differences(application, base, router, FIELDS);
    DifferencesAreExact(application, base, router, FIELDS);
    StatesDifferInAField(application, router);
    EveryFieldIsListed();
    if f: Field :| BothChanged(application, base, router, f) {
      assert DifferenceAt(application, base, router, f) in ds;
    }
    if f: Field :| ValueOf(application, f) != ValueOf(router, f) {
      assert DifferenceAt(application, base, router, f) in ds;
    }
    if i :| 0 <= i < |ds| && ds[i].applicationChanged && ds[i].routerChanged {
      assert ds[i] in ds;
      assert BothChanged(application, base, router, ds[i].field);
    }
    if ds != [] { assert ds[0] in ds; }
  }

  // ---------------------------------------------------------------------------------------------
  // One peer

  datatype ConflictType = ModifiedExternally | DisabledExternally | DeletedExternally | DbOnly
  datatype SyncState = Synced | ChangedExternally | Conflicting

  /** The columns a sync reads or writes; the name is that of the interface the row refers to. */
  datatype Row = Row(
    remoteId: Option<RemoteId>, publicKey: Key, interfaceName: string, allowedAddress: string, comment: string,
    persistentKeepalive: nat, disabled: bool,
    fingerprint: Option<RemotePeer>, lastApplied: Option<State>, lastRemote: Option<RemotePeer>,
    conflict: Option<ConflictType>, sync: SyncState,
    ownsKey: bool) {
    function Link(): PeerLink {
      PeerLink(remoteId, publicKey)
    }
  }

  /** A row of `configuration_drifts`. */
  datatype DriftRecord = DriftRecord(state: SyncState, application: State, synchronized: Option<State>, router: State,
                                     resolved: bool)

  datatype Tracked = Tracked(row: Row, drift: Option<DriftRecord>)

  function ApplicationState(row: Row): State {
    State(row.interfaceName, row.publicKey, row.allowedAddress, row.comment, row.persistentKeepalive, row.disabled)
  }

  function SynchronizedState(row: Row): Option<State> {
    if row.lastApplied.Some? then row.lastApplied
    else if row.lastRemote.Some? then Some(PeerState(row.lastRemote.value)) else None
  }

  datatype Classification = InSync | RouterOnly | Missing(type_: ConflictType) | Changed(type_: ConflictType)

  /** `classifyPeerSync`. */
  function Classify(local: Option<Row>, remote: Option<RemotePeer>): Classification {
    if local.None? && remote.Some? then RouterOnly
    else if local.Some? && remote.None? then Missing(if local.value.remoteId.Some? then DeletedExternally else DbOnly)
    else if local.None? || remote.None? then Missing(DbOnly)
    else if local.value.fingerprint.None? || local.value.fingerprint == remote then InSync
    else Changed(if local.value.disabled != remote.value.disabled then DisabledExternally else ModifiedExternally)
  }

  /** One update of the first loop; `was` is the row as read before the loop. */
  function Seen(t: Tracked, was: Row, remote: RemoteEntry): Tracked {
    var verdict := Classify(Some(was), Some(remote.peer));
    var application, base, router := ApplicationState(was), SynchronizedState(was), PeerState(remote.peer);
    var state := if !verdict.Changed? then Synced
                 else if SameFieldConflict(Differences(application, base, router, FIELDS)) then Conflicting
                 else ChangedExternally;
    Tracked(
      t.row.(remoteId := Some(remote.id), lastRemote := Some(remote.peer), sync := state,
             conflict := if verdict.Changed? then Some(verdict.type_) else None,
             fingerprint := if verdict.Changed? then t.row.fingerprint else Some(remote.peer),
             lastApplied := if verdict.Changed? then t.row.lastApplied else Some(router)),
      if verdict.Changed? then Some(DriftRecord(state, application, base, router, false))
      else if t.drift.Some? then Some(t.drift.value.(resolved := true)) else None)
  }

  /** Whether the router still shows what was stored decides everything: a match is recorded as synchronized and
      closes an open drift; a difference keeps the fingerprint and the last applied state, says whether the peer was
      switched off or on or changed otherwise, and is a conflict exactly when both sides changed one field to
      different values. */
  lemma SeenDecides(t: Tracked, was: Row, remote: RemoteEntry)
    ensures var after, router := Seen(t, was, remote), PeerState(remote.peer);
            && after.row.remoteId == Some(remote.id) && after.row.lastRemote == Some(remote.peer)
            && after.row.(remoteId := None, lastRemote := None, sync := Synced, conflict := None, fingerprint := None,
                          lastApplied := None)
               == t.row.(remoteId := None, lastRemote := None, sync := Synced, conflict := None, fingerprint := None,
                         lastApplied := None)
            && if was.fingerprint in {None, Some(remote.peer)} then
                 && after.row.sync == Synced && after.row.conflict == None
                 && after.row.fingerprint == Some(remote.peer) && after.row.lastApplied == Some(router)
                 && after.drift == (if t.drift.Some? then Some(t.drift.value.(resolved := true)) else None)
               else
                 && (after.row.sync == Conflicting <==>
                       exists f: Field :: BothChanged(ApplicationState(was), SynchronizedState(was), router, f))
                 && after.row.sync in {Conflicting, ChangedExternally}
                 && (after.row.conflict == Some(DisabledExternally) <==> was.disabled != remote.peer.disabled)
                 && after.row.conflict in {Some(DisabledExternally), Some(ModifiedExternally)}
                 && after.row.fingerprint == t.row.fingerprint && after.row.lastApplied == t.row.lastApplied
                 && after.drift
                      == Some(DriftRecord(after.row.sync, ApplicationState(was), SynchronizedState(was), router,
                                                    false))
  {
    ConflictIsThreeWay(ApplicationState(was), SynchronizedState(was), PeerState(remote.peer));
    hide Differences, SameFieldConflict, BothChanged;
  }

  function SeenAll(t: Tracked, was: Row, mine: seq<RemoteEntry>): Tracked {
    if mine == [] then t else Seen(SeenAll(t, was, mine[..|mine| - 1]), was, mine[|mine| - 1])
  }

  /** The second loop: rows whose remote id was not listed. */
  function MissingMarked(t: Tracked, was: Row, listed: set<RemoteId>): Tracked {
    if was.remoteId.Some? && was.remoteId.value !in listed
    then t.(row := t.row.(conflict := Some(DeletedExternally), sync := ChangedExternally))
    else if was.remoteId.None? then t.(row := t.row.(conflict := Some(DbOnly), sync := ChangedExternally))
    else t
  }

  /** Only a row whose peer was not listed, or which never had one, is marked; a peer that had an id was deleted. */
  lemma MissingDecides(t: Tracked, was: Row, listed: set<RemoteId>)
    ensures var after := MissingMarked(t, was, listed);
            && after.drift == t.drift
            && after.row.(conflict := None, sync := Synced) == t.row.(conflict := None, sync := Synced)
            && (was.remoteId.Some? && was.remoteId.value in listed ==> after == t)
            && (was.remoteId.None? || was.remoteId.value !in listed ==>
                  after.row.sync == ChangedExternally
                  && (after.row.conflict == Some(DbOnly) <==> was.remoteId.None?)
                  && (after.row.conflict == Some(DeletedExternally) <==> was.remoteId.Some?))
  {
  }

  /** What one sync makes of a row; `mine` are the listed peers attributed to it. */
  function SyncResult(t: Tracked, mine: seq<RemoteEntry>, listed: set<RemoteId>): Tracked {
    MissingMarked(SeenAll(t, t.row, mine), t.row, listed)
  }

  /** No remote peer that answers to the row shows the stored fingerprint. */
  ghost predicate Drifted(row: Row, peers: map<RemoteId, RemotePeer>) {
    row.fingerprint.Some?
    && forall id :: id in peers && Answers(row.Link(), RemoteEntry(id, peers[id])) ==>
         peers[id] != row.fingerprint.value
  }

  /** `mine` lists the remote peers that answer to the row. */
  ghost predicate Lists(mine: seq<RemoteEntry>, row: Row, peers: map<RemoteId, RemotePeer>) {
    && (forall i :: 0 <= i < |mine| ==>
          mine[i].id in peers && peers[mine[i].id] == mine[i].peer && Answers(row.Link(), mine[i]))
    && (forall id :: id in peers && Answers(row.Link(), RemoteEntry(id, peers[id])) ==>
          RemoteEntry(id, peers[id]) in mine)
  }

  ghost predicate Reported(t: Tracked) {
    t.row.conflict.Some? && t.row.sync != Synced
  }

  lemma {:induction false} SeenKeepsFingerprint(t: Tracked, was: Row, mine: seq<RemoteEntry>)
    requires was.fingerprint.Some? && t.row == was
    requires forall i :: 0 <= i < |mine| ==> Some(mine[i].peer) != was.fingerprint
    ensures var after := SeenAll(t, was, mine);
            && after.row == was.(remoteId := after.row.remoteId, lastRemote := after.row.lastRemote,
                                 sync := after.row.sync, conflict := after.row.conflict)
            && (mine != [] ==>
                  Reported(after) && after.row.remoteId == Some(mine[|mine| - 1].id) && after.drift.Some?
                  && !after.drift.value.resolved
                               && after.drift.value.router == PeerState(mine[|mine| - 1].peer)
                               && after.drift.value.application == ApplicationState(was))
            && (mine == [] ==> after == t)
    decreases |mine|
  {
    hide Differences, SameFieldConflict;
    if mine != [] { SeenKeepsFingerprint(t, was, mine[..|mine| - 1]); }
  }

  function SynchronizedBase(row: Row): Option<State> {
    row.lastApplied
  }

  /** A sync of a drifted peer reports it and absorbs nothing: the fingerprint and the application's columns stay. */
  lemma SyncReportsDrift(t: Tracked, peers: map<RemoteId, RemotePeer>, mine: seq<RemoteEntry>)
    requires Drifted(t.row, peers) && Lists(mine, t.row, peers)
    ensures var after := SyncResult(t, mine, peers.Keys);
            && Reported(after) && after.row.fingerprint == t.row.fingerprint && Drifted(after.row, peers)
            && ApplicationState(after.row) == ApplicationState(t.row)
            && SynchronizedBase(after.row) == SynchronizedBase(t.row)
            && (mine != [] ==>
                  after.drift.Some? && !after.drift.value.resolved
                  && after.drift.value.router == PeerState(mine[|mine| - 1].peer))
  {
    hide Differences, SameFieldConflict;
    SeenKeepsFingerprint(t, t.row, mine);
    var after := SyncResult(t, mine, peers.Keys);
    if mine == [] {
      assert forall id :: id in peers && t.row.remoteId == Some(id) ==>
               Answers(t.row.Link(), RemoteEntry(id, peers[id]));
    } else {
      var last := mine[|mine| - 1];
      assert peers[last.id] == last.peer;
    }
  }

  lemma {:induction false} SeenMatches(t: Tracked, was: Row, mine: seq<RemoteEntry>)
    requires was.fingerprint.Some? && t.row == was
             && forall i :: 0 <= i < |mine| ==> Some(mine[i].peer) == was.fingerprint
    ensures var after := SeenAll(t, was, mine);
            && after.row.fingerprint == was.fingerprint
            && (mine != [] ==>
                  after.row.conflict.None? && after.row.sync == Synced
                  && (after.drift.Some? ==> after.drift.value.resolved))
    decreases |mine|
  {
    hide Differences, SameFieldConflict;
    if mine != [] { SeenMatches(t, was, mine[..|mine| - 1]); }
  }

  /** A sync of a peer that shows its fingerprint, under the stored id, leaves the row in sync and closes its drift. */
  lemma SyncAcceptsMatch(t: Tracked, peers: map<RemoteId, RemotePeer>, mine: seq<RemoteEntry>)
    requires t.row.fingerprint.Some? && t.row.remoteId.Some? && t.row.remoteId.value in peers
    requires forall id :: id in peers && Answers(t.row.Link(), RemoteEntry(id, peers[id])) ==>
               peers[id] == t.row.fingerprint.value
    requires Lists(mine, t.row, peers)
    ensures var after := SyncResult(t, mine, peers.Keys);
            && after.row.conflict.None? && after.row.sync == Synced && after.row.fingerprint == t.row.fingerprint
            && (after.drift.Some? ==> after.drift.value.resolved)
  {
    hide Differences, SameFieldConflict;
    var id := t.row.remoteId.value;
    assert Answers(t.row.Link(), RemoteEntry(id, peers[id]));
    assert mine != [];
    SeenMatches(t, t.row, mine);
  }

  // ---------------------------------------------------------------------------------------------
  // Runs

  /** One peer and the router, between two steps. */
  datatype World = World(t: Tracked, peers: map<RemoteId, RemotePeer>)

  datatype Step = External | Sync(mine: seq<RemoteEntry>) | GuardedMutation | FailedResolution | Resolved

  /** What a step may do. Somebody else may do anything to the router; a guarded mutation may do anything once the guard
      passed; a failed resolution may have written to the router but not to the row; a successful one records a peer the
      router holds. */
  ghost predicate Takes(a: World, s: Step, b: World) {
    match s
    case External => b.t == a.t
    case Sync(mine) => b.peers == a.peers && Lists(mine, a.t.row, a.peers) && b.t == SyncResult(a.t, mine, a.peers.Keys)
    case GuardedMutation => GuardPasses(a.peers, a.t.row.Link(), a.t.row.fingerprint) || b == a
    case FailedResolution => b.t == a.t
    case Resolved => exists id :: id in b.peers && b.t.row.fingerprint == Some(b.peers[id])
  }

  ghost predicate IsRun(worlds: seq<World>, steps: seq<Step>) {
    |worlds| == |steps| + 1 && forall i :: 0 <= i < |steps| ==> Takes(worlds[i], steps[i], worlds[i + 1])
  }

  /** The router never comes back to the stored fingerprint by somebody else's hand. */
  ghost predicate NeverReverts(worlds: seq<World>, steps: seq<Step>)
    requires |worlds| == |steps| + 1
  {
    forall i :: 0 <= i < |steps| && (steps[i].External? || steps[i].FailedResolution?) ==>
      Drifted(worlds[i + 1].t.row, worlds[i + 1].peers)
  }

  predicate Unresolved(steps: seq<Step>, n: nat)
    requires n <= |steps|
  {
    forall i :: 0 <= i < n ==> !steps[i].Resolved?
  }

  lemma DriftBlocksGuard(row: Row, peers: map<RemoteId, RemotePeer>)
    requires Drifted(row, peers)
    ensures !GuardPasses(peers, row.Link(), row.fingerprint)
  {
  }

  lemma StepAbsorbsNothing(a: World, s: Step, b: World)
    requires Takes(a, s, b) && Drifted(a.t.row, a.peers) && !s.Resolved?
    requires s.External? || s.FailedResolution? ==> Drifted(b.t.row, b.peers)
    ensures Drifted(b.t.row, b.peers) && b.t.row.fingerprint == a.t.row.fingerprint
            && ApplicationState(b.t.row) == ApplicationState(a.t.row)
    ensures s.Sync? ==> Reported(b.t)
    ensures s.GuardedMutation? ==> b == a
  {
    DriftBlocksGuard(a.t.row, a.peers);
    if s.Sync? { SyncReportsDrift(a.t, a.peers, s.mine); }
    hide Drifted, SyncResult, ApplicationState, Reported, GuardPasses, Lists;
  }

  /** An external edit is never silently absorbed: until the router reverts or a resolution succeeds, the fingerprint
      and the application's columns stay, every sync reports, and every guarded mutation is refused without effect. */
  lemma {:induction false} DriftIsNeverAbsorbed(worlds: seq<World>, steps: seq<Step>, n: nat)
    requires IsRun(worlds, steps) && NeverReverts(worlds, steps) && n <= |steps|
    requires Drifted(worlds[0].t.row, worlds[0].peers) && Unresolved(steps, n)
    ensures Drifted(worlds[n].t.row, worlds[n].peers)
    ensures worlds[n].t.row.fingerprint == worlds[0].t.row.fingerprint
            && ApplicationState(worlds[n].t.row) == ApplicationState(worlds[0].t.row)
    ensures n > 0 && steps[n - 1].Sync? ==> Reported(worlds[n].t)
    ensures n > 0 && steps[n - 1].GuardedMutation? ==> worlds[n] == worlds[n - 1]
    decreases n
  {
    hide Drifted, Takes, Reported;
    if n > 0 {
      DriftIsNeverAbsorbed(worlds, steps, n - 1);
      StepAbsorbsNothing(worlds[n - 1], steps[n - 1], worlds[n]);
    }
  }
}
