/** Policy inheritance: `getEffectivePeerBandwidth` of `src/server/bandwidth-service.ts` and `updateGlobalBandwidth` of
    `src/server/policy-service.ts`. */
module BandwidthPolicy {
  import opened Wrappers
  import opened RouterModel
  import Bandwidth

  type ProfileId = nat
  type RouterId = nat

  datatype PeerMode = Default | Unlimited | Custom | Profile

  /** The policy columns of a peer; `ownProfile` is `bandwidth_profile_id`, `groupProfile` that of its peer profile. */
  datatype PeerPolicy = PeerPolicy(router: RouterId, mode: PeerMode, ownProfile: Option<ProfileId>,
                                   groupProfile: Option<ProfileId>, values: Bandwidth.Policy)

  datatype ProfileRow = ProfileRow(enabled: bool, values: Bandwidth.Policy)

  datatype RouterDefault = GlobalDefault | UnlimitedDefault | CustomDefault(download: Option<nat>, upload: Option<nat>)

  /** The setting `bandwidth_defaults`; `custom` is its mode. */
  datatype Global = Global(custom: bool, download: Option<nat>, upload: Option<nat>)

  datatype Policies = Policies(
    peers: map<PeerId, PeerPolicy>, profiles: map<ProfileId, ProfileRow>, routers: map<RouterId, RouterDefault>,
    global: Option<Global>)

  const NO_LIMIT: Bandwidth.Policy := Bandwidth.Policy(None, None, None, None, None, None, None)

  function Rates(download: Option<nat>, upload: Option<nat>): Bandwidth.Policy {
    NO_LIMIT.(download := download, upload := upload)
  }

  /** The foreign key of `peers.router_id`. */
  predicate RoutersExist(db: Policies) {
    forall id :: id in db.peers ==> db.peers[id].router in db.routers
  }

  predicate Limits(download: Option<nat>, upload: Option<nat>) {
    Bandwidth.Positive(download) && Bandwidth.Positive(upload)
  }

  function GlobalRates(global: Option<Global>): Bandwidth.Policy {
    if global.Some? && global.value.custom && Limits(global.value.download, global.value.upload)
    then Rates(global.value.download, global.value.upload) else NO_LIMIT
  }

  /** The profile id the peer refers to. */
  function ReferredProfile(peer: PeerPolicy): Option<ProfileId> {
    if peer.mode == Profile then peer.ownProfile
    else if peer.ownProfile.Some? then peer.ownProfile else peer.groupProfile
  }

  predicate HasEnabledProfile(db: Policies, peer: PeerPolicy) {
    var id := ReferredProfile(peer);
    id.Some? && id.value in db.profiles && db.profiles[id.value].enabled
  }

  /** `getEffectivePeerBandwidth`. */
  function Effective(db: Policies, id: PeerId): Bandwidth.Policy
    requires RoutersExist(db) && id in db.peers
  {
    var peer := db.peers[id];
    if peer.mode == Unlimited then NO_LIMIT
    else if peer.mode == Custom then peer.values
    else if HasEnabledProfile(db, peer) then
      var profile := db.profiles[ReferredProfile(peer).value];
      if Limits(profile.values.download, profile.values.upload) then profile.values else NO_LIMIT
    else match db.routers[peer.router]
      case UnlimitedDefault => NO_LIMIT
      case CustomDefault(download, upload) => Rates(download, upload)
      case GlobalDefault => GlobalRates(db.global)
  }

  /** What a profile grants: its values, or no limit at all if one of its rates is missing. */
  predicate Grants(db: Policies, id: ProfileId, policy: Bandwidth.Policy)
    requires id in db.profiles
  {
    var values := db.profiles[id].values;
    policy == if Limits(values.download, values.upload) then values else NO_LIMIT
  }

  predicate IsEnabled(db: Policies, id: Option<ProfileId>) {
    id.Some? && id.value in db.profiles && db.profiles[id.value].enabled
  }

  /** Who decides: the peer's own mode; then its own profile, if enabled; then, only if it has none and is in default
      mode, that of its group; then its router, whose custom rates hold even if one is missing; then the global
      setting, which needs both rates. A profile that is disabled passes on to the router, never to the other
      profile. */
  lemma PolicyLayers(db: Policies, id: PeerId)
    requires RoutersExist(db) && id in db.peers
    ensures var peer, policy, router := db.peers[id], Effective(db, id), db.routers[db.peers[id].router];
            if peer.mode == Unlimited then policy == NO_LIMIT
            else if peer.mode == Custom then policy == peer.values
            else if IsEnabled(db, peer.ownProfile) then Grants(db, peer.ownProfile.value, policy)
            else if peer.mode == Default && peer.ownProfile == None && IsEnabled(db, peer.groupProfile)
            then Grants(db, peer.groupProfile.value, policy)
            else
              && (router.UnlimitedDefault? ==> policy == NO_LIMIT)
              && (router.CustomDefault? ==> policy == NO_LIMIT.(download := router.download, upload := router.upload))
              && (router.GlobalDefault? ==>
                    var g := db.global;
                    if g.Some? && g.value.custom && Limits(g.value.download, g.value.upload)
                    then policy == NO_LIMIT.(download := g.value.download, upload := g.value.upload)
                    else policy == NO_LIMIT)
  {
  }

  /** The peer's policy comes from the global setting. */
  predicate FallsToGlobal(db: Policies, id: PeerId)
    requires RoutersExist(db) && id in db.peers
  {
    var peer := db.peers[id];
    (peer.mode == Default || peer.mode == Profile) && !HasEnabledProfile(db, peer)
    && db.routers[peer.router].GlobalDefault?
  }

  /** The `WHERE` clause that selects the inheriting peers. */
  predicate Inherits(db: Policies, id: PeerId)
    requires RoutersExist(db) && id in db.peers
  {
    var peer := db.peers[id];
    peer.mode == Default && peer.ownProfile.None? && peer.groupProfile.None? && db.routers[peer.router].GlobalDefault?
  }

  /** The peer falls to the global setting although it names a profile, or should: the profile is disabled or gone. */
  predicate Stranded(db: Policies, id: PeerId)
    requires RoutersExist(db) && id in db.peers
  {
    FallsToGlobal(db, id) && !Inherits(db, id)
  }

  lemma StrandedMeans(db: Policies, id: PeerId)
    requires RoutersExist(db) && id in db.peers
    ensures Inherits(db, id) ==> FallsToGlobal(db, id)
    ensures Stranded(db, id) ==>
              var referred := ReferredProfile(db.peers[id]);
              if referred.Some? then referred.value !in db.profiles || !db.profiles[referred.value].enabled
              else db.peers[id].mode == Profile
  {
  }

  // ---------------------------------------------------------------------------------------------
  // Changing the global setting

  datatype GlobalInput = GlobalInput(custom: bool, download: Option<nat>, upload: Option<nat>, applyExisting: bool,
                                     expectedPeerCount: Option<nat>)

  datatype UpdateResult = Refused | Unchanged(affected: nat) | Changed(affected: nat, retained: nat)

  function Next(input: GlobalInput): Global {
    Global(input.custom, if input.custom then input.download else None, if input.custom then input.upload else None)
  }

  function InheritingPeers(db: Policies): set<PeerId>
    requires RoutersExist(db)
  {
    set id | id in db.peers && Inherits(db, id)
  }

  /** The row a pinned peer gets, from the setting before the change. */
  function Pinned(peer: PeerPolicy, current: Global): PeerPolicy {
    if current.custom && Limits(current.download, current.upload)
    then peer.(mode := Custom, ownProfile := None, values := Rates(current.download, current.upload))
    else peer.(mode := Unlimited, ownProfile := None, values := NO_LIMIT)
  }

  function Current(db: Policies): Global {
    if db.global.Some? then db.global.value else Global(false, None, None)
  }

  /** The relation `UpdateGlobal` establishes with `applyExisting` off. */
  ghost predicate NewUsersOnly(a: Policies, next: Global, b: Policies)
    requires RoutersExist(a)
  {
    && b.profiles == a.profiles && b.routers == a.routers && b.peers.Keys == a.peers.Keys && b.global == Some(next)
    && forall id :: id in a.peers ==>
         b.peers[id] == if Inherits(a, id) then Pinned(a.peers[id], Current(a)) else a.peers[id]
  }

  class PolicyService {
    var db: Policies

    constructor (db: Policies)
      requires RoutersExist(db)
      ensures this.db == db
    {
      this.db := db;
    }

    /** The transaction of `updateGlobalBandwidth`. Refusals change nothing; otherwise the setting is replaced, and
        unless existing peers shall follow, those that inherited it are pinned first. */
    method UpdateGlobal(input: GlobalInput) returns (result: UpdateResult)
      requires RoutersExist(db)
      modifies this
      ensures RoutersExist(db) && db.peers.Keys == old(db.peers.Keys) && db.profiles == old(db.profiles)
              && db.routers == old(db.routers)
      ensures result == Refused <==>
                (input.custom && !Limits(input.download, input.upload))
                || (input.applyExisting && input.expectedPeerCount != Some(|InheritingPeers(old(db))|))
      ensures result.Unchanged? <==> result != Refused && Next(input) == Current(old(db))
      ensures !result.Changed? ==> db == old(db)
      ensures result.Changed? ==> db.global == Some(Next(input))
      ensures result.Changed? ==>
                var next := db.global.value;
                next.custom == input.custom
                && (next.download, next.upload) == if input.custom then (input.download, input.upload) else (None, None)
      ensures result.Changed? && input.applyExisting ==> db.peers == old(db.peers)
      ensures result.Changed? && !input.applyExisting ==> NewUsersOnly(old(db), Next(input), db)
      ensures result.Changed? ==> result.retained == if input.applyExisting then 0 else result.affected
      ensures result != Refused ==> result.affected == |InheritingPeers(old(db))|
    {
      if input.custom && !Limits(input.download, input.upload) { return Refused; }
      var next, current, affected := Next(input), Current(db), InheritingPeers(db);
      if input.applyExisting && input.expectedPeerCount != Some(|affected|) { return Refused; }
      if current == next { return Unchanged(|affected|); }
      var before := db.peers;
      if !input.applyExisting {
        db := db.(peers := map id | id in before :: if id in affected then Pinned(before[id], current) else before[id]);
      }
      db := db.(global := Some(next));
      result := Changed(|affected|, if input.applyExisting then 0 else |affected|);
    }
  }

  /** "New users only" is literal for a peer exactly when it is not stranded or the global rates do not change. */
  lemma NewUsersOnlyIsLiteral(a: Policies, next: Global, b: Policies, id: PeerId)
    requires RoutersExist(a) && NewUsersOnly(a, next, b) && id in a.peers
    ensures RoutersExist(b)
    ensures Effective(b, id) == Effective(a, id) <==>
              !Stranded(a, id) || GlobalRates(Some(next)) == GlobalRates(a.global)
  {
  }

  /** A limit pair is visible in the queue it asks for. */
  lemma RatesShowInQueue(peer: Bandwidth.PeerRef, g: Option<Global>, h: Option<Global>)
    ensures GlobalRates(g) == GlobalRates(h) <==>
              Bandwidth.DesiredSimpleQueue(peer, GlobalRates(g)) == Bandwidth.DesiredSimpleQueue(peer, GlobalRates(h))
  {
  }

  /** The same for the queue on the router: only a stranded peer's queue can change. */
  lemma DesiredQueueIsLiteral(a: Policies, next: Global, b: Policies, id: PeerId, peer: Bandwidth.PeerRef)
    requires RoutersExist(a) && NewUsersOnly(a, next, b) && id in a.peers
    ensures RoutersExist(b)
    ensures Bandwidth.DesiredSimpleQueue(peer, Effective(b, id)) == Bandwidth.DesiredSimpleQueue(peer, Effective(a, id))
            <==> !Stranded(a, id) || GlobalRates(Some(next)) == GlobalRates(a.global)
  {
    NewUsersOnlyIsLiteral(a, next, b, id);
    if Stranded(a, id) { RatesShowInQueue(peer, Some(next), a.global); }
  }

  /** A disabled profile is enough: the peer changes from no limit to the new one although only new users should. */
  lemma DisabledProfileStrands(id: PeerId) returns (a: Policies, next: Global, b: Policies)
    ensures RoutersExist(a) && RoutersExist(b) && NewUsersOnly(a, next, b) && id in a.peers && id in b.peers
    ensures a.peers[id].ownProfile == Some(0) && 0 in a.profiles && !a.profiles[0].enabled
    ensures Effective(a, id) == NO_LIMIT && Effective(b, id) == Rates(Some(1), Some(1))
  {
    next := Global(true, Some(1), Some(1));
    a := Policies(map[id := PeerPolicy(0, Default, Some(0), None, NO_LIMIT)], map[0 := ProfileRow(false, NO_LIMIT)],
                  map[0 := GlobalDefault], None);
    b := a.(global := Some(next));
  }

  /** With every referenced profile enabled, and no peer in profile mode without one, the promise holds for all. */
  predicate ProfilesInOrder(db: Policies) {
    forall id :: id in db.peers && (db.peers[id].mode == Default || db.peers[id].mode == Profile) ==>
      (ReferredProfile(db.peers[id]).Some? ==> HasEnabledProfile(db, db.peers[id]))
      && (db.peers[id].mode == Profile ==> db.peers[id].ownProfile.Some?)
  }

  /** A run of changes of the global setting, each for new users only. */
  ghost predicate Run(states: seq<Policies>) {
    && |states| > 0
    && (forall i :: 0 <= i < |states| ==> RoutersExist(states[i]))
    && (forall i :: 0 < i < |states| ==>
          states[i].global.Some? && NewUsersOnly(states[i - 1], states[i].global.value, states[i]))
  }

  lemma OrderIsKept(a: Policies, next: Global, b: Policies)
    requires RoutersExist(a) && ProfilesInOrder(a) && NewUsersOnly(a, next, b)
    ensures ProfilesInOrder(b)
  {
    forall id | id in b.peers
      ensures b.peers[id] == a.peers[id] || b.peers[id].mode == Custom || b.peers[id].mode == Unlimited
    {
    }
  }

  lemma {:induction false} ExistingPeersNeverChange(states: seq<Policies>, id: PeerId)
    requires Run(states) && ProfilesInOrder(states[0]) && id in states[0].peers
    ensures var last := states[|states| - 1];
            ProfilesInOrder(last) && id in last.peers && Effective(last, id) == Effective(states[0], id)
    decreases |states|
  {
    if |states| > 1 {
      var rest := states[..|states| - 1];
      assert rest[0] == states[0];
      ExistingPeersNeverChange(rest, id);
      var a, b := states[|states| - 2], states[|states| - 1];
      assert a == rest[|rest| - 1];
      NewUsersOnlyIsLiteral(a, b.global.value, b, id);
      StrandedMeans(a, id);
      OrderIsKept(a, b.global.value, b);
    }
  }
}
