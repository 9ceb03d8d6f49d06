/** The lock protocol of `src/server/pool-service.ts` on one router: transactions lock only their own pool row (and,
    when ranges change, the router's advisory lock), interleave freely, and see only committed rows. */
module PoolProtocol {
  import opened Wrappers
  import opened IpCidr

  type PoolId = nat
  type PeerId = nat
  type Txn = nat

  datatype RowState = Reserved | Allocated(peer: PeerId) | RouterRow
  datatype AddressRow = AddressRow(pool: PoolId, state: RowState)

  /** How far an open transaction has come. `Chosen` has picked an address but not yet inserted it; `Ready` has made
      every check of a new or changed range but not yet written it. */
  datatype Phase =
    | Locked(pool: PoolId)
    | ScopeLocked(resizing: Option<PoolId>)
    | Chosen(pool: PoolId, ip: Ip, owner: Option<PeerId>)
    | Ready(resizing: Option<PoolId>, range: Pool)

  /** `rows` is keyed by address because of UNIQUE(router_id, ip_address); `violated` records that an insert ever ran
      into that constraint. `clients` is the client address of every peer of this router. */
  datatype State = State(
    pools: map<PoolId, Pool>, rows: map<Ip, AddressRow>, clients: map<PeerId, Ip>,
    poolLocks: map<PoolId, Txn>, scopeLock: Option<Txn>, open: map<Txn, Phase>, violated: bool)

  datatype Step =
    | LockPool(t: Txn, pool: PoolId)
    | LockScope(t: Txn)
    | Choose(t: Txn, ip: Ip, owner: Option<PeerId>)
    | Claim(t: Txn)
    | Check(t: Txn, range: Pool)
    | WriteRange(t: Txn, newId: PoolId)
    | Rollback(t: Txn)
    | Release(peer: PeerId)
    | Unreserve(ip: Ip)

  // ---------------------------------------------------------------------------------------------
  // What the statements check

  predicate RangesOverlap(a: Pool, b: Pool) {
    !(a.end < b.start || a.start > b.end)
  }

  /** `choosePoolAddress` and `assertDatabaseAddressFree`, on committed rows; a peer does not block itself. */
  predicate Free(s: State, ip: Ip, owner: Option<PeerId>) {
    && (ip in s.rows ==> owner.Some? && s.rows[ip].state == Allocated(owner.value))
    && (forall q :: q in s.clients && Some(q) != owner ==> s.clients[q] != ip)
  }

  /** `normalizePoolInput` for a range that avoids every known gateway, and `assertNoOverlap`. */
  predicate RangeAcceptable(s: State, resizing: Option<PoolId>, range: Pool) {
    && range.start <= range.end
    && (forall id :: id in s.pools && Some(id) != resizing ==> !RangesOverlap(s.pools[id], range))
    && (forall id :: id in s.pools && Some(id) != resizing ==> !InRange(s.pools[id], range.gateway))
    && !InRange(range, range.gateway)
    && (forall ip :: ip in s.rows && s.rows[ip].state == RouterRow && Some(s.rows[ip].pool) != resizing ==>
          !InRange(range, ip))
    && (resizing.Some? ==>
          forall ip :: ip in s.rows && s.rows[ip].pool == resizing.value && s.rows[ip].state != RouterRow ==>
            InRange(range, ip))
  }

  // ---------------------------------------------------------------------------------------------
  // Steps

  function Unlock(s: State, t: Txn): State {
    s.(poolLocks := map p | p in s.poolLocks && s.poolLocks[p] != t :: s.poolLocks[p],
       scopeLock := if s.scopeLock == Some(t) then None else s.scopeLock,
       open := s.open - {t})
  }

  function WithoutPeer(rows: map<Ip, AddressRow>, peer: PeerId): map<Ip, AddressRow> {
    map ip | ip in rows && rows[ip].state != Allocated(peer) :: rows[ip]
  }

  /** Release and insert, then commit; a row that is still there is a violation of the unique constraint. */
  function ClaimRows(s: State, pool: PoolId, ip: Ip, owner: Option<PeerId>): State {
    var rows := if owner.Some? then WithoutPeer(s.rows, owner.value) else s.rows;
    var row := AddressRow(pool, if owner.Some? then Allocated(owner.value) else Reserved);
    s.(violated := s.violated || ip in rows, rows := rows[ip := row],
       clients := if owner.Some? then s.clients[owner.value := ip] else s.clients)
  }

  ghost function AnyClientAt(clients: map<PeerId, Ip>, ip: Ip): PeerId {
    if q :| q in clients && clients[q] == ip then q else 0
  }

  /** The gateway row is replaced, then every address of an existing peer inside the range gets a row. */
  ghost function RangeRows(s: State, id: PoolId, range: Pool): map<Ip, AddressRow> {
    var kept := map ip | ip in s.rows && !(s.rows[ip].pool == id && s.rows[ip].state == RouterRow) :: s.rows[ip];
    var withGateway := if range.gateway in kept then kept else kept[range.gateway := AddressRow(id, RouterRow)];
    var attached := set q | q in s.clients && InRange(range, s.clients[q])
        && s.clients[q] !in withGateway :: s.clients[q];
    withGateway + map ip | ip in attached :: AddressRow(id, Allocated(AnyClientAt(s.clients, ip)))
  }

  /** One step, or `None` when it has to wait for a lock or does not apply. */
  ghost function Do(s: State, step: Step): Option<State> {
    match step
    case LockPool(t, pool) =>
      if t in s.open || pool !in s.pools || pool in s.poolLocks then None
      else Some(s.(poolLocks := s.poolLocks[pool := t], open := s.open[t := Locked(pool)]))
    case LockScope(t) =>
      if s.scopeLock.Some? then None
      else if t !in s.open then Some(s.(scopeLock := Some(t), open := s.open[t := ScopeLocked(None)]))
      else if s.open[t].Locked?
      then Some(s.(scopeLock := Some(t), open := s.open[t := ScopeLocked(Some(s.open[t].pool))]))
      else None
    case Choose(t, ip, owner) =>
      if t !in s.open || !s.open[t].Locked? || s.open[t].pool !in s.pools then None
      else if !InRange(s.pools[s.open[t].pool], ip) || !Free(s, ip, owner) then None
      else Some(s.(open := s.open[t := Chosen(s.open[t].pool, ip, owner)]))
    case Claim(t) =>
      if t !in s.open || !s.open[t].Chosen? then None
      else Some(Unlock(ClaimRows(s, s.open[t].pool, s.open[t].ip, s.open[t].owner), t))
    case Check(t, range) =>
      if t !in s.open || !s.open[t].ScopeLocked? || !RangeAcceptable(s, s.open[t].resizing, range) then None
      else Some(s.(open := s.open[t := Ready(s.open[t].resizing, range)]))
    case WriteRange(t, newId) =>
      if t !in s.open || !s.open[t].Ready? then None
      else
        var id := if s.open[t].resizing.Some? then s.open[t].resizing.value else newId;
        var taken := newId in s.pools || newId in s.poolLocks || exists ip :: ip in s.rows && s.rows[ip].pool == newId;
        if s.open[t].resizing == None && taken then None
        else Some(Unlock(s.(pools := s.pools[id := s.open[t].range], rows := RangeRows(s, id, s.open[t].range)), t))
    case Rollback(t) =>
      if t !in s.open then None else Some(Unlock(s, t))
    case Release(peer) =>
      Some(s.(rows := WithoutPeer(s.rows, peer), clients := s.clients - {peer}))
    case Unreserve(ip) =>
      if ip in s.rows && s.rows[ip].state == Reserved then Some(s.(rows := s.rows - {ip})) else None
  }

  ghost function Exec(s: State, steps: seq<Step>): State
    decreases |steps|
  {
    if steps == [] then s
    else
      var next := Do(s, steps[0]);
      Exec(if next.Some? then next.value else s, steps[1..])
  }

  /** When the two checks go through: an address of the locked pool is chosen exactly when no row but the owner's own
      and no other peer has it; a range is accepted exactly when it is not empty, meets no other range and no
      gateway, covers the rows of the pool it resizes and no router address outside it. */
  lemma ChecksAreExact(s: State, t: Txn, ip: Ip, owner: Option<PeerId>, range: Pool)
    ensures Do(s, Choose(t, ip, owner)).Some? <==>
              && t in s.open && s.open[t].Locked? && s.open[t].pool in s.pools
              && s.pools[s.open[t].pool].start <= ip <= s.pools[s.open[t].pool].end
              && !(exists q :: q in s.clients && s.clients[q] == ip && owner != Some(q))
              && (ip !in s.rows || (owner.Some? && s.rows[ip].state == Allocated(owner.value)))
    ensures Do(s, Check(t, range)).Some? <==>
              && t in s.open && s.open[t].ScopeLocked?
              && var resizing := s.open[t].resizing;
                 && range.start <= range.end && !(range.start <= range.gateway <= range.end)
                 && (forall id :: id in s.pools && resizing != Some(id) ==>
                       s.pools[id].end < range.start || range.end < s.pools[id].start)
                 && !(exists id :: id in s.pools && resizing != Some(id) && InRange(s.pools[id], range.gateway))
                 && (forall ip :: ip in s.rows && InRange(range, ip) && s.rows[ip].state == RouterRow ==>
                       resizing == Some(s.rows[ip].pool))
                 && (forall ip :: ip in s.rows && !InRange(range, ip) && s.rows[ip].state != RouterRow ==>
                       resizing != Some(s.rows[ip].pool))
  {
  }

  /** A claim gives the address to its owner, and to nobody else, and frees what the owner had. */
  lemma ClaimEffects(s: State, pool: PoolId, ip: Ip, owner: Option<PeerId>)
    ensures var after := ClaimRows(s, pool, ip, owner);
            && after.pools == s.pools && ip in after.rows && after.rows[ip].pool == pool
            && after.rows[ip].state == (if owner.Some? then Allocated(owner.value) else Reserved)
            && after.clients == (if owner.Some? then s.clients[owner.value := ip] else s.clients)
            && (forall x :: x in after.rows && owner.Some? && after.rows[x].state == Allocated(owner.value) ==> x == ip)
            && (forall x :: x != ip && x in after.rows ==> x in s.rows && after.rows[x] == s.rows[x])
            && (forall x :: x in s.rows && x !in after.rows ==>
                  owner.Some? && s.rows[x].state == Allocated(owner.value))
  {
  }

  /** A range write replaces the gateway row and gives a row to every peer inside the range that had none. */
  lemma RangeEffects(s: State, id: PoolId, range: Pool)
    ensures var rows := RangeRows(s, id, range);
            && range.gateway in rows
            && (forall q :: q in s.clients && InRange(range, s.clients[q]) ==> s.clients[q] in rows)
            && (forall x :: x in s.rows && !(s.rows[x].pool == id && s.rows[x].state == RouterRow) ==>
                  x in rows && rows[x] == s.rows[x])
            && (forall x :: x in rows ==>
                  || (x in s.rows && rows[x] == s.rows[x] && rows[x] != AddressRow(id, RouterRow))
                  || (x == range.gateway && rows[x] == AddressRow(id, RouterRow))
                  || (rows[x].pool == id && rows[x].state.Allocated? && InRange(range, x)))
  {
  }

  /** What the statements that write leave behind; a step that is not one of them changes no table. */
  lemma StepEffects(s: State, step: Step)
    requires Do(s, step).Some?
    ensures var after := Do(s, step).value;
            match step
            case Claim(t) =>
              && s.open[t].Chosen? && after.pools == s.pools
              && var claimed := ClaimRows(s, s.open[t].pool, s.open[t].ip, s.open[t].owner);
                 (after.rows, after.clients) == (claimed.rows, claimed.clients)
            case WriteRange(t, newId) =>
              var id, range := if s.open[t].resizing.Some? then s.open[t].resizing.value else newId, s.open[t].range;
              (after.pools, after.rows, after.clients) == (s.pools[id := range], RangeRows(s, id, range), s.clients)
            case Release(peer) =>
              && after.pools == s.pools && after.clients == s.clients - {peer}
              && (forall x :: x in after.rows <==> x in s.rows && s.rows[x].state != Allocated(peer))
              && (forall x :: x in after.rows ==> after.rows[x] == s.rows[x])
            case Unreserve(ip) =>
              after == s.(rows := s.rows - {ip}) && ip in s.rows && s.rows[ip].state == Reserved
            case _ => (after.pools, after.rows, after.clients) == (s.pools, s.rows, s.clients)
  {
    if step.Claim? {
      var Chosen(pool, ip, owner) := s.open[step.t];
      ClaimEffects(s, pool, ip, owner);
    }
    hide RangeRows, ClaimRows, Free, RangeAcceptable;
  }

  // ---------------------------------------------------------------------------------------------
  // The invariant

  predicate DisjointRanges(pools: map<PoolId, Pool>) {
    && (forall p :: p in pools ==> pools[p].start <= pools[p].end && !InRange(pools[p], pools[p].gateway))
    && forall a, b :: a in pools && b in pools && a != b ==> !RangesOverlap(pools[a], pools[b])
  }

  /** Reserved and allocated rows lie inside their pool; gateway rows lie outside every pool. */
  predicate RowsInRange(pools: map<PoolId, Pool>, rows: map<Ip, AddressRow>) {
    && (forall ip :: ip in rows && rows[ip].state != RouterRow ==>
          rows[ip].pool in pools && InRange(pools[rows[ip].pool], ip))
    && (forall ip, p :: ip in rows && rows[ip].state == RouterRow && p in pools ==> !InRange(pools[p], ip))
  }

  predicate ClientsDistinct(clients: map<PeerId, Ip>) {
    forall p, q :: p in clients && q in clients && p != q ==> clients[p] != clients[q]
  }

  /** An allocated row names a peer of this router whose client address it is; so a peer has at most one row. */
  predicate RowsFollowClients(rows: map<Ip, AddressRow>, clients: map<PeerId, Ip>) {
    forall ip :: ip in rows && rows[ip].state.Allocated? ==>
      rows[ip].state.peer in clients && clients[rows[ip].state.peer] == ip
  }

  /** What an open transaction can count on. */
  predicate PhaseHolds(s: State, t: Txn, phase: Phase) {
    match phase
    case Locked(pool) => pool in s.pools && pool in s.poolLocks && s.poolLocks[pool] == t
    case ScopeLocked(resizing) =>
      s.scopeLock == Some(t)
      && (resizing.Some? ==>
            resizing.value in s.pools && resizing.value in s.poolLocks && s.poolLocks[resizing.value] == t)
    case Chosen(pool, ip, owner) =>
      pool in s.pools && pool in s.poolLocks && s.poolLocks[pool] == t && InRange(s.pools[pool], ip)
      && Free(s, ip, owner)
    case Ready(resizing, range) =>
      && s.scopeLock == Some(t) && RangeAcceptable(s, resizing, range)
      && (resizing.Some? ==>
            resizing.value in s.pools && resizing.value in s.poolLocks && s.poolLocks[resizing.value] == t)
  }

  predicate PhasesHold(s: State) {
    forall t :: t in s.open ==> PhaseHolds(s, t, s.open[t])
  }

  predicate Inv(s: State) {
    && !s.violated
    && DisjointRanges(s.pools) && RowsInRange(s.pools, s.rows) && ClientsDistinct(s.clients)
    && RowsFollowClients(s.rows, s.clients)
    && PhasesHold(s)
  }

  // ---------------------------------------------------------------------------------------------
  // Every step keeps it

  lemma ClaimPhase(s: State, t: Txn, u: Txn)
    requires Inv(s) && t in s.open && s.open[t].Chosen? && u in s.open && u != t
    ensures PhaseHolds(Unlock(ClaimRows(s, s.open[t].pool, s.open[t].ip, s.open[t].owner), t), u, s.open[u])
  {
    assert PhaseHolds(s, t, s.open[t]) && PhaseHolds(s, u, s.open[u]);
    var phase := s.open[u];
    if phase.Chosen? { assert !RangesOverlap(s.pools[phase.pool], s.pools[s.open[t].pool]); }
  }

  /** The insert of a claim never meets the unique constraint and leaves the tables sound. */
  lemma ClaimTables(s: State, t: Txn)
    requires Inv(s) && t in s.open && s.open[t].Chosen?
    ensures var after := ClaimRows(s, s.open[t].pool, s.open[t].ip, s.open[t].owner);
            && !after.violated && after.pools == s.pools && after.open == s.open
            && RowsInRange(after.pools, after.rows) && RowsFollowClients(after.rows, after.clients)
            && ClientsDistinct(after.clients)
  {
    assert PhaseHolds(s, t, s.open[t]);
  }

  lemma ClaimKeepsInv(s: State, t: Txn)
    requires Inv(s) && t in s.open && s.open[t].Chosen?
    ensures Inv(Unlock(ClaimRows(s, s.open[t].pool, s.open[t].ip, s.open[t].owner), t))
  {
    ClaimTables(s, t);
    hide PhaseHolds, ClaimRows, RowsInRange, RowsFollowClients, ClientsDistinct, DisjointRanges;
    var after := Unlock(ClaimRows(s, s.open[t].pool, s.open[t].ip, s.open[t].owner), t);
    forall u | u in after.open ensures PhaseHolds(after, u, after.open[u]) {
      ClaimPhase(s, t, u);
    }
  }

  lemma ReleaseKeepsInv(s: State, peer: PeerId)
    requires Inv(s)
    ensures Inv(s.(rows := WithoutPeer(s.rows, peer), clients := s.clients - {peer}))
  {
    var after := s.(rows := WithoutPeer(s.rows, peer), clients := s.clients - {peer});
    forall u | u in after.open ensures PhaseHolds(after, u, after.open[u]) {
      assert PhaseHolds(s, u, s.open[u]);
    }
  }

  lemma UnreserveKeepsInv(s: State, ip: Ip)
    requires Inv(s) && ip in s.rows
    ensures Inv(s.(rows := s.rows - {ip}))
  {
    var after := s.(rows := s.rows - {ip});
    forall u | u in after.open ensures PhaseHolds(after, u, after.open[u]) {
      assert PhaseHolds(s, u, s.open[u]);
    }
  }

  lemma RollbackKeepsInv(s: State, t: Txn)
    requires Inv(s)
    ensures Inv(Unlock(s, t))
  {
    var after := Unlock(s, t);
    forall u | u in after.open ensures PhaseHolds(after, u, after.open[u]) {
      assert PhaseHolds(s, u, s.open[u]);
    }
  }

  lemma OpenKeepsInv(s: State, t: Txn, after: State)
    requires Inv(s) && after == s.(open := after.open, poolLocks := after.poolLocks, scopeLock := after.scopeLock)
    requires after.open.Keys == s.open.Keys + {t} && (forall u :: u in s.open && u != t ==> after.open[u] == s.open[u])
    requires forall p :: p in s.poolLocks ==> p in after.poolLocks && after.poolLocks[p] == s.poolLocks[p]
    requires after.scopeLock == s.scopeLock || s.scopeLock == None
    requires PhaseHolds(after, t, after.open[t])
    ensures Inv(after)
  {
    forall u | u in after.open ensures PhaseHolds(after, u, after.open[u]) {
      if u != t { assert PhaseHolds(s, u, s.open[u]); }
    }
  }

  /** Every row was there before, or is the gateway's, or lies inside the range and belongs to a peer there. */
  predicate RowsFrom(s: State, id: PoolId, range: Pool, rows: map<Ip, AddressRow>) {
    forall ip :: ip in rows ==>
      || (ip in s.rows && rows[ip] == s.rows[ip] && !(rows[ip].pool == id && rows[ip].state == RouterRow))
      || (ip == range.gateway && rows[ip] == AddressRow(id, RouterRow))
      || (InRange(range, ip) && rows[ip].pool == id && rows[ip].state.Allocated?
          && rows[ip].state.peer in s.clients && s.clients[rows[ip].state.peer] == ip)
  }

  lemma RangeRowsFacts(s: State, id: PoolId, range: Pool)
    ensures RowsFrom(s, id, range, RangeRows(s, id, range))
  {
  }

  predicate SameIdOrNew(s: State, resizing: Option<PoolId>, id: PoolId) {
    if resizing.Some? then id == resizing.value
    else id !in s.pools && id !in s.poolLocks && forall ip :: ip in s.rows ==> s.rows[ip].pool != id
  }

  lemma NewRangeRows(s: State, resizing: Option<PoolId>, id: PoolId, range: Pool, rows: map<Ip, AddressRow>)
    requires RowsInRange(s.pools, s.rows) && RangeAcceptable(s, resizing, range) && SameIdOrNew(s, resizing, id)
    requires RowsFrom(s, id, range, rows)
    ensures RowsInRange(s.pools[id := range], rows)
  {
    var pools := s.pools[id := range];
    forall ip | ip in rows && rows[ip].state != RouterRow
      ensures rows[ip].pool in pools && InRange(pools[rows[ip].pool], ip)
    {
    }
    forall ip, p | ip in rows && rows[ip].state == RouterRow && p in pools ensures !InRange(pools[p], ip) {
    }
  }

  lemma NewRangePhase(s: State, t: Txn, id: PoolId, range: Pool, rows: map<Ip, AddressRow>, u: Txn)
    requires Inv(s) && t in s.open && s.open[t].Ready? && s.open[t].range == range
             && SameIdOrNew(s, s.open[t].resizing, id)
    requires RowsFrom(s, id, range, rows) && u in s.open && u != t
    ensures PhaseHolds(Unlock(s.(pools := s.pools[id := range], rows := rows), t), u, s.open[u])
  {
    assert PhaseHolds(s, t, s.open[t]) && PhaseHolds(s, u, s.open[u]);
    var phase := s.open[u];
    if phase.Chosen? { assert phase.pool != id && !RangesOverlap(s.pools[phase.pool], range); }
  }

  lemma NewRangeDisjoint(s: State, resizing: Option<PoolId>, id: PoolId, range: Pool)
    requires DisjointRanges(s.pools) && RangeAcceptable(s, resizing, range) && SameIdOrNew(s, resizing, id)
    ensures DisjointRanges(s.pools[id := range])
  {
  }

  lemma NewRangeClients(s: State, id: PoolId, range: Pool, rows: map<Ip, AddressRow>)
    requires RowsFrom(s, id, range, rows) && RowsFollowClients(s.rows, s.clients)
    ensures RowsFollowClients(rows, s.clients)
  {
  }

  lemma NewRangeTables(s: State, t: Txn, id: PoolId, range: Pool, rows: map<Ip, AddressRow>)
    requires Inv(s) && t in s.open && s.open[t].Ready? && s.open[t].range == range
             && SameIdOrNew(s, s.open[t].resizing, id)
    requires RowsFrom(s, id, range, rows)
    ensures DisjointRanges(s.pools[id := range]) && RowsInRange(s.pools[id := range], rows)
            && RowsFollowClients(rows, s.clients)
  {
    assert PhaseHolds(s, t, s.open[t]);
    hide RowsFrom, RowsInRange, RowsFollowClients, DisjointRanges, RangeAcceptable, SameIdOrNew;
    NewRangeDisjoint(s, s.open[t].resizing, id, range);
    NewRangeRows(s, s.open[t].resizing, id, range, rows);
    NewRangeClients(s, id, range, rows);
  }

  lemma WriteRangeKeepsInv(s: State, t: Txn, id: PoolId)
    requires Inv(s) && t in s.open && s.open[t].Ready? && SameIdOrNew(s, s.open[t].resizing, id)
    ensures Inv(Unlock(s.(pools := s.pools[id := s.open[t].range], rows := RangeRows(s, id, s.open[t].range)), t))
  {
    var range, rows := s.open[t].range, RangeRows(s, id, s.open[t].range);
    RangeRowsFacts(s, id, range);
    NewRangeTables(s, t, id, range, rows);
    hide RangeRows, RowsFrom, PhaseHolds, RowsInRange, RowsFollowClients, ClientsDistinct, DisjointRanges;
    var after := Unlock(s.(pools := s.pools[id := range], rows := rows), t);
    forall u | u in after.open ensures PhaseHolds(after, u, after.open[u]) {
      NewRangePhase(s, t, id, range, rows, u);
    }
  }

  /** The steps that only take locks or record a choice. */
  lemma LockStepKeepsInv(s: State, step: Step)
    requires Inv(s) && Do(s, step).Some? && (step.LockPool? || step.LockScope? || step.Choose? || step.Check?)
    ensures Inv(Do(s, step).value)
  {
    if step.t in s.open { assert PhaseHolds(s, step.t, s.open[step.t]); }
    OpenKeepsInv(s, step.t, Do(s, step).value);
  }

  /** Whatever the transactions do next, in whatever order. */
  lemma StepKeepsInv(s: State, step: Step)
    requires Inv(s) && Do(s, step).Some?
    ensures Inv(Do(s, step).value)
  {
    hide Inv;
    match step
    case Claim(t) => ClaimKeepsInv(s, t);
    case WriteRange(t, newId) => WriteRangeKeepsInv(s, t, if s.open[t].resizing.Some? then s.open[t].resizing.value
                                                          else newId);
    case Rollback(t) => RollbackKeepsInv(s, t);
    case Release(peer) => ReleaseKeepsInv(s, peer);
    case Unreserve(ip) => UnreserveKeepsInv(s, ip);
    case _ => LockStepKeepsInv(s, step);
  }

  lemma {:induction false} ExecKeepsInv(s: State, steps: seq<Step>)
    requires Inv(s)
    ensures Inv(Exec(s, steps))
    decreases |steps|
  {
    if steps != [] {
      var next := Do(s, steps[0]);
      if next.Some? { StepKeepsInv(s, steps[0]); }
      ExecKeepsInv(if next.Some? then next.value else s, steps[1..]);
    }
  }

  /** No transaction is open; how the tables got here, by imports for instance, does not matter. */
  predicate Quiescent(s: State) {
    && s.open == map[] && !s.violated
    && DisjointRanges(s.pools) && RowsInRange(s.pools, s.rows) && ClientsDistinct(s.clients)
    && RowsFollowClients(s.rows, s.clients)
  }

  /** Over every interleaving: ranges stay disjoint, rows stay in range, no insert meets the unique constraint and no
      two peers of the router share an address. */
  lemma PoolsStaySound(s: State, steps: seq<Step>)
    requires Quiescent(s)
    ensures var r := Exec(s, steps);
            && DisjointRanges(r.pools) && RowsInRange(r.pools, r.rows) && !r.violated
            && ClientsDistinct(r.clients) && RowsFollowClients(r.rows, r.clients)
  {
    ExecKeepsInv(s, steps);
  }

  /** Two transactions that have both chosen an address, each under its own lock only, have chosen different ones. */
  lemma OpenChoicesDiffer(s: State, steps: seq<Step>, t: Txn, u: Txn)
    requires Quiescent(s)
    requires var r := Exec(s, steps); t in r.open && u in r.open && t != u && r.open[t].Chosen? && r.open[u].Chosen?
    ensures var r := Exec(s, steps); r.open[t].ip != r.open[u].ip
  {
    ExecKeepsInv(s, steps);
    var r := Exec(s, steps);
    assert PhaseHolds(r, t, r.open[t]) && PhaseHolds(r, u, r.open[u]);
    assert !RangesOverlap(r.pools[r.open[t].pool], r.pools[r.open[u].pool]);
  }
}
