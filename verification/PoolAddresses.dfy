/** Address selection and reporting of `src/server/pool-service.ts`: the allocator inside one transaction, the
    statistics, and the paged listing. */
module PoolAddresses {
  import opened Wrappers
  import opened IpCidr

  // ---------------------------------------------------------------------------------------------
  // Choosing

  /** What `choosePoolAddress` reads: client addresses of other peers, blocking rows, and the live remote peers. */
  datatype Snapshot = Snapshot(owners: set<Ip>, blocked: set<Ip>, remotes: seq<seq<Allowed>>)

  datatype Choice = Chosen(ip: Ip) | OwnedByPeer | Blocked | OnRouter | OutsidePool | IsGateway | Exhausted | BadRange

  predicate LiveOwner(s: Snapshot, ip: Ip) {
    exists i :: 0 <= i < |s.remotes| && AllowedOwnsIp(s.remotes[i], ip)
  }

  predicate Free(s: Snapshot, ip: Ip) {
    ip !in s.owners && ip !in s.blocked && !LiveOwner(s, ip)
  }

  /** The order of the three checks decides which conflict is reported. */
  function Explain(s: Snapshot, ip: Ip): Choice {
    if ip in s.owners then OwnedByPeer
    else if ip in s.blocked then Blocked
    else if LiveOwner(s, ip) then OnRouter
    else Chosen(ip)
  }

  /** `choosePoolAddress`: the requested address if it is in the pool and free, otherwise the least free one. */
  method ChoosePoolAddress(pool: Pool, s: Snapshot, requested: Option<Ip>) returns (r: Choice)
    ensures requested.Some? ==>
              r == if pool.start > pool.end then BadRange
                   else if !InRange(pool, requested.value) then OutsidePool
                   else if requested.value == pool.gateway then IsGateway
                   else if requested.value in s.owners then OwnedByPeer
                   else if requested.value in s.blocked then Blocked
                   else if LiveOwner(s, requested.value) then OnRouter
                   else Chosen(requested.value)
    ensures requested == None && r.Chosen? ==>
              InRange(pool, r.ip) && Free(s, r.ip) && forall ip :: pool.start <= ip < r.ip ==> !Free(s, ip)
    ensures requested == None && !r.Chosen? ==>
              r == (if pool.start > pool.end then BadRange else Exhausted)
              && forall ip :: InRange(pool, ip) ==> !Free(s, ip)
  {
    if pool.start > pool.end { return BadRange; }
    if requested.Some? {
      var ip := requested.value;
      if ip < pool.start || ip > pool.end { return OutsidePool; }
      if ip == pool.gateway { return IsGateway; }
      return Explain(s, ip);
    }
    var value: int := pool.start;
    while value <= pool.end
      invariant pool.start <= value <= pool.end + 1
      invariant forall ip :: pool.start <= ip < value ==> !Free(s, ip)
    {
      if Explain(s, value) == Chosen(value) { return Chosen(value); }
      value := value + 1;
    }
    return Exhausted;
  }

  predicate CoversByPrefix(entry: Allowed, ip: Ip) {
    entry.Block? && WellFormed(entry.cidr) && SameLeadingBits(entry.cidr.address, ip, entry.cidr.prefix)
  }

  /** An address is free of live peers exactly when no allowed block shares its leading bits. */
  lemma LiveOwnerIsPrefixMatch(s: Snapshot, ip: Ip)
    ensures LiveOwner(s, ip) <==>
            exists i, j :: 0 <= i < |s.remotes| && 0 <= j < |s.remotes[i]| && CoversByPrefix(s.remotes[i][j], ip)
  {
    forall i, j | 0 <= i < |s.remotes| && 0 <= j < |s.remotes[i]|
      ensures CoversByPrefix(s.remotes[i][j], ip) <==>
              s.remotes[i][j].Block? && WellFormed(s.remotes[i][j].cidr) && Contains(s.remotes[i][j].cidr, ip)
    {
      if s.remotes[i][j].Block? && WellFormed(s.remotes[i][j].cidr) { ContainsIsPrefixMatch(s.remotes[i][j].cidr, ip); }
    }
    if i, j :| 0 <= i < |s.remotes| && 0 <= j < |s.remotes[i]| && CoversByPrefix(s.remotes[i][j], ip) {
      assert AllowedOwnsIp(s.remotes[i], ip);
    }
  }

  // ---------------------------------------------------------------------------------------------
  // Statistics and listing

  datatype RowState = Reserved | Allocated(imported: bool) | RouterRow
  datatype View = Available | Used | Imported | ReservedView | Router
  datatype AddressView = AddressView(ip: Ip, state: View)
  datatype Stats = Stats(total: int, used: nat, reserved: nat, available: int)

  /** The rows of one pool in any state the lock protocol can reach. */
  predicate Reachable(pool: Pool, rows: map<Ip, RowState>) {
    && pool.start <= pool.end && !InRange(pool, pool.gateway)
    && (forall ip :: ip in rows ==> (rows[ip] != RouterRow <==> InRange(pool, ip)))
  }

  function UsedRows(rows: map<Ip, RowState>): set<Ip> {
    set ip | ip in rows && rows[ip].Allocated?
  }

  function ReservedRows(rows: map<Ip, RowState>): set<Ip> {
    set ip | ip in rows && rows[ip] == Reserved
  }

  function GetPoolStats(pool: Pool, rows: map<Ip, RowState>): Stats {
    var total := pool.end - pool.start + 1;
    var used, reserved := |UsedRows(rows)|, |ReservedRows(rows)|;
    Stats(total, used, reserved, if total - used - reserved > 0 then total - used - reserved else 0)
  }

  function ViewOf(rows: map<Ip, RowState>, ip: Ip): AddressView {
    if ip !in rows then AddressView(ip, Available)
    else match rows[ip]
      case Reserved => AddressView(ip, ReservedView)
      case Allocated(imported) => AddressView(ip, if imported then Imported else Used)
      case RouterRow => AddressView(ip, Router)
  }

  /** The view names its address and tells free, reserved, used, imported and router addresses apart. */
  predicate Shows(view: AddressView, rows: map<Ip, RowState>, ip: Ip) {
    && view.ip == ip
    && (view.state == Available <==> ip !in rows)
    && (view.state == ReservedView <==> ip in rows && rows[ip] == Reserved)
    && (view.state == Used <==> ip in rows && rows[ip] == Allocated(false))
    && (view.state == Imported <==> ip in rows && rows[ip] == Allocated(true))
    && (view.state == Router <==> ip in rows && rows[ip] == RouterRow)
  }

  function ViewsUpTo(rows: map<Ip, RowState>, start: Ip, n: nat): seq<AddressView>
    requires start + n <= 0x1_0000_0000
  {
    seq(n, k requires 0 <= k < n => ViewOf(rows, start + k))
  }

  /** One view per address of the range, in ascending order, and the gateway if it was not among them. */
  method EnumerateAddresses(pool: Pool, rows: map<Ip, RowState>) returns (views: seq<AddressView>)
    requires pool.start <= pool.end
    ensures var n := pool.end - pool.start + 1;
            && |views| == (if InRange(pool, pool.gateway) then n else n + 1)
            && views[..n] == ViewsUpTo(rows, pool.start, n)
            && (|views| == n + 1 ==> views[n] == AddressView(pool.gateway, Router))
            && (forall k :: 0 <= k < n ==> Shows(views[k], rows, pool.start + k))
  {
    views := [];
    var value: int := pool.start;
    while value <= pool.end
      invariant pool.start <= value <= pool.end + 1 && |views| == value - pool.start
      invariant forall k :: 0 <= k < |views| ==> views[k] == ViewOf(rows, pool.start + k)
    {
      views := views + [ViewOf(rows, value)];
      value := value + 1;
    }
    assert InRange(pool, pool.gateway) ==> views[pool.gateway - pool.start].ip == pool.gateway;
    if !(exists k :: 0 <= k < |views| && views[k].ip == pool.gateway) {
      views := views + [AddressView(pool.gateway, Router)];
    }
  }

  function Count(views: seq<AddressView>, states: set<View>): nat {
    if views == [] then 0 else Count(views[..|views| - 1], states) + if views[|views| - 1].state in states then 1 else 0
  }

  function RowsViewedAs(rows: map<Ip, RowState>, start: Ip, n: nat, states: set<View>): set<Ip> {
    set ip | ip in rows && start <= ip < start + n && ViewOf(rows, ip).state in states
  }

  lemma UnlistedIsAvailable(rows: map<Ip, RowState>, ip: Ip)
    ensures ip !in rows ==> ViewOf(rows, ip).state == Available
  {
  }

  lemma OneMoreRow(rows: map<Ip, RowState>, start: Ip, n: nat, states: set<View>)
    requires n > 0 && start + n <= 0x1_0000_0000 && Available !in states
    ensures |RowsViewedAs(rows, start, n, states)| == |RowsViewedAs(rows, start, n - 1, states)|
            + if ViewOf(rows, start + n - 1).state in states then 1 else 0
  {
    hide ViewOf;
    var last: Ip := start + n - 1;
    UnlistedIsAvailable(rows, last);
    var before := RowsViewedAs(rows, start, n - 1, states);
    assert last !in before;
    assert RowsViewedAs(rows, start, n, states) == if ViewOf(rows, last).state in states then before + {last}
                                                   else before;
  }

  lemma {:induction false} CountIsCardinality(rows: map<Ip, RowState>, start: Ip, n: nat, states: set<View>)
    requires start + n <= 0x1_0000_0000 && Available !in states
    ensures Count(ViewsUpTo(rows, start, n), states) == |RowsViewedAs(rows, start, n, states)|
  {
    hide ViewOf;
    if n == 0 {
      assert RowsViewedAs(rows, start, n, states) == {};
    } else {
      CountIsCardinality(rows, start, n - 1, states);
      var listed := ViewsUpTo(rows, start, n);
      assert listed[..n - 1] == ViewsUpTo(rows, start, n - 1) && listed[n - 1] == ViewOf(rows, start + n - 1);
      hide RowsViewedAs, ViewsUpTo;
      OneMoreRow(rows, start, n, states);
    }
  }

  lemma {:induction false} CountsPartition(views: seq<AddressView>, a: set<View>, b: set<View>)
    requires a !! b
    ensures Count(views, a) + Count(views, b) == Count(views, a + b)
  {
    if views != [] { CountsPartition(views[..|views| - 1], a, b); }
  }

  lemma {:induction false} CountAll(views: seq<AddressView>, all: set<View>)
    requires forall k :: 0 <= k < |views| ==> views[k].state in all
    ensures Count(views, all) == |views|
  {
    if views != [] { CountAll(views[..|views| - 1], all); }
  }

  lemma EveryViewCounted(pool: Pool, rows: map<Ip, RowState>, n: nat)
    requires Reachable(pool, rows) && n == pool.end - pool.start + 1
    ensures var listed := ViewsUpTo(rows, pool.start, n);
            Count(listed, {Used, Imported}) + Count(listed, {ReservedView}) + Count(listed, {Available}) == n
  {
    var listed := ViewsUpTo(rows, pool.start, n);
    var all := {Used, Imported} + {ReservedView} + {Available};
    forall k | 0 <= k < n ensures listed[k].state in all {
      var ip := pool.start + k;
      assert listed[k] == ViewOf(rows, ip);
      assert ip in rows ==> rows[ip] != RouterRow;
    }
    CountAll(listed, all);
    CountsPartition(listed, {Used, Imported}, {ReservedView});
    CountsPartition(listed, {Used, Imported} + {ReservedView}, {Available});
  }

  /** The statistics agree with the listing, the three numbers add up to the size of the range, and the clamp at zero
      never takes effect. */
  lemma StatsMatchListing(pool: Pool, rows: map<Ip, RowState>)
    requires Reachable(pool, rows)
    ensures var s, listed := GetPoolStats(pool, rows), ViewsUpTo(rows, pool.start, pool.end - pool.start + 1);
            && s.used == Count(listed, {Used, Imported}) && s.reserved == Count(listed, {ReservedView})
            && s.available == Count(listed, {Available})
            && s.used + s.reserved + s.available == s.total == |listed|
            && s.available == s.total - s.used - s.reserved
  {
    var n := pool.end - pool.start + 1;
    var listed := ViewsUpTo(rows, pool.start, n);
    CountIsCardinality(rows, pool.start, n, {Used, Imported});
    CountIsCardinality(rows, pool.start, n, {ReservedView});
    assert UsedRows(rows) == RowsViewedAs(rows, pool.start, n, {Used, Imported});
    assert ReservedRows(rows) == RowsViewedAs(rows, pool.start, n, {ReservedView});
    EveryViewCounted(pool, rows, n);
  }

  // ---------------------------------------------------------------------------------------------
  // Pages

  function Min(a: int, b: int): int { if a < b then a else b }

  function Max(a: int, b: int): int { if a > b then a else b }

  /** JavaScript's `slice` on non-negative bounds. */
  function Slice<T>(s: seq<T>, from: nat, to: nat): seq<T> {
    var lo, hi := Min(from, |s|), Min(to, |s|);
    if lo <= hi then s[lo..hi] else []
  }

  function Limit(limit: int): (r: nat)
    ensures 25 <= r <= 250 && (25 <= limit <= 250 ==> r == limit)
    ensures limit < 25 ==> r == 25
    ensures limit > 250 ==> r == 250
  {
    Min(250, Max(25, limit))
  }

  function Pages(length: nat, limit: int): nat {
    Max(1, (length + Limit(limit) - 1) / Limit(limit))
  }

  function Page<T>(s: seq<T>, page: int, limit: int): seq<T> {
    var p := Max(1, page);
    MulMonotone(0, p - 1, Limit(limit));
    Slice(s, (p - 1) * Limit(limit), p * Limit(limit))
  }

  function FirstPages<T>(s: seq<T>, n: nat, limit: int): seq<T> {
    if n == 0 then [] else FirstPages(s, n - 1, limit) + Page(s, n, limit)
  }

  lemma NextSlice<T>(s: seq<T>, from: nat, to: nat)
    requires from <= to
    ensures s[..Min(from, |s|)] + Slice(s, from, to) == s[..Min(to, |s|)]
  {
  }

  lemma MinOfZero(length: nat)
    ensures Min(0, length) == 0
  {
  }

  lemma {:induction false} FirstPagesArePrefix<T>(s: seq<T>, n: nat, limit: int)
    ensures FirstPages(s, n, limit) == s[..Min(n * Limit(limit), |s|)]
  {
    hide Slice, Limit, Min;
    var size := Limit(limit);
    if n == 0 {
      MinOfZero(|s|);
    } else {
      FirstPagesArePrefix(s, n - 1, limit);
      assert (n - 1) * size + size == n * size;
      MulMonotone(n - 1, n, size);
      NextSlice(s, (n - 1) * size, n * size);
    }
  }

  lemma PagesCover(length: nat, size: nat)
    requires size > 0
    ensures Max(1, (length + size - 1) / size) * size >= length
  {
    var q := (length + size - 1) / size;
    DivBounds(length + size - 1, size);
    MulMonotone(q, Max(1, q), size);
  }

  /** Reading pages one to `Pages` gives back the whole filtered and sorted list, each row once. */
  lemma PagesConcatenate<T>(s: seq<T>, limit: int)
    ensures FirstPages(s, Pages(|s|, limit), limit) == s
  {
    FirstPagesArePrefix(s, Pages(|s|, limit), limit);
    PagesCover(|s|, Limit(limit));
    assert s[..|s|] == s;
  }

  /** No page is empty, except the only page of an empty list. */
  lemma LastPageHasRows(length: nat, limit: int)
    ensures (Pages(length, limit) - 1) * Limit(limit) < length || Pages(length, limit) == 1
  {
    hide Limit;
    var size, pages := Limit(limit), (length + Limit(limit) - 1) / Limit(limit);
    DivBounds(length + size - 1, size);
    assert (pages - 1) * size == pages * size - size;
  }
}

/** The two halves together: whatever interleaving of transactions produced the rows, the report about a pool is
    exact. */
module PoolReport {
  import opened IpCidr
  import P = PoolProtocol
  import A = PoolAddresses

  /** The rows of one pool, with the origin of each peer. */
  function RowsOf(s: P.State, id: P.PoolId, imported: set<P.PeerId>): map<Ip, A.RowState> {
    map ip | ip in s.rows && s.rows[ip].pool == id ::
      match s.rows[ip].state
      case Reserved => A.Reserved
      case Allocated(peer) => A.Allocated(peer in imported)
      case RouterRow => A.RouterRow
  }

  /** The statistics count the allocated and the reserved rows of this pool. */
  lemma ReportCounts(s: P.State, id: P.PoolId, imported: set<P.PeerId>)
    requires id in s.pools
    ensures var stats := A.GetPoolStats(s.pools[id], RowsOf(s, id, imported));
            && stats.used == |set ip | ip in s.rows && s.rows[ip].pool == id && s.rows[ip].state.Allocated?|
            && stats.reserved == |set ip | ip in s.rows && s.rows[ip].pool == id && s.rows[ip].state == P.Reserved|
  {
    var rows := RowsOf(s, id, imported);
    assert A.UsedRows(rows) == set ip | ip in s.rows && s.rows[ip].pool == id && s.rows[ip].state.Allocated?;
    assert A.ReservedRows(rows) == set ip | ip in s.rows && s.rows[ip].pool == id && s.rows[ip].state == P.Reserved;
  }

  lemma ReportIsExact(s: P.State, steps: seq<P.Step>, id: P.PoolId, imported: set<P.PeerId>)
    requires P.Quiescent(s) && id in P.Exec(s, steps).pools
    ensures var r := P.Exec(s, steps);
            var pool, rows := r.pools[id], RowsOf(r, id, imported);
            && pool.start <= pool.end
            && var stats, listed :=
              A.GetPoolStats(pool, rows), A.ViewsUpTo(rows, pool.start, pool.end - pool.start + 1);
               && stats.used == A.Count(listed, {A.Used, A.Imported})
               && stats.reserved == A.Count(listed, {A.ReservedView})
               && stats.available == A.Count(listed, {A.Available})
               && stats.used + stats.reserved + stats.available == stats.total
  {
    P.PoolsStaySound(s, steps);
    var r := P.Exec(s, steps);
    var pool, rows := r.pools[id], RowsOf(r, id, imported);
    assert A.Reachable(pool, rows);
    A.StatsMatchListing(pool, rows);
  }
}
