/** The operations of `src/server/traffic-accounting.ts` and the quota edits of `src/server/peer-service.ts` as steps
    on one peer's row and history. Router calls may fail; a failing call has no effect. Every reading of the clock is a
    parameter. */
module AccountingService {
  import opened Wrappers
  import opened Calendar
  import opened Accounting

  /** What a poll reports of one peer; `Failed` is the exception of a router call. */
  datatype Action = Nothing | Disabled | Reenabled | Failed

  /** The row `createPeer` inserts. A limit without a period gets no window. */
  function NewRow(limit: Option<Limit>, period: Option<Period>, now: Instant, policy: Policy, zone: Zone): Row {
    var timed := limit.Some? && period.Some?;
    var w := if timed then Expected(now, period.value, policy, zone) else PeriodWindow(now, None);
    Row(limit, if limit.Some? then period else None, if timed then Some(w.start) else None,
        if timed then w.end else None,
        0, 0, 0, 0, None, None, None, None, None, false, None, false)
  }

  lemma ExpectedEnd(now: Instant, period: Period, policy: Policy, zone: Zone)
    ensures Expected(now, period, policy, zone).end.Some? <==> period != OneTime
  {
    hide QuotaWindow;
  }

  lemma NewRowIsConsistent(limit: Option<Limit>, period: Option<Period>, now: Instant, policy: Policy, zone: Zone)
    ensures var row := NewRow(limit, period, now, policy, zone);
            RowInv(row) && Used(row) == Lifetime(row) == 0 && !row.disabled
            && (row.start.Some? <==> limit.Some? && period.Some?)
            && row.limit == limit && (row.period.Some? <==> limit.Some? && period.Some?)
  {
    hide Expected;
    if period.Some? { ExpectedEnd(now, period.value, policy, zone); }
  }

  /** A quota with a period starts in the window of the creation, or at the creation itself if it is one-time. */
  lemma NewRowWindow(limit: Limit, period: Period, now: Instant, policy: Policy, zone: Zone)
    ensures var row, w := NewRow(Some(limit), Some(period), now, policy, zone), QuotaWindow(now, period, policy, zone);
            && (row.limit, row.period) == (Some(limit), Some(period))
            && (row.start, row.end) == (if period == OneTime then (Some(now), None) else (Some(w.start), Some(w.end)))
            && (row.lastRx, row.lastTx, row.reachedAt, row.bypassUntil, row.expired) == (None, None, None, None, false)
  {
    hide QuotaWindow;
  }

  lemma NewRowChains(limit: Option<Limit>, period: Option<Period>, now: Instant, policy: Policy, zone: Zone,
                     offset: int)
    requires ValidPolicy(policy) && FixedOffset(zone, offset)
    ensures Chained(Account(NewRow(limit, period, now, policy, zone), []), 0, now, policy, zone)
  {
    hide QuotaWindow, FixedOffset;
    if limit.Some? && Repeating(period) { BoundaryAtEnd(now, period.value, policy, zone, offset); }
  }

  /** The accounting columns of one peer. Where an operation takes `routerUp`, it says whether everything on the router
      side goes well: the drift check, which `DriftResolution` models, and the write after it. */
  class PeerAccount {
    const policy: Policy
    const zone: Zone
    var row: Row
    var history: seq<Entry>
    /** Bytes dropped by edits of a period that never had a start. */
    ghost var forgotten: nat
    ghost const balance: int
    /** The entries from `chain` on were written under one period setting. */
    ghost var chain: nat
    /** No manual reset since then crossed a window boundary between its readings of the clock. */
    ghost var orderly: bool
    ghost var clock: Instant
    /** The row was created with a period exactly when it has a limit, as every request creates it. */
    ghost const paired: bool
    /** What the ledger showed beyond the lifetime counters when the quota was set. */
    ghost var opening: int

    ghost function State(): Account reads this {
      Account(row, history)
    }

    ghost predicate FixedZone() {
      ValidPolicy(policy) && exists offset :: FixedOffset(zone, offset)
    }

    /** In every reachable state: the row is consistent, no byte is lost unnoticed, and the intervals are in order. */
    ghost predicate Valid() reads this {
      && RowInv(row)
      && Ledger(State()) + forgotten == Lifetime(row) + balance
      && chain <= |history|
      && (FixedZone() && orderly ==> Chained(State(), chain, clock, policy, zone))
      && (paired ==> (row.limit.Some? <==> row.period.Some?))
      && (paired && row.limit.Some? ==> Ledger(State()) == Lifetime(row) + opening)
    }

    constructor (policy: Policy, zone: Zone, limit: Option<Limit>, period: Option<Period>, now: Instant)
      ensures Valid() && this.policy == policy && this.zone == zone && history == [] && forgotten == 0 && orderly
              && clock == now
      ensures row == NewRow(limit, period, now, policy, zone) && paired == (limit.Some? ==> period.Some?)
              && opening == 0
    {
      hide NewRow, Chained, FixedOffset, RowInv;
      this.policy, this.zone, row, history := policy, zone, NewRow(limit, period, now, policy, zone), [];
      forgotten, balance, chain, orderly, clock, paired, opening := 0, 0, 0, true, now, limit.Some? ==> period.Some?, 0;
      new;
      NewRowIsConsistent(limit, period, now, policy, zone);
      if FixedZone() {
        ghost var offset :| FixedOffset(zone, offset);
        NewRowChains(limit, period, now, policy, zone, offset);
      }
    }

    method ArchivePeriod(endedAt: Instant, cause: Cause)
      modifies `history
      ensures history == Closed(old(State()), endedAt, cause)
    {
      if row.period.None? || row.start.None? { return; }
      history := history
                 + [Entry(row.period.value, row.limit, row.rx, row.tx, row.start.value, endedAt, row.reachedAt,
                          row.whenDisabled, cause)];
    }

    /** The first half of the transaction: close a period that has ended and open the one that contains now. */
    method RollPeriod(now: Instant) returns (start: Option<Instant>, end: Option<Instant>, rolled: bool)
      modifies `history
      ensures rolled == Rolls(row, now) && (start, end) == PeriodAt(row, now, policy, zone)
      ensures history == HistoryAt(old(State()), now)
    {
      hide QuotaWindow;
      start, end, rolled := row.start, row.end, false;
      if row.limit.Some? && row.period.Some? {
        var expected := Expected(now, row.period.value, policy, zone);
        if row.period.value == OneTime {
          start := if start.Some? then start else Some(expected.start);
          end := None;
        } else if start.None? || end.None? || now >= end.value {
          if start.Some? { ArchivePeriod(if end.Some? then end.value else now, Scheduled); }
          start, end, rolled := Some(expected.start), expected.end, true;
        }
      }
    }

    /** The whole transaction: the second half credits the counters. */
    method ApplyObservation(seen: Counters, now: Instant) returns (rolled: bool)
      modifies `row, `history
      ensures rolled == Rolls(old(row), now) && State() == Observed(old(State()), seen, now, policy, zone)
    {
      hide QuotaWindow, CounterDelta, PeriodAt, HistoryAt, Rolls;
      var deltaRx, deltaTx := CounterDelta(row.lastRx, seen.rx), CounterDelta(row.lastTx, seen.tx);
      var periodStart, periodEnd;
      periodStart, periodEnd, rolled := RollPeriod(now);
      var periodRx, periodTx := if rolled then 0 else row.rx, if rolled then 0 else row.tx;
      periodRx, periodTx := periodRx + deltaRx, periodTx + deltaTx;
      var reached := row.limit.Some? && periodRx + periodTx >= row.limit.value;
      row := row.(lastRx := Some(seen.rx), lastTx := Some(seen.tx), rx := periodRx, tx := periodTx,
                  lifetimeRx := row.lifetimeRx + deltaRx, lifetimeTx := row.lifetimeTx + deltaTx,
                  start := periodStart, end := periodEnd,
                  reachedAt := if reached then (if row.reachedAt.Some? then row.reachedAt else Some(now))
                               else if rolled then None else row.reachedAt,
                  whenDisabled := if rolled then None else row.whenDisabled,
                  bypassUntil := if rolled then None else row.bypassUntil);
    }

    lemma ObservedPairs(a: Account, seen: Counters, now: Instant, policy: Policy, zone: Zone)
      ensures var b := Observed(a, seen, now, policy, zone);
              b.row.limit == a.row.limit && b.row.period == a.row.period && |b.history| >= |a.history|
    {
      hide QuotaWindow, CounterDelta;
    }

    lemma ObservationStaysChained(before: Account, from: nat, earlier: Instant, seen: Counters, now: Instant)
      requires RowInv(before.row) && earlier <= now
      requires FixedZone() && orderly ==> Chained(before, from, earlier, policy, zone)
      ensures FixedZone() && orderly ==> Chained(Observed(before, seen, now, policy, zone), from, now, policy, zone)
    {
      hide QuotaWindow, Chained, FixedOffset, RowInv, Observed;
      if FixedZone() && orderly {
        ghost var offset :| FixedOffset(zone, offset);
        ObservedChains(before, from, earlier, seen, now, policy, zone, offset);
      }
    }

    /** `recordObservation`, one transaction. */
    method RecordObservation(seen: Counters, now: Instant) returns (rolled: bool)
      requires Valid() && clock <= now
      modifies `row, `history, `clock
      ensures Valid() && clock == now
      ensures rolled == Rolls(old(row), now) && State() == Observed(old(State()), seen, now, policy, zone)
    {
      hide QuotaWindow, Chained, Archived, FixedZone, Observed, Rolls, Used, Lifetime, RowInv;
      ghost var before := State();
      ObservedKeeps(before, seen, now, policy, zone);
      ObservedPairs(before, seen, now, policy, zone);
      ObservationStaysChained(before, chain, clock, seen, now);
      rolled := ApplyObservation(seen, now);
      clock := now;
    }

    /** `setRemoteQuotaState`: the router first, then the row. */
    method SetRemoteQuotaState(disabled: bool, routerUp: bool) returns (ok: bool)
      requires Valid() && (disabled ==> Over(row))
      modifies `row
      ensures Valid() && ok == routerUp
      ensures row == if !ok then old(row) else if disabled then Blocked(old(row)) else Freed(old(row))
    {
      hide QuotaWindow;
      if !routerUp { return false; }
      row := row.(disabled := disabled, reason := if disabled then Some(QuotaReached) else None,
                  whenDisabled := if disabled then Some(row.rx + row.tx) else None,
                  bypassUntil := if disabled then None else row.bypassUntil);
      ok := true;
    }

    /** `enforceObservation`; `answers` says which of its router calls succeed. */
    method EnforceObservation(remoteDisabled: bool, rolled: bool, later: Instant, answers: nat -> bool)
        returns (action: Action)
      requires Valid() && (rolled ==> row.bypassUntil.None?)
      modifies `row
      ensures Valid()
      ensures action != Failed ==> row == Enforced(old(row), rolled, remoteDisabled, later)
      ensures action == Failed ==> row == old(row) || (Frees(old(row), rolled) && row == Freed(old(row)))
      ensures action == Disabled ==> !QuotaDisabled(old(row)) || rolled
      ensures action == Nothing ==> row == old(row) || (rolled && QuotaDisabled(old(row)) && old(row).expired)
      ensures action == Reenabled ==> QuotaDisabled(old(row)) && !row.disabled
    {
      hide Valid;
      var flag, didReenable := remoteDisabled, false;
      if rolled && row.disabled && row.reason == Some(QuotaReached) {
        var ok := SetRemoteQuotaState(false, answers(0));
        if !ok { return Failed; }
        flag, didReenable := false, true;
      }
      if !Over(row) {
        if row.disabled && row.reason == Some(QuotaReached) {
          var ok := SetRemoteQuotaState(false, answers(1));
          return if ok then Reenabled else Failed;
        }
        return if didReenable then Reenabled else Nothing;
      }
      if BypassActive(row, later) || row.expired || (row.disabled && row.reason != Some(QuotaReached)) {
        return Nothing;
      }
      if row.disabled && row.reason == Some(QuotaReached) { return Nothing; }
      if flag && !row.disabled { return Nothing; }
      var ok := SetRemoteQuotaState(true, answers(2));
      action := if ok then Disabled else Failed;
    }

    lemma ObservedBypass(a: Account, seen: Counters, now: Instant, policy: Policy, zone: Zone)
      ensures Rolls(a.row, now) ==> Observed(a, seen, now, policy, zone).row.bypassUntil.None?
      ensures Observed(a, seen, now, policy, zone).row.disabled == a.row.disabled
              && Observed(a, seen, now, policy, zone).row.reason == a.row.reason
    {
      hide QuotaWindow, CounterDelta;
    }

    lemma RowIsConsistent()
      requires Valid()
      ensures RowInv(row)
    {
    }

    /** One peer's share of `pollRouterTraffic`. The observation is committed even if the router then refuses. */
    method Poll(seen: Counters, now: Instant, later: Instant, answers: nat -> bool) returns (action: Action)
      requires Valid() && clock <= now
      modifies `row, `history, `clock
      ensures Valid() && clock == now
      ensures history == Observed(old(State()), seen, now, policy, zone).history
      ensures action != Failed ==> State() == Polled(old(State()), seen, now, later, policy, zone)
      ensures action == Failed ==>
                var b := Observed(old(State()), seen, now, policy, zone).row;
                row == b || (Frees(b, Rolls(old(row), now)) && row == Freed(b))
      ensures old(row).disabled && !row.disabled ==> old(row).reason == Some(QuotaReached)
      ensures Conserves(old(State()), State())
    {
      hide Valid, QuotaWindow, CounterDelta, Archived, Rolls, Observed;
      ghost var before := State();
      ObservedKeeps(before, seen, now, policy, zone) by { RowIsConsistent(); }
      var rolled := RecordObservation(seen, now);
      ObservedBypass(before, seen, now, policy, zone);
      action := EnforceObservation(seen.disabled, rolled, later, answers);
    }

    /** `setPeerEnabled`. A quota block is not lifted this way. */
    method SetEnabled(enabled: bool, reason: Reason, routerUp: bool) returns (ok: bool)
      requires Valid() && reason != QuotaReached
      modifies `row
      ensures Valid() && ok == (routerUp && !(enabled && old(row).reason == Some(QuotaReached)))
      ensures row == if !ok then old(row)
                     else if enabled then old(row).(disabled := false, expired := false, reason := None)
                     else old(row).(disabled := true, reason := Some(reason), bypassUntil := None)
    {
      hide QuotaWindow;
      if enabled && row.reason == Some(QuotaReached) { return false; }
      if !routerUp { return false; }
      row := row.(disabled := !enabled, expired := if enabled then false else row.expired,
                  reason := if enabled then None else Some(reason),
                  bypassUntil := if enabled then row.bypassUntil else None);
      ok := true;
    }

    /** One peer's turn of `enforceExpirations`: the flag is stored before the router is asked. */
    method EnforceExpiration(routerUp: bool) returns (ok: bool)
      requires Valid()
      modifies `row
      ensures Valid() && row.expired && ok == routerUp
      ensures row == if ok
                     then old(row).(expired := true, disabled := true, reason := Some(Expired), bypassUntil := None)
                     else old(row).(expired := true)
    {
      hide QuotaWindow;
      row := row.(expired := true);
      ok := SetEnabled(false, Expired, routerUp);
    }

    /** `temporarilyReenablePeer`. */
    method TemporarilyReenable(minutes: nat, now: Instant, routerUp: bool) returns (ok: bool)
      requires Valid()
      modifies `row
      ensures Valid()
      ensures ok == (routerUp && Over(old(row)) && !old(row).expired
                     && (old(row).reason == None || old(row).reason == Some(QuotaReached)))
      ensures row == if ok
                     then old(row).(disabled := false, reason := None, bypassUntil := Some(now + minutes * 60_000))
                     else old(row)
    {
      hide QuotaWindow;
      if row.limit.None? || row.reachedAt.None? { return false; }
      if row.expired || row.reason == Some(Expired) { return false; }
      if row.reason == Some(Manual) { return false; }
      assert row.reason.Some? ==> row.reason.value.QuotaReached?;
      if !routerUp { return false; }
      row := row.(disabled := false, reason := None, bypassUntil := Some(now + minutes * 60_000));
      ok := true;
    }

    /** `resetPeerQuotaUsage`; the router is called only for a quota block, `routerUp` also covers the drift check. */
    method ResetUsage(windowAt: Instant, closedAt: Instant, startAt: Instant, routerUp: bool) returns (ok: bool)
      requires Valid() && clock <= windowAt <= closedAt <= startAt
      modifies `row, `history, `clock, `orderly
      ensures Valid() && clock == startAt
      ensures ok == (routerUp && old(row).limit.Some? && old(row).period.Some?)
      ensures State() == if ok then ResetDone(old(State()), windowAt, closedAt, startAt, policy, zone) else old(State())
      ensures orderly == (old(orderly)
                          && (ok && Repeating(old(row).period) ==>
                                startAt <= QuotaWindow(windowAt, old(row).period.value, policy, zone).end))
      ensures Conserves(old(State()), State())
    {
      hide QuotaWindow, Archived;
      ghost var before, then_ := State(), clock;
      clock := startAt;
      if row.limit.None? || row.period.None? || !routerUp { return false; }
      ResetKeeps(before, windowAt, closedAt, startAt, policy, zone);
      var window := Expected(windowAt, row.period.value, policy, zone);
      if row.start.Some? { ArchivePeriod(closedAt, ManualReset); }
      var freed := row.reason == Some(QuotaReached);
      row := row.(rx := 0, tx := 0, start := Some(startAt), end := window.end, reachedAt := None, whenDisabled := None,
                  bypassUntil := None,
                  disabled := if freed then false else row.disabled, reason := if freed then None else row.reason);
      orderly := orderly && (Repeating(row.period) ==> startAt <= window.end.value);
      if FixedZone() && orderly {
        ghost var offset :| FixedOffset(zone, offset);
        ResetChainsExactly(before, chain, then_, windowAt, closedAt, startAt, policy, zone, offset);
      }
      ok := true;
    }

    lemma EditStaysChained(before: Account, from: nat, earlier: Instant, edit: QuotaEdit, windowAt: Instant,
                           closedAt: Instant)
      requires RowInv(before.row) && earlier <= windowAt <= closedAt
      requires FixedZone() ==> StartsOver(before.row, edit) || !orderly || Chained(before, from, earlier, policy, zone)
      ensures var b := Configured(before, edit, windowAt, closedAt, policy, zone);
              FixedZone() && (orderly || StartsOver(before.row, edit)) ==>
                Chained(b, if StartsOver(before.row, edit) then |b.history| else from, closedAt, policy, zone)
    {
      hide QuotaWindow, Chained, FixedOffset, Configured, StartsOver, RowInv;
      if FixedZone() && (orderly || StartsOver(before.row, edit)) {
        ghost var offset :| FixedOffset(zone, offset);
        ConfiguredChains(before, from, earlier, edit, windowAt, closedAt, policy, zone, offset);
      }
    }

    lemma StartsWithPeriod(r: Row)
      requires RowInv(r)
      ensures (r.start.Some? <==> r.period.Some?) && (r.period.Some? ==> r.limit.Some?)
    {
    }

    lemma LaterStaysChained(a: Account, from: nat, earlier: Instant, later: Instant)
      requires earlier <= later
      ensures Chained(a, from, earlier, policy, zone) ==> Chained(a, from, later, policy, zone)
    {
      hide QuotaWindow, InOrder;
    }

    method ApplyQuota(edit: QuotaEdit, windowAt: Instant, closedAt: Instant)
      requires RowInv(row)
      modifies `row, `history
      ensures State() == Configured(old(State()), edit, windowAt, closedAt, policy, zone)
    {
      hide QuotaWindow;
      var oldLimit, limit, period := row.limit, NewLimit(row, edit), NewPeriod(row, edit);
      var adding, removing := oldLimit.None? && limit.Some?, oldLimit.Some? && limit.None?;
      var periodChanged := oldLimit.Some? && limit.Some? && row.period != period;
      var next := row.(limit := limit, period := period);
      if limit.None? {
        next := next.(start := None, end := None, rx := 0, tx := 0, reachedAt := None, whenDisabled := None,
                      bypassUntil := None);
      } else {
        if adding || periodChanged || row.start.None? {
          var window := Expected(windowAt, period.value, policy, zone);
          next := next.(start := Some(window.start), end := window.end, rx := 0, tx := 0);
        }
        var used := next.rx + next.tx;
        var reached := used >= limit.value;
        next := next.(reachedAt := if reached then Some(OptionOr(row.reachedAt, windowAt)) else None,
                      whenDisabled := if reached && row.reason == Some(QuotaReached) then Some(used) else None,
                      bypassUntil := if oldLimit != limit || periodChanged then None else row.bypassUntil);
      }
      if row.reason == Some(QuotaReached) && !Over(next) {
        next := next.(disabled := false, reason := None);
      } else if Over(next) && !row.expired && !row.disabled {
        next := next.(disabled := true, reason := Some(QuotaReached));
      }
      if next.reason == Some(QuotaReached) { next := next.(whenDisabled := Some(Used(next))); }
      if row.start.Some? && (removing || periodChanged) {
        ArchivePeriod(closedAt, if removing then LimitRemoved else ConfigurationChanged);
      }
      row := next;
    }

    /** `quotaConfiguration` and the part of `updatePeer` that follows from it. */
    method ConfigureQuota(edit: QuotaEdit, windowAt: Instant, closedAt: Instant, routerUp: bool) returns (ok: bool)
      requires Valid() && clock <= windowAt <= closedAt
      modifies `row, `history, `clock, `chain, `orderly, `forgotten, `opening
      ensures Valid() && clock == closedAt && ok == routerUp
      ensures State() == if ok then Configured(old(State()), edit, windowAt, closedAt, policy, zone) else old(State())
      ensures forgotten == old(forgotten) + if ok && old(row).start.None? then Used(old(row)) else 0
      ensures Conserves(old(State()), State()) <==> (!ok || old(row).start.Some? || Used(old(row)) == 0)
      ensures paired && old(row).limit.Some? ==> opening == old(opening) && Ledger(State()) == Lifetime(row) + opening
    {
      hide QuotaWindow, Archived, Chained, FixedOffset, Configured, StartsOver, NewLimit, RowInv, FixedZone, Used,
           Lifetime;
      ghost var before, then_ := State(), clock;
      StartsWithPeriod(before.row);
      ConfiguredPairs(before, edit, windowAt, closedAt, policy, zone);
      clock := closedAt;
      ConfiguredKeeps(before, edit, windowAt, closedAt, policy, zone);
      LaterStaysChained(before, chain, then_, closedAt);
      if !routerUp { return false; }
      EditStaysChained(before, chain, then_, edit, windowAt, closedAt);
      ApplyQuota(edit, windowAt, closedAt);
      if StartsOver(before.row, edit) { chain, orderly := |history|, true; }
      if before.row.start.None? { forgotten := forgotten + Used(before.row); }
      if before.row.limit.None? { opening := Ledger(State()) - Lifetime(row); }
      ok := true;
    }
  }
}
