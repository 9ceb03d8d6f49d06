/** Traffic accounting and quota enforcement: `src/server/traffic-accounting.ts`, the quota edits of
    `src/server/peer-service.ts`, and `counterDelta` of `src/server/quota.ts`. */
module Accounting {
  import opened Wrappers
  import opened Calendar

  type Limit = x: int | x > 0 witness 1

  datatype Reason = Manual | Expired | QuotaReached
  datatype Cause = Scheduled | ManualReset | ConfigurationChanged | LimitRemoved

  /** The accounting columns of a peer. */
  datatype Row = Row(
    limit: Option<Limit>, period: Option<Period>, start: Option<Instant>, end: Option<Instant>,
    rx: nat, tx: nat, lifetimeRx: nat, lifetimeTx: nat, lastRx: Option<nat>, lastTx: Option<nat>,
    reachedAt: Option<Instant>, whenDisabled: Option<nat>, bypassUntil: Option<Instant>,
    disabled: bool, reason: Option<Reason>, expired: bool)

  /** A row of `quota_period_history`. */
  datatype Entry = Entry(
    period: Period, limit: Option<Limit>, rx: nat, tx: nat, start: Instant, end: Instant,
    reachedAt: Option<Instant>, whenDisabled: Option<nat>, cause: Cause)

  datatype Account = Account(row: Row, history: seq<Entry>)

  /** What the router shows of the peer. */
  datatype Counters = Counters(rx: nat, tx: nat, disabled: bool)

  // ---------------------------------------------------------------------------------------------
  // Counters

  /** `counterDelta`: a counter below the last one seen was reset and counts from zero. */
  function CounterDelta(previous: Option<nat>, current: nat): nat {
    if previous.None? then 0 else if current >= previous.value then current - previous.value else current
  }

  /** What happens to one router counter between two polls. */
  datatype Traffic = Transfer(bytes: nat) | Restart

  function CounterAfter(counter: nat, events: seq<Traffic>): nat
    decreases |events|
  {
    if events == [] then counter
    else match events[0]
      case Transfer(bytes) => CounterAfter(counter + bytes, events[1..])
      case Restart => CounterAfter(0, events[1..])
  }

  function Bytes(events: seq<Traffic>): nat {
    if events == [] then 0 else (if events[0].Transfer? then events[0].bytes else 0) + Bytes(events[1..])
  }

  /** The traffic a restart hides from the next poll. */
  function BytesBeforeLastRestart(events: seq<Traffic>): nat {
    if Restart !in events then 0
    else (if events[0].Transfer? then events[0].bytes else 0) + BytesBeforeLastRestart(events[1..])
  }

  lemma {:induction false} CounterSplits(counter: nat, events: seq<Traffic>)
    ensures Restart !in events ==> CounterAfter(counter, events) == counter + Bytes(events)
    ensures Restart in events ==> CounterAfter(counter, events) + BytesBeforeLastRestart(events) == Bytes(events)
    decreases |events|
  {
    if events != [] {
      assert events == [events[0]] + events[1..];
      CounterSplits(match events[0] case Transfer(bytes) => counter + bytes case Restart => 0, events[1..]);
      if Restart !in events[1..] { assert BytesBeforeLastRestart(events[1..]) == 0; }
    }
  }

  /** One poll credits the true traffic less what restarts hide: the bytes before the last restart and, when the
      counter has overtaken its old value again, that value. */
  lemma PollCredits(counter: nat, events: seq<Traffic>)
    ensures var now := CounterAfter(counter, events);
            Bytes(events) == CounterDelta(Some(counter), now) +
                             if Restart in events
                             then BytesBeforeLastRestart(events) + (if now >= counter then counter else 0) else 0
  {
    CounterSplits(counter, events);
  }

  function Credited(counter: nat, rounds: seq<seq<Traffic>>): nat
    decreases |rounds|
  {
    if rounds == [] then 0
    else
      var now := CounterAfter(counter, rounds[0]);
      CounterDelta(Some(counter), now) + Credited(now, rounds[1..])
  }

  function Transferred(rounds: seq<seq<Traffic>>): nat {
    if rounds == [] then 0 else Bytes(rounds[0]) + Transferred(rounds[1..])
  }

  /** Over any run of polls the credited growth never exceeds the traffic, and equals it when nothing restarted. */
  lemma {:induction false} NeverOvercounts(counter: nat, rounds: seq<seq<Traffic>>)
    ensures Credited(counter, rounds) <= Transferred(rounds)
    ensures (forall round :: round in rounds ==> Restart !in round) ==> Credited(counter, rounds) == Transferred(rounds)
    decreases |rounds|
  {
    if rounds != [] {
      PollCredits(counter, rounds[0]);
      NeverOvercounts(CounterAfter(counter, rounds[0]), rounds[1..]);
    }
  }

  // ---------------------------------------------------------------------------------------------
  // What the columns mean

  function Used(row: Row): nat {
    row.rx + row.tx
  }

  function Lifetime(row: Row): nat {
    row.lifetimeRx + row.lifetimeTx
  }

  predicate Over(row: Row) {
    row.limit.Some? && Used(row) >= row.limit.value
  }

  predicate BypassActive(row: Row, now: Instant) {
    row.bypassUntil.Some? && row.bypassUntil.value > now
  }

  predicate Repeating(period: Option<Period>) {
    period.Some? && period.value != OneTime
  }

  /** The state the operations keep. A period needs a limit and comes with a start; a repeating one has an end. */
  predicate RowInv(row: Row) {
    && (row.period.Some? ==> row.limit.Some?)
    && (row.start.Some? <==> row.period.Some?)
    && (row.end.Some? <==> Repeating(row.period))
    && (row.reachedAt.Some? <==> Over(row))
    && (row.disabled <==> row.reason.Some?)
  }

  function Archived(history: seq<Entry>): nat {
    if history == [] then 0
    else Archived(history[..|history| - 1]) + history[|history| - 1].rx + history[|history| - 1].tx
  }

  /** Bytes the accounting still shows: archived periods and the current one. */
  function Ledger(a: Account): nat {
    Archived(a.history) + Used(a.row)
  }

  lemma ArchivedGrows(history: seq<Entry>, e: Entry)
    ensures Archived(history + [e]) == Archived(history) + e.rx + e.tx
  {
    assert (history + [e])[..|history|] == history;
  }

  /** Every byte counted is in an archived period or the current one. */
  predicate Conserves(a: Account, b: Account) {
    Ledger(b) - Ledger(a) == Lifetime(b.row) - Lifetime(a.row)
  }

  // ---------------------------------------------------------------------------------------------
  // Polls

  datatype PeriodWindow = PeriodWindow(start: Instant, end: Option<Instant>)

  /** `quotaPeriodWindow` for all periods. */
  function Expected(now: Instant, period: Period, policy: Policy, zone: Zone): PeriodWindow {
    if period == OneTime then PeriodWindow(now, None)
    else
      var w := QuotaWindow(now, period, policy, zone);
      PeriodWindow(w.start, Some(w.end))
  }

  predicate Rolls(row: Row, now: Instant) {
    row.limit.Some? && Repeating(row.period) && (row.start.None? || row.end.None? || now >= row.end.value)
  }

  /** `archivePeriod`: the history after closing the current period at `end`. */
  function Closed(a: Account, end: Instant, cause: Cause): seq<Entry> {
    if a.row.period.None? || a.row.start.None? then a.history
    else a.history
         + [Entry(a.row.period.value, a.row.limit, a.row.rx, a.row.tx, a.row.start.value, end, a.row.reachedAt,
                  a.row.whenDisabled, cause)]
  }

  /** The start and the end of the current period once the clock reads `now`. */
  function PeriodAt(row: Row, now: Instant, policy: Policy, zone: Zone): (Option<Instant>, Option<Instant>) {
    if row.limit.None? || row.period.None? then (row.start, row.end)
    else
      var expected := Expected(now, row.period.value, policy, zone);
      if row.period.value == OneTime then (if row.start.Some? then row.start else Some(expected.start), None)
      else if Rolls(row, now) then (Some(expected.start), expected.end)
      else (row.start, row.end)
  }

  function HistoryAt(a: Account, now: Instant): seq<Entry> {
    if Rolls(a.row, now) then Closed(a, if a.row.end.Some? then a.row.end.value else now, Scheduled) else a.history
  }

  /** The account after the counters were credited, to a new period if the old one has ended. */
  function Observed(a: Account, seen: Counters, now: Instant, policy: Policy, zone: Zone): Account {
    var row := a.row;
    var rolls := Rolls(row, now);
    var dRx, dTx := CounterDelta(row.lastRx, seen.rx), CounterDelta(row.lastTx, seen.tx);
    var credited := row.(
      rx := (if rolls then 0 else row.rx) + dRx, tx := (if rolls then 0 else row.tx) + dTx,
      lifetimeRx := row.lifetimeRx + dRx, lifetimeTx := row.lifetimeTx + dTx,
      lastRx := Some(seen.rx), lastTx := Some(seen.tx),
      start := PeriodAt(row, now, policy, zone).0, end := PeriodAt(row, now, policy, zone).1,
      whenDisabled := if rolls then None else row.whenDisabled, bypassUntil := if rolls then None else row.bypassUntil);
    Account(
      credited.(reachedAt := if Over(credited) then (if row.reachedAt.Some? then row.reachedAt else Some(now))
                             else if rolls then None else row.reachedAt),
      HistoryAt(a, now))
  }

  predicate QuotaDisabled(row: Row) {
    row.disabled && row.reason == Some(QuotaReached)
  }

  predicate Frees(row: Row, rolled: bool) {
    QuotaDisabled(row) && (rolled || !Over(row))
  }

  function Freed(row: Row): Row {
    row.(disabled := false, reason := None, whenDisabled := None)
  }

  function Blocked(row: Row): Row {
    row.(disabled := true, reason := Some(QuotaReached), whenDisabled := Some(Used(row)), bypassUntil := None)
  }

  predicate Blocks(row: Row, remoteDisabled: bool, later: Instant) {
    Over(row) && !BypassActive(row, later) && !row.expired && !row.disabled && !remoteDisabled
  }

  /** The row once every router call of the enforcement succeeded. */
  function Enforced(row: Row, rolled: bool, remoteDisabled: bool, later: Instant): Row {
    var frees := Frees(row, rolled);
    var free := if frees then Freed(row) else row;
    if Blocks(free, remoteDisabled && !frees, later) then Blocked(free) else free
  }

  /** The router's flag after the enforcement: unchanged unless the enforcement wrote it. */
  function FlagAfter(row: Row, rolled: bool, remoteDisabled: bool, later: Instant): bool {
    if Enforced(row, rolled, remoteDisabled, later) == row then remoteDisabled
    else Enforced(row, rolled, remoteDisabled, later).disabled
  }

  function Polled(a: Account, seen: Counters, now: Instant, later: Instant, policy: Policy, zone: Zone): Account {
    var b := Observed(a, seen, now, policy, zone);
    b.(row := Enforced(b.row, Rolls(a.row, now), seen.disabled, later))
  }

  lemma ObservedKeeps(a: Account, seen: Counters, now: Instant, policy: Policy, zone: Zone)
    requires RowInv(a.row)
    ensures RowInv(Observed(a, seen, now, policy, zone).row)
    ensures Conserves(a, Observed(a, seen, now, policy, zone))
    ensures Observed(a, seen, now, policy, zone).row.lifetimeRx
              == a.row.lifetimeRx + CounterDelta(a.row.lastRx, seen.rx)
    ensures Observed(a, seen, now, policy, zone).row.lifetimeTx
              == a.row.lifetimeTx + CounterDelta(a.row.lastTx, seen.tx)
  {
    hide CounterDelta, QuotaWindow, Archived;
    var b := Observed(a, seen, now, policy, zone);
    if Rolls(a.row, now) { ArchivedGrows(a.history, b.history[|a.history|]); }
  }

  /** Column by column: a roll opens the window of now and forgets the block and the bypass of the old period; the
      counters are remembered; and the first poll over the limit leaves its time. */
  lemma ObservedColumns(a: Account, seen: Counters, now: Instant, policy: Policy, zone: Zone)
    requires RowInv(a.row)
    ensures var b, rolled := Observed(a, seen, now, policy, zone).row, a.row.end.Some? && now >= a.row.end.value;
            && (b.limit, b.period, b.disabled, b.reason, b.expired)
               == (a.row.limit, a.row.period, a.row.disabled, a.row.reason, a.row.expired)
            && (b.lastRx, b.lastTx) == (Some(seen.rx), Some(seen.tx))
            && (a.row.lastRx == None ==> b.lifetimeRx == a.row.lifetimeRx)
            && (a.row.lastTx == None ==> b.lifetimeTx == a.row.lifetimeTx)
            && (if rolled then
                  var w := QuotaWindow(now, a.row.period.value, policy, zone);
                  (b.start, b.end, b.whenDisabled, b.bypassUntil) == (Some(w.start), Some(w.end), None, None)
                else
                  (b.start, b.end, b.whenDisabled, b.bypassUntil)
                  == (a.row.start, a.row.end, a.row.whenDisabled, a.row.bypassUntil))
            && b.reachedAt == (if !Over(b) then None else if a.row.reachedAt.Some? then a.row.reachedAt else Some(now))
  {
    hide QuotaWindow;
  }

  predicate QuotaReachedReason(row: Row) {
    row.reason == Some(QuotaReached)
  }

  /** After an enforcement whose calls succeed: the invariant still holds, accounting is untouched, only a quota block
      was lifted, no quota block remains below the limit, and an account over its limit is blocked unless a bypass, an
      expiry or a disabled router peer stands against it. */
  lemma EnforcementIsRight(row: Row, rolled: bool, remoteDisabled: bool, later: Instant)
    requires RowInv(row)
    ensures var after := Enforced(row, rolled, remoteDisabled, later);
            && RowInv(after)
            && after == row.(disabled := after.disabled, reason := after.reason, whenDisabled := after.whenDisabled,
                             bypassUntil := after.bypassUntil)
            && (row.disabled && !after.disabled ==> row.reason == Some(QuotaReached))
            && (row.disabled && row.reason != Some(QuotaReached) ==> after == row)
            && (after.reason == Some(QuotaReached) ==> Over(after))
            && (Over(row) ==> after.disabled || BypassActive(row, later) || row.expired || remoteDisabled)
            && (!Over(row) && !row.disabled ==> after == row)
            && (QuotaReachedReason(after) && after != row ==>
                  after.whenDisabled == Some(Used(row)) && after.bypassUntil == None)
            && (row.disabled && !after.disabled ==> after.whenDisabled == None && after.bypassUntil == row.bypassUntil)
  {
  }

  /** Exactly when an enforcement ends with a disabled peer enabled. An expiry does not hold a quota block in place: it
      only keeps a block that was lifted from being set again. */
  lemma ReenabledExactly(row: Row, rolled: bool, remoteDisabled: bool, later: Instant)
    ensures row.disabled && !Enforced(row, rolled, remoteDisabled, later).disabled
            <==> QuotaDisabled(row) && (if Over(row) then rolled && (BypassActive(row, later) || row.expired) else true)
  {
  }

  /** A peer that expired while blocked for quota is enabled by the first poll of the next period. */
  lemma ExpiredPeerIsEnabled(policy: Policy, zone: Zone) returns (a: Account, b: Account)
    ensures RowInv(a.row) && a.row.disabled && a.row.expired
            && b == Polled(a, Counters(1, 0, true), DAY_MS, DAY_MS, policy, zone)
    ensures b.row.expired && !b.row.disabled
  {
    hide QuotaWindow;
    a := Account(Row(Some(1), Some(Daily), Some(0), Some(DAY_MS), 1, 0, 1, 0, Some(1), Some(0), Some(5), Some(1), None,
                     true, Some(QuotaReached), true), []);
    b := Polled(a, Counters(1, 0, true), DAY_MS, DAY_MS, policy, zone);
  }

  lemma SecondObservation(p: Account, seen: Counters, now: Instant, policy: Policy, zone: Zone)
    requires RowInv(p.row) && !Rolls(p.row, now) && p.row.lastRx == Some(seen.rx) && p.row.lastTx == Some(seen.tx)
    ensures Observed(p, seen, now, policy, zone) == p
  {
    hide QuotaWindow;
  }

  lemma SecondEnforcement(row: Row, rolled: bool, remoteDisabled: bool, later: Instant, later2: Instant)
    requires RowInv(row)
    requires var p := Enforced(row, rolled, remoteDisabled, later); BypassActive(p, later) <==> BypassActive(p, later2)
    ensures var p := Enforced(row, rolled, remoteDisabled, later);
            Enforced(p, false, FlagAfter(row, rolled, remoteDisabled, later), later2) == p
  {
  }

  /** A second poll that sees the same counters, the same period and the same bypass status changes nothing. */
  lemma PollIsIdempotent(a: Account, seen: Counters, now: Instant, later: Instant, now2: Instant, later2: Instant,
                         policy: Policy, zone: Zone)
    requires RowInv(a.row)
    requires var p := Polled(a, seen, now, later, policy, zone).row;
             !Rolls(p, now2) && (BypassActive(p, later) <==> BypassActive(p, later2))
    ensures var b := Observed(a, seen, now, policy, zone).row;
            var again := seen.(disabled := FlagAfter(b, Rolls(a.row, now), seen.disabled, later));
            var p := Polled(a, seen, now, later, policy, zone);
            Polled(p, again, now2, later2, policy, zone) == p
  {
    hide QuotaWindow;
    ObservedKeeps(a, seen, now, policy, zone);
    var b := Observed(a, seen, now, policy, zone);
    var rolled := Rolls(a.row, now);
    var p := Polled(a, seen, now, later, policy, zone);
    EnforcementIsRight(b.row, rolled, seen.disabled, later);
    var again := seen.(disabled := FlagAfter(b.row, rolled, seen.disabled, later));
    SecondObservation(p, again, now2, policy, zone);
    SecondEnforcement(b.row, rolled, seen.disabled, later, later2);
  }

  // ---------------------------------------------------------------------------------------------
  // Edits

  /** `undefined`, `null` or a new limit; and a period, if the form names one. */
  datatype LimitEdit = KeepLimit | RemoveLimit | SetLimit(bytes: Limit)
  datatype QuotaEdit = QuotaEdit(limit: LimitEdit, period: Option<Period>)

  function NewLimit(row: Row, edit: QuotaEdit): Option<Limit> {
    match edit.limit
    case KeepLimit => row.limit
    case RemoveLimit => None
    case SetLimit(bytes) => Some(bytes)
  }

  function NewPeriod(row: Row, edit: QuotaEdit): Option<Period> {
    if NewLimit(row, edit).None? then None
    else if edit.period.Some? then edit.period
    else if row.period.Some? then row.period
    else Some(Monthly)
  }

  /** Whether the edit starts a new period. */
  predicate Restarts(row: Row, edit: QuotaEdit) {
    row.limit.None? || NewPeriod(row, edit) != row.period || row.start.None?
  }

  function OptionOr<T>(o: Option<T>, other: T): T {
    if o.Some? then o.value else other
  }

  /** The account after a committed quota edit; `windowAt` and `closedAt` are the two readings of the clock. */
  function Configured(a: Account, edit: QuotaEdit, windowAt: Instant, closedAt: Instant, policy: Policy,
                      zone: Zone): Account {
    var row := a.row;
    var limit, period := NewLimit(row, edit), NewPeriod(row, edit);
    if limit.None? then
      var bare := row.(limit := None, period := None, start := None, end := None, rx := 0, tx := 0, reachedAt := None,
                       whenDisabled := None, bypassUntil := None);
      Account(if QuotaReachedReason(row) then bare.(disabled := false, reason := None) else bare,
              if row.limit.Some? then Closed(a, closedAt, LimitRemoved) else a.history)
    else
      var w := Expected(windowAt, period.value, policy, zone);
      var restarts := Restarts(row, edit);
      var base := row.(limit := limit, period := period,
                       start := if restarts then Some(w.start) else row.start,
                       end := if restarts then w.end else row.end,
                       rx := if restarts then 0 else row.rx, tx := if restarts then 0 else row.tx,
                       bypassUntil := if row.limit != limit || (row.limit.Some? && row.period != period) then None
                                      else row.bypassUntil);
      var timed := base.(reachedAt := if Over(base) then Some(OptionOr(row.reachedAt, windowAt)) else None,
                         whenDisabled := if Over(base) && QuotaReachedReason(row) then Some(Used(base)) else None);
      var history := if row.limit.Some? && row.period != period then Closed(a, closedAt, ConfigurationChanged)
                     else a.history;
      Account(
        if QuotaReachedReason(row) && !Over(timed) then timed.(disabled := false, reason := None)
        else if Over(timed) && !row.expired && !row.disabled
        then timed.(disabled := true, reason := Some(QuotaReached), whenDisabled := Some(Used(timed)))
        else timed,
        history)
  }

  lemma ConfiguredRow(a: Account, edit: QuotaEdit, windowAt: Instant, closedAt: Instant, policy: Policy, zone: Zone)
    requires RowInv(a.row)
    ensures var b := Configured(a, edit, windowAt, closedAt, policy, zone);
            RowInv(b.row) && Lifetime(b.row) == Lifetime(a.row)
  {
    hide QuotaWindow, Closed;
  }

  lemma ConfiguredLedger(a: Account, edit: QuotaEdit, windowAt: Instant, closedAt: Instant, policy: Policy, zone: Zone)
    requires RowInv(a.row)
    ensures var b := Configured(a, edit, windowAt, closedAt, policy, zone);
            && (a.row.start.Some? ==> Ledger(b) == Ledger(a))
            && (a.row.start.None? ==> Ledger(b) == Archived(a.history))
  {
    hide QuotaWindow, Archived;
    var b := Configured(a, edit, windowAt, closedAt, policy, zone);
    if |b.history| > |a.history| { ArchivedGrows(a.history, b.history[|a.history|]); }
  }

  /** The edit keeps the invariant. It loses bytes exactly when the current period was never given a start: either no
      limit was in force, or one without a period, as a creation without `quotaPeriod` leaves it. */
  lemma ConfiguredKeeps(a: Account, edit: QuotaEdit, windowAt: Instant, closedAt: Instant, policy: Policy, zone: Zone)
    requires RowInv(a.row)
    ensures RowInv(Configured(a, edit, windowAt, closedAt, policy, zone).row)
    ensures Lifetime(Configured(a, edit, windowAt, closedAt, policy, zone).row) == Lifetime(a.row)
    ensures Conserves(a, Configured(a, edit, windowAt, closedAt, policy, zone)) <==>
              (a.row.start.Some? || Used(a.row) == 0)
    ensures a.row.start.None? ==> Ledger(Configured(a, edit, windowAt, closedAt, policy, zone)) == Archived(a.history)
  {
    hide Configured, Archived;
    ConfiguredRow(a, edit, windowAt, closedAt, policy, zone);
    ConfiguredLedger(a, edit, windowAt, closedAt, policy, zone);
  }

  lemma ConfiguredPairs(a: Account, edit: QuotaEdit, windowAt: Instant, closedAt: Instant, policy: Policy, zone: Zone)
    ensures var b := Configured(a, edit, windowAt, closedAt, policy, zone);
            b.row.limit == NewLimit(a.row, edit) && (b.row.period.Some? <==> b.row.limit.Some?)
            && |b.history| >= |a.history|
  {
    hide QuotaWindow;
  }

  /** What an edit decides about the peer: a quota block stays only above the new limit, other blocks stay as they are,
      and a peer above its limit is blocked unless it has expired. */
  lemma ConfiguredDecides(a: Account, edit: QuotaEdit, windowAt: Instant, closedAt: Instant, policy: Policy, zone: Zone)
    requires RowInv(a.row)
    ensures var b := Configured(a, edit, windowAt, closedAt, policy, zone).row;
            && b.limit == NewLimit(a.row, edit) && (QuotaReachedReason(b) ==> Over(b))
            && (a.row.disabled && !QuotaReachedReason(a.row) ==> b.disabled && b.reason == a.row.reason)
            && (Over(b) && !a.row.expired ==> b.disabled)
            && (!a.row.disabled && (!Over(b) || a.row.expired) ==> !b.disabled)
            && (QuotaReachedReason(a.row) ==> (b.disabled <==> Over(b)))
            && b.expired == a.row.expired
            && b.reachedAt == (if Over(b) then Some(OptionOr(a.row.reachedAt, windowAt)) else None)
            && b.whenDisabled == (if QuotaReachedReason(b) then Some(Used(b)) else None)
  {
    hide QuotaWindow;
  }

  /** What an edit does to the period: without a limit there is none; otherwise the named one, else the old one, else
      "monthly". A new one starts at the window of the edit with no usage, and archives what the old one had counted; an
      unchanged limit and period keep the bypass. */
  lemma ConfiguredPeriod(a: Account, edit: QuotaEdit, windowAt: Instant, closedAt: Instant, policy: Policy, zone: Zone)
    requires RowInv(a.row)
    ensures var b := Configured(a, edit, windowAt, closedAt, policy, zone);
            var x, y := a.row, b.row;
            && y.period == (if y.limit == None then None else if edit.period.Some? then edit.period
                            else if x.period.Some? then x.period else Some(Monthly))
            && y.bypassUntil
                 == (if y.limit.Some? && y.limit == x.limit && y.period == x.period then x.bypassUntil else None)
            && (if y.limit == None then
                  (y.rx, y.tx, y.start, y.end) == (0, 0, None, None)
                else if x.limit.Some? && x.start.Some? && y.period == x.period then
                  (y.rx, y.tx, y.start, y.end) == (x.rx, x.tx, x.start, x.end)
                else if y.period == Some(OneTime) then
                  (y.rx, y.tx, y.start, y.end) == (0, 0, Some(windowAt), None)
                else
                  var w := QuotaWindow(windowAt, y.period.value, policy, zone);
                  (y.rx, y.tx, y.start, y.end) == (0, 0, Some(w.start), Some(w.end)))
            && (if x.start.Some? && y.period != x.period then
                  b.history
                    == a.history + [Entry(x.period.value, x.limit, x.rx, x.tx, x.start.value, closedAt, x.reachedAt,
                                                  x.whenDisabled,
                                                  if y.limit == None then LimitRemoved else ConfigurationChanged)]
                else b.history == a.history)
  {
    hide QuotaWindow;
  }

  /** A quota set at creation without a period: the first edit drops what was counted, and nothing is archived. */
  lemma PeriodlessQuotaIsForgotten(a: Account, edit: QuotaEdit, windowAt: Instant, closedAt: Instant, policy: Policy,
                                   zone: Zone)
    requires RowInv(a.row) && a.row.limit.Some? && a.row.period.None?
    ensures Configured(a, edit, windowAt, closedAt, policy, zone).history == a.history
    ensures Used(Configured(a, edit, windowAt, closedAt, policy, zone).row) == 0
  {
    hide QuotaWindow;
  }

  /** Five bytes counted under a limit without a period: an edit that only names a period drops them. */
  lemma FiveBytesForgotten(policy: Policy, zone: Zone) returns (a: Account, b: Account)
    ensures RowInv(a.row) && Ledger(a) == 5 == Lifetime(a.row)
    ensures b == Configured(a, QuotaEdit(KeepLimit, Some(Daily)), 0, 0, policy, zone) && Ledger(b) == 0
            && Lifetime(b.row) == 5
  {
    a := Account(Row(Some(10), None, None, None, 5, 0, 5, 0, Some(5), Some(0), None, None, None, false, None, false),
                 []);
    b := Configured(a, QuotaEdit(KeepLimit, Some(Daily)), 0, 0, policy, zone);
    PeriodlessQuotaIsForgotten(a, QuotaEdit(KeepLimit, Some(Daily)), 0, 0, policy, zone);
    hide QuotaWindow;
  }

  /** The account after a committed manual reset. */
  function ResetDone(a: Account, windowAt: Instant, closedAt: Instant, startAt: Instant, policy: Policy,
                     zone: Zone): Account
    requires a.row.limit.Some? && a.row.period.Some?
  {
    var freed := a.row.reason == Some(QuotaReached);
    Account(
      a.row.(rx := 0, tx := 0, start := Some(startAt), end := Expected(windowAt, a.row.period.value, policy, zone).end,
             reachedAt := None, whenDisabled := None, bypassUntil := None,
             disabled := if freed then false else a.row.disabled, reason := if freed then None else a.row.reason),
      Closed(a, closedAt, ManualReset))
  }

  lemma ResetKeeps(a: Account, windowAt: Instant, closedAt: Instant, startAt: Instant, policy: Policy, zone: Zone)
    requires RowInv(a.row) && a.row.limit.Some? && a.row.period.Some?
    ensures var b := ResetDone(a, windowAt, closedAt, startAt, policy, zone);
            RowInv(b.row) && Conserves(a, b) && Lifetime(b.row) == Lifetime(a.row) && Used(b.row) == 0 && !Over(b.row)
            && !QuotaReachedReason(b.row)
            && (!QuotaReachedReason(a.row) ==> b.row.disabled == a.row.disabled && b.row.reason == a.row.reason)
            && (b.row.reachedAt, b.row.whenDisabled, b.row.bypassUntil) == (None, None, None)
            && (b.row.limit, b.row.period, b.row.expired) == (a.row.limit, a.row.period, a.row.expired)
            && b.row.start == Some(startAt)
            && b.row.end == (if a.row.period == Some(OneTime) then None
                             else Some(QuotaWindow(windowAt, a.row.period.value, policy, zone).end))
            && b.history == a.history + [Entry(a.row.period.value, a.row.limit, a.row.rx, a.row.tx, a.row.start.value,
                                               closedAt, a.row.reachedAt, a.row.whenDisabled, ManualReset)]
  {
    hide QuotaWindow, Archived;
    ArchivedGrows(a.history, Closed(a, closedAt, ManualReset)[|a.history|]);
  }

  // ---------------------------------------------------------------------------------------------
  // The history as a sequence of intervals

  ghost predicate FixedOffset(zone: Zone, offset: int) {
    WholeSeconds(offset) && forall t: Instant :: zone(t) == offset
  }

  /** Entry `i` ends before entry `i + 1` starts. */
  predicate InOrder(history: seq<Entry>, from: nat) {
    && (forall i :: from <= i < |history| ==> history[i].start <= history[i].end)
    && (forall i :: from <= i < |history| - 1 ==> history[i].end <= history[i + 1].start)
  }

  ghost predicate EndsOnBoundary(start: Instant, end: Instant, period: Period, policy: Policy, zone: Zone) {
    start <= end && QuotaWindow(end, period, policy, zone).start == end
  }

  /** The current period starts after the entries and, if it repeats, ends on a boundary. */
  ghost predicate Chained(a: Account, from: nat, clock: Instant, policy: Policy, zone: Zone) {
    && from <= |a.history| && InOrder(a.history, from)
    && (a.row.start.Some? ==>
          && a.row.start.value <= clock
          && (|a.history| > from ==> a.history[|a.history| - 1].end <= a.row.start.value))
    && (a.row.start.Some? && a.row.end.Some? && Repeating(a.row.period) ==>
          EndsOnBoundary(a.row.start.value, a.row.end.value, a.row.period.value, policy, zone))
  }

  /** What ordering is for: two different entries never overlap. */
  lemma {:induction false} NoOverlap(history: seq<Entry>, from: nat, i: nat, j: nat)
    requires InOrder(history, from) && from <= i < j < |history|
    ensures history[i].end <= history[j].start
    decreases j - i
  {
    if i + 1 < j {
      NoOverlap(history, from, i + 1, j);
      assert history[i].end <= history[i + 1].start;
    }
  }

  /** The edit leaves no current period of the old setting. */
  predicate StartsOver(row: Row, edit: QuotaEdit) {
    NewLimit(row, edit).None? || Restarts(row, edit)
  }

  lemma BoundaryAtEnd(now: Instant, period: Period, policy: Policy, zone: Zone, offset: int)
    requires period != OneTime && ValidPolicy(policy) && FixedOffset(zone, offset)
    ensures var w := QuotaWindow(now, period, policy, zone);
            EndsOnBoundary(w.start, w.end, period, policy, zone) && w.start <= now < w.end
  {
    hide QuotaWindow;
    WindowsTileTime(now, now, period, policy, zone, offset);
  }

  lemma ConfiguredChains(a: Account, from: nat, clock: Instant, edit: QuotaEdit, windowAt: Instant, closedAt: Instant,
                         policy: Policy, zone: Zone, offset: int)
    requires RowInv(a.row) && ValidPolicy(policy) && FixedOffset(zone, offset) && clock <= windowAt <= closedAt
    requires StartsOver(a.row, edit) || Chained(a, from, clock, policy, zone)
    ensures var b := Configured(a, edit, windowAt, closedAt, policy, zone);
            Chained(b, if StartsOver(a.row, edit) then |b.history| else from, closedAt, policy, zone)
  {
    hide QuotaWindow, FixedOffset;
    var period := NewPeriod(a.row, edit);
    if NewLimit(a.row, edit).Some? && Repeating(period) { BoundaryAtEnd(windowAt, period.value, policy, zone, offset); }
  }

  /** A later window starts at the boundary or after it. */
  lemma WindowAfterBoundary(boundary: Instant, now: Instant, period: Period, policy: Policy, zone: Zone, offset: int)
    requires period != OneTime && ValidPolicy(policy) && FixedOffset(zone, offset)
    requires boundary <= now && QuotaWindow(boundary, period, policy, zone).start == boundary
    ensures boundary <= QuotaWindow(now, period, policy, zone).start <= now < QuotaWindow(now, period, policy, zone).end
    ensures EndsOnBoundary(QuotaWindow(now, period, policy, zone).start, QuotaWindow(now, period, policy, zone).end,
                           period, policy, zone)
  {
    hide QuotaWindow;
    WindowsTileTime(now, boundary, period, policy, zone, offset);
  }

  lemma InOrderGrows(history: seq<Entry>, from: nat, e: Entry)
    requires from <= |history| && InOrder(history, from) && e.start <= e.end
    requires |history| > from ==> history[|history| - 1].end <= e.start
    ensures InOrder(history + [e], from)
  {
  }

  /** After an observation the current period of a repeating quota is the one that contains now. */
  lemma ObservedPeriodIsCurrent(a: Account, seen: Counters, now: Instant, policy: Policy, zone: Zone, offset: int)
    requires RowInv(a.row) && ValidPolicy(policy) && FixedOffset(zone, offset)
    requires a.row.start.Some? ==> a.row.start.value <= now
    ensures var b := Observed(a, seen, now, policy, zone).row;
            b.period == a.row.period
            && (Repeating(b.period) ==> b.start.Some? && b.end.Some? && b.start.value <= now < b.end.value)
  {
    hide QuotaWindow, CounterDelta, FixedOffset;
    if Rolls(a.row, now) { BoundaryAtEnd(now, a.row.period.value, policy, zone, offset); }
  }

  /** The history grows exactly when a repeating period has ended, by that period as it was. */
  lemma RollArchivesPeriod(a: Account, seen: Counters, now: Instant, policy: Policy, zone: Zone)
    requires RowInv(a.row)
    ensures var b := Observed(a, seen, now, policy, zone);
            if a.row.end.Some? && now >= a.row.end.value then
              && |b.history| == |a.history| + 1 && b.history[..|a.history|] == a.history
              && var e := b.history[|a.history|];
                 e.rx == a.row.rx && e.tx == a.row.tx && Some(e.start) == a.row.start && Some(e.end) == a.row.end
                 && e.cause == Scheduled
                 && b.row.rx == CounterDelta(a.row.lastRx, seen.rx) && b.row.tx == CounterDelta(a.row.lastTx, seen.tx)
            else
              b.history == a.history && b.row.start == a.row.start && b.row.end == a.row.end
              && b.row.rx == a.row.rx + CounterDelta(a.row.lastRx, seen.rx)
              && b.row.tx == a.row.tx + CounterDelta(a.row.lastTx, seen.tx)
  {
    hide QuotaWindow, CounterDelta;
  }

  lemma ObservedChains(a: Account, from: nat, clock: Instant, seen: Counters, now: Instant, policy: Policy, zone: Zone,
                       offset: int)
    requires RowInv(a.row) && ValidPolicy(policy) && FixedOffset(zone, offset)
    requires Chained(a, from, clock, policy, zone) && clock <= now
    ensures Chained(Observed(a, seen, now, policy, zone), from, now, policy, zone)
  {
    hide QuotaWindow, CounterDelta, FixedOffset, InOrder;
    var b := Observed(a, seen, now, policy, zone);
    if Rolls(a.row, now) {
      WindowAfterBoundary(a.row.end.value, now, a.row.period.value, policy, zone, offset);
      InOrderGrows(a.history, from, b.history[|a.history|]);
    }
  }

  /** A manual reset keeps the order exactly when its last reading of the clock does not pass the end of the window that
      its first reading fell into. */
  lemma ResetChainsExactly(a: Account, from: nat, clock: Instant, windowAt: Instant, closedAt: Instant,
                           startAt: Instant, policy: Policy, zone: Zone, offset: int)
    requires RowInv(a.row) && a.row.limit.Some? && a.row.period.Some? && ValidPolicy(policy)
             && FixedOffset(zone, offset)
    requires Chained(a, from, clock, policy, zone) && clock <= windowAt <= closedAt <= startAt
    ensures Chained(ResetDone(a, windowAt, closedAt, startAt, policy, zone), from, startAt, policy, zone)
            <==> (a.row.period.value != OneTime ==>
                    startAt <= QuotaWindow(windowAt, a.row.period.value, policy, zone).end)
  {
    hide QuotaWindow, FixedOffset, InOrder;
    InOrderGrows(a.history, from, Closed(a, closedAt, ManualReset)[|a.history|]);
    if a.row.period.value != OneTime { BoundaryAtEnd(windowAt, a.row.period.value, policy, zone, offset); }
  }

  lemma InvertedBreaksOrder(history: seq<Entry>, from: nat, i: nat)
    requires from <= i < |history| && history[i].end < history[i].start
    ensures !InOrder(history, from)
  {
  }

  /** What that means for the history the next poll writes. If the boundary lies before the start of the new period, the
      poll archives an interval that ends before it starts. */
  lemma ResetOrderExactly(a: Account, from: nat, clock: Instant, windowAt: Instant, closedAt: Instant, startAt: Instant,
                          seen: Counters, now: Instant, policy: Policy, zone: Zone)
    requires RowInv(a.row) && a.row.limit.Some? && Repeating(a.row.period)
    requires Chained(a, from, clock, policy, zone) && clock <= windowAt <= closedAt <= startAt <= now
    requires QuotaWindow(windowAt, a.row.period.value, policy, zone).end <= now
    ensures InOrder(Observed(ResetDone(a, windowAt, closedAt, startAt, policy, zone), seen, now, policy, zone).history,
                    from)
            <==> startAt <= QuotaWindow(windowAt, a.row.period.value, policy, zone).end
  {
    hide QuotaWindow, CounterDelta, InOrder;
    var end := QuotaWindow(windowAt, a.row.period.value, policy, zone).end;
    var reset := ResetDone(a, windowAt, closedAt, startAt, policy, zone);
    var first := reset.history[|a.history|];
    assert reset.history == a.history + [first];
    InOrderGrows(a.history, from, first);
    var polled := Observed(reset, seen, now, policy, zone);
    var second := polled.history[|reset.history|];
    assert polled.history == reset.history + [second] && second.start == startAt && second.end == end;
    if startAt <= end {
      InOrderGrows(reset.history, from, second);
    } else {
      InvertedBreaksOrder(polled.history, from, |reset.history|);
    }
  }

  const UTC: Zone := (t: Instant) => 0

  /** A peer with a daily limit on the first day. */
  function FirstDay(): Account {
    Account(Row(Some(1), Some(Daily), Some(0), Some(DAY_MS), 0, 0, 0, 0, None, None, None, None, None, false, None,
                false), [])
  }

  lemma UtcDay(now: Instant, day: int, policy: Policy)
    requires ValidPolicy(policy) && day * DAY_MS <= now < (day + 1) * DAY_MS
    ensures QuotaWindow(now, Daily, policy, UTC) == Window(day * DAY_MS, (day + 1) * DAY_MS)
  {
    hide QuotaWindow;
    DayOfInstant(now, UTC, 0, day);
    DailyWindow(now, policy, UTC, 0);
  }

  lemma FirstDayIsChained(policy: Policy)
    requires ValidPolicy(policy)
    ensures RowInv(FirstDay().row) && Chained(FirstDay(), 0, 0, policy, UTC)
    ensures QuotaWindow(DAY_MS - 1000, Daily, policy, UTC) == Window(0, DAY_MS)
  {
    hide QuotaWindow;
    UtcDay(DAY_MS, 1, policy);
    UtcDay(DAY_MS - 1000, 0, policy);
  }

  /** Reset a second before midnight by the first two readings and a second after it by the third: the poll that follows
      archives a period from one second past midnight back to midnight. */
  lemma ResetAtMidnight(policy: Policy)
    requires ValidPolicy(policy)
    ensures var a := ResetDone(FirstDay(), DAY_MS - 1000, DAY_MS - 1000, DAY_MS + 1000, policy, UTC);
            var b := Observed(a, Counters(0, 0, false), DAY_MS + 2000, policy, UTC);
            a.row.start == Some(DAY_MS + 1000) && a.row.end == Some(DAY_MS) && !InOrder(b.history, 0)
  {
    FirstDayIsChained(policy);
    hide QuotaWindow, Chained, InOrder, FixedOffset, Observed;
    ResetOrderExactly(FirstDay(), 0, 0, DAY_MS - 1000, DAY_MS - 1000, DAY_MS + 1000, Counters(0, 0, false),
                      DAY_MS + 2000, policy, UTC);
  }

  lemma BoundaryOfStart(now: Instant, period: Period, policy: Policy, zone: Zone, offset: int)
    requires period != OneTime && ValidPolicy(policy) && FixedOffset(zone, offset)
    ensures var s := QuotaWindow(now, period, policy, zone).start; QuotaWindow(s, period, policy, zone).start == s
  {
    hide QuotaWindow;
    WindowsTileTime(now, now, period, policy, zone, offset);
    WindowsTileTime(now, QuotaWindow(now, period, policy, zone).start, period, policy, zone, offset);
  }

  /** The second consequence: exactly when no later roll opens a period before the end that the reset archived. */
  lemma StraddlingResetOverlaps(windowAt: Instant, closedAt: Instant, startAt: Instant, period: Period, policy: Policy,
                                zone: Zone, offset: int)
    requires period != OneTime && ValidPolicy(policy) && FixedOffset(zone, offset) && windowAt <= closedAt <= startAt
    ensures var end := QuotaWindow(windowAt, period, policy, zone).end;
            (forall now: Instant :: startAt <= now && end <= now ==>
               closedAt <= QuotaWindow(now, period, policy, zone).start)
            <==> (closedAt <= end || closedAt <= QuotaWindow(startAt, period, policy, zone).start)
  {
    hide QuotaWindow, FixedOffset;
    var end := QuotaWindow(windowAt, period, policy, zone).end;
    BoundaryAtEnd(windowAt, period, policy, zone, offset);
    BoundaryAtEnd(startAt, period, policy, zone, offset);
    var s := QuotaWindow(startAt, period, policy, zone).start;
    BoundaryOfStart(startAt, period, policy, zone, offset);
    forall now: Instant | startAt <= now && end <= now
      ensures end <= QuotaWindow(now, period, policy, zone).start && s <= QuotaWindow(now, period, policy, zone).start
    {
      WindowAfterBoundary(end, now, period, policy, zone, offset);
      WindowAfterBoundary(s, now, period, policy, zone, offset);
    }
  }
}
