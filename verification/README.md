# A verified model of the WireGuard manager for MikroTik routers

The application keeps two systems in step: a PostgreSQL database and one or more MikroTik routers. Each operation mixes
database transactions with router calls that may fail at any point. This project models that control loop, and the
exact codecs beside it, in Dafny, and proves what the loop is meant to keep.

Operations that change rows or routers are methods of classes whose fields are those rows and whose router is a
`RouterOsClient` object; pure code is functions and lemmas. Failures are explicit: `RouterOsClient` takes an oracle that
decides for each call whether it works, fails without effect, or takes effect although its reply is lost; the database
has an oracle of its own. Nothing was executed; everything is established by the Dafny 4.11 verifier with
`dafny verify dfyconfig.toml`.

## Main results

| file | what is proved |
|---|---|
| `LifecycleState.dfy`, `Lifecycle.dfy` | Create, delete and reconcile as sagas of atomic steps. Every step keeps: while the router holds a peer under a generated key, its row and its address are in the database. Other actors may act between any two steps. Where a creation may end; a failed creation or deletion leaves an operation the next pass can finish; no pass loses one, whatever fails; a failure-free pass, where at most one remote peer answers to each row, leaves neither row, address, remote peer nor queue, and exactly one archive row for a deleted peer. |
| `PeerMove.dfy` | Moving a peer between routers: enabled on at most one of them in every state passed through, even with lost replies; present on at least one when failing calls have no effect. Editing in place: an edit that was sent but not committed is rolled back exactly, whatever failed in between, unless the restoring call itself fails; one that was committed has its queue or is marked. |
| `PoolProtocol.dfy`, `PoolAddresses.dfy` | Every interleaving of the pool transactions, each under its own locks only, keeps ranges disjoint and never meets the unique constraint. The allocator returns the least free address. Statistics equal the listing. |
| `AddressText.dfy` | Addresses and address lists as text: printing and parsing agree, and replacing a peer's own address changes nothing else in its list. |
| `Accounting.dfy`, `AccountingService.dfy` | Conservation of counted bytes, with the exact case in which an edit loses some; quota state invariants; polls are idempotent; credited traffic never exceeds true traffic under any number of counter resets; history intervals never overlap. |
| `Calendar.dfy` | ECMAScript dates, local-to-UTC conversion, and windows that tile time. |
| `RouterOsWire.dfy` | RouterOS API framing: how the byte stream is cut into chunks is invisible, and what any reply ends in. |
| `Bandwidth.dfy`, `BandwidthPolicy.dfy` | Apply agrees with observe, and both mean that the peer's address is limited to the rates of its policy; foreign queues are untouched. Exactly when "new users only" changes an existing peer. |
| `Drift.dfy`, `DriftService.dfy`, `DriftResolution.dfy`, `DriftRun.dfy` | An external edit is never silently absorbed; after a resolution the next sync is clean; when a resolution can succeed at all. |
| `Csv.dfy`, `Crc32.dfy`, `ZipPaths.dfy`, `ZipArchive.dfy` | CSV round trips for every table; table-driven CRC-32 equals the bitwise one; a ZIP reader recovers what the writer was given. |

## Where the code does not do what it is for

These are theorems about the code as it is, each with the exact condition.

- **Resolving a peer drift.** `sameState` (src/server/drift-service.ts:137) compares `JSON.stringify` texts, one of a state
  built in code and one read back from a JSONB column (migrations/004_reliability_bandwidth.sql:139-141). JSONB does not
  preserve key order (PostgreSQL manual, section 8.14); it returns shorter keys first. The comparison holds only if the
  store returns the keys in the order of the object literal (`SameStateIsExact`), so with shorter keys first it fails for
  every pair of states (`JsonbDefeatsComparison`) and `ResolvePeerDrift` refuses before writing.
- **"New users only."** A peer whose profile is disabled or gone falls through to the global default but is not selected
  for pinning, so it does change: `NewUsersOnlyIsLiteral` gives the exact condition, `DisabledProfileStrands` an instance.
- **Quota without a period.** A direct call of `createPeer` may store a limit without a period (src/server/peer-service.ts:73-96);
  no request does, because src/app/api/peers/route.ts:17 and the bulk route always pair the two and an edit falls back to
  "monthly". Bytes counted under such a limit are dropped, not archived, by the next edit: `ConfiguredKeeps` says exactly when
  an edit loses bytes, `FiveBytesForgotten` is an instance. For every row created with both or neither, `PeerAccount` proves
  conservation without exception from the moment a quota is set until it is removed.
- **Manual reset.** It reads the clock three times (src/server/peer-service.ts:527-548). If the last reading passes the end of
  the window that the first one fell into, the next poll archives a period that ends before it starts. `ResetOrderExactly`:
  the history stays in order exactly when that does not happen. `ResetAtMidnight` is an instance, and
  `StraddlingResetOverlaps` says exactly when a later period can moreover open before the end the reset archived.
- **Expired peers.** A rollover re-enables a peer blocked for quota even if it has expired: `ReenabledExactly`, with the
  instance `ExpiredPeerIsEnabled`. Such a row arises when `enforceExpirations` sets the flag and the router then refuses
  (src/server/expiration.ts:13-14): `EnforceExpiration` leaves the reason at the quota, and no later run selects the peer.
- **Local midnight in a daylight-saving gap.** `LocalToUtcIsExactUnlessGap`: for zones with two offsets the three rounds give an
  exact answer exactly when the local time exists. `GapHasNoPreimage` is a zone and a time where it does not.
- **CSV.** The scanner trims the last cell of a row only and drops rows without content: `ExactRoundTrip` says exactly which
  tables come back, `BlanksAreLost` shows two that do not.
- **Moving a peer that is on the source twice.** The move deletes one peer that answers to the row and passes the guard. If
  the copy is to be enabled and another, enabled holder of the key stands beside such a peer, the key may end enabled on both
  routers: `EnabledCopyNeedsSole` gives the exact condition on the source, `SecondEnabledHolder` an instance.
- **Failed key rotations.** The rollback looks the peer up by the stored id only (src/server/peer-service.ts:446), while the
  guard also accepts a peer found by its key. `RegenerateKeys`: on a working router a rotation that was not stored is undone
  exactly when the row held the id and the key of that peer. Otherwise, say for a peer made again outside the application
  with the same fields, the router keeps the new key, and the row is not marked for reconciliation.
- **Two peers that answer to one row.** The cleanup of a failed creation or deletion removes one remote peer and refuses if
  another still answers: `ReconcileCreate` and `ReconcileDelete` succeed exactly when there is at most one.

## Modelling decisions

- A SHA-256 fingerprint is modelled as the tuple it hashes (`RouterModel.RemotePeer`), addresses as numbers, UUIDs and
  keys as values the caller supplies and promises to be fresh.
- A database transaction is one atomic step, except in `PoolProtocol`, where transactions interleave and see committed rows.
- In `Lifecycle` every router call on peers is one atomic step; applying or removing the queues of one peer takes several
  calls and counts as one. Its rows are the peers `createPeer` made, which all have a pool address and a generated key.
- Router listings are maps; where the code takes the first match, the model takes any match, so contracts hold for every listing order.
- Clock readings, pool answers and the outcome of checks outside the model are parameters.
- Words on the wire, file names in archives and CRC data are bytes; instants are milliseconds; counters are natural numbers (the code uses BigInt).

## Model

| member | source | states |
|---|---|---|
| LifecycleState.RemotePeerKeepsRowAndAddress | src/server/peer-service.ts:54-152 | while the router holds a peer whose key createPeer generated, the database has that row and its allocated address |
| LifecycleState.RowFacts | src/server/pool-service.ts:155-161 | a peer without a row has no address and no remote peer; one with a row has both on record and no archive row |
| LifecycleState.OwnStepsAreWhatOthersRelyOn | src/server/peer-service.ts:54-152 | sagas for different peers may interleave: a step of one is something every other one tolerates |
| LifecycleState.StageRowIsOwn | src/server/peer-service.ts:66-105 | the staging transaction keeps the invariant and touches nothing of other peers |
| LifecycleState.ArchiveRowIsOwn | src/server/operation-reconciler.ts:73-81 | archive, delete and release in one transaction keep the invariant, so an address is freed only once no remote peer holds the key |
| LifecycleState.CreateRemoteIsOwn | src/server/peer-service.ts:106-119 | adding the remote peer keeps the invariant because row and address were committed before |
| Lifecycle.PeerService.TryCreate | src/server/peer-service.ts:65-133 | the try block: what it leaves behind at each failure point, and success ends fully present |
| Lifecycle.PeerService.AbandonCreate | src/server/peer-service.ts:134-148 | the catch block: either everything is undone or row and address stay for the reconciler |
| Lifecycle.PeerService.CreatePeer | src/server/peer-service.ts:54-152 | creation ends fully present, fully absent, or pending cleanup with row and address kept, in a state the next failure-free pass finishes; fully present means a remote peer with the requested fields, enabled, whose allowed addresses own the allocated address and no other; and it succeeds when nothing fails |
| Lifecycle.PeerService.AssertCurrentRemote | src/server/peer-service.ts:465-473 | passes only a remote peer that answers to the row and equals the stored fingerprint |
| Lifecycle.PeerService.TryDeleteRemote | src/server/peer-service.ts:213-222 | the remote half of a deletion and the flag its handler relies on |
| Lifecycle.PeerService.RunDelete | src/server/peer-service.ts:207-249 | a deletion either removes the peer with exactly one archive row and no remote key, or keeps row and address marked for retry |
| Lifecycle.PeerService.DeletePeer | src/server/peer-service.ts:207-249 | the same from the public entry point; an unknown peer changes nothing; a peer the guard refuses changes nothing on the router; a reliable current peer is always deleted; what stays pending is an operation the next failure-free pass finishes |
| Lifecycle.PeerService.ReconcileCreate | src/server/operation-reconciler.ts:28-43 | success leaves no row, address, remote peer or owned queue, and closes the operation as failed; on a reliable undisturbed router it succeeds iff at most one remote peer answers to the row |
| Lifecycle.PeerService.ReconcileDelete | src/server/operation-reconciler.ts:45-59 | success leaves no row or remote peer and exactly one archive row, and completes the operation; on a reliable undisturbed router it succeeds iff at most one remote peer answers to the row |
| Lifecycle.PeerService.ReconcilePending | src/server/operation-reconciler.ts:11-26 | every selected operation is attempted, whatever sagas of other peers do meanwhile and whatever fails; afterwards it is either closed, as failed for a creation and completed for a deletion, with the row gone, or selected again by the next pass, pending cleanup if it was and needing reconciliation otherwise, and the second kind is what the pass counts as pending; a failure-free undisturbed pass over operations with a handler, where at most one remote peer answers to each row, completes all of them and leaves of each peer no row, address, remote peer or queue, and exactly one archive row for a deletion that is its peer's only operation in the pass |
| Lifecycle.RetriedUntilClosed | src/server/operation-reconciler.ts:12-13 | an operation is selected unless it is under way or closed |
| Lifecycle.PeerService.Run | src/server/peer-service.ts:54-249 | any sequence of create, delete and reconcile commands keeps the invariant at every atomic step; the recorded run only grows, and each recorded step is one of these sagas or what the others did |
| Lifecycle.EveryStateIsSafe | src/server/peer-service.ts:54-249 | in every state a run passed through, a remote peer under a generated key has its row and address |
| RouterModel.AssertCurrentRemote | src/server/peer-service.ts:465-473 | the guard the other mutations share: passes only what answers and shows the fingerprint, and always when every answering peer does |
| PeerMove.MoveService.CopyToTarget | src/server/peer-service.ts:306-315 | the disabled copy is created and seen on the target |
| PeerMove.MoveService.DeleteSource | src/server/peer-service.ts:316-318 | the source holds the key no more once the flag is set |
| PeerMove.MoveService.Settle | src/server/peer-service.ts:325-341 | the copy is enabled only after the source is gone, as quota and disable reason decide |
| PeerMove.MoveService.Transfer | src/server/peer-service.ts:316-383 | deletion, settling and commit: at most one enabled copy in every state on the way |
| PeerMove.MoveService.Recover | src/server/peer-service.ts:392-412 | the handler re-disables, removes or adopts the copy without ever enabling two |
| PeerMove.MoveService.TryMove | src/server/peer-service.ts:296-391 | the flags the handler reads describe the routers correctly at every failure point |
| PeerMove.EnabledCopyNeedsSole | src/server/peer-service.ts:316-341 | deleting whichever peer the guard lets pass leaves the key enabled at most once beside the settled copy iff the copy stays disabled or no such peer stands beside another enabled holder of the key |
| PeerMove.SecondEnabledHolder | src/server/peer-service.ts:316-341 | two enabled peers under one key on the source: the move ends with two enabled |
| PeerMove.DecideDecides | src/server/peer-service.ts:325-341 | a quota block ends exactly when there is no limit or usage is below it, any other reason stays, and an active unexpired peer is blocked exactly when over its limit |
| PeerMove.MoveService.Install | src/server/peer-service.ts:318-383 | after the source is gone: the quota decision and the commit, with the copy as the only holder on the target throughout |
| PeerMove.MoveService.MovePeer | src/server/peer-service.ts:279-420 | enabled at most once in every state; always present somewhere under clean failures; a source that drifted is refused and nothing is touched; success arrives with the requested fields, the chosen address first in the list, the quota decision and queues following; what can be left otherwise is the old row, a disabled copy adopted as manually disabled, or a committed row marked for reconciliation |
| PeerMove.EditService.TryEdit | src/server/peer-service.ts:319-383 | the in-place edit and the flag saying whether there is something to undo |
| PeerMove.EditService.EditPeer | src/server/peer-service.ts:279-420 | an edit that was not committed leaves row and queues alone and puts the remote peer back exactly as it was, whatever failed after it was sent, unless the restoring call itself fails; a committed one has the requested fields and the quota decision on both sides, and the queue follows or the row is marked for reconciliation; a peer that drifted is refused and nothing is touched |
| PoolProtocol.StepKeepsInv | src/server/pool-service.ts:27-92 | every statement of every pool transaction keeps ranges disjoint, rows in range and open choices valid |
| PoolProtocol.ClaimKeepsInv | src/server/pool-service.ts:155-161 | the insert of a claim never meets UNIQUE(router_id, ip_address) |
| PoolProtocol.WriteRangeKeepsInv | src/server/pool-service.ts:27-71 | creating or resizing a pool keeps the invariant although other transactions have chosen addresses meanwhile |
| PoolProtocol.PoolsStaySound | src/server/pool-service.ts:133-175 | over every interleaving: disjoint ranges, rows in range, no constraint violation, no shared client address |
| PoolProtocol.OpenChoicesDiffer | src/server/pool-service.ts:138-157 | two open transactions that chose an address under different locks chose different ones |
| PoolProtocol.ChecksAreExact | src/server/pool-service.ts:138-177 | exactly when an address can be chosen and a range is accepted |
| PoolProtocol.ClaimEffects | src/server/pool-service.ts:155-161 | a claim gives the address to its owner alone and frees what the owner had |
| PoolProtocol.RangeEffects | src/server/pool-service.ts:27-72 | a range write moves the gateway row and gives every peer inside the range a row |
| PoolProtocol.StepEffects | src/server/pool-service.ts:85-175 | what each statement does to pools, rows and clients; all others change no table |
| PoolAddresses.ChoosePoolAddress | src/server/pool-service.ts:138-153 | the least address neither owned, blocked nor covered by a live block, exhausted iff there is none; which conflict a requested address reports |
| PoolAddresses.LiveOwnerIsPrefixMatch | src/lib/ip-cidr.ts:52-54 | covered by a live peer means some allowed block shares its leading bits |
| PoolAddresses.EnumerateAddresses | src/server/pool-service.ts:115-122 | one view per address in order, and the gateway once |
| PoolAddresses.StatsMatchListing | src/server/pool-service.ts:106-126 | the counts equal those of the listing, add up to the range size, and the clamp never takes effect |
| PoolAddresses.PagesConcatenate | src/server/pool-service.ts:115-126 | the pages together are the whole filtered list |
| PoolAddresses.LastPageHasRows | src/server/pool-service.ts:115-126 | no page of a list with rows is empty |
| PoolReport.ReportIsExact | src/server/pool-service.ts:106-126 | in every state the transactions can reach, the report about a pool is exact |
| PoolReport.ReportCounts | src/server/pool-service.ts:106-126 | the statistics count the allocated and the reserved rows of the pool |
| AddressText.AddressRoundTrip | src/lib/ip-cidr.ts:5-14 | every address reads back from its printed form |
| AddressText.PrefixIsPrinted | src/lib/ip-cidr.ts:18-24 | a prefix length is accepted iff it is a number up to 32 as printed |
| AddressText.OwnAddressOnly | src/lib/ip-cidr.ts:52-54 | the list createPeer sends owns the peer's address and no other |
| AddressText.BlocksAreExact | src/lib/ip-cidr.ts:52-54 | reading a list as blocks loses nothing: the text owns an address iff one of its blocks contains it |
| AddressText.ReplacedAddress | src/server/peer-service.ts:475-480 | the new list denotes the given address alone, followed by what the other entries denoted |
| IpCidr.ContainsIsPrefixMatch | src/lib/ip-cidr.ts:18-30 | CIDR membership by arithmetic is equality of the prefix bits |
| IpCidr.OverlapIsNesting | src/lib/ip-cidr.ts:31 | two blocks overlap iff one contains the other |
| Accounting.PollCredits | src/server/quota.ts:18-22 | exactly what one poll credits of the true traffic when the counter restarts |
| Accounting.NeverOvercounts | src/server/quota.ts:18-22 | over any run credited growth is at most the true traffic, and equal without restarts |
| Accounting.ObservedKeeps | src/server/traffic-accounting.ts:89-169 | an observation keeps the row invariant and conserves bytes across a rollover |
| Accounting.ObservedPeriodIsCurrent | src/server/traffic-accounting.ts:107-127 | after a poll the current period of a repeating quota contains now |
| Accounting.RollArchivesPeriod | src/server/traffic-accounting.ts:107-135 | the history grows exactly when a repeating period has ended, by that period with its usage, and counting restarts |
| Accounting.ObservedColumns | src/server/traffic-accounting.ts:89-169 | every other column after a poll: window, counters, times, block and bypass |
| Accounting.EnforcementIsRight | src/server/traffic-accounting.ts:171-216 | only quota blocks are lifted, none remains below the limit, and an account over it is blocked unless bypass, expiry or the router stand against it |
| Accounting.ReenabledExactly | src/server/traffic-accounting.ts:171-191 | exactly when a poll ends with a disabled peer enabled |
| Accounting.ExpiredPeerIsEnabled | src/server/traffic-accounting.ts:171-191 | an expired peer that the first poll of the next period enables |
| Accounting.PollIsIdempotent | src/server/traffic-accounting.ts:89-216 | a second poll with the same counters, period and bypass status changes nothing |
| Accounting.ConfiguredKeeps | src/server/peer-service.ts:482-517 | a quota edit keeps the invariant and loses bytes exactly when the period never had a start |
| Accounting.ConfiguredDecides | src/server/peer-service.ts:325-342 | an edit lifts a quota block exactly when usage is below the new limit, keeps every other block, and blocks an active unexpired peer exactly when over its limit |
| Accounting.ConfiguredPeriod | src/server/peer-service.ts:482-517 | period, usage, bypass and archived entry after an edit |
| Accounting.PeriodlessQuotaIsForgotten | src/server/peer-service.ts:494-507 | a limit stored without a period: the next edit drops its usage unarchived |
| Accounting.FiveBytesForgotten | src/server/peer-service.ts:494-507 | five counted bytes that an edit drops |
| Accounting.ResetKeeps | src/server/peer-service.ts:519-553 | a manual reset conserves bytes and leaves no quota block |
| Accounting.NoOverlap | src/server/traffic-accounting.ts:107-127 | ordered history entries never overlap, adjacent or not |
| Accounting.ObservedChains | src/server/traffic-accounting.ts:107-127 | a scheduled reset keeps the history in order |
| Accounting.ResetChainsExactly | src/server/peer-service.ts:519-553 | a manual reset keeps the account in order exactly when its last clock reading does not pass the end of its first one's window |
| Accounting.ResetOrderExactly | src/server/peer-service.ts:527-548 | the history the next poll writes is in order exactly under that condition |
| Accounting.ResetAtMidnight | src/server/peer-service.ts:527-548 | three readings around midnight after which a poll archives an inverted period |
| Accounting.ConfiguredChains | src/server/peer-service.ts:482-517 | a limit edit keeps the order, a period edit starts a new one |
| Accounting.StraddlingResetOverlaps | src/server/peer-service.ts:527-548 | exactly when a later roll can open a period before the end a manual reset archived |
| AccountingService.PeerAccount.RecordObservation | src/server/traffic-accounting.ts:89-169 | the transaction computes the observed account and keeps every invariant |
| AccountingService.PeerAccount.EnforceObservation | src/server/traffic-accounting.ts:171-202 | the resulting row on success and at each failing router call |
| AccountingService.PeerAccount.Poll | src/server/traffic-accounting.ts:44-74 | one peer's poll: invariants kept, bytes conserved, only quota blocks lifted, also when the router refuses |
| AccountingService.PeerAccount.SetEnabled | src/server/peer-service.ts:186-205 | refuses to lift a quota block and keeps disabled equivalent to having a reason |
| AccountingService.PeerAccount.EnforceExpiration | src/server/expiration.ts:11-26 | the flag is set first, so a failing router leaves an expired peer with its old reason |
| AccountingService.PeerAccount.TemporarilyReenable | src/server/peer-service.ts:555-574 | allowed exactly for reached limits that are not expired or manually disabled; sets the bypass |
| AccountingService.PeerAccount.ResetUsage | src/server/peer-service.ts:519-553 | conserves bytes and keeps the history in order unless the last clock reading passes the window of the first |
| AccountingService.PeerAccount.ConfigureQuota | src/server/peer-service.ts:325-355 | the committed edit; the bytes forgotten over the whole run are exactly those of periods without a start; for rows created with limit and period together the ledger grows as the lifetime counters do while a quota is set, and up to its removal |
| AccountingService.NewRowWindow | src/server/peer-service.ts:73-96 | the period a creation starts with |
| Calendar.CivilRoundTrip | src/server/quota.ts:68-76 | dates and day numbers determine each other |
| Calendar.GregorianMonths | src/server/quota.ts:68-80 | day zero, month lengths and leap years |
| Calendar.WeekdaysAndResetDays | src/server/quota.ts:78-96 | weekdays count on from a Thursday; the reset day is clamped to 1 to 28 |
| Calendar.MonthlyWindow | src/server/quota.ts:95-100 | the monthly window is the pair of reset days around the day, also across years |
| Calendar.WindowStartsAsConfigured | src/server/quota.ts:88-100 | weeks start on the chosen weekday and last seven days, months start and end on the reset day |
| Calendar.WindowsTileDays | src/server/quota.ts:82-102 | daily, weekly and monthly windows contain their day, agree inside and adjoin |
| Calendar.LocalToUtc | src/server/quota.ts:55-66 | the correction loop computes the three-round specification |
| Calendar.ZeroCorrectionIsExact | src/server/quota.ts:58-64 | for any zone a round without correction gives an exact preimage |
| Calendar.LocalToUtcIsExactUnlessGap | src/server/quota.ts:55-66 | for two-offset zones the result shows the wanted local time iff some instant does |
| Calendar.GapHasNoPreimage | src/server/quota.ts:55-66 | a zone and a local time inside its gap, where the rounds end on another time |
| Calendar.QuotaPeriodWindow | src/server/quota.ts:82-102 | the code computes the specified window; only the local date of now matters |
| Calendar.WindowsTileTime | src/server/quota.ts:82-102 | with a fixed offset start <= now < end, every instant inside has the same window, and the window at end starts there |
| RouterOsWire.LengthRoundTrip | src/server/routeros/native-client.ts:173-200 | every length below 2^32 decodes to itself and the bytes written |
| RouterOsWire.PrefixIsMarked | src/server/routeros/native-client.ts:173-179 | as a big-endian number a prefix of one to five bytes is the length plus the mark of its size |
| RouterOsWire.DecodeSentence | src/server/routeros/native-client.ts:202-210 | the offset loop computes the recursive decoder |
| RouterOsWire.SentenceRoundTrip | src/server/routeros/native-client.ts:168-210 | decoding an encoded sentence followed by anything returns its words and exact length |
| RouterOsWire.StrictPrefixIncomplete | src/server/routeros/native-client.ts:202-210 | every strict prefix of an encoded sentence decodes to nothing |
| RouterOsWire.DecodeIsMonotone | src/server/routeros/native-client.ts:180-210 | a verdict once reached is not changed by later bytes |
| RouterOsWire.ParseAttributes | src/server/routeros/native-client.ts:212-220 | the loop builds the attribute record |
| RouterOsWire.AttributeRoundTrip | src/server/routeros/native-client.ts:162-220 | attributes survive the wire when no key contains an equals sign |
| RouterOsWire.BareWords | src/server/routeros/native-client.ts:212-220 | a word without an equals sign is a key with an empty value, and the leading sign is optional |
| RouterOsWire.Exchange.OnData | src/server/routeros/native-client.ts:123-160 | the buffer loop handles every complete sentence and stops at the first verdict |
| RouterOsWire.Receive | src/server/routeros/native-client.ts:123-160 | the whole conversation on one socket ends in what the sentences in its chunks mean |
| RouterOsWire.ChunkingIsInvisible | src/server/routeros/native-client.ts:123-160 | records and error depend only on the concatenated bytes |
| RouterOsWire.ReplyIsDelivered | src/server/routeros/native-client.ts:123-160 | however the stream is cut: the first `!done`, `!trap` or `!fatal` decides, resolved for the first and rejected with its message for the others; the records are the rows before it and a row of `!done` itself; without one the exchange waits, or crashes on a malformed length |
| RouterOsWire.KindsAsText | src/server/routeros/native-client.ts:143-149 | the words that name the kinds of a sentence, spelled out |
| Bandwidth.ApplyPeerBandwidthRemote | src/server/bandwidth-service.ts:136-196 | success means observe says synced; does nothing iff it already did; refuses iff conflict, duplicate or unforced change; foreign queues untouched on every path |
| Bandwidth.DesiredQueueShapesPeer | src/server/bandwidth.ts:43-92 | the desired queue targets the peer's own address and no other, as text and as block, carries its mark, exists iff both rates are limited, and has every rate, burst, threshold and time in its direction |
| Bandwidth.SyncedMeans | src/server/bandwidth-service.ts:268-282 | synced means no conflict and exactly one own queue that limits the peer's address to the rates of the policy, or none if a rate is missing |
| Bandwidth.ConflictMeans | src/server/bandwidth-service.ts:136-160 | which foreign queues, fasttrack rules and marked packets stand in the way |
| Bandwidth.DeleteOwnedPeerQueueRemote | src/server/bandwidth-service.ts:198-205 | removes exactly the owned queues, foreign ones untouched also on failure |
| Bandwidth.ConflictsIgnoreOwned | src/server/bandwidth-service.ts:136-160 | whether there is a conflict does not depend on the peer's own queues |
| BandwidthPolicy.PolicyService.UpdateGlobal | src/server/policy-service.ts:28-60 | refusals and unchanged values write nothing; existing inheriting peers are pinned before the setting changes |
| BandwidthPolicy.PolicyLayers | src/server/bandwidth-service.ts:67-115 | who decides: mode, own profile, group profile in default mode only, router, global setting; and with which rates |
| BandwidthPolicy.NewUsersOnlyIsLiteral | src/server/policy-service.ts:40-56 | an existing peer's effective policy is unchanged iff it is not stranded or the global rates stay |
| BandwidthPolicy.DesiredQueueIsLiteral | src/server/bandwidth.ts:43-59 | the same for the desired queue |
| BandwidthPolicy.StrandedMeans | src/server/bandwidth-service.ts:86-115 | stranded peers name a disabled or missing profile, or are in profile mode without one |
| BandwidthPolicy.DisabledProfileStrands | src/server/bandwidth-service.ts:89-92 | a concrete peer whose limit changes although only new users should |
| BandwidthPolicy.ExistingPeersNeverChange | src/server/policy-service.ts:28-60 | over any run of new-users-only changes, with profiles in order, no existing peer's policy changes |
| Drift.ConflictIsThreeWay | src/server/operations.ts:43-50 | differences are exact, and a conflict is a field both sides changed to different values |
| Drift.SeenDecides | src/server/sync.ts:73-120 | what one listed peer does to its row and drift: match or difference, kind of difference, and conflict iff both sides changed one field differently |
| Drift.MissingDecides | src/server/sync.ts:121-133 | only rows whose peer was not listed are marked, as deleted if they had an id |
| Drift.SyncReportsDrift | src/server/sync.ts:73-133 | a sync of a drifted peer reports it and keeps fingerprint and application columns |
| Drift.SyncAcceptsMatch | src/server/sync.ts:73-120 | a sync of a peer that shows its fingerprint reports in sync and closes its drift |
| Drift.DriftIsNeverAbsorbed | src/server/sync.ts:73-120 | over any run: until the router reverts or a resolution succeeds, every sync reports, fingerprint and application columns stay, and every mutation that may only go ahead past the guard is without effect |
| DriftRun.Run | src/server/sync.ts:26-152 | any sequence of syncs, resolutions, setPeerEnabled, temporary re-enabling, usage resets, key rotations and outside edits is a run that theorem speaks about, so an unresolved drift is intact at its end |
| DriftService.SyncService.SyncPeers | src/server/sync.ts:65-136 | the two loops compute each row's result; the run is partial iff a row changed or is missing |
| DriftService.AttributionIsComplete | src/server/sync.ts:69-73 | a sync sees of a row exactly the remote peers that answer to it |
| DriftResolution.SameStateIsExact | src/server/drift-service.ts:137 | the text comparison holds iff the states are equal and the keys come in the same order |
| DriftResolution.JsonbDefeatsComparison | src/server/drift-service.ts:56-58 | a store that returns shorter keys first makes it fail for every pair of states |
| DriftResolution.PeerDrift.ResolvePeerDrift | src/server/drift-service.ts:46-96 | either resolution leaves both sides equal and settled; it succeeds exactly when the order of keys and the adoption checks allow; a refusal changes no row |
| DriftResolution.PeerDrift.SetEnabled | src/server/peer-service.ts:186-205 | a guarded mutation writes nothing when the guard fails and records what it wrote when it succeeds |
| DriftResolution.PeerDrift.LiftBlock | src/server/peer-service.ts:519-574 | reset and temporary re-enabling write nothing when the guard fails, and record exactly what the router then shows |
| DriftResolution.PeerDrift.RegenerateKeys | src/server/peer-service.ts:422-450 | refused when the guard fails; a stored rotation records what the router shows; one that was not stored leaves the router as it was, or reports a failed rollback, if the row held the id and key of the peer found, and only then on a working router |
| DriftResolution.RollbackIsExact | src/server/peer-service.ts:445-446 | putting the row's key on the peer under the stored id undoes the rotation of a peer iff the row held the id and key of that peer |
| DriftResolution.SettledSyncs | src/server/drift-service.ts:46-134 | after a settled resolution the next sync of the unchanged router reports in sync |
| Csv.ScanRows | src/lib/csv.ts:1-4 | the index loop computes the recursive scanner |
| Csv.FailsOnOddQuotes | src/lib/csv.ts:3-4 | the unterminated-quote error occurs iff the number of quotation marks is odd |
| Csv.CellRoundTrip | src/lib/csv.ts:7 | any cell reads back as it was, with quotes, commas and line ends |
| Csv.NoNeedlessQuotes | src/lib/csv.ts:7 | a cell is printed as it is iff it holds no quotation mark, comma or line end |
| Csv.ReportRoundTrip | src/app/api/peers/bulk-create/route.ts:36 | every table of CRLF-terminated lines reads back up to blanks around last cells and rows without content |
| Csv.JoinedRoundTrip | src/lib/csv.ts:1-7 | the same for lines joined with CRLF |
| Csv.ExactRoundTrip | src/lib/csv.ts:1-7 | the table itself comes back iff every row has content and a trimmed last cell |
| Csv.BlanksAreLost | src/lib/csv.ts:1-7 | two tables that do not come back |
| Csv.ParseCsv | src/lib/csv.ts:1-6 | scanning, header check and records as specified, with the three errors |
| Csv.RecordLooksUp | src/lib/csv.ts:5 | each header names its own column, trimmed; a missing cell is empty |
| Csv.RecordsRoundTrip | src/lib/csv.ts:1-7 | a printed table parses into one record for each row with content |
| Csv.HeaderOfWords | src/lib/csv.ts:5 | a header is its words in lower case joined with underscores |
| Crc32.LookupStep | src/lib/zip.ts:17-18 | eight shifts need only the low byte, which is why a table works |
| Crc32.ChecksumDivides | src/lib/zip.ts:17-18 | initial register, generator polynomial and final complement, bit by bit |
| Crc32.BuildTable | src/lib/zip.ts:17 | entry i is the register i after eight shifts |
| Crc32.ComputeCrc32 | src/lib/zip.ts:18 | the table loop computes the bitwise CRC-32 |
| ZipPaths.SanitisedNamesAreSafe | src/lib/zip.ts:15 | stored names are safe relative paths, sanitising is idempotent, and exactly the safe names are left alone |
| ZipPaths.PartByPart | src/lib/zip.ts:15 | usable parts stay in order, others are skipped, and a name without any becomes the fallback |
| ZipArchive.CreateZip | src/lib/zip.ts:5-14 | writes the archive iff every number fits its field, else throws |
| ZipArchive.StampReads | src/lib/zip.ts:16 | the DOS stamp tells the time to two seconds and the date from 1980, and fits up to 2107 |
| ZipArchive.ReaderRecoversEntries | src/lib/zip.ts:5-14 | a reader from the end record over the directory to the local headers recovers names, data, checksums and stamp in order |
| ZipArchive.WriteThenRead | src/lib/zip.ts:5-18 | writer and reader together, for all entries that fit the format |

## Left out

- LifecycleState.RemotePeerKeepsRowAndAddress: assumes a failed remote creation leaves no peer behind and a successful one returns its id (`cleanCreate`); a lost reply to a creation is not covered.
- LifecycleState.RowFacts: peers imported from the router, which may lie outside every pool, and rotated keys are not part of this state.
- Lifecycle.PeerService.CreatePeer: one create, delete or reconcile per peer at a time; the steps of other peers and of router administrators interleave freely, as long as nobody else introduces this peer's key. Key and QR generation, generated names and the failure of the first read are parameters or oracle answers.
- Lifecycle.PeerService.ReconcilePending: the growing delay before a retry and the limit on the rows of one pass are left out, so an operation is selected again once its delay is over; covers the kinds that remove peers; `reconcileUpdate` and the operation kinds without a handler only count as pending.
- PeerMove.MoveService.MovePeer: assumes the key is not yet on the target and that the source is safe to move from (`SafeToMove`, which `EnabledCopyNeedsSole` shows is needed); that the source ends without the key also assumes that only one peer answers to the row. Imported peers are not modelled; address allocation appears as the pool's answers, not as its statements.
- PeerMove.EditService.EditPeer: after a lost reply to the edit itself the handler believes that nothing was sent and restores nothing, as in the code.
- PoolProtocol.PoolsStaySound: assumes gateways outside all client ranges and no concurrent import, and leaves out `deletePool`, the recovery claim of a failed move, which claims without choosing again, and the refusals of `createPool` and `updatePool` that concern networks, interfaces and the maximum size of a pool.
- PoolAddresses.EnumerateAddresses: names, comments and the sort by column are left out; the page theorem holds for any list.
- Calendar.LocalToUtcIsExactUnlessGap: zones with more than two offsets are covered by `ZeroCorrectionIsExact` only; years 0 to 99, which `Date.UTC` maps to 1900 and later, are not special.
- Calendar.WindowsTileTime: fixed offsets only; daylight saving shifts windows at the boundary.
- Accounting.NeverOvercounts: counters are natural numbers; a negative reading, which the code counts as no traffic, cannot occur.
- AccountingService.PeerAccount.Poll: one peer; the loop over peers only adds counters. Snapshots for charts, presence columns and audit rows are left out. Operations on one peer do not overlap in time.
- AccountingService.PeerAccount.ConfigureQuota: the quota part of `updatePeer`; the rest is in `PeerMove`.
- Bandwidth.ApplyPeerBandwidthRemote: textual normalisation of rates and targets, the slug in queue names, and the bookkeeping table `managed_router_objects` are left out.
- BandwidthPolicy.PolicyService.UpdateGlobal: the loop that applies the new default to existing peers afterwards is left out; each round is `ApplyPeerBandwidthRemote`.
- BandwidthPolicy.ExistingPeersNeverChange: assumes referenced profiles enabled; the condition without that is `NewUsersOnlyIsLiteral`.
- Drift.DriftIsNeverAbsorbed: quota enforcement, which writes the fingerprint without a drift check, is not among the steps. `deletePeer` and `updatePeer` are not among the commands of `DriftRun`; that they refuse a drifted peer is proved in `Lifecycle` and `PeerMove`.
- DriftResolution.PeerDrift.RegenerateKeys: preshared keys, the encrypted private key and the QR code are left out.
- DriftService.SyncService.SyncPeers: interfaces, imported rows (only counted) and presence columns are left out.
- DriftResolution.PeerDrift.ResolvePeerDrift: bandwidth and interface drifts are left out; the pool transaction of keep_router is a parameter; keep_router does not set a disable reason, as in the code.
- Csv.RecordsRoundTrip: headers are lower-cased in the ASCII range only.
- ZipArchive.CreateZip: UTF-8 encoding of names is left out; the stamp is a parameter, which `DosDateTime` computes from a local time.
- Traffic retention and aggregation: snapshots are throttled but carry one poll's delta, so aggregates do not conserve traffic.
- Expiration: the selection by date is left out; the retry its documentation promises does not follow from the code.
- `allocateClientIp` and pool suggestions: the preview allocator repeats the search of `ChoosePoolAddress` on simpler data.
- User roles, sessions, encryption, QR codes, transports, timeouts, worker scheduling and the user interface.
