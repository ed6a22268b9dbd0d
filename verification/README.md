# Swap settlement, modelled and proved

A Dafny 4.11 model of the two settlement services of the swap application and of the
arithmetic and parsing code they rely on, with proofs of what they promise.

Check everything with `dafny verify dfyconfig.toml`.

## What is modelled

**Same-Canton swaps** (`CantonSwapLedger`, `CantonSwapMachine`, `CantonSwapSafety`, `CantonSwapEvery`,
`CantonSwapFrozen`, `CantonSwapTheorems`, `CantonSwapCooldown`, `CantonSwapStraddle`, `CantonSwapProgress`,
`CantonSwapService`). One order,
any number of workers. The order row is written whole under a guard on its status; the ledger is an
append-only log in which command k (the fill is 0, counter reissue k is k) commits at most once.
Every worker runs one service method, holds its own copy of the row between two awaits, and may
stop for good at any await. One step is one await. `CantonSwapEvery` is what every run keeps: what
the evidence in the row and in any copy of it, however old, names on the ledger. `CantonSwapSafety`
adds that a copy names the offer of its own attempt, and that a later command only follows an offer
that is closed and was never accepted. A harmful re-read breaks that, and `CantonSwapStraddle` says
exactly which re-reads are harmful; runs without one are careful. `CantonSwapCooldown` times every
update of a run, and `CantonSwapProgress` says what each call achieves when nothing else moves.

**Cross-chain HTLC orders.** `HtlcReverse*` is the user's CBTC against the solver's WBTC: rows and
copies, the Canton log, the escrow's event log, the solver daemon and the clock. `HtlcReverseSafety`
is what every run keeps, `HtlcReverseCare` what careful runs keep besides, and `HtlcReverseConverse`
shows that careful is the exact condition. `HtlcForward*` is the opposite direction for Loop wallets,
from `main_locked` on: reveal, one delivery transfer, proof of delivery, and the gate in front of the
preimage. What stops a second payment is in `HtlcCommands`: each site computes a command id from the
order, and the ledger refuses an id it has seen. `HtlcReverseProgress` and `HtlcForwardProgress` say
what each call achieves and where it leaves everything alone, `HtlcForwardSettlement` what offer,
escrow and settled row show in every run. `OrderRaces` is any number of workers creating, loading,
editing and writing orders.

**Services in their own form.** `CantonSwapService.Service`, `HtlcReverseService.Service`,
`HtlcForwardService.Service` and `OrderStore.Store` are classes whose methods load a row,
reassign its fields and await the database or a ledger. Between two awaits every other worker,
the users and the chain may do anything the machine allows; a ghost `trace` is the run so far, so
each theorem about runs holds at every await of every method.

**Algorithms.** `Bech32`, `Bech32Address`, `Bech32Encoding` and `Bech32Examples` (checksum, decoding,
and the addresses that are decoded), `ConvertBits` (bit regrouping with a 32-bit accumulator),
`LedgerScan` (paginated update scan), `EvmScan` (block search and chunked log queries), `AmountUnits`
(decimal strings), `AbiEncode` (escrow calldata), `FillOutcome` and `FillEvidence` (what a fill
transaction proves, and by which events), `QuoteMath` and `Timelocks`. `Arithmetic`, `Strings` and
`Wrappers` are shared helpers.

## Results worth knowing

- The vault pays the counter leg of a same-Canton order at most once unless a fill goes on with a
  row that line 746 of `lib/canton-swap-service.ts` reads again and line 741 would turn away. The
  condition is exact (`CantonSwapStraddle.CarefulIsExact`): such a re-read opens a run, careful from
  then on, in which two updates deliver, unless the leg is settled for good, that is, accepted at the
  first offer or paid directly by a reissue. It is not only a fill that straddles a reissue: a
  pending first offer is enough, because the reconcile reads the row again at lines 1098-1103
  without looking at its status, and then writes that row back one attempt further
  (`DeadCopyPaysTwice`).
- In every run of a same-Canton order, those in which the leg is paid twice included, a `filled` row
  carries a receipt that names a real delivery (`FilledCarriesReceipt`), stays filled with that receipt
  (`FilledIsFinal`), and whoever was paid had sold (`PaidMeansSold`).
- When the late refund of a reverse order submits the CBTC return, the WBTC was never claimed and
  never will be, in every run with the ladder: overlapping refunds and a daemon that gives
  reservations back at will included (`LateReturnMeansNeverClaimed`). The same holds for every
  return of a managed order.
- The early refund of a Loop order needs care, and the condition is exact
  (`HtlcReverseConverse.CarefulIsExact`). A step opens a careful continuation that gives the user both
  legs if and only if it is one of two: before solverTimelock an early refund enters a `refunding` row
  that another early refund took from `main_locked` and may still put back there; or the daemon gives
  `counter_locking` back although the WBTC was claimed or a lock it sent can still land. Two early
  refunds that both start from `main_locked`, and an abort after the solver retook its WBTC, are
  harmless. The comment at `lib/htlc-service-singleton.ts:1507` states the second condition; the
  low-balance branch of the daemon (`swap-solver/src/htlc-solver-daemon.mts:626-646`) gives back
  without looking for an earlier lock or claim.
- No reissue comes before a counter offer has been closed for 90 seconds (`ReissueWaits`), and in careful
  runs that offer is the one it replaces (`ReissueWaitsForPrevious`).
- An undisturbed late refund can return the CBTC if and only if the row has one of six statuses, unrevealed
  and past userTimelock, and the escrow holds neither a live lock nor a claim (`LateRefundIff`).
- Both refund calls write down their command id for themselves; that the two are one string is what
  makes the return unique in every run (`RefundCommitsOnce`).
- A page of updates that a ledger scan cannot read ends the scan. "Not found" is therefore right for
  every search if and only if no such page that the scan asks for has a readable update behind it
  (`CompleteIff`), and for one search if and only if nothing behind such a page matches
  (`NotFoundMeansNone`).
- A fill outcome is independent of the order of the event map if and only if a delivery is proven or
  the tree does not hold two different offers (`OrderFreeIff`); with two, the last one visited is named.
- A two-hour expiration gives a gap of 30 minutes (`DerivedGap`); the comment at
  `lib/htlc-timelock.ts:95` speaks of one hour. The model follows the code.

## Assumptions

- One escrow, one append-only chain, one clock for both ledgers and the service; only the order's
  daemon locks under the order's hash, one lock transaction at a time, with the agreed amount.
- The results on the exclusion of refund and claim take the ladder: solverTimelock before
  userTimelock.
- On same-Canton swaps, `CopiesNameTheirOwnOffer` and `CooldownMeansDead` take strict runs: no re-read
  row fails line 741 except one that is settled at its first offer. `CounterLegPaidAtMostOnce` and
  `ReissueAfterDeadOffer` take careful runs; everything else, `CantonSwapService` included, any run.
- A transfer that is built as a direct one reaches the user at once; a managed order is filled by no
  other (`lib/canton-swap-settle.ts:309-316`), so its branches for a pending counter offer are never
  entered.
- An offer missing from the pending list can no longer be accepted; memos identify order and
  attempt, so an offer or update found by memo, command id or contract id is the order's own.
- A ledger submission commits, reports a duplicate of a committed command, or fails without
  committing.
- Reservation procedures are one atomic status change with a reservation flag.

## Model

| member | source | states |
|---|---|---|
| CantonSwapTheorems.CounterLegPaidAtMostOnce | lib/canton-swap-service.ts:1029-1204 | in every state a careful run reaches, any two updates that put the counter asset into the user's hands are the same update, over all interleavings of fill, repair, reissue, acceptance, stale writes and crashes; careful only excludes the re-reads that `CarefulIsExact` shows to be harmful |
| CantonSwapTheorems.ReissueAfterDeadOffer | lib/canton-swap-settle.ts:627-698 | a step that commits reissue k has k > 0, k not yet committed, and an offer made by command k-1 that is closed and was never accepted |
| CantonSwapTheorems.CopiesNameTheirOwnOffer | lib/canton-swap-order-logic.ts:26-32 | a worker's live copy at attempt k names the offer made by command k, and agrees with the row whenever the attempts are equal |
| CantonSwapTheorems.CooldownMeansDead | lib/canton-swap-service.ts:1084-1096 | the cooldown of a row runs only for the offer of its own attempt, and only when that offer is gone and was never accepted |
| CantonSwapCooldown.ReissueWaits | lib/canton-swap-order-logic.ts:16-24 | in every run a reissue is on the ledger only if a counter offer was closed at least 90 seconds before it, by the times at which the updates were committed |
| CantonSwapCooldown.ReissueWaitsForPrevious | lib/canton-swap-service.ts:1084-1204 | in every careful run that closed offer is the one made by the preceding command |
| CantonSwapCooldown.CooldownDecides | lib/canton-swap-service.ts:1084-1103 | the worker reads the row again if and only if 90 seconds have passed since the stamp; without a stamp it sets one, and before that it stops |
| CantonSwapTheorems.FilledCarriesReceipt | lib/canton-swap-service.ts:825-883 | in every run, stale writes and harmful re-reads included, a `filled` row carries a receipt naming a committed delivery and a settlement naming the fill; in careful runs it is the only delivery of the order |
| CantonSwapTheorems.FilledIsFinal | lib/canton-swap-service.ts:285-291 | in every run and every continuation, an order that is filled stays filled with the same receipt and settlement, managed orders included; a Loop row never changes again |
| CantonSwapTheorems.PaidMeansSold | lib/canton-swap-settle.ts:279-396 | in every run, those that pay the leg twice included, a delivery implies that a fill took a sell offer that was never given back |
| CantonSwapTheorems.NoLateProofRepair | lib/canton-swap-service.ts:1207-1254 | in every run no worker is in the filled-proof repair or in the completion from a delivering settlement |
| CantonSwapEvery.StepKeepsReal | lib/canton-swap-service.ts:285-1505 | every step of anyone, careful or not, keeps what the settlement, receipt, counter offer and scan offset of the row and of every copy name on the ledger, and the numbers of commands unique |
| CantonSwapEvery.ScanMissedMeansDead | lib/canton-swap-settle.ts:862-900 | in every run a scan from the creation offset that sees no acceptance means that the offer is closed and was never accepted |
| CantonSwapSafety.StepKeeps | lib/canton-swap-service.ts:706-1204 | every step whose fill re-read passes the guard, or is settled at the first offer, keeps the invariant on log, row and all copies |
| CantonSwapSafety.FillReservedKeeps | lib/canton-swap-service.ts:741-749 | the re-read after the reservation keeps the invariant when the row does not wait for a counter accept, or waits for a first offer that was accepted |
| CantonSwapSafety.ScanComplete | lib/canton-swap-settle.ts:875-896 | a scan from the creation offset of an offer sees its acceptance exactly when it is on the ledger |
| CantonSwapSafety.ScanNextPc | lib/canton-swap-settle.ts:862-900 | after the scan the worker holds a receipt that names the acceptance, or an offer that is dead |
| CantonSwapSafety.AppendReissue | lib/canton-swap-settle.ts:585-698 | committing number k+1 after a dead number k keeps unique, chained numbers and dead predecessors |
| CantonSwapEvery.SettlementOffered | lib/canton-swap-settle.ts:509-537 | in every run the settlement of a row or copy that names a counter offer made an offer itself, so it never delivered directly |
| CantonSwapStraddle.CarefulIsExact | lib/canton-swap-service.ts:706-780 | after any careful past, a step opens a careful continuation in which two different updates deliver the leg if and only if it is a fill going on with a re-read row that waits for its offer, is not accepted at the first offer, and was not paid directly |
| CantonSwapStraddle.RepairNamesOwnOfferIff | lib/canton-swap-service.ts:825-853 | applying the committed fill names the offer of the row's own attempt if and only if the order was never reissued |
| CantonSwapStraddle.HarmfulPaysTwice | lib/canton-swap-service.ts:741-780 | from every state of the invariant, such a re-read of a row at any attempt, its offer pending, accepted or dead, leads on to two deliveries |
| CantonSwapStraddle.DeadCopyPaysTwice | lib/canton-swap-service.ts:1106-1190 | even when the offer of the copy is dead and later numbers are committed: workers posted at each number carry a `filling` row up to the newest, which is then paid again |
| CantonSwapStraddle.HarmfulRereadOccurs | lib/canton-swap-service.ts:706-749 | careful runs do reach a worker about to make such a re-read |
| CantonSwapFrozen.StepStaysFrozen | lib/canton-swap-service.ts:1137-1190 | once a reissue paid the leg directly, no step of anyone adds a command or an acceptance, whatever copies the workers hold |
| CantonSwapFrozen.StraddleFreezes | lib/canton-swap-service.ts:741-749 | so a fill that goes on with a re-read row of such an order does no harm |
| CantonSwapStraddle.WaitAndReissue | lib/canton-swap-service.ts:1029-1204 | from a row whose offer is gone, an undisturbed reconcile, 90 seconds on the clock and a second reconcile commit the next number and the row names it |
| CantonSwapProgress.FillFills | lib/canton-swap-service.ts:706-823 | an undisturbed fill of a Loop order from `user_locked` or `filling`, reserved or not, commits fill 0 on the pending sell offer and leaves exactly the row of its outcome |
| CantonSwapProgress.FillRecovers | lib/canton-swap-service.ts:825-883 | a fill that committed without being recorded is found and recorded, and nothing is submitted |
| CantonSwapProgress.SettleSettles | lib/canton-swap-service.ts:309-442 | an undisturbed settlement of a managed order from `open` or `settling` makes the sell offer if there is none and one direct fill of it, and the row is filled |
| CantonSwapProgress.FillFails | lib/canton-swap-service.ts:755-823 | an undisturbed fill whose submission fails for good ends `failed`, without float and with the sell offer given back |
| CantonSwapProgress.FillRetries | lib/canton-swap-service.ts:755-823 | one that may be tried again leaves the order as it was with its reservation, one in flight leaves it `filling` |
| CantonSwapProgress.SettleFails | lib/canton-swap-service.ts:309-442 | an undisturbed settlement without a fill ends `failed` with the sell offer given back |
| CantonSwapProgress.SettleRecovers | lib/canton-swap-service.ts:309-475 | an undisturbed settlement that fails after the fill committed applies that fill |
| CantonSwapProgress.OffersOnce | lib/canton-swap-service.ts:309-442 | a managed order that names its sell offer is settled without a second one, whatever the ledger answers |
| CantonSwapProgress.RepairApplies | lib/canton-swap-service.ts:886-937 | the sweeps apply a committed fill to a row of any status they look at |
| CantonSwapProgress.RepairLeaves | lib/canton-swap-service.ts:886-937 | while no fill is committed the sweeps change only a failed Loop order that has a sell offer |
| CantonSwapProgress.ProofRepaired | lib/canton-swap-service.ts:1207-1254 | an undisturbed proof repair gives a filled order without a receipt the evidence of its fill, or lets it wait for the offer that the fill left |
| CantonSwapProgress.ReconcileWaits | lib/canton-swap-service.ts:1037-1044 | while the offer is open the reconcile leaves the order as it is, without a stamp |
| CantonSwapProgress.ReconcileDelivered | lib/canton-swap-service.ts:1076-1082 | when the offer is gone but the settlement delivered by itself, the reconcile fills the order with the settlement as receipt |
| CantonSwapProgress.ReconcileCools | lib/canton-swap-service.ts:1084-1096 | from the first look at a cleared offer until 90 seconds later an undisturbed reconcile does nothing but set the stamp |
| CantonSwapProgress.ReconcileReissues | lib/canton-swap-service.ts:1097-1204 | from 90 seconds on it commits the next number, or finds it when it had committed, and the row names it or is filled |
| CantonSwapProgress.MarkFills | lib/canton-swap-service.ts:1434-1505 | once the acceptance is on the ledger the order is filled with that receipt |
| CantonSwapProgress.NothingElsewhere | lib/canton-swap-service.ts:285-1505 | on a row that a call does not act on it ends at once and changes neither row nor ledger |
| CantonSwapProgress.OrderFills | lib/canton-swap-service.ts:516-853 | a new Loop order can be filled, whether the fill pays directly or leaves an offer |
| CantonSwapService.Service.ReconcileLoopCounter | lib/canton-swap-service.ts:1029-1204 | one order of the reconcile, in any run: "completed" means that the row is filled with a real delivery, "reissued" that it names the reissue at its attempt and that this call loaded the row with a stamp at least 90 seconds old; in careful runs the reissue follows a dead offer |
| CantonSwapService.Service.VerifyCounterLegReceiptProof | lib/canton-swap-settle.ts:862-900 | in any run, for every number of attempts: "received" names a delivery, either the receipt of the copy or the acceptance of its offer; "still pending" means that the offer is open; "not received" about a row that waits for its offer means that the offer is closed and was never accepted |
| CantonSwapService.Service.MarkCounterAccepted | lib/canton-swap-service.ts:1434-1505 | in any run success returns the filled row with a receipt that names a delivery |
| CantonSwapService.Service.FillLoop | lib/canton-swap-service.ts:706-823 | in any run a written result names the one committed fill and is either filled with a delivery or waits for the offer of that fill |
| CantonSwapService.Service.ReissueAndRecord | lib/canton-swap-service.ts:1137-1190 | in any run a recorded reissue is named by the row at its attempt; in careful runs it follows a dead offer |
| CantonSwapTheorems.FillResultMeans | lib/canton-swap-service.ts:825-853 | the row built from a committed fill is filled exactly when that fill is a direct delivery, and then names the only delivery and holds no float; otherwise it waits for the offer of this fill, holds the float, and a scan from its creation offset sees the acceptance exactly when there is one |
| HtlcReverseTheorems.LateReturnMeansNeverClaimed | lib/htlc-service-singleton.ts:2859-2974 | in every run with the ladder, when the late refund submits the return the WBTC was never claimed and in no continuation ever is |
| HtlcReverseTheorems.ManagedReturnMeansNeverClaimed | lib/htlc-service-singleton.ts:2930-2940 | in every run with the ladder, a managed order that was returned was never claimed on the escrow and never will be |
| HtlcReverseTheorems.RefundMeansNeverClaimed | lib/htlc-service-singleton.ts:3587-3651 | in careful runs, once the CBTC return is committed by whichever call, no WBTC was claimed and no careful continuation claims it |
| HtlcReverseTheorems.SettledMeansNotReturned | lib/htlc-service-singleton.ts:2607-2674 | in careful runs a `main_claimed` order was not returned |
| HtlcReverseTheorems.TakenMeansClaimed | lib/htlc-service-singleton.ts:2544-2674 | in every run the solver's claim or a `main_claimed` row implies a Claimed event and a recorded settlement of the right kind, and a claimed HtlcLock was not returned |
| HtlcReverseTheorems.RefundCommitsOnce | lib/htlc-service-singleton.ts:2882-2974 | in every run, over both refund calls and any number of workers, the return commits at most once, because both calls compute the same command id |
| HtlcReverseTheorems.RefundedRowNamesReturn | lib/htlc-service-singleton.ts:3603-3650 | in every run a row set to `refunded` by the refund calls holds the id of that one return |
| HtlcReverseTheorems.EvidenceIsReal | lib/htlc-service-singleton.ts:2465-2538 | in every run every evidence field of the row names a ledger fact of its kind, custody is there from main_locked on, and revealed or counter_claimed implies a Claimed event |
| HtlcReverseProgress.LateRefundFinishes | lib/htlc-service-singleton.ts:2859-2974 | from every reachable state past userTimelock with custody, no reveal, no live lock and no claim seen, whichever of the six statuses the row has, an undisturbed late refund ends `refunded` with the id of the one return, which it commits only if none had been |
| HtlcReverseProgress.LateRefundIff | lib/htlc-order-logic.ts:261-279 | from every reachable state with custody an undisturbed late refund can reach `refunded` if and only if the row has one of the six statuses, unrevealed and past userTimelock, and the escrow holds neither a live lock nor a claim |
| HtlcReverseProgress.EarlyRefundFinishes | lib/htlc-service-singleton.ts:3587-3651 | the early refund of a Loop order from `main_locked` or `refunding`, with no lock live, ends `refunded` with the id of the one return |
| HtlcReverseProgress.EarlyRefundIff | lib/htlc-service-singleton.ts:3587-3613 | an undisturbed early refund can reach `refunded` if and only if the order is a Loop one, `main_locked` or `refunding`, unrevealed, and no lock is live |
| HtlcReverseProgress.ClaimTakes | lib/htlc-service-singleton.ts:2544-2674 | once the user claimed the WBTC an undisturbed claim of the solver ends `main_claimed` with that event and its own settlement |
| HtlcReverseProgress.PhantomResolved | lib/htlc-service-singleton.ts:1000-1155 | the reconcile of a lock: kept while live, `counter_claimed` after a claim, back to `main_locked` otherwise |
| HtlcReverseProgress.DeadLockIgnored | lib/htlc-service-singleton.ts:2465-2538 | an undisturbed recording of a lock that is no longer live changes nothing |
| HtlcReverseProgress.EscrowMoves | contracts/src/HTLCEscrow.sol:54-109 | no call writes the escrow: over all steps, a sent lock lands and the user claims only before solverTimelock, the solver retakes only from it on, and each claim or retake spends a live lock |
| HtlcReverseProgress.NothingElsewhere | lib/htlc-service-singleton.ts:1178-3666 | on a row or at a time a call does not act on it ends at once and changes neither row nor ledgers |
| HtlcReverseProgress.OrderCompletes | lib/htlc-service-singleton.ts:1178-2674 | a new reverse order of either kind can end with both legs exchanged and the CBTC not returned |
| HtlcReverseTheorems.InterruptedRefundFacts | lib/htlc-service-singleton.ts:2872-2880 | in careful runs a row left in `refunding` passes every guard of the late refund except the clock |
| HtlcReverseConverse.AbortHarmsIff | lib/htlc-service-singleton.ts:1507-1517 | after any careful past, giving the reservation back opens a careful continuation with both legs in the user's hands if and only if the order is a Loop one and the WBTC was claimed or a sent lock can still land |
| HtlcReverseConverse.EarlyStartHarmsIff | lib/htlc-service-singleton.ts:3587-3613 | after any careful past, starting an early refund opens such a continuation if and only if, before solverTimelock, the row is `refunding` and another early refund may still put it back to main_locked |
| HtlcReverseConverse.AbortPaysBoth | lib/htlc-service-singleton.ts:1508-1517 | from every careful state with such an abort, a careful continuation in which the return and the claim both happen |
| HtlcReverseConverse.EntryPaysBoth | lib/htlc-service-singleton.ts:3640-3641 | from every careful state with such an entry, a careful continuation in which the rollback reopens the order and both legs go to the user |
| HtlcReverseConverse.CarefulIsExact | lib/htlc-service-singleton.ts:1508-3651 | over all steps of calls, daemon, escrow and clock: a step is careless if and only if it opens a careful continuation with both legs in the user's hands |
| HtlcReverseConverse.CarelessAbortOccurs | lib/htlc-service-singleton.ts:1508-1517 | for every Loop order with time before solverTimelock careful runs reach such an abort |
| HtlcReverseConverse.CarelessEntryOccurs | lib/htlc-service-singleton.ts:3587-3613 | for every Loop order with time before solverTimelock careful runs reach such an entry |
| HtlcReverseSafety.LateScanKeeps | lib/htlc-service-singleton.ts:285-328 | after userTimelock an empty lock read followed by an empty Claimed scan means nothing was claimed, and this stays true in every run |
| HtlcReverseSafety.LateReady | lib/htlc-service-singleton.ts:2894-2925 | at every submission of the late refund the escrow is spent for good, in every run |
| HtlcReverseSafety.PhantomScanPc | lib/htlc-service-singleton.ts:1048-1123 | a cleared lock without a Claimed event was retaken, so rolling back to main_locked puts no WBTC at stake |
| HtlcReverseSafety.WorldKeeps | contracts/src/HTLCEscrow.sol:54-109 | every step of daemon, escrow and clock keeps the invariant of all runs |
| HtlcReverseSafety.StepKeeps | lib/htlc-service-singleton.ts:2465-3271 | every step keeps the invariant of all runs on ledgers, command ids, row and copies |
| HtlcReverseCare.StepCares | lib/htlc-service-singleton.ts:1364-3651 | every careful step keeps refund ownership: while an early refund may reopen the order no other can pay, and a committed return seals the escrow |
| HtlcReverseSafety.RefundUnused | lib/htlc-service-singleton.ts:2912-3625 | the refund id of either call is unused exactly when no return was committed |
| HtlcCommands.IdsTellApart | lib/htlc-service-singleton.ts:2912-3625 | both refund calls compute one id, orders and commands have different ones |
| HtlcReverseEdges.StatusFollowsEdges | lib/htlc-order-store.ts:199-210 | in every run, with no assumption on care, each persisted status change is an edge of the fixed graph |
| HtlcReverseEdges.TerminalIsAbsorbing | lib/htlc-service-singleton.ts:2859-3309 | `main_claimed`, `refunded` and `cancelled` never change again in any run |
| HtlcReverseService.Service.RefundMainCanton | lib/htlc-service-singleton.ts:2859-2974 | in every run a returned id is a committed return, the escrow can never be claimed, and a recorded result is the row |
| HtlcReverseService.Service.EarlyRefundLoopCustody | lib/htlc-service-singleton.ts:3587-3651 | a returned id is a committed return and a recorded result is the row, in every run; the escrow holds no claim if the run was careful |
| HtlcReverseService.Service.AssertEvmCounterNotClaimed | lib/htlc-service-singleton.ts:285-328 | in every run passing the guard means that the WBTC was not claimed and never will be |
| HtlcReverseService.Service.ClaimMainAsSolver | lib/htlc-service-singleton.ts:2544-2674 | success implies a Claimed event, and that the CBTC was not returned: for a managed order in every run, for a Loop order in careful ones |
| HtlcReverseService.Service.RecordCounterLocked | lib/htlc-service-singleton.ts:2465-2538 | a recorded lock leaves a counter_locked row whose lock transaction is a Locked event |
| HtlcReverseService.Service.ReconcilePhantomEvmCounterLock | lib/htlc-service-singleton.ts:1000-1155 | in every run a changed row is counter_claimed with a Claimed event, or main_locked without a lock transaction after the solver retook the WBTC |
| HtlcForwardSafety.UserReceivesAtMostOnce | lib/htlc-service-singleton.ts:1768-2007 | in every run any two updates that bring the CBTC to the user are the same, because every delivery carries the order's one delivery id |
| HtlcForwardSafety.DeliveryCommitsOnce | lib/htlc-service-singleton.ts:1821-1850 | the delivery transfer of an order commits at most once, under the delivery id |
| HtlcForwardSafety.ClaimIsProof | lib/htlc-service-singleton.ts:2012-2063 | a claim reference is a direct delivery or an acceptance of this order's offer, and `main_claimed` has one together with the transfer |
| HtlcForwardSafety.SolverClaimMeansDelivered | lib/htlc-service-singleton.ts:3163-3168 | the solver claimed the WBTC only if the user holds the CBTC |
| HtlcForwardSafety.GateMeansDelivered | lib/swap-product-invariants.ts:179-218 | in every run the preimage gate opens only when the user holds the CBTC |
| HtlcForwardProgress.GateOpensIff | lib/swap-product-invariants.ts:141-218 | in every state the solver gets the preimage if and only if the row is `counter_claimed` or `main_claimed`, revealed, and names the transfer and the proof; a pending offer on the row does not matter |
| HtlcForwardProgress.ClaimCounterDelivers | lib/htlc-service-singleton.ts:1768-2007 | an undisturbed claimCounter commits one delivery under the delivery id; paid directly it leaves an open gate, otherwise the offer waits on the row |
| HtlcForwardProgress.ClaimCounterRecovers | lib/htlc-service-singleton.ts:1852-1960 | a delivery that committed without being recorded is found by its id and recorded, and nothing is submitted again |
| HtlcForwardProgress.AskedAgain | lib/htlc-service-singleton.ts:1945-2009 | claimCounter on an order that names its delivery submits nothing, whatever the ledgers answer, and changes nothing once the proof is named too |
| HtlcForwardProgress.AskedAgainProves | lib/htlc-service-singleton.ts:867-950 | a direct delivery that is visible now is proven on the row, asked by claimCounter or by the reconcile |
| HtlcForwardProgress.OfferRemembered | lib/htlc-service-singleton.ts:867-950 | an offer left by the delivery, or a pending one with the order's memo, is put on a row that names none |
| HtlcForwardProgress.SecondLookProves | lib/htlc-service-singleton.ts:1945-2009 | when the reconcile shows nothing claimCounter looks once more and records a delivery or its offer |
| HtlcForwardProgress.Merges | lib/htlc-service-singleton.ts:2012-2063 | evidence completes what the row has and replaces nothing; a proof takes the offer away |
| HtlcForwardProgress.EvidenceRefused | lib/htlc-service-singleton.ts:2012-2063 | on a row of another status, delivery or offer nothing is written, and a lost write leaves one attempt less |
| HtlcForwardProgress.ReconcileAccepted | lib/htlc-service-singleton.ts:867-950 | once the user accepted the offer, whether the row names it yet or not, the reconcile records offer and acceptance |
| HtlcForwardProgress.ClaimIsRecorded | lib/htlc-service-singleton.ts:2979-3139 | recordCounterClaimed accepts the direct delivery or the acceptance of the offer |
| HtlcForwardProgress.MainClaimRecorded | lib/htlc-service-singleton.ts:3140-3162 | behind an open gate a Claimed event takes the order to `main_claimed`, by the solver's report or by the reconcile |
| HtlcForwardSettlement.SettlementIsReal | lib/htlc-service-singleton.ts:3140-3309 | in every run a `main_claimed` row names a Claimed event, and only a failed or refunded row names a Retaken one |
| HtlcForwardSettlement.OfferEndsOnce | lib/htlc-service-singleton.ts:867-950 | in every run an offer is accepted or closed once, never both |
| HtlcForwardSettlement.EscrowMoves | contracts/src/HTLCEscrow.sol:84-109 | no call writes the escrow: claim and retake spend a live lock, and the claim needs the preimage |
| HtlcForwardSettlement.OrderReturns | lib/htlc-service-singleton.ts:3274-3309 | an order can end `refunded` by the user's retake, with nothing delivered |
| HtlcForwardProgress.NothingElsewhere | lib/htlc-service-singleton.ts:735-3309 | on a row that a call does not act on it ends at once: row, ledgers and gate stay |
| HtlcForwardProgress.OrderCompletes | lib/htlc-service-singleton.ts:1768-3162 | from the user's lock an order can end `main_claimed` with the CBTC at the user and the WBTC at the solver, paid directly or by an accepted offer |
| HtlcForwardSafety.StatusFollowsForwardEdges | lib/htlc-service-singleton.ts:3140-3309 | each status change of a forward Loop order is an edge; main_claimed and refunded have none leaving them |
| HtlcForwardService.Service.PersistEvidence | lib/htlc-service-singleton.ts:2012-2063 | at most three writes; the returned row is the stored one and names the delivery, its claim reference delivers, and a proven delivery has one unless all three writes were lost |
| HtlcForwardService.Service.ClaimCounter | lib/htlc-service-singleton.ts:1768-2007 | "delivered" is answered only when the user holds the CBTC, on first submission, after a duplicate, and on a retry |
| HtlcForwardService.Service.ReconcileLoopForwardCounterDelivery | lib/htlc-service-singleton.ts:867-950 | the row it returns carries a claim reference only if that reference delivers, whichever writes were lost |
| HtlcForwardService.Service.RecordMainClaim | lib/htlc-service-singleton.ts:3140-3162 | a recorded completion has a real Claimed event and a claim reference that delivers |
| OrderCreation.ResolveCreateOrder | lib/htlc-order-logic.ts:148-186 | an existing row is returned unchanged exactly when party and all immutable fields agree; otherwise the first differing field is reported |
| OrderStore.Store.CreateOrder | lib/htlc-service-singleton.ts:386-411 | success and failure both speak about the stored row: the same terms as the returned order, or terms that differ from the request |
| OrderRaces.CreatorsAgree | lib/htlc-service-singleton.ts:386-411 | in every run all successful creations of one id got the same terms and asked for them, and every refused one asked for others |
| OrderRaces.CopiesAgreeForever | lib/htlc-order-store.ts:199-210 | in every run the stored row and every copy any worker holds of one id agree on all immutable terms, then and after any continuation |
| OrderRaces.TermsAreForever | lib/htlc-order-store.ts:199-210 | stored terms never change, whatever stale copies are written back whole |
| Bech32.Polymod | lib/btc-address.ts:47-58 | the two nested loops compute the register function the other results are about |
| Bech32.StepLinear | lib/btc-address.ts:50-56 | the register step of a difference is the difference of the register steps |
| Bech32.StepInjective | lib/btc-address.ts:50-56 | on 30-bit states a nonzero difference never vanishes on equal symbols |
| Bech32.BurstDetected | lib/btc-address.ts:47-58 | two symbol sequences that differ only inside six consecutive places and leave one register are equal |
| Bech32.ExactlyOneChecksum | lib/btc-address.ts:47-58 | for every register and target exactly one six-symbol checksum leaves the target |
| Bech32Address.Bech32Decode | lib/btc-address.ts:75-104 | decoding equals its declarative specification, loop over the data part included |
| Bech32Encoding.AcceptedIff | lib/btc-address.ts:75-104 | for prefixes below U+0400: the decoder gives a prefix, payload and variant for exactly the two spellings, lower and upper case, of the address made of them, up to 90 characters |
| Bech32Encoding.BitsOfChar | lib/btc-address.ts:60-66 | the two parts of a character in the expansion are its quotient and remainder by 32 and give it back |
| Bech32Encoding.ExpansionInjective | lib/btc-address.ts:60-66 | two prefixes with one expansion are the same |
| Bech32Examples.AllSymbolsAddress | lib/btc-address.ts:75-104 | the BIP-173 address with all 32 symbols, in lower and in upper case, is decoded to the symbols 0 to 31 in order as bech32 |
| Bech32Examples.ModifiedAddress | lib/btc-address.ts:93-104 | the shortest BIP-350 address is decoded to its empty payload as bech32m |
| Bech32Address.BurstOfSixDetected | lib/btc-address.ts:75-104 | two accepted addresses of one prefix, length and spec that differ only inside six consecutive data symbols are the same up to case |
| Bech32Address.ExactlyOneChecksumAccepted | lib/btc-address.ts:93-104 | for every prefix, payload and spec exactly one six-symbol checksum is accepted |
| ConvertBits.Convert | lib/btc-address.ts:107-132 | the loops over an unmasked 32-bit accumulator compute exact regrouping for every length and group size |
| ConvertBits.RegroupingIsExact | lib/btc-address.ts:107-132 | an accepted result is the same bit string, up to the zero bits that complete the last group |
| ConvertBits.PaddingUndoesRegrouping | lib/btc-address.ts:107-132 | five to eight without padding is undone by eight to five with padding |
| ConvertBits.RegroupingUndoesPadding | lib/btc-address.ts:107-132 | every byte string survives eight to five with padding and back |
| ConvertBits.FiveToEightInjective | lib/btc-address.ts:107-132 | no two accepted symbol strings give the same bytes |
| LedgerScan.ScanPartyUpdateTrees | lib/canton-command-recovery.ts:56-155 | the loops compute the page-by-page specification; an error is reported only by a strict scan, and only if the ledger end or one of its own requests failed |
| LedgerScan.BrokenIff | lib/canton-command-recovery.ts:84-155 | a scan breaks off if and only if a request it sends fails; the ledger end, an empty page and a page that moves nowhere are no failures |
| LedgerScan.ScanIsComplete | lib/canton-command-recovery.ts:56-155 | with a faithful server that answers every request with a readable page, the scan hits if and only if an update in the range matches, and otherwise ends without one |
| LedgerScan.NotFoundMeansNone | lib/canton-command-recovery.ts:218-234 | from a faithful server, not found means that no update in the range matches if and only if nothing matches behind the unreadable pages the scan asked for |
| LedgerScan.CompleteIff | lib/canton-command-recovery.ts:56-155 | for a faithful server, not found is right for every search if and only if no unreadable page a scan may ask for has a readable update behind it |
| LedgerScan.HiddenTreeIsMissed | lib/canton-command-recovery.ts:129-146 | any tree behind such a page is never found, whatever lies before the page |
| LedgerScan.HitMatches | lib/canton-command-recovery.ts:129-142 | a hit is an update of the party in the range, it has an update id, and it matches |
| LedgerScan.UnreadablePageEndsScan | lib/canton-command-recovery.ts:129-146 | a page without a readable tree ends the scan whatever lies behind it |
| LedgerScan.UnreadablePageHidesMatch | lib/canton-command-recovery.ts:129-146 | such servers exist among the faithful ones: a history of two updates where a match is missed |
| EvmScan.BlockAtOrBefore | lib/htlc-evm-counter-lock.ts:215-235 | the search returns the last block at or before the time, or block 0 |
| EvmScan.HasClaimed | lib/htlc-evm-counter-lock.ts:399-433 | true exactly when a claim lies between the start block and the tip; it asks for the chunks in order, for all of them unless it finds a claim |
| EvmScan.FindClaim | lib/htlc-evm-counter-lock.ts:435-469 | the newest claim in the range, none exactly when there is none, asking for the chunks in order |
| EvmScan.ChunksCoverOnce | lib/htlc-evm-counter-lock.ts:416-431 | every block from the start to the tip lies in exactly one chunk and no other block does |
| EvmScan.ClaimedSince | lib/htlc-service-singleton.ts:301-313 | block search and scan together: true exactly when a claim lies at or after the anchor block, so every claim after the time is seen |
| AmountUnits.ParseUndoesPrint | lib/amount-units.ts:16-36 | printing units and parsing them, with either parser, gives the units back for every precision |
| AmountUnits.PrintAfterParseIsCanonical | lib/amount-units.ts:16-36 | parsing and printing gives the trimmed form without spare zeros |
| AmountUnits.FloorIsFloor | lib/amount-units.ts:4-14 | the floor parser returns the floor of the exact value |
| AmountUnits.ParsersAgree | lib/amount-units.ts:4-27 | the parsers agree when the fraction fits, and the exact one refuses exactly when it does not |
| AmountUnits.DecimalIff | lib/amount-units.ts:4-27 | the texts taken for a number: digits, or digits on both sides of one dot |
| AmountUnits.TrimIsOuter | lib/amount-units.ts:4-27 | trimming takes away exactly the outer white space |
| Strings.FoldsLetters | lib/htlc-order-logic.ts:148-186 | case folding maps the two alphabets letter by letter and changes nothing else |
| AbiEncode.LockRoundTrip | lib/htlc-evm-counter-lock.ts:134-151 | parsing encodeLock output returns unlock time, amount, token and receiver |
| AbiEncode.LockCarriesHash | lib/htlc-evm-encode.ts:31-42 | the call is a selector and five words, and the first word holds the hash lock |
| AbiEncode.PrefixDropped | lib/htlc-evm-encode.ts:20-22 | one leading 0x is taken off, and nothing else |
| AbiEncode.LockWords | lib/htlc-evm-encode.ts:14-42 | the five words of the call are hexadecimal numbers with the values of hash lock, unlock time, amount, token and receiver, addresses in lower case |
| AbiEncode.ClaimRoundTrip | lib/htlc-evm-encode.ts:44-52 | encodeClaim refuses exactly an odd number of digits; otherwise a decoder recovers the preimage bytes and the fill is zero |
| AbiEncode.ClaimInjective | lib/htlc-evm-encode.ts:44-52 | preimages with the same calldata are the same bytes |
| AbiEncode.WordRoundTrip | lib/htlc-evm-encode.ts:23 | a number below 2^256 fills one word and is read back from it |
| FillOutcome.BuildLoopFillResult | lib/canton-swap-leg-verify-logic.ts:574-610 | the loops compute delivered, pending or the two failures |
| FillOutcome.CounterLegDelivered | lib/canton-swap-leg-verify-logic.ts:314-368 | true exactly when the tree holds an Amulet balance move, or a holding of the user and an exercise that binds the sender |
| FillOutcome.ExtractCounterOfferCid | lib/canton-swap-leg-verify-logic.ts:247-278 | the last matching offer in visiting order |
| FillOutcome.OutcomeIgnoresOrder | lib/canton-swap-leg-verify-logic.ts:574-610 | delivered, pending and failures do not depend on the order of the event map, nor does a unique offer |
| FillOutcome.DeliveryWinsOverArtifacts | lib/canton-swap-leg-verify-logic.ts:596-598 | a proven delivery stays delivered whatever offer-looking events are added |
| FillOutcome.DeliveredHasProof | lib/canton-swap-leg-verify-logic.ts:314-417 | delivered implies an event that moved the amount and one in the user's favour |
| FillOutcome.OrderFreeIff | lib/canton-swap-leg-verify-logic.ts:247-610 | every visiting order of the event map gives the same outcome if and only if a delivery is proven or the tree does not hold two different offers |
| FillEvidence.AmountsEqualIff | lib/canton-swap-leg-verify-logic.ts:48-54 | a ledger amount equals the order's exactly when its value, rounded down to base units, is the number of units that the order denotes |
| FillEvidence.MemoMatchesIff | lib/canton-swap-leg-verify-logic.ts:56-65 | an order with a memo takes its own memo, the old fixed one, or none |
| FillEvidence.HoldingIff | lib/canton-swap-leg-verify-logic.ts:330-358 | which created holdings pay the leg, for every template name around each of the three words |
| FillEvidence.OfferIff | lib/canton-swap-leg-verify-logic.ts:247-278 | a created transfer instruction or offer is the counter offer exactly when it pays the leg; an instrument without an id is not compared |
| FillEvidence.NamedTransfersBindIff | lib/canton-swap-leg-verify-logic.ts:498-514 | a factory transfer binds the sender exactly when it pays the leg, the direct rule when it names the holding too |
| FillEvidence.OtherTransfersBindIff | lib/canton-swap-leg-verify-logic.ts:516-525 | any other choice about a transfer does, unless it decides on one or belongs to a rule or a factory |
| FillEvidence.SendingBindsIff | lib/canton-swap-leg-verify-logic.ts:516-569 | a preapproved sending binds by its fields, or when sender and receiver balances moved by the amount |
| FillEvidence.AmuletMovedIff | lib/canton-swap-leg-verify-logic.ts:280-417 | an Amulet sending delivers when the sender lost and the receiver gained something and neither description nor memo is another order's |
| FillEvidence.DirectTransferOutcome | lib/canton-swap-leg-verify-logic.ts:574-610 | the outcome of a registry transfer with its holding, for all values of their fields |
| FillEvidence.OfferOutcome | lib/canton-swap-leg-verify-logic.ts:574-610 | the outcome of a created offer, for all values of its fields |
| FillEvidence.BadAmountNeverFills | lib/canton-swap-leg-verify-logic.ts:48-54 | an order amount that is no decimal or has too many places never counts as filled |
| QuoteMath.GrossIsFloor | lib/htlc-quote-math.ts:7-16 | the gross output is the exact product or quotient rounded down |
| QuoteMath.FeeIsFloor | lib/htlc-quote-math.ts:18-23 | the fee is the exact share of the gross rounded down |
| QuoteMath.ThereAndBackNeverGains | lib/htlc-quote-math.ts:7-45 | there and back at one price with any two fees never returns more than was put in, both ways round |
| QuoteMath.QuoteMonotone | lib/htlc-quote-math.ts:7-45 | output never falls when input grows, negative inputs and truncation included |
| QuoteMath.DivTruncates | lib/htlc-quote-math.ts:7-23 | division rounds towards zero: the sign of the dividend changes only the sign of the quotient |
| QuoteMath.OrderAcceptedIff | lib/htlc-quote.ts:344-368 | an order is accepted exactly when both amounts are positive and the output exceeds the quote by at most 30 parts in 10000 |
| QuoteMath.SettlesIff | lib/htlc-quote.ts:376-406 | an order settles exactly when the fresh quote is at least 9950 parts in 10000 of what was promised, or with a floor of its own when the quote is not below it |
| QuoteMath.AcceptedOrderSettles | lib/htlc-quote.ts:344-406 | an order accepted at quote F passes the settlement floor at every later quote of at least 0.998 F |
| Timelocks.DerivedGap | lib/htlc-timelock.ts:85-108 | the gap is a quarter of the expiration, at most an hour, always above the minimum, and an hour exactly from four hours on |
| Timelocks.DerivedLadderAcceptedIff | lib/htlc-timelock.ts:58-108 | a derived ladder passes the server check exactly while the server clock is inside both bounds |
| Timelocks.EveryOfferedExpirationAccepted | lib/htlc-timelock.ts:84-108 | every expiration from two hours to seven days is accepted, for a server clock up to an hour later |
| Timelocks.MarginNeverRefusesInTime | lib/htlc-evm-lock-guard.ts:32-63 | for an accepted ladder and a bound lock at least 1140 seconds are left up to solverTimelock, so the margin refuses nothing before |
| Timelocks.RevealWindow | lib/htlc-evm-lock-guard.ts:32-63 | a reveal is allowed exactly when the lock ends within 120 seconds of the agreed time on either side and at least 600 seconds from now |
| Timelocks.LadderBounds | lib/htlc-timelock.ts:58-108 | an expiration is taken from two hours on; the server check is the three bounds of 60, 1260 and 604800 seconds |

## Left out

- Guards on time, expiry, price, float totals and vault membership in the service methods are not
  modelled: a worker may pass or fail them at any time, so the proofs cover more runs than the code has.
- HtlcReverseService.Service.ReconcilePhantomEvmCounterLock: the arm that keeps counter_locked calls a verifier that wants a live lock, so it cannot be taken once the lock is cleared; wrong-chain and wrong-amount locks are not modelled.
- HtlcReverseTheorems.RefundedRowNamesReturn: rows set to `refunded` by the bookkeeping call `markRefunded` are tracked separately and promise no id.
- Bech32Address.Bech32Decode: upper and lower case are the ASCII ones; a few non-ASCII letters that JavaScript lower-cases to ASCII are not. Characters beyond U+FFFF, which JavaScript sees as two units, are one here.
- Bech32Encoding.BitsOfChar: characters below U+0400, which includes every prefix the standard allows.
- AbiEncode.LockRoundTrip: unlock times below 2^53, where a JavaScript number is exact; Keccak selectors are parameters.
- LedgerScan.NotFoundMeansNone: the server is a function of the cursor, so a page asked for twice is the same page.
- `refundCounter` and `recordMainRetake` of managed forward orders, `lockCounter`, and the managed forward claim: the exclusion there is the HtlcLock contract's own.
- Contract-level Daml code, SQL totals of the reservation procedures, and the daemon's own source beyond the calls it makes.
- The repairs for orders bound to an earlier vault (`lib/canton-swap-service.ts:474-493` and `719-733`); orders
  made by `createOrder` carry the current one.
- The forward machine has no clock: the user may retake and the solver may claim whenever the lock is live, which
  covers more runs than the escrow allows.
- The strict parser of user sell-leg evidence and the polling around it.
- HTTP, authentication, price feeds, network fees, alerts, history pages and the user interface: input and output without a deep property.
