/** One same-Canton swap order driven by any number of workers.

    The order row lives in a database whose only write is a full-row write guarded by
    the current status (`PutIfStatus`, plus `WriteOffer` which also compares the counter
    offer). Every worker runs one service method and keeps its own copy of the row
    between two awaits; its program counter `Pc` says where it is and what it holds.
    A worker may stop for good at any point (`Crash`), which also stands for every
    thrown error. One `Step` is one await of the program: a read, a write, a ledger
    submission, or something the user or the ledger does on its own. */
module CantonSwapMachine {
  import opened Wrappers
  import opened CantonSwapLedger

  datatype WalletMode = Managed | Loop

  datatype Status = Open | Settling | Filling | UserLocked | Filled | Expired | Failed | Cancelled

  datatype Row = Row(
    status: Status,
    floatReserved: bool,
    userLeg: Option<nat>,
    settlement: Option<nat>,
    counterOffer: Option<nat>,
    createdOffset: Option<nat>,
    receipt: Option<nat>,
    attempt: nat,
    clearedAt: Option<nat>)

  const COUNTER_REISSUE_COOLDOWN_SECONDS: nat := 90

  const NewRow := Row(Open, false, None, None, None, None, None, 0, None)

  /** Why the counter-leg receipt is being checked. */
  datatype Purpose = FirstCheck | Recheck | MarkAccepted | Settlement

  datatype Verdict = Received(update: nat) | StillPending | NotReceived | Unknown

  datatype Pc =
    | Idle
    | Write(o: Row, expected: Status)            // last await: putIfStatus
    | WriteOffer(o: Row, prior: nat)             // last await: putIfStatusAndCounterOffer
    | Confirming(offer: nat)
    | Expiring(o: Row)
    // fillLoop
    | FillChecked(o: Row)
    | FillReserved(status: Status)
    | FillReady(o: Row)
    | FillOwned(o: Row)
    // settleManaged / completeSettling
    | SettleReserve(from: Status)
    | SettleReload
    | SettleReady(o: Row)
    | SettleOffer(o: Row)
    // fillFromUserOffer, shared by both wallet modes
    | FillSubmit(o: Row)
    | FillInFlight
    | Recover(o: Row)
    | Rejecting(o: Row)
    // repairs from the committed fill
    | Repair(o: Row)
    | FilledRepair(o: Row)
    // counter-leg receipt and reissue
    | CounterLoaded(o: Row)
    | Verify(o: Row, purpose: Purpose)
    | VerifyScan(o: Row, purpose: Purpose)
    | Proof(o: Row, purpose: Purpose)
    | TryComplete(o: Row, purpose: Purpose)
    | Cooling(o: Row)
    | Reload(o: Row)
    | ReissueReady(o: Row)
    | ReissueReserved(o: Row)
    | ReissueSubmit(o: Row)

  datatype Call =
    | ConfirmUserLeg(offer: nat)
    | FillLoop
    | SettleManaged
    | RepairFromLedger
    | ReconcileCounter
    | ReconcileSettling
    | ReconcileFilledProof
    | MarkCounterAccepted
    | ExpireStale
    | Cancel

  /** How one await turned out; `u` is the update the answer points at. */
  datatype Choice =
    | Proceed
    | Give
    | Commit(outcome: Outcome)
    | Duplicate(u: nat)
    | DuplicateNotFound
    | Found(u: nat)
    | Missed
    | InFlight
    | Retriable
    | Terminal
    | Unreadable

  datatype Label =
    | Start(w: nat, call: Call)
    | Go(w: nat, choice: Choice)
    | Crash(w: nat)
    | Tick
    | UserOffers
    | UserOfferCloses(offer: nat)
    | UserAccepts(offer: nat)
    | CounterCloses(offer: nat)

  datatype State = State(row: Row, log: Log, now: nat, pcs: map<nat, Pc>)

  const Init := State(NewRow, [], 0, map[])

  function PcOf(s: State, w: nat): Pc {
    if w in s.pcs then s.pcs[w] else Idle
  }

  // ----- The row predicates of canton-swap-order-logic.ts -----

  predicate IsLoopFillPendingCounterAccept(mode: WalletMode, o: Row) {
    mode == Loop && o.status == UserLocked && o.settlement.Some? && o.counterOffer.Some?
  }

  predicate IsPendingCounterAccept(mode: WalletMode, o: Row) {
    IsLoopFillPendingCounterAccept(mode, o)
    || (mode == Managed && o.status == Settling && o.settlement.Some? && o.counterOffer.Some?)
  }

  predicate CounterReissueCooldownElapsed(clearedAt: Option<nat>, now: nat) {
    clearedAt.Some? && now >= clearedAt.value + COUNTER_REISSUE_COOLDOWN_SECONDS
  }

  predicate CounterLegProofPresent(o: Row) {
    o.settlement.Some? && o.receipt.Some?
  }

  /** The status a fill starts from: `filling` for Loop users, `settling` for managed ones. */
  function FillStatus(mode: WalletMode): Status {
    if mode == Loop then Filling else Settling
  }

  /** The status of an order whose counter offer waits for the user. */
  function AcceptStatus(mode: WalletMode): Status {
    if mode == Loop then UserLocked else Settling
  }

  // ----- Row updates -----

  /** applyLoopFillResult / applyManagedFillResult for committed update `u`. */
  function ApplyFill(mode: WalletMode, o: Row, log: Log, u: nat): Row
    requires u < |log| && log[u].Fill?
  {
    var settled := o.(settlement := Some(u),
                      clearedAt := if mode == Loop then None else o.clearedAt,
                      floatReserved := mode == Loop && log[u].outcome.Offered?);
    if log[u].outcome.Offered? then
      settled.(counterOffer := Some(u), createdOffset := Some(u + 1), receipt := None, status := AcceptStatus(mode))
    else
      settled.(createdOffset := None, receipt := Some(u), status := Filled)
  }

  /** applyFilledProofRepair for committed update `u`. */
  function ApplyFilledProofRepair(o: Row, log: Log, u: nat): Row
    requires u < |log| && log[u].Fill?
  {
    var repaired := o.(settlement := Some(u), floatReserved := false, clearedAt := None);
    if log[u].outcome.Offered? then
      repaired.(counterOffer := Some(u), createdOffset := Some(u + 1), receipt := None, status := UserLocked)
    else
      repaired.(receipt := Some(u), counterOffer := None, createdOffset := None, status := Filled)
  }

  /** The row reconcileLoopCounters writes after reissue `u` committed. */
  function ApplyReissue(o: Row, log: Log, u: nat): Row
    requires u < |log| && log[u].Reissue?
  {
    var issued := o.(attempt := o.attempt + 1, clearedAt := None);
    if log[u].outcome.Offered? then
      issued.(counterOffer := Some(u), createdOffset := Some(u + 1), receipt := None)
    else
      issued.(counterOffer := None, createdOffset := None, receipt := Some(u), status := Filled)
  }

  function ApplyReceived(o: Row, u: nat): Row {
    o.(receipt := Some(u), status := Filled, clearedAt := None)
  }

  // ----- Local decisions between two awaits -----

  /** Loading the row and passing the method's own guards. */
  function StartPc(mode: WalletMode, row: Row, log: Log, call: Call): Pc {
    match call
    case ConfirmUserLeg(f) =>
      if mode == Loop && row.status == Open && f < |log| && log[f].UserOffer? then Confirming(f) else Idle
    case FillLoop =>
      if mode == Loop && (row.status == UserLocked || row.status == Filling)
         && !IsLoopFillPendingCounterAccept(mode, row) then FillChecked(row) else Idle
    case SettleManaged =>
      if mode != Managed then Idle
      else if row.status == Open then SettleReserve(Open)
      else if row.status != Settling then Idle
      else if !row.floatReserved && row.settlement.None? then SettleReserve(Settling)
      else SettleReady(row)
    case RepairFromLedger =>
      if mode == Loop && (row.status == Filling || row.status == Failed) then Repair(row)
      else if mode == Managed && (row.status == Settling || row.status == Failed
                                  || row.status == Expired || row.status == Open) then Repair(row)
      else Idle
    case ReconcileCounter =>
      if IsLoopFillPendingCounterAccept(mode, row) then CounterLoaded(row) else Idle
    case ReconcileSettling =>
      if mode == Managed && IsPendingCounterAccept(mode, row) then Verify(row, Settlement) else Idle
    case ReconcileFilledProof =>
      if mode == Loop && row.status == Filled && row.settlement.Some? && !CounterLegProofPresent(row)
      then FilledRepair(row) else Idle
    case MarkCounterAccepted =>
      if row.status == AcceptStatus(mode) && row.counterOffer.Some? && row.settlement.Some?
      then Verify(row, MarkAccepted) else Idle
    case ExpireStale =>
      if (row.status == Open || row.status == Failed || (mode == Loop && row.status == UserLocked))
         && !IsLoopFillPendingCounterAccept(mode, row) then Expiring(row) else Idle
    case Cancel =>
      if row.status == Open then Write(row.(status := Cancelled, floatReserved := false), Open) else Idle
  }

  /** What verifyCounterLegReceiptProof answers before it looks at the ledger. */
  function EarlyVerdict(mode: WalletMode, o: Row): Option<Verdict> {
    if o.settlement.None? then Some(NotReceived)
    else if o.receipt.Some? then Some(Received(o.receipt.value))
    else if !IsPendingCounterAccept(mode, o) then Some(NotReceived)
    else if o.createdOffset.None? then Some(Unknown)
    else None
  }

  /** What the caller of verifyCounterLegReceiptProof does with the verdict. */
  function OnVerdict(mode: WalletMode, o: Row, purpose: Purpose, v: Verdict): Pc {
    match purpose
    case MarkAccepted | Settlement =>
      if v.Received? then Write(o.(receipt := Some(v.update), status := Filled), AcceptStatus(mode)) else Idle
    case FirstCheck | Recheck =>
      match v
      case Received(u) => Write(ApplyReceived(o, u), UserLocked)
      case StillPending =>
        if purpose == FirstCheck && o.clearedAt.None? then Idle else Write(o.(clearedAt := None), UserLocked)
      case Unknown => Write(o, UserLocked)
      case NotReceived => Proof(o, purpose)
  }

  /** Where the reissue path goes when the settlement update proves no delivery. */
  function AfterProof(o: Row, purpose: Purpose): Pc {
    if purpose == FirstCheck then Cooling(o) else ReissueReady(o)
  }

  // ----- One await -----

  function Move(s: State, w: nat, pc: Pc): State {
    s.(pcs := s.pcs[w := pc])
  }

  /** putIfStatus: the row changes only if it still has the expected status. */
  function PutIfStatus(s: State, o: Row, expected: Status): State {
    if s.row.status == expected then s.(row := o) else s
  }

  function Append(s: State, u: Update): State {
    s.(log := s.log + [u])
  }

  /** rejectUserLegOffer: closes the sell offer if it is still pending. */
  function RejectUserLeg(s: State, o: Row): State {
    if o.userLeg.Some? && o.settlement.None? && UserOfferPending(s.log, o.userLeg.value)
    then Append(s, UserOfferClosed(o.userLeg.value)) else s
  }

  /** The fill command: it commits at most once, and only while the sell offer is pending. */
  predicate CanFill(log: Log, o: Row) {
    !Committed(log, 0) && o.userLeg.Some? && UserOfferPending(log, o.userLeg.value)
  }

  // fillLoop (canton-swap-service.ts:706-823)

  function AtFillChecked(s: State, w: nat, o: Row): State {
    if o.floatReserved || o.settlement.Some? then Move(s, w, FillReady(o))
    // reserve_canton_swap_float: an in-place update guarded by the status
    else if s.row.status == o.status then Move(s.(row := s.row.(floatReserved := true)), w, FillReserved(o.status))
    else Move(s, w, Idle)
  }

  /** The row is read again after the reservation; the guard at canton-swap-service.ts:741 is
      not asked again. */
  function AtFillReserved(s: State, w: nat, st: Status): State {
    Move(s, w, if s.row.status == st && s.row.floatReserved then FillReady(s.row) else Idle)
  }

  function AtFillReady(s: State, w: nat, o: Row): State {
    var owned := o.(status := Filling);
    if o.status != UserLocked then Move(s, w, FillOwned(o))
    else if s.row.status == UserLocked then Move(s.(row := owned), w, FillOwned(owned))
    else Move(s, w, Idle)
  }

  function AtFillOwned(s: State, w: nat, o: Row, ch: Choice): Option<State> {
    match ch
    case Found(u) =>
      if CommandAt(s.log, u, 0) then Some(Move(s, w, Write(ApplyFill(Loop, o, s.log, u), Filling))) else None
    case _ => Some(Move(s, w, FillSubmit(o)))
  }

  function AtFillInFlight(s: State, w: nat): State {
    Move(s, w, if s.row.status == Filling then Idle else Write(s.row.(status := UserLocked), Filling))
  }

  // fillFromUserOffer (canton-swap-settle.ts:279-396) and the catch blocks around it

  function AtFillSubmit(mode: WalletMode, s: State, w: nat, o: Row, ch: Choice): Option<State> {
    match ch
    case Commit(outcome) =>
      // a managed order is filled only by a direct transfer (canton-swap-settle.ts:309-316)
      if CanFill(s.log, o) && (mode == Loop || outcome.Direct?) then
        var s' := Append(s, Fill(o.userLeg.value, outcome));
        Some(Move(s', w, Write(ApplyFill(mode, o, s'.log, |s.log|), FillStatus(mode))))
      else None
    case Duplicate(u) =>
      if CommandAt(s.log, u, 0)
      then Some(Move(s, w, Write(ApplyFill(mode, o, s.log, u), FillStatus(mode)))) else None
    case DuplicateNotFound => Some(Move(s, w, if mode == Loop then Idle else Recover(o)))
    case InFlight => Some(Move(s, w, if mode == Loop then FillInFlight else Recover(o)))
    case Retriable =>
      Some(Move(s, w, if mode == Loop then Write(o.(status := UserLocked), Filling) else Recover(o)))
    case Terminal => Some(Move(s, w, if mode == Loop then Rejecting(o) else Recover(o)))
    case _ => None
  }

  /** repairManagedFromLedger inside the catch block of completeSettling. */
  function AtRecover(s: State, w: nat, o: Row, ch: Choice): Option<State> {
    match ch
    case Found(u) =>
      if CommandAt(s.log, u, 0) then Some(Move(s, w, Write(ApplyFill(Managed, o, s.log, u), o.status))) else None
    case InFlight => Some(Move(s, w, Write(o.(status := Settling), Settling)))
    case _ => Some(Move(s, w, Rejecting(o)))
  }

  function AtRejecting(mode: WalletMode, s: State, w: nat, o: Row, ch: Choice): State {
    var failed := Write(o.(status := Failed, floatReserved := false), FillStatus(mode));
    if ch == Proceed then Move(RejectUserLeg(s, o), w, failed)
    else Move(s, w, if mode == Loop then failed else Write(o.(status := Settling), Settling))
  }

  // settleManaged and completeSettling (canton-swap-service.ts:309-441)

  function AtSettleReserve(s: State, w: nat, from: Status): State {
    if s.row.status == from then Move(s.(row := s.row.(status := Settling, floatReserved := true)), w, SettleReload)
    else if from == Open && s.row.status == Settling then Move(s, w, SettleReady(s.row))
    else Move(s, w, Idle)
  }

  function AtSettleReload(s: State, w: nat): State {
    Move(s, w, if s.row.status == Settling && s.row.floatReserved then SettleReady(s.row) else Idle)
  }

  function AtSettleReady(s: State, w: nat, o: Row, ch: Choice): Option<State> {
    match ch
    case Give => // the network-fee estimate is written back first
      if s.row.status == Settling then Some(Move(s.(row := o), w, SettleReady(o)))
      else Some(Move(s, w, SettleReady(s.row)))
    case Commit(_) => // the backend offers the user's holdings to the vault
      if o.userLeg.Some? then None
      else Some(Move(Append(s, UserOffer), w, SettleOffer(o.(userLeg := Some(|s.log|)))))
    case Duplicate(f) =>
      if o.userLeg.None? && f < |s.log| && s.log[f].UserOffer?
      then Some(Move(s, w, SettleOffer(o.(userLeg := Some(f))))) else None
    case Proceed => if o.userLeg.Some? then Some(Move(s, w, FillSubmit(o))) else None
    case _ => Some(Move(s, w, Recover(o)))
  }

  function AtSettleOffer(s: State, w: nat, o: Row): State {
    if s.row.status == Settling then Move(s.(row := o), w, FillSubmit(o))
    else if s.row.userLeg.Some? then Move(s, w, FillSubmit(s.row))
    else Move(s, w, Recover(s.row))
  }

  // single writes and repairs

  function AtWriteOffer(s: State, w: nat, o: Row, prior: nat): State {
    Move(if s.row.status == UserLocked && s.row.counterOffer == Some(prior) then s.(row := o) else s, w, Idle)
  }

  /** confirmUserLeg: bind the sell offer and reserve float, or reject the offer. */
  function AtConfirming(s: State, w: nat, f: nat, ch: Choice): State {
    if ch == Proceed && s.row.status == Open
    then Move(s.(row := s.row.(status := UserLocked, floatReserved := true, userLeg := Some(f))), w, Idle)
    else if UserOfferPending(s.log, f) then Move(Append(s, UserOfferClosed(f)), w, Idle)
    else Move(s, w, Idle)
  }

  function AtExpiring(s: State, w: nat, o: Row, ch: Choice): State {
    if ch != Proceed then Move(s, w, Idle)
    else
      Move(if o.status == Open then s else RejectUserLeg(s, o), w,
           Write(o.(status := Expired, floatReserved := false), o.status))
  }

  /** reconcileFilling, reconcileFailedLoop and repairManagedFromLedger. */
  function AtRepair(mode: WalletMode, s: State, w: nat, o: Row, ch: Choice): Option<State> {
    match ch
    case Found(u) =>
      if CommandAt(s.log, u, 0) then Some(Move(s, w, Write(ApplyFill(mode, o, s.log, u), o.status))) else None
    case _ =>
      Some(Move(s, w, if mode == Loop && o.status == Failed && o.userLeg.Some?
                      then Write(o.(status := UserLocked), Failed) else Idle))
  }

  function AtFilledRepair(s: State, w: nat, o: Row, ch: Choice): Option<State> {
    match ch
    case Found(u) =>
      if CommandAt(s.log, u, 0) then Some(Move(s, w, Write(ApplyFilledProofRepair(o, s.log, u), Filled))) else None
    case _ => Some(Move(s, w, Write(o, Filled)))
  }

  // reconcileLoopCounters (canton-swap-service.ts:1029-1204)

  function AtCounterLoaded(s: State, w: nat, o: Row): Option<State> {
    if o.counterOffer.None? then None
    else if !CounterPending(s.log, o.counterOffer.value) then Some(Move(s, w, Verify(o, FirstCheck)))
    else Some(Move(s, w, if o.clearedAt.Some? then Write(o.(clearedAt := None), UserLocked) else Idle))
  }

  /** verifyCounterLegReceiptProof, first half of one polling attempt: the pending list. */
  function AtVerify(mode: WalletMode, s: State, w: nat, o: Row, purpose: Purpose): State {
    match EarlyVerdict(mode, o)
    case Some(v) => Move(s, w, OnVerdict(mode, o, purpose, v))
    case None =>
      if CounterPending(s.log, o.counterOffer.value) then Move(s, w, OnVerdict(mode, o, purpose, StillPending))
      else Move(s, w, VerifyScan(o, purpose))
  }

  /** The second half: the strict scan covers every update after the creation offset. */
  function AtVerifyScan(mode: WalletMode, s: State, w: nat, o: Row, purpose: Purpose, ch: Choice): Option<State> {
    if o.counterOffer.None? || o.createdOffset.None? || o.createdOffset.value > |s.log| then None
    else
      var hit := CounterAccepted(o.counterOffer.value);
      match ch
      case Found(u) =>
        if o.createdOffset.value <= u < |s.log| && s.log[u] == hit
        then Some(Move(s, w, OnVerdict(mode, o, purpose, Received(u)))) else None
      case Missed =>
        if hit in s.log[o.createdOffset.value..] then None
        else Some(Move(s, w, OnVerdict(mode, o, purpose, NotReceived)))
      case _ => // next polling attempt
        if hit in s.log[o.createdOffset.value..] then None else Some(Move(s, w, Verify(o, purpose)))
  }

  function AtProof(s: State, w: nat, o: Row, purpose: Purpose, ch: Choice): State {
    if ch == Unreadable then Move(s, w, Write(o, UserLocked))
    else if o.settlement.Some? && IsDirect(s.log, o.settlement.value) then
      var done := o.(receipt := o.settlement, counterOffer := None, createdOffset := None, clearedAt := None,
                     status := Filled);
      Move(s, w, TryComplete(done, purpose))
    else Move(s, w, AfterProof(o, purpose))
  }

  /** A lost write falls through to the reissue path (lines 1022-1025). */
  function AtTryComplete(s: State, w: nat, o: Row, purpose: Purpose): State {
    if s.row.status == UserLocked then Move(s.(row := o), w, Idle) else Move(s, w, AfterProof(o, purpose))
  }

  function AtCooling(s: State, w: nat, o: Row): State {
    if o.clearedAt.None? then Move(s, w, Write(o.(clearedAt := Some(s.now)), UserLocked))
    else Move(s, w, if CounterReissueCooldownElapsed(o.clearedAt, s.now) then Reload(o) else Idle)
  }

  function AtReload(s: State, w: nat, o: Row): State {
    Move(s, w, if s.row.counterOffer == o.counterOffer && s.row.attempt == o.attempt then Verify(s.row, Recheck) else Idle)
  }

  function AtReissueReady(s: State, w: nat, o: Row): State {
    if o.floatReserved then Move(s, w, ReissueSubmit(o))
    else if s.row.status == UserLocked then Move(s.(row := s.row.(floatReserved := true)), w, ReissueReserved(o))
    else Move(s, w, Idle)
  }

  function AtReissueReserved(s: State, w: nat, o: Row): State {
    Move(s, w,
         if s.row.status == UserLocked && s.row.floatReserved
            && s.row.counterOffer == o.counterOffer && s.row.attempt == o.attempt then ReissueSubmit(s.row) else Idle)
  }

  /** reissueLoopCounterLeg: command attempt+1 commits at most once. */
  function AtReissueSubmit(s: State, w: nat, o: Row, ch: Choice): Option<State> {
    if o.settlement.None? || o.counterOffer.None? then Some(Move(s, w, Idle))
    else
      match ch
      case Commit(outcome) =>
        if Committed(s.log, o.attempt + 1) then None
        else
          var s' := Append(s, Reissue(o.attempt + 1, outcome));
          Some(Move(s', w, WriteOffer(ApplyReissue(o, s'.log, |s.log|), o.counterOffer.value)))
      case Duplicate(u) =>
        if CommandAt(s.log, u, o.attempt + 1)
        then Some(Move(s, w, WriteOffer(ApplyReissue(o, s.log, u), o.counterOffer.value))) else None
      case _ => Some(Move(s, w, Idle))
  }

  function StepGo(mode: WalletMode, s: State, w: nat, ch: Choice): Option<State> {
    match PcOf(s, w)
    case Idle => None
    case Write(o, expected) => Some(Move(PutIfStatus(s, o, expected), w, Idle))
    case WriteOffer(o, prior) => Some(AtWriteOffer(s, w, o, prior))
    case Confirming(f) => Some(AtConfirming(s, w, f, ch))
    case Expiring(o) => Some(AtExpiring(s, w, o, ch))
    case FillChecked(o) => Some(AtFillChecked(s, w, o))
    case FillReserved(st) => Some(AtFillReserved(s, w, st))
    case FillReady(o) => Some(AtFillReady(s, w, o))
    case FillOwned(o) => AtFillOwned(s, w, o, ch)
    case SettleReserve(from) => Some(AtSettleReserve(s, w, from))
    case SettleReload => Some(AtSettleReload(s, w))
    case SettleReady(o) => AtSettleReady(s, w, o, ch)
    case SettleOffer(o) => Some(AtSettleOffer(s, w, o))
    case FillSubmit(o) => AtFillSubmit(mode, s, w, o, ch)
    case FillInFlight => Some(AtFillInFlight(s, w))
    case Recover(o) => AtRecover(s, w, o, ch)
    case Rejecting(o) => Some(AtRejecting(mode, s, w, o, ch))
    case Repair(o) => AtRepair(mode, s, w, o, ch)
    case FilledRepair(o) => AtFilledRepair(s, w, o, ch)
    case CounterLoaded(o) => AtCounterLoaded(s, w, o)
    case Verify(o, purpose) => Some(AtVerify(mode, s, w, o, purpose))
    case VerifyScan(o, purpose) => AtVerifyScan(mode, s, w, o, purpose, ch)
    case Proof(o, purpose) => Some(AtProof(s, w, o, purpose, ch))
    case TryComplete(o, purpose) => Some(AtTryComplete(s, w, o, purpose))
    case Cooling(o) => Some(AtCooling(s, w, o))
    case Reload(o) => Some(AtReload(s, w, o))
    case ReissueReady(o) => Some(AtReissueReady(s, w, o))
    case ReissueReserved(o) => Some(AtReissueReserved(s, w, o))
    case ReissueSubmit(o) => AtReissueSubmit(s, w, o, ch)
  }

  /** One step of the whole system; None when the label cannot happen in `s`. */
  function Step(mode: WalletMode, s: State, l: Label): Option<State> {
    match l
    case Start(w, call) =>
      if PcOf(s, w).Idle? then Some(Move(s, w, StartPc(mode, s.row, s.log, call))) else None
    case Go(w, ch) => StepGo(mode, s, w, ch)
    case Crash(w) => Some(Move(s, w, Idle))
    case Tick => Some(s.(now := s.now + 1))
    case UserOffers => Some(Append(s, UserOffer))
    case UserOfferCloses(f) => if UserOfferPending(s.log, f) then Some(Append(s, UserOfferClosed(f))) else None
    case UserAccepts(c) => if CounterPending(s.log, c) then Some(Append(s, CounterAccepted(c))) else None
    case CounterCloses(c) => if CounterPending(s.log, c) then Some(Append(s, CounterClosed(c))) else None
  }

  function Run(mode: WalletMode, s: State, labels: seq<Label>): Option<State>
    decreases labels
  {
    if labels == [] then Some(s)
    else
      match Step(mode, s, labels[0])
      case None => None
      case Some(s') => Run(mode, s', labels[1..])
  }

  /** fillLoop reads the row again after its reservation (line 746) and finds an order whose
      counter offer already waits for the user: the guard of line 741 would fail on this copy. */
  predicate Straddles(mode: WalletMode, s: State, l: Label) {
    l.Go? && PcOf(s, l.w).FillReserved? && IsLoopFillPendingCounterAccept(mode, s.row)
  }

  predicate HasDirect(log: Log) {
    exists u | 0 <= u < |log| :: IsDirect(log, u)
  }

  /** The worker goes on with that copy. */
  predicate Proceeds(s: State, w: nat) {
    PcOf(s, w).FillReserved? && s.row.status == PcOf(s, w).status && s.row.floatReserved
  }

  /** The first offer was accepted: the leg is settled, and the copy is at the first attempt. */
  predicate FirstAccepted(o: Row, log: Log) {
    o.attempt == 0 && o.counterOffer.Some? && CounterAccepted(o.counterOffer.value) in log
  }

  /** `strict` runs: a row read at line 746 that fails line 741 either stops the worker or is
      settled at its first offer. The other runs also allow one whose leg was paid directly by a
      reissue the row does not show yet. */
  predicate Careful(mode: WalletMode, strict: bool, s: State, l: Label) {
    Straddles(mode, s, l) ==>
      !Proceeds(s, l.w) || FirstAccepted(s.row, s.log) || (!strict && HasDirect(s.log))
  }

  predicate Clean(mode: WalletMode, strict: bool, s: State, labels: seq<Label>)
    decreases labels
  {
    labels == [] ||
    (Careful(mode, strict, s, labels[0]) &&
     match Step(mode, s, labels[0])
     case None => true
     case Some(s') => Clean(mode, strict, s', labels[1..]))
  }

  lemma {:induction false} StrictIsClean(mode: WalletMode, s: State, labels: seq<Label>)
    requires Clean(mode, true, s, labels)
    ensures Clean(mode, false, s, labels)
    decreases labels
  {
    hide Step, Straddles;
    if labels != [] && Step(mode, s, labels[0]).Some? {
      StrictIsClean(mode, Step(mode, s, labels[0]).value, labels[1..]);
    }
  }

  /** A run can be cut anywhere. */
  lemma {:induction false} RunAppend(mode: WalletMode, strict: bool, s: State, a: seq<Label>, b: seq<Label>)
    requires Run(mode, s, a).Some?
    ensures Run(mode, s, a + b) == Run(mode, Run(mode, s, a).value, b)
    ensures Clean(mode, strict, s, a + b) <==> Clean(mode, strict, s, a) && Clean(mode, strict, Run(mode, s, a).value, b)
    decreases a
  {
    hide Step, Careful;
    if a == [] {
      assert [] + b == b;
    } else {
      assert (a + b)[1..] == a[1..] + b;
      RunAppend(mode, strict, Step(mode, s, a[0]).value, a[1..], b);
    }
  }

  lemma RunOne(mode: WalletMode, strict: bool, s: State, l: Label)
    requires Step(mode, s, l).Some?
    ensures Run(mode, s, [l]) == Step(mode, s, l) && (Clean(mode, strict, s, [l]) <==> Careful(mode, strict, s, l))
  {
    hide Step, Careful;
    assert Run(mode, Step(mode, s, l).value, [l][1..]) == Step(mode, s, l);
  }

  // ----- What a step leaves alone -----

  /** The fill and its catch blocks. */
  predicate FillPoint(pc: Pc) {
    pc.FillChecked? || pc.FillReserved? || pc.FillReady? || pc.FillOwned? || pc.FillSubmit? || pc.FillInFlight?
    || pc.Recover? || pc.Rejecting?
  }

  /** The counter-leg receipt and the reissue. */
  predicate CounterPoint(pc: Pc) {
    pc.CounterLoaded? || pc.Verify? || pc.VerifyScan? || pc.Proof? || pc.TryComplete? || pc.Cooling? || pc.Reload?
    || pc.ReissueReady? || pc.ReissueReserved? || pc.ReissueSubmit? || pc.WriteOffer?
  }

  ghost predicate GoFramed(s: State, s': State, w: nat) {
    && w in s'.pcs && s'.pcs == s.pcs[w := s'.pcs[w]] && s'.now == s.now
    && s.log <= s'.log && |s'.log| <= |s.log| + 1
  }

  lemma FillFramed(mode: WalletMode, s: State, w: nat, ch: Choice)
    requires StepGo(mode, s, w, ch).Some? && FillPoint(PcOf(s, w))
    ensures GoFramed(s, StepGo(mode, s, w, ch).value, w)
  {
    hide ApplyFill, ApplyFilledProofRepair, ApplyReissue, OnVerdict, EarlyVerdict, CommandAt, CounterPending,
         CanFill, Committed, UserOfferPending, AfterProof, ApplyReceived, AtCounterLoaded, AtVerify,
         AtVerifyScan, AtProof, AtTryComplete, AtCooling, AtReload, AtReissueReady, AtReissueReserved,
         AtReissueSubmit, AtWriteOffer, AtSettleReserve, AtSettleReload, AtSettleReady, AtSettleOffer,
         AtConfirming, AtExpiring, AtRepair, AtFilledRepair;
  }

  lemma CounterFramed(mode: WalletMode, s: State, w: nat, ch: Choice)
    requires StepGo(mode, s, w, ch).Some? && CounterPoint(PcOf(s, w))
    ensures GoFramed(s, StepGo(mode, s, w, ch).value, w)
  {
    hide ApplyFill, ApplyFilledProofRepair, ApplyReissue, OnVerdict, EarlyVerdict, CommandAt, CounterPending,
         CanFill, Committed, UserOfferPending, AfterProof, ApplyReceived, AtFillChecked, AtFillReserved,
         AtFillReady, AtFillOwned, AtFillInFlight, AtFillSubmit, AtRecover, AtRejecting, AtSettleReserve,
         AtSettleReload, AtSettleReady, AtSettleOffer, AtConfirming, AtExpiring, AtRepair, AtFilledRepair;
  }

  lemma OtherFramed(mode: WalletMode, s: State, w: nat, ch: Choice)
    requires StepGo(mode, s, w, ch).Some? && !FillPoint(PcOf(s, w)) && !CounterPoint(PcOf(s, w))
    ensures GoFramed(s, StepGo(mode, s, w, ch).value, w)
  {
    hide ApplyFill, ApplyFilledProofRepair, ApplyReissue, OnVerdict, EarlyVerdict, CommandAt, CounterPending,
         CanFill, Committed, UserOfferPending, AfterProof, ApplyReceived, AtFillChecked, AtFillReserved,
         AtFillReady, AtFillOwned, AtFillInFlight, AtFillSubmit, AtRecover, AtRejecting, AtCounterLoaded,
         AtVerify, AtVerifyScan, AtProof, AtTryComplete, AtCooling, AtReload, AtReissueReady, AtReissueReserved,
         AtReissueSubmit, AtWriteOffer;
  }

  /** A step moves at most its own worker; ledger and clock only go on. */
  lemma StepFramed(mode: WalletMode, s: State, l: Label)
    requires Step(mode, s, l).Some?
    ensures var s' := Step(mode, s, l).value;
      && s.log <= s'.log && |s'.log| <= |s.log| + 1 && s'.now == s.now + (if l.Tick? then 1 else 0)
      && (if l.Start? || l.Go? || l.Crash? then l.w in s'.pcs && s'.pcs == s.pcs[l.w := s'.pcs[l.w]] else s'.pcs == s.pcs)
  {
    hide StepGo, StartPc, CounterPending, UserOfferPending;
    match l
    case Go(w, ch) =>
      if FillPoint(PcOf(s, w)) { FillFramed(mode, s, w, ch); }
      else if CounterPoint(PcOf(s, w)) { CounterFramed(mode, s, w, ch); }
      else { OtherFramed(mode, s, w, ch); }
    case _ =>
  }
}
