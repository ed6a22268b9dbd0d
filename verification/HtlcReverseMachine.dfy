/** One reverse order (the user's CBTC against the solver's WBTC) over two ledgers.

    The order row is in a database whose only write is a full-row write guarded by the
    current status. The Canton ledger is an append-only log of updates, the EVM escrow an
    append-only log of events for the order's hash; update ids and transactions are indices
    into them. Any number of service calls run at once, each with its own copy of the row;
    one daemon sends the WBTC lock. One step is one await. */
module HtlcReverseMachine {
  import opened Wrappers
  import opened HtlcCommands

  /** `order`: the order id. `loop`: the CBTC sits in the solver's float (custody); otherwise in
      an HtlcLock. */
  datatype Config = Config(order: string, loop: bool, solverTimelock: nat, userTimelock: nat)

  datatype Status =
    | Open | Accepted | MainLocking | MainLocked | CounterLocking | CounterLocked
    | CounterClaimed | MainClaimed | Refunding | Refunded | Cancelled | Failed

  datatype Update = CustodyAccepted | HtlcLocked | Claim | Refund

  type Canton = Log<Update>

  datatype Event = Locked | Claimed | Retaken

  /** counterClaimUpdateId: a Canton update, or text a caller supplied. */
  datatype Ref = Committed(u: nat) | Text

  datatype Row = Row(
    status: Status,
    revealed: bool,           // revealedPreimage is set
    lockTx: Option<nat>,      // counterLockTx
    evmTx: Option<nat>,       // mainClaimTx: the user's claim or the solver's retake
    custody: Option<nat>,     // counterTransferUpdateId, or the update that made htlcCid
    result: Option<Ref>)      // counterClaimUpdateId

  const NewRow := Row(Open, false, None, None, None, None)

  datatype Pc =
    | Idle
    | Write(o: Row, expected: Status)
    | Reserving
    | Confirming(o: Row)
    | LateLock(o: Row)
    | LateScan(o: Row)
    | EarlyLock(o: Row)
    | RefundCas(o: Row, entry: Entry)
    | RefundSubmit(o: Row, prev: Status, entry: Entry)
    | RefundWrite(o: Row, entry: Entry)
    | ClaimScan(o: Row)
    | ClaimReveal(o: Row, expected: Status)
    | ClaimReload
    | ClaimSubmit(o: Row)
    | RecordScan(o: Row)
    | LockCheck(o: Row)
    | Phantom(o: Row)
    | PhantomScan(o: Row)
    | Retake(o: Row)
    | RetakeWrite(o: Row)
    | Mark(o: Row)
    | Patch(o: Row)

  datatype Call =
    | Accept | Cancel | Reserve | ConfirmLock | ReleasePrelock
    | LateRefund | EarlyRefund
    | ClaimMain | RecordClaimed | RecordLocked | ReconcilePhantom | RecordRetake
    | MarkRefunded | PatchProof | Rewrite

  datatype Choice =
    | Proceed | Give | Commit | Found(i: nat) | Awaiting(i: nat) | Duplicate(i: nat) | Lost | Fail

  datatype Daemon = Resting | Ready | Aborting(o: Row)

  datatype Label =
    | Start(w: nat, call: Call)
    | Go(w: nat, choice: Choice)
    | Crash(w: nat)
    | Tick
    // the daemon
    | Begin | Resume | Send | Abort | AbortWrite | DaemonCrash
    // the escrow
    | LockLands | LockReverts | UserClaims | SolverRetakes

  datatype State = State(
    row: Row, canton: Canton, evm: seq<Event>, now: nat,
    daemon: Daemon, sending: bool, marked: bool, pcs: map<nat, Pc>)

  const Init := State(NewRow, [], [], 0, Resting, false, false, map[])

  function PcOf(s: State, w: nat): Pc {
    if w in s.pcs then s.pcs[w] else Idle
  }

  // ----- What the two ledgers answer -----

  /** locks(hash).amount > 0 */
  predicate Live(evm: seq<Event>) {
    |evm| > 0 && evm[|evm| - 1].Locked?
  }

  /** The Claimed scan from the recorded lock transaction, or from the order's creation. */
  predicate ClaimSeen(evm: seq<Event>, o: Row) {
    exists j | 0 <= j < |evm| :: evm[j].Claimed? && (o.lockTx.Some? ==> o.lockTx.value <= j)
  }

  predicate IsEvent(evm: seq<Event>, j: nat, e: Event) {
    j < |evm| && evm[j] == e
  }

  predicate IsCustody(cfg: Config, canton: Canton, u: nat) {
    IsUpdate(canton, u, if cfg.loop then CustodyAccepted else HtlcLocked)
  }

  /** Only an HtlcLock that was neither claimed nor refunded can be exercised. */
  predicate LockActive(canton: Canton) {
    Has(canton, HtlcLocked) && !Has(canton, Claim) && !Has(canton, Refund)
  }

  /** From Loop custody the return is a plain transfer: only its command id protects it. */
  predicate CanRefund(cfg: Config, canton: Canton, e: Entry) {
    Unused(canton, RefundId(cfg.order, e)) && (cfg.loop || LockActive(canton))
  }

  predicate CanClaim(cfg: Config, canton: Canton) {
    Unused(canton, ClaimId(cfg.order)) && LockActive(canton)
  }

  /** isRefundMainCantonStatusEligible */
  predicate RefundEligible(o: Row) {
    o.status == MainLocked || o.status == CounterLocking || o.status == CounterLocked
    || o.status == CounterClaimed || o.status == Refunding
    || (o.status == Failed && o.evmTx.Some? && !o.revealed)
  }

  // ----- Loading the row and passing the method's own guards -----

  function StartPc(cfg: Config, o: Row, now: nat, call: Call): Pc {
    match call
    case Accept => if o.status == Open then Write(o.(status := Accepted), Open) else Idle
    case Cancel =>
      if o.status == Open || o.status == Accepted then Write(o.(status := Cancelled), o.status) else Idle
    case Reserve => if o.status == Accepted then Reserving else Idle
    case ConfirmLock => if o.status == MainLocking then Confirming(o) else Idle
    case ReleasePrelock =>
      if o.status == MainLocking && o.custody.None? then Write(o.(status := Failed), MainLocking) else Idle
    case LateRefund =>
      if RefundEligible(o) && now >= cfg.userTimelock && !o.revealed then LateLock(o) else Idle
    case EarlyRefund =>
      if cfg.loop && (o.status == MainLocked || o.status == Refunding) && !o.revealed && o.custody.Some?
      then EarlyLock(o) else Idle
    case ClaimMain => if o.status == CounterClaimed || o.status == CounterLocked then ClaimScan(o) else Idle
    case RecordClaimed => if o.status == CounterLocked then RecordScan(o) else Idle
    case RecordLocked => if o.status == CounterLocking || o.status == MainLocked then LockCheck(o) else Idle
    case ReconcilePhantom => if o.status == CounterLocked then Phantom(o) else Idle
    case RecordRetake => if o.status == CounterLocked && !o.revealed then Retake(o) else Idle
    case MarkRefunded => if o.status == MainLocked || o.status == CounterLocked then Mark(o) else Idle
    case PatchProof => if o.status == MainClaimed then Patch(o) else Idle
    case Rewrite => Write(o, o.status)
  }

  // ----- One await -----

  function Move(s: State, w: nat, pc: Pc): State {
    s.(pcs := s.pcs[w := pc])
  }

  function PutIfStatus(s: State, o: Row, expected: Status): State {
    if s.row.status == expected then s.(row := o) else s
  }

  /** The acceptance of a user's transfer has no fixed command id; the HtlcLock has one. */
  function CustodyTx(cfg: Config): Tx<Update> {
    if cfg.loop then Tx(None, CustodyAccepted) else Tx(Some(LockId(cfg.order)), HtlcLocked)
  }

  predicate FindsCustody(cfg: Config, canton: Canton, u: nat) {
    if cfg.loop then IsUpdate(canton, u, CustodyAccepted) else CommittedAs(canton, u, LockId(cfg.order))
  }

  function AtConfirming(cfg: Config, s: State, w: nat, o: Row, ch: Choice): Option<State> {
    match ch
    case Commit =>
      if Submit(s.canton, CustodyTx(cfg)).None? then None
      else
        var s' := s.(canton := s.canton + [CustodyTx(cfg)]);
        Some(Move(s', w, Write(o.(custody := Some(|s.canton|), status := MainLocked), MainLocking)))
    case Found(u) =>
      if FindsCustody(cfg, s.canton, u)
      then Some(Move(s, w, Write(o.(custody := Some(u), status := MainLocked), MainLocking))) else None
    case Fail => Some(Move(s, w, Write(o.(status := Failed), MainLocking)))
    case _ => Some(Move(s, w, Idle))
  }

  // refundMainCanton (lines 2859-2974) and earlyRefundLoopCustody (lines 3587-3651)

  function AtLateLock(s: State, w: nat, o: Row): State {
    Move(s, w, if Live(s.evm) then Idle else LateScan(o))
  }

  function AtLateScan(s: State, w: nat, o: Row): State {
    Move(s, w, if ClaimSeen(s.evm, o) then Idle else RefundCas(o, Late))
  }

  function AtEarlyLock(s: State, w: nat, o: Row): State {
    Move(s, w, if Live(s.evm) then Idle else RefundCas(o, Early))
  }

  function AtRefundCas(s: State, w: nat, o: Row, e: Entry): State {
    var owned := o.(status := Refunding);
    if s.row.status == o.status then Move(s.(row := owned), w, RefundSubmit(owned, o.status, e)) else Move(s, w, Idle)
  }

  /** Submit the return under the id this call computes. The late Loop call first looks for a
      commit of that id; a duplicate is looked up the same way. */
  function AtRefundSubmit(cfg: Config, s: State, w: nat, o: Row, prev: Status, e: Entry, ch: Choice): Option<State> {
    var id := RefundId(cfg.order, e);
    if o.custody.None? then Some(Move(s, w, RefundWrite(o.(status := prev), e)))
    else
      match ch
      case Commit =>
        if !CanRefund(cfg, s.canton, e) then None
        else
          var done := o.(status := Refunded, result := Some(Committed(|s.canton|)));
          Some(Move(s.(canton := s.canton + [Tx(Some(id), Refund)]), w, RefundWrite(done, e)))
      case Found(u) =>
        if e == Late && cfg.loop && CommittedAs(s.canton, u, id)
        then Some(Move(s, w, RefundWrite(o.(status := Refunded, result := Some(Committed(u))), e))) else None
      case Duplicate(u) =>
        if CommittedAs(s.canton, u, id)
        then Some(Move(s, w, RefundWrite(o.(status := Refunded, result := Some(Committed(u))), e))) else None
      case Lost => if Unused(s.canton, id) then None else Some(Move(s, w, Idle))
      case _ => Some(Move(s, w, RefundWrite(o.(status := prev), e)))
  }

  // claimMainAsSolver (lines 2544-2674)

  function AtClaimScan(s: State, w: nat, o: Row, ch: Choice): Option<State> {
    match ch
    case Found(j) =>
      if !IsEvent(s.evm, j, Claimed) then None
      else if o.evmTx.Some? && o.evmTx.value != j then Some(Move(s, w, Idle))
      else
        var proven := o.(evmTx := Some(j));
        Some(Move(s, w, if !o.revealed || o.status == CounterLocked
                        then ClaimReveal(proven.(status := CounterClaimed, revealed := true), o.status)
                        else ClaimSubmit(proven)))
    case _ => Some(Move(s, w, Idle))
  }

  function AtClaimReveal(s: State, w: nat, o: Row, expected: Status): State {
    if s.row.status == expected then Move(s.(row := o), w, ClaimSubmit(o)) else Move(s, w, ClaimReload)
  }

  function AtClaimReload(s: State, w: nat): State {
    Move(s, w, if s.row.status == CounterClaimed && s.row.revealed then ClaimSubmit(s.row) else Idle)
  }

  function AtClaimSubmit(cfg: Config, s: State, w: nat, o: Row, ch: Choice): Option<State> {
    if o.custody.None? then Some(Move(s, w, Idle))
    else if cfg.loop then
      var done := o.(status := MainClaimed, revealed := true, result := Some(Committed(o.custody.value)));
      Some(Move(s, w, Write(done, o.status)))
    else
      match ch
      case Commit =>
        if !CanClaim(cfg, s.canton) then None
        else
          var done := o.(status := MainClaimed, revealed := true, result := Some(Committed(|s.canton|)));
          Some(Move(s.(canton := s.canton + [Tx(Some(ClaimId(cfg.order)), Claim)]), w, Write(done, o.status)))
      case Found(u) =>
        if !CommittedAs(s.canton, u, ClaimId(cfg.order)) then None
        else
          Some(Move(s, w, Write(o.(status := MainClaimed, revealed := true, result := Some(Committed(u))), o.status)))
      case _ => Some(Move(s, w, Idle))
  }

  // records and repairs

  function AtRecordScan(s: State, w: nat, o: Row, ch: Choice): Option<State> {
    var claimed := o.(status := CounterClaimed, revealed := true);
    match ch
    case Found(j) =>
      if ClaimSeen(s.evm, o) && IsEvent(s.evm, j, Claimed)
      then Some(Move(s, w, Write(claimed.(evmTx := Some(j)), CounterLocked))) else None
    case Proceed =>
      if ClaimSeen(s.evm, o) then Some(Move(s, w, Write(claimed.(result := Some(Text)), CounterLocked)))
      else Some(Move(s, w, Idle))
    case _ => Some(Move(s, w, Idle))
  }

  /** verifyReverseCounterLockTx needs a matching Locked event and a live lock. */
  function AtLockCheck(s: State, w: nat, o: Row, ch: Choice): Option<State> {
    match ch
    case Found(i) =>
      if IsEvent(s.evm, i, Locked) && Live(s.evm)
      then Some(Move(s, w, Write(o.(lockTx := Some(i), status := CounterLocked), o.status))) else None
    case Awaiting(i) =>
      if IsEvent(s.evm, i, Locked) && Live(s.evm)
      then Some(Move(s, w, Write(o.(lockTx := Some(i), status := CounterLocking), o.status))) else None
    case _ => Some(Move(s, w, Idle))
  }

  function AtPhantom(s: State, w: nat, o: Row): State {
    Move(s, w, if Live(s.evm) then Idle else PhantomScan(o))
  }

  function AtPhantomScan(s: State, w: nat, o: Row, ch: Choice): State {
    Move(s, w, if ch != Proceed then Idle
               else if ClaimSeen(s.evm, o) then Write(o.(status := CounterClaimed), CounterLocked)
               else Write(o.(status := MainLocked, lockTx := None), CounterLocked))
  }

  function AtRetake(s: State, w: nat, o: Row, ch: Choice): Option<State> {
    match ch
    case Found(j) =>
      if IsEvent(s.evm, j, Retaken) then Some(Move(s, w, RetakeWrite(o.(evmTx := Some(j))))) else None
    case _ => Some(Move(s, w, Idle))
  }

  function AtRetakeWrite(cfg: Config, s: State, w: nat, o: Row): State {
    if s.row.status != CounterLocked then Move(s, w, Idle)
    else Move(s.(row := o), w, if s.now >= cfg.userTimelock then Idle else Write(o.(status := Failed), CounterLocked))
  }

  function AtMark(s: State, w: nat, o: Row): State {
    if s.row.status == o.status then Move(s.(row := o.(status := Refunded), marked := true), w, Idle)
    else Move(s, w, Idle)
  }

  function AtPatch(s: State, w: nat, o: Row, ch: Choice): Option<State> {
    match ch
    case Found(j) =>
      if IsEvent(s.evm, j, Claimed) then Some(Move(s, w, Write(o.(evmTx := Some(j)), MainClaimed))) else None
    case _ => Some(Move(s, w, Idle))
  }

  function StepGo(cfg: Config, s: State, w: nat, ch: Choice): Option<State> {
    match PcOf(s, w)
    case Idle => None
    case Write(o, expected) => Some(Move(PutIfStatus(s, o, expected), w, Idle))
    case Reserving =>
      Some(Move(if s.row.status == Accepted then s.(row := s.row.(status := MainLocking)) else s, w, Idle))
    case Confirming(o) => AtConfirming(cfg, s, w, o, ch)
    case LateLock(o) => Some(AtLateLock(s, w, o))
    case LateScan(o) => Some(AtLateScan(s, w, o))
    case EarlyLock(o) => Some(AtEarlyLock(s, w, o))
    case RefundCas(o, e) => Some(AtRefundCas(s, w, o, e))
    case RefundSubmit(o, prev, e) => AtRefundSubmit(cfg, s, w, o, prev, e, ch)
    case RefundWrite(o, _) => Some(Move(PutIfStatus(s, o, Refunding), w, Idle))
    case ClaimScan(o) => AtClaimScan(s, w, o, ch)
    case ClaimReveal(o, expected) => Some(AtClaimReveal(s, w, o, expected))
    case ClaimReload => Some(AtClaimReload(s, w))
    case ClaimSubmit(o) => AtClaimSubmit(cfg, s, w, o, ch)
    case RecordScan(o) => AtRecordScan(s, w, o, ch)
    case LockCheck(o) => AtLockCheck(s, w, o, ch)
    case Phantom(o) => Some(AtPhantom(s, w, o))
    case PhantomScan(o) => Some(AtPhantomScan(s, w, o, ch))
    case Retake(o) => AtRetake(s, w, o, ch)
    case RetakeWrite(o) => Some(AtRetakeWrite(cfg, s, w, o))
    case Mark(o) => Some(AtMark(s, w, o))
    case Patch(o) => AtPatch(s, w, o, ch)
  }

  /** The daemon and the escrow. The daemon reserves `counter_locking`, proves that no Locked
      event exists, sends one lock transaction, and may give the reservation back while the
      escrow reads empty. */
  function StepWorld(cfg: Config, s: State, l: Label): Option<State> {
    match l
    case Tick => Some(s.(now := s.now + 1))
    case Begin =>
      if s.daemon.Resting? && !s.sending && s.row.status == MainLocked
      then Some(s.(row := s.row.(status := CounterLocking), daemon := Ready)) else None
    case Resume =>
      if s.daemon.Resting? && !s.sending && s.row.status == CounterLocking && !Live(s.evm) && Claimed !in s.evm
      then Some(s.(daemon := Ready)) else None
    case Send =>
      if s.daemon.Ready? && !s.sending && Locked !in s.evm then Some(s.(daemon := Resting, sending := true)) else None
    case Abort =>
      if !s.daemon.Aborting? && s.row.status == CounterLocking && !Live(s.evm)
      then Some(s.(daemon := Aborting(s.row))) else None
    case AbortWrite =>
      if s.daemon.Aborting?
      then Some(PutIfStatus(s, s.daemon.o.(status := MainLocked), CounterLocking).(daemon := Resting)) else None
    case DaemonCrash => Some(s.(daemon := Resting))
    case LockLands =>
      if s.sending && !Live(s.evm) && s.now < cfg.solverTimelock
      then Some(s.(evm := s.evm + [Locked], sending := false)) else None
    case LockReverts => if s.sending then Some(s.(sending := false)) else None
    case UserClaims =>
      if Live(s.evm) && s.now < cfg.solverTimelock then Some(s.(evm := s.evm + [Claimed])) else None
    case SolverRetakes =>
      if Live(s.evm) && s.now >= cfg.solverTimelock then Some(s.(evm := s.evm + [Retaken])) else None
    case _ => None
  }

  function Step(cfg: Config, s: State, l: Label): Option<State> {
    match l
    case Start(w, call) =>
      if PcOf(s, w).Idle? then Some(Move(s, w, StartPc(cfg, s.row, s.now, call))) else None
    case Go(w, ch) => StepGo(cfg, s, w, ch)
    case Crash(w) => Some(Move(s, w, Idle))
    case _ => StepWorld(cfg, s, l)
  }

  function Run(cfg: Config, s: State, labels: seq<Label>): Option<State>
    decreases labels
  {
    if labels == [] then Some(s)
    else
      match Step(cfg, s, labels[0])
      case None => None
      case Some(s') => Run(cfg, s', labels[1..])
  }

  // ----- Groups of program points -----

  predicate Writer(pc: Pc) {
    pc.Write? || pc.Reserving? || pc.RefundCas? || pc.RefundWrite? || pc.ClaimReveal? || pc.RetakeWrite? || pc.Mark?
  }

  predicate Submitter(pc: Pc) {
    pc.Confirming? || pc.RefundSubmit? || pc.ClaimSubmit?
  }

  predicate LockReader(pc: Pc) {
    pc.LateLock? || pc.LateScan? || pc.EarlyLock? || pc.Phantom? || pc.PhantomScan? || pc.ClaimReload?
  }

  // ----- The runs the early half of the exclusion is about -----

  predicate InEarlyRefund(pc: Pc) {
    pc.EarlyLock? || ((pc.RefundCas? || pc.RefundSubmit? || pc.RefundWrite?) && pc.entry == Early)
  }

  /** An early refund that took the row from `main_locked` and may still put it back there. */
  predicate MayReopen(pc: Pc) {
    || (pc.RefundSubmit? && pc.entry == Early && pc.prev == MainLocked)
    || (pc.RefundWrite? && pc.entry == Early && pc.o.status == MainLocked)
  }

  /** Before solverTimelock no early refund re-enters a `refunding` row that another early refund
      may still reopen; the daemon gives `counter_locking` back only when nothing was claimed and
      no lock of its own can still land. Managed orders need neither. */
  predicate Careful(cfg: Config, s: State, l: Label) {
    match l
    case Start(w, EarlyRefund) =>
      cfg.loop && s.now < cfg.solverTimelock && s.row.status == Refunding ==>
        forall v | v in s.pcs :: !MayReopen(s.pcs[v])
    case Abort => cfg.loop ==> Claimed !in s.evm && (s.sending ==> s.now >= cfg.solverTimelock)
    case _ => true
  }

  predicate Clean(cfg: Config, s: State, labels: seq<Label>)
    decreases labels
  {
    labels == [] ||
    (Careful(cfg, s, labels[0]) &&
     match Step(cfg, s, labels[0])
     case None => true
     case Some(s') => Clean(cfg, s', labels[1..]))
  }

  lemma {:induction false} RunAppend(cfg: Config, s: State, a: seq<Label>, b: seq<Label>)
    requires Run(cfg, s, a).Some?
    ensures Run(cfg, s, a + b) == Run(cfg, Run(cfg, s, a).value, b)
    ensures Clean(cfg, s, a + b) <==> Clean(cfg, s, a) && Clean(cfg, Run(cfg, s, a).value, b)
    decreases a
  {
    hide Step, Careful;
    if a == [] {
      assert [] + b == b;
    } else {
      assert (a + b)[1..] == a[1..] + b;
      RunAppend(cfg, Step(cfg, s, a[0]).value, a[1..], b);
    }
  }

  lemma RunOne(cfg: Config, s: State, l: Label)
    requires Step(cfg, s, l).Some?
    ensures Run(cfg, s, [l]) == Step(cfg, s, l) && (Clean(cfg, s, [l]) <==> Careful(cfg, s, l))
  {
    hide Step, Careful;
    assert Run(cfg, Step(cfg, s, l).value, [l][1..]) == Step(cfg, s, l);
  }

  // ----- What a step leaves alone -----

  ghost predicate GoFramed(s: State, s': State, w: nat) {
    w in s'.pcs && s'.pcs == s.pcs[w := s'.pcs[w]] && s.canton <= s'.canton && s'.evm == s.evm && s'.now == s.now
  }

  lemma WriterFramed(cfg: Config, s: State, w: nat, ch: Choice)
    requires StepGo(cfg, s, w, ch).Some? && Writer(PcOf(s, w))
    ensures GoFramed(s, StepGo(cfg, s, w, ch).value, w)
  {
    hide ClaimSeen, Live, IsEvent, IsUpdate, IsCustody, CanRefund, CanClaim, AtConfirming, AtRefundSubmit,
         AtClaimSubmit, AtLateLock, AtLateScan, AtEarlyLock, AtPhantom, AtPhantomScan, AtClaimReload,
         AtClaimScan, AtRecordScan, AtLockCheck, AtRetake, AtPatch;
  }

  lemma ConfirmingFramed(cfg: Config, s: State, w: nat, o: Row, ch: Choice)
    requires AtConfirming(cfg, s, w, o, ch).Some?
    ensures GoFramed(s, AtConfirming(cfg, s, w, o, ch).value, w)
  {
  }

  lemma RefundSubmitFramed(cfg: Config, s: State, w: nat, o: Row, prev: Status, e: Entry, ch: Choice)
    requires AtRefundSubmit(cfg, s, w, o, prev, e, ch).Some?
    ensures GoFramed(s, AtRefundSubmit(cfg, s, w, o, prev, e, ch).value, w)
  {
  }

  lemma ClaimSubmitFramed(cfg: Config, s: State, w: nat, o: Row, ch: Choice)
    requires AtClaimSubmit(cfg, s, w, o, ch).Some?
    ensures GoFramed(s, AtClaimSubmit(cfg, s, w, o, ch).value, w)
  {
  }

  lemma SubmitterFramed(cfg: Config, s: State, w: nat, ch: Choice)
    requires StepGo(cfg, s, w, ch).Some? && Submitter(PcOf(s, w))
    ensures GoFramed(s, StepGo(cfg, s, w, ch).value, w)
  {
    hide AtConfirming, AtRefundSubmit, AtClaimSubmit, GoFramed;
    match PcOf(s, w) {
      case Confirming(o) => ConfirmingFramed(cfg, s, w, o, ch);
      case RefundSubmit(o, prev, e) => RefundSubmitFramed(cfg, s, w, o, prev, e, ch);
      case ClaimSubmit(o) => ClaimSubmitFramed(cfg, s, w, o, ch);
    }
  }

  lemma LockReaderFramed(cfg: Config, s: State, w: nat, ch: Choice)
    requires StepGo(cfg, s, w, ch).Some? && LockReader(PcOf(s, w))
    ensures GoFramed(s, StepGo(cfg, s, w, ch).value, w)
  {
    hide ClaimSeen, Live, IsEvent, IsUpdate, IsCustody, CanRefund, CanClaim, AtRefundCas, AtClaimReveal,
         AtRetakeWrite, AtMark, AtConfirming, AtRefundSubmit, AtClaimSubmit, AtClaimScan, AtRecordScan,
         AtLockCheck, AtRetake, AtPatch;
  }

  lemma ScannerFramed(cfg: Config, s: State, w: nat, ch: Choice)
    requires StepGo(cfg, s, w, ch).Some? && !Writer(PcOf(s, w)) && !Submitter(PcOf(s, w)) && !LockReader(PcOf(s, w))
    ensures GoFramed(s, StepGo(cfg, s, w, ch).value, w)
  {
    hide ClaimSeen, Live, IsEvent, IsUpdate, IsCustody, CanRefund, CanClaim, AtRefundCas, AtClaimReveal,
         AtRetakeWrite, AtMark, AtConfirming, AtRefundSubmit, AtClaimSubmit, AtLateLock, AtLateScan,
         AtEarlyLock, AtPhantom, AtPhantomScan, AtClaimReload;
  }

  /** A worker moves itself, may write the row and commit on Canton, and leaves the escrow. */
  lemma GoFrames(cfg: Config, s: State, w: nat, ch: Choice)
    requires StepGo(cfg, s, w, ch).Some?
    ensures GoFramed(s, StepGo(cfg, s, w, ch).value, w)
  {
    hide StepGo, GoFramed, Writer, Submitter, LockReader;
    if Writer(PcOf(s, w)) { WriterFramed(cfg, s, w, ch); }
    else if Submitter(PcOf(s, w)) { SubmitterFramed(cfg, s, w, ch); }
    else if LockReader(PcOf(s, w)) { LockReaderFramed(cfg, s, w, ch); }
    else { ScannerFramed(cfg, s, w, ch); }
  }

  /** A step moves at most its own worker, and both ledgers only grow. */
  lemma StepFramed(cfg: Config, s: State, l: Label)
    requires Step(cfg, s, l).Some?
    ensures var s' := Step(cfg, s, l).value;
      && s.canton <= s'.canton && s.evm <= s'.evm
      && (if l.Start? || l.Go? || l.Crash? then l.w in s'.pcs && s'.pcs == s.pcs[l.w := s'.pcs[l.w]] else s'.pcs == s.pcs)
  {
    hide StepGo, StartPc;
    match l
    case Go(w, ch) => GoFrames(cfg, s, w, ch);
    case _ =>
  }
}
