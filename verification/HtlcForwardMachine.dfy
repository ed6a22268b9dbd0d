/** One forward Loop order (the user's WBTC against the solver's CBTC) from `main_locked` on.

    The user reveals the preimage to the service, the service delivers CBTC by one ledger
    transfer that either reaches the user at once or leaves an offer, and only a proof of
    delivery lets the solver have the preimage. Rows are written whole under a status guard;
    the ledger is an append-only log, an update id or contract id is an index into it. */
module HtlcForwardMachine {
  import opened Wrappers
  import opened HtlcCommands

  datatype Status = MainLocked | CounterClaimed | MainClaimed | Failed | Refunded

  datatype Update = Delivery(direct: bool) | Accepted(offer: nat) | OfferClosed(offer: nat)

  type Canton = Log<Update>

  datatype Event = Locked | Claimed | Retaken

  datatype Row = Row(
    status: Status,
    revealed: bool,           // revealedPreimage is set
    transfer: Option<nat>,    // counterTransferUpdateId
    offer: Option<nat>,       // counterTransferOfferCid
    claim: Option<nat>,       // counterClaimUpdateId
    evmTx: Option<nat>)       // mainClaimTx: the solver's claim or the user's retake

  const NewRow := Row(MainLocked, false, None, None, None, None)

  const PERSIST_ATTEMPTS: nat := 3

  datatype Pc =
    | Idle
    | Write(o: Row, expected: Status)
    // claimCounter
    | RevealWrite(o: Row)
    | RevealReload
    | Deliver(o: Row)
    | DuplicateReload
    | Prove(u: nat, fallback: Option<nat>)
    | Retry(o: Row)
    // persistLoopCounterDeliveryEvidence
    | Persist(u: nat, offer: Option<nat>, proven: bool, left: nat, back: Option<Row>)
    | PersistWrite(o: Row, u: nat, offer: Option<nat>, proven: bool, left: nat, back: Option<Row>)
    // reconcileLoopForwardCounterDelivery; `retry`: called from claimCounter, which goes on
    // with the row it gets back
    | Reconcile(o: Row, retry: bool)
    | OfferWrite(o: Row, c: nat, retry: bool)
    | OfferReload(c: nat, retry: bool)
    | AcceptScan(o: Row, c: nat, retry: bool)
    | AcceptWrite(o: Row, retry: bool)
    | AcceptReload(retry: bool)
    // records
    | RecordProof(o: Row)
    | MainClaimProof(o: Row)
    | RetakeProof(o: Row)
    | Patch(o: Row)

  datatype Call =
    | ClaimCounter | ReconcileDelivery | RecordCounterClaimed | RecordMainClaim | ReconcileMainClaim
    | RecordMainRetake | MarkRefunded | PatchProof | Rewrite

  datatype Choice =
    | Proceed | Give | Commit(direct: bool, shown: bool) | Duplicate | Found(i: nat) | Visible | Fail

  datatype Label =
    | Start(w: nat, call: Call)
    | Go(w: nat, choice: Choice)
    | Crash(w: nat)
    | GetPreimage
    | UserAccepts(c: nat)
    | OfferCloses(c: nat)
    | SolverClaims
    | UserRetakes

  /** `order`: the order id, never changed. */
  datatype State = State(order: string, row: Row, log: Canton, evm: seq<Event>, knows: bool, pcs: map<nat, Pc>)

  function Init(order: string): State {
    State(order, NewRow, [], [Locked], false, map[])
  }

  function PcOf(s: State, w: nat): Pc {
    if w in s.pcs then s.pcs[w] else Idle
  }

  // ----- The ledgers -----

  predicate IsOffer(log: Canton, c: nat) {
    IsUpdate(log, c, Delivery(false))
  }

  predicate IsDirect(log: Canton, u: nat) {
    IsUpdate(log, u, Delivery(true))
  }

  predicate IsDelivery(log: Canton, u: nat) {
    u < |log| && log[u].what.Delivery?
  }

  predicate IsPending(log: Canton, c: nat) {
    IsOffer(log, c) && !Has(log, Accepted(c)) && !Has(log, OfferClosed(c))
  }

  /** The user holds the CBTC because of update `u`. */
  predicate Delivers(log: Canton, u: nat) {
    IsDirect(log, u) || (u < |log| && log[u].what.Accepted? && IsOffer(log, log[u].what.offer))
  }

  predicate UserHolds(log: Canton) {
    exists u | 0 <= u < |log| :: Delivers(log, u)
  }

  predicate Live(evm: seq<Event>) {
    |evm| > 0 && evm[|evm| - 1].Locked?
  }

  predicate IsEvent(evm: seq<Event>, j: nat, e: Event) {
    j < |evm| && evm[j] == e
  }

  /** htlcCanExposePreimageToSolver for a forward Loop order */
  predicate CanExposePreimage(o: Row) {
    (o.status == CounterClaimed || o.status == MainClaimed) && o.revealed && o.transfer.Some? && o.claim.Some?
  }

  predicate RevealSettled(o: Row) {
    o.status == CounterClaimed || o.status == MainClaimed
  }

  // ----- Steps -----

  function StartPc(o: Row, call: Call): Pc {
    match call
    case ClaimCounter =>
      if o.status == MainLocked then RevealWrite(o.(revealed := true, status := CounterClaimed))
      else if RevealSettled(o) then Deliver(o) else Idle
    case ReconcileDelivery =>
      if o.transfer.Some? && o.claim.None? && RevealSettled(o) then Reconcile(o, false) else Idle
    case RecordCounterClaimed =>
      if o.status == CounterClaimed && o.claim.None? && o.transfer.Some? then RecordProof(o) else Idle
    case RecordMainClaim => if o.status == CounterClaimed && CanExposePreimage(o) then MainClaimProof(o) else Idle
    case ReconcileMainClaim =>
      if o.status != CounterClaimed then Idle
      else if o.evmTx.Some? then Write(o.(status := MainClaimed), CounterClaimed)
      else if CanExposePreimage(o) then MainClaimProof(o) else Idle
    case RecordMainRetake => if o.status == MainClaimed || o.status == Refunded then Idle else RetakeProof(o)
    case MarkRefunded => if o.status == MainLocked then Write(o.(status := Refunded), MainLocked) else Idle
    case PatchProof => if o.status == MainClaimed then Patch(o) else Idle
    case Rewrite => Write(o, o.status)
  }

  function Move(s: State, w: nat, pc: Pc): State {
    s.(pcs := s.pcs[w := pc])
  }

  function PutIfStatus(s: State, o: Row, expected: Status): State {
    if s.row.status == expected then s.(row := o) else s
  }

  function AtRevealWrite(s: State, w: nat, o: Row): State {
    if s.row.status == MainLocked then Move(s.(row := o), w, Deliver(o)) else Move(s, w, RevealReload)
  }

  function DeliveryTx(order: string, direct: bool): Tx<Update> {
    Tx(Some(DeliveryId(order)), Delivery(direct))
  }

  /** The transfer is submitted under the order's delivery id. Its answer may carry the offer id. */
  function AtDeliver(s: State, w: nat, o: Row, ch: Choice): Option<State> {
    if o.transfer.Some? then Some(Move(s, w, if o.claim.None? then Reconcile(o, true) else Idle))
    else
      match ch
      case Commit(direct, shown) =>
        if Submit(s.log, DeliveryTx(s.order, direct)).None? then None
        else
          var fallback := if shown && !direct then Some(|s.log|) else None;
          Some(Move(s.(log := s.log + [DeliveryTx(s.order, direct)]), w, Prove(|s.log|, fallback)))
      case Duplicate => if Unused(s.log, DeliveryId(s.order)) then None else Some(Move(s, w, DuplicateReload))
      case _ => Some(Move(s, w, Idle))
  }

  function AtDuplicateReload(s: State, w: nat, ch: Choice): Option<State> {
    if s.row.transfer.Some? then Some(Move(s, w, Prove(s.row.transfer.value, s.row.offer)))
    else
      match ch
      case Found(u) => if CommittedAs(s.log, u, DeliveryId(s.order)) then Some(Move(s, w, Prove(u, None))) else None
      case _ => Some(Move(s, w, Idle))
  }

  /** waitForLoopCounterDeliveryEvidence: the update's events may still be invisible. */
  function AtProve(s: State, w: nat, u: nat, fallback: Option<nat>, ch: Choice): State {
    Move(s, w,
         if ch != Visible || u >= |s.log| then Persist(u, fallback, false, PERSIST_ATTEMPTS, None)
         else if IsDirect(s.log, u) then Persist(u, None, true, PERSIST_ATTEMPTS, None)
         else Persist(u, Some(u), false, PERSIST_ATTEMPTS, None))
  }

  /** claimCounter goes on looking for an offer only with a row that names none and no claim. */
  function GoesOn(retry: bool, o: Row): Pc {
    if retry && o.claim.None? && o.offer.None? then Retry(o) else Idle
  }

  function GoesBack(back: Option<Row>): Pc {
    if back.Some? then GoesOn(true, back.value) else Idle
  }

  /** One attempt, or the last look at the row when none is left. */
  function AtPersist(s: State, w: nat, u: nat, offer: Option<nat>, proven: bool, left: nat, back: Option<Row>): State {
    var o := s.row;
    if left == 0 then Move(s, w, if o.transfer == Some(u) then GoesOn(back.Some?, o) else GoesBack(back))
    else if !RevealSettled(o) || (o.transfer.Some? && o.transfer.value != u)
         || (offer.Some? && o.offer.Some? && o.offer != offer) then Move(s, w, GoesBack(back))
    else Move(s, w, PersistWrite(WithEvidence(o, u, offer, proven), u, offer, proven, left, back))
  }

  function WithEvidence(o: Row, u: nat, offer: Option<nat>, proven: bool): Row {
    var o' := o.(transfer := if o.transfer.Some? then o.transfer else Some(u));
    if proven then o'.(claim := if o'.claim.Some? then o'.claim else Some(u), offer := None)
    else if offer.Some? then o'.(offer := if o'.offer.Some? then o'.offer else offer)
    else o'
  }

  function AtPersistWrite(s: State, w: nat, o: Row, u: nat, offer: Option<nat>, proven: bool, left: nat,
                          back: Option<Row>): State
  {
    if s.row.status == o.status then Move(s.(row := o), w, Idle)
    else Move(s, w, Persist(u, offer, proven, if left > 0 then left - 1 else 0, back))
  }

  /** The update tree decides; failing that the recorded offer or a pending one with this order's
      memo. */
  function AtReconcile(s: State, w: nat, o: Row, retry: bool, ch: Choice): Option<State> {
    if o.transfer.None? then None
    else if ch == Visible && IsDirect(s.log, o.transfer.value) then
      Some(Move(s, w, Persist(o.transfer.value, None, true, PERSIST_ATTEMPTS, if retry then Some(o) else None)))
    else if o.offer.Some? then Some(Move(s, w, AcceptScan(o, o.offer.value, retry)))
    else
      match ch
      case Visible =>
        if IsOffer(s.log, o.transfer.value)
        then Some(Move(s, w, OfferWrite(o.(offer := o.transfer), o.transfer.value, retry))) else None
      case Found(c) =>
        if IsPending(s.log, c) then Some(Move(s, w, OfferWrite(o.(offer := Some(c)), c, retry))) else None
      case _ => Some(Move(s, w, GoesOn(retry, o)))
  }

  function AtOfferWrite(s: State, w: nat, o: Row, c: nat, retry: bool): State {
    if s.row.status == o.status then Move(s.(row := o), w, AcceptScan(o, c, retry))
    else Move(s, w, OfferReload(c, retry))
  }

  function AtAcceptScan(s: State, w: nat, o: Row, c: nat, retry: bool, ch: Choice): Option<State> {
    match ch
    case Found(a) =>
      if IsUpdate(s.log, a, Accepted(c))
      then Some(Move(s, w, AcceptWrite(o.(offer := Some(c), claim := Some(a)), retry))) else None
    case _ => Some(Move(s, w, GoesOn(retry, o)))
  }

  function AtAcceptWrite(s: State, w: nat, o: Row, retry: bool): State {
    if s.row.status == o.status then Move(s.(row := o), w, Idle) else Move(s, w, AcceptReload(retry))
  }

  function AtRetry(s: State, w: nat, o: Row, ch: Choice): Option<State> {
    match ch
    case Found(c) => if IsPending(s.log, c) then Some(Move(s, w, Write(o.(offer := Some(c)), o.status))) else None
    case Visible =>
      if o.transfer.None? then None
      else if IsDirect(s.log, o.transfer.value) then
        Some(Move(s, w, Persist(o.transfer.value, None, true, PERSIST_ATTEMPTS, None)))
      else Some(Move(s, w, Persist(o.transfer.value, o.transfer, false, PERSIST_ATTEMPTS, None)))
    case _ => Some(Move(s, w, Idle))
  }

  /** recordCounterClaimed: direct delivery, or the exact offer consumed by update `a`. */
  function AtRecordProof(s: State, w: nat, o: Row, ch: Choice): Option<State> {
    if o.transfer.None? then None
    else
      match ch
      case Visible =>
        if IsDirect(s.log, o.transfer.value)
        then Some(Move(s, w, Write(o.(claim := o.transfer, offer := None), CounterClaimed))) else None
      case Found(a) =>
        if o.offer.Some? && IsUpdate(s.log, a, Accepted(o.offer.value))
        then Some(Move(s, w, Write(o.(claim := Some(a)), CounterClaimed))) else None
      case _ => Some(Move(s, w, Idle))
  }

  function AtMainClaimProof(s: State, w: nat, o: Row, ch: Choice): Option<State> {
    match ch
    case Found(j) =>
      if IsEvent(s.evm, j, Claimed)
      then Some(Move(s, w, Write(o.(status := MainClaimed, evmTx := Some(j)), CounterClaimed))) else None
    case _ => Some(Move(s, w, Idle))
  }

  function AtRetakeProof(s: State, w: nat, o: Row, ch: Choice): Option<State> {
    match ch
    case Found(j) =>
      if IsEvent(s.evm, j, Retaken)
      then Some(Move(s, w, Write(o.(status := if o.status == CounterClaimed then Failed else Refunded,
                                    evmTx := Some(j)), o.status))) else None
    case _ => Some(Move(s, w, Idle))
  }

  function AtPatch(s: State, w: nat, o: Row, ch: Choice): Option<State> {
    match ch
    case Found(j) =>
      if IsEvent(s.evm, j, Claimed) then Some(Move(s, w, Write(o.(evmTx := Some(j)), MainClaimed))) else None
    case _ => Some(Move(s, w, Idle))
  }

  function StepGo(s: State, w: nat, ch: Choice): Option<State> {
    match PcOf(s, w)
    case Idle => None
    case Write(o, expected) => Some(Move(PutIfStatus(s, o, expected), w, Idle))
    case RevealWrite(o) => Some(AtRevealWrite(s, w, o))
    case RevealReload => Some(Move(s, w, if RevealSettled(s.row) then Deliver(s.row) else Idle))
    case Deliver(o) => AtDeliver(s, w, o, ch)
    case DuplicateReload => AtDuplicateReload(s, w, ch)
    case Prove(u, fallback) => Some(AtProve(s, w, u, fallback, ch))
    case Retry(o) => AtRetry(s, w, o, ch)
    case Persist(u, offer, proven, left, back) => Some(AtPersist(s, w, u, offer, proven, left, back))
    case PersistWrite(o, u, offer, proven, left, back) => Some(AtPersistWrite(s, w, o, u, offer, proven, left, back))
    case Reconcile(o, retry) => AtReconcile(s, w, o, retry, ch)
    case OfferWrite(o, c, retry) => Some(AtOfferWrite(s, w, o, c, retry))
    case OfferReload(c, retry) => Some(Move(s, w, AcceptScan(s.row, c, retry)))
    case AcceptScan(o, c, retry) => AtAcceptScan(s, w, o, c, retry, ch)
    case AcceptWrite(o, retry) => Some(AtAcceptWrite(s, w, o, retry))
    case AcceptReload(retry) => Some(Move(s, w, GoesOn(retry, s.row)))
    case RecordProof(o) => AtRecordProof(s, w, o, ch)
    case MainClaimProof(o) => AtMainClaimProof(s, w, o, ch)
    case RetakeProof(o) => AtRetakeProof(s, w, o, ch)
    case Patch(o) => AtPatch(s, w, o, ch)
  }

  function Step(s: State, l: Label): Option<State> {
    match l
    case Start(w, call) => if PcOf(s, w).Idle? then Some(Move(s, w, StartPc(s.row, call))) else None
    case Go(w, ch) => StepGo(s, w, ch)
    case Crash(w) => Some(Move(s, w, Idle))
    case GetPreimage => if CanExposePreimage(s.row) then Some(s.(knows := true)) else None
    case UserAccepts(c) => if IsPending(s.log, c) then Some(s.(log := s.log + [Tx(None, Accepted(c))])) else None
    case OfferCloses(c) => if IsPending(s.log, c) then Some(s.(log := s.log + [Tx(None, OfferClosed(c))])) else None
    case SolverClaims => if s.knows && Live(s.evm) then Some(s.(evm := s.evm + [Claimed])) else None
    case UserRetakes => if Live(s.evm) then Some(s.(evm := s.evm + [Retaken])) else None
  }

  function Run(s: State, labels: seq<Label>): Option<State>
    decreases labels
  {
    if labels == [] then Some(s)
    else
      match Step(s, labels[0])
      case None => None
      case Some(s') => Run(s', labels[1..])
  }

  lemma {:induction false} RunAppend(s: State, a: seq<Label>, b: seq<Label>)
    requires Run(s, a).Some?
    ensures Run(s, a + b) == Run(Run(s, a).value, b)
    decreases a
  {
    hide Step;
    if a == [] {
      assert [] + b == b;
    } else {
      assert (a + b)[1..] == a[1..] + b;
      RunAppend(Step(s, a[0]).value, a[1..], b);
    }
  }

  lemma RunOne(s: State, l: Label)
    requires Step(s, l).Some?
    ensures Run(s, [l]) == Step(s, l)
  {
    hide Step;
    assert Run(Step(s, l).value, [l][1..]) == Step(s, l);
  }

  // ----- What a step leaves alone -----

  ghost predicate GoFramed(s: State, s': State, w: nat) {
    w in s'.pcs && s'.pcs == s.pcs[w := s'.pcs[w]] && s.log <= s'.log && s'.evm == s.evm && s'.order == s.order
  }

  predicate DeliveryPoint(pc: Pc) {
    pc.RevealWrite? || pc.RevealReload? || pc.Deliver? || pc.DuplicateReload? || pc.Prove? || pc.Retry? || pc.Persist?
    || pc.PersistWrite?
  }

  lemma DeliveryFramed(s: State, w: nat, ch: Choice)
    requires StepGo(s, w, ch).Some? && DeliveryPoint(PcOf(s, w))
    ensures GoFramed(s, StepGo(s, w, ch).value, w)
  {
    hide RevealSettled, IsDirect, IsOffer, IsDelivery, IsPending, WithEvidence, GoesOn, GoesBack, DeliveryId, Unused,
         CommittedAs, AtReconcile, AtOfferWrite, AtAcceptScan, AtAcceptWrite, AtRecordProof, AtMainClaimProof,
         AtRetakeProof, AtPatch;
  }

  predicate ReconcilePoint(pc: Pc) {
    pc.Reconcile? || pc.OfferWrite? || pc.OfferReload? || pc.AcceptScan? || pc.AcceptWrite? || pc.AcceptReload?
  }

  lemma ReconcileFramed(s: State, w: nat, ch: Choice)
    requires StepGo(s, w, ch).Some? && ReconcilePoint(PcOf(s, w))
    ensures GoFramed(s, StepGo(s, w, ch).value, w)
  {
    hide IsDirect, IsOffer, IsPending, IsUpdate, GoesOn, AtRevealWrite, AtDeliver, AtDuplicateReload, AtProve, AtPersist,
         AtPersistWrite, AtRetry, AtRecordProof, AtMainClaimProof, AtRetakeProof, AtPatch;
  }

  lemma OtherFramed(s: State, w: nat, ch: Choice)
    requires StepGo(s, w, ch).Some? && !DeliveryPoint(PcOf(s, w)) && !ReconcilePoint(PcOf(s, w))
    ensures GoFramed(s, StepGo(s, w, ch).value, w)
  {
    hide RevealSettled, IsDirect, IsEvent, IsUpdate, AtRevealWrite, AtDeliver, AtDuplicateReload, AtProve, AtPersist,
         AtPersistWrite, AtRetry, AtReconcile, AtOfferWrite, AtAcceptScan, AtAcceptWrite;
  }

  lemma GoFrames(s: State, w: nat, ch: Choice)
    requires StepGo(s, w, ch).Some?
    ensures GoFramed(s, StepGo(s, w, ch).value, w)
  {
    hide StepGo, GoFramed, DeliveryPoint, ReconcilePoint;
    if DeliveryPoint(PcOf(s, w)) { DeliveryFramed(s, w, ch); }
    else if ReconcilePoint(PcOf(s, w)) { ReconcileFramed(s, w, ch); }
    else { OtherFramed(s, w, ch); }
  }

  /** A step moves at most its own worker, and both ledgers only grow. */
  lemma StepFramed(s: State, l: Label)
    requires Step(s, l).Some?
    ensures var s' := Step(s, l).value;
      && s.log <= s'.log && s.evm <= s'.evm && s'.order == s.order
      && (if l.Start? || l.Go? || l.Crash? then l.w in s'.pcs && s'.pcs == s.pcs[l.w := s'.pcs[l.w]] else s'.pcs == s.pcs)
  {
    hide StepGo, StartPc;
    match l
    case Go(w, ch) => GoFrames(s, w, ch);
    case _ =>
  }
}
