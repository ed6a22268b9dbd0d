/** What every careful step of a reverse order keeps besides `HtlcReverseSafety.Inv`. Only Loop
    custody needs it: a managed order has no early refund. */
module HtlcReverseCare {
  import opened Wrappers
  import opened HtlcCommands
  import opened HtlcReverseMachine
  import opened HtlcReverseSafety

  /** The daemon can bring no lock about, or not yet. */
  ghost predicate Unarmed(cfg: Config, s: State) {
    s.now >= cfg.solverTimelock || (!s.daemon.Ready? && !s.sending)
  }

  /** The row belongs to the refund calls. */
  ghost predicate Closed(s: State) {
    s.row.status == Refunding || (s.row.status == Refunded && Has(s.canton, Refund))
  }

  ghost predicate RowQuiet(cfg: Config, s: State) {
    QuietStatus(s.row.status) ==> Spent(s.evm) && Unarmed(cfg, s)
  }

  /** Once the CBTC return committed, no WBTC is or can become claimable. */
  ghost predicate Sealed(cfg: Config, s: State) {
    Has(s.canton, Refund) ==> Spent(s.evm) && (s.now >= cfg.solverTimelock || (Unarmed(cfg, s) && Closed(s)))
  }

  ghost predicate WorldCare(cfg: Config, s: State) {
    && RowQuiet(cfg, s) && Sealed(cfg, s)
    && (s.daemon.Aborting? ==> Spent(s.evm) && (s.sending ==> s.now >= cfg.solverTimelock))
  }

  /** An early refund that has not taken the row yet and can take it only from `main_locked`. */
  predicate Waits(pc: Pc) {
    (pc.EarlyLock? || pc.RefundCas?) && pc.o.status == MainLocked
  }

  predicate Owns(pc: Pc) {
    InEarlyRefund(pc) && !Waits(pc)
  }

  ghost predicate PcCare(cfg: Config, pc: Pc, s: State) {
    && (Owns(pc) ==>
          s.now >= cfg.solverTimelock
          || if MayReopen(pc) then s.row.status == Refunding && !Has(s.canton, Refund) else Closed(s))
    && (InEarlyRefund(pc) && (pc.RefundSubmit? || pc.RefundWrite?) ==> Spent(s.evm))
  }

  /** While an early refund may reopen the order, no other can pay. */
  ghost predicate Apart(cfg: Config, s: State) {
    s.now >= cfg.solverTimelock ||
    forall w, v | w in s.pcs && v in s.pcs && w != v :: MayReopen(s.pcs[w]) ==> !Owns(s.pcs[v])
  }

  ghost predicate Care(cfg: Config, s: State) {
    cfg.loop ==>
      WorldCare(cfg, s) && Apart(cfg, s) && forall w | w in s.pcs :: PcCare(cfg, s.pcs[w], s)
  }

  // ----- Facts that stay -----

  /** What a step taken at `pc` guarantees to the other workers. */
  ghost predicate CareLater(cfg: Config, s: State, s': State, pc: Pc) {
    && s.now <= s'.now
    && (Spent(s.evm) && Unarmed(cfg, s) ==> s'.evm == s.evm)
    && (s.now < cfg.solverTimelock ==>
          && (!Owns(pc) && s.row.status == Refunding ==> s'.row.status == Refunding)
          && (!Owns(pc) && Has(s'.canton, Refund) ==> Has(s.canton, Refund))
          && (!MayReopen(pc) && Closed(s) ==> Closed(s')))
  }

  lemma PcCareStays(cfg: Config, pc: Pc, s: State, s': State, stepper: Pc)
    requires WorldCare(cfg, s) && PcCare(cfg, pc, s) && CareLater(cfg, s, s', stepper)
    requires s.now < cfg.solverTimelock ==> !(MayReopen(pc) && Owns(stepper)) && !(MayReopen(stepper) && Owns(pc))
    ensures PcCare(cfg, pc, s')
  {
    hide Has;
  }

  lemma CareSettles(cfg: Config, s: State, s': State, w: nat, pc: Pc)
    requires cfg.loop && Care(cfg, s) && WorldCare(cfg, s') && Apart(cfg, s') && PcCare(cfg, pc, s')
    requires s'.pcs == s.pcs[w := pc] && CareLater(cfg, s, s', PcOf(s, w))
    ensures Care(cfg, s')
  {
    hide WorldCare, PcCare, CareLater, MayReopen, Owns;
    forall v | v in s'.pcs ensures PcCare(cfg, s'.pcs[v], s') {
      if v != w {
        if w !in s.pcs { assert !Owns(Idle) && !MayReopen(Idle) by { NotIdle(); } }
        PcCareStays(cfg, s.pcs[v], s, s', PcOf(s, w));
      }
    }
  }

  lemma NotIdle()
    ensures !Owns(Idle) && !MayReopen(Idle)
  {
  }

  /** A step after which `w` owns or may reopen only if it did before. */
  lemma ApartStays(cfg: Config, s: State, s': State, w: nat, pc: Pc)
    requires Apart(cfg, s) && s'.pcs == s.pcs[w := pc] && s.now <= s'.now
    requires MayReopen(pc) ==> MayReopen(PcOf(s, w))
    requires Owns(pc) ==> Owns(PcOf(s, w))
    ensures Apart(cfg, s')
  {
    hide MayReopen, Owns;
    NotIdle();
  }

  // ----- What one worker's step guarantees to the others -----

  lemma WriterLater(cfg: Config, s: State, w: nat, ch: Choice)
    requires Ladder(cfg) && w in s.pcs && PcOk(cfg, s.pcs[w], s) && StepGo(cfg, s, w, ch).Some? && Writer(PcOf(s, w))
    ensures CareLater(cfg, s, StepGo(cfg, s, w, ch).value, PcOf(s, w))
  {
    hide ClaimSeen, Live, IsEvent, IsCustody, CanRefund, CanClaim, AtConfirming, AtRefundSubmit,
         AtClaimSubmit, AtLateLock, AtLateScan, AtEarlyLock, AtPhantom, AtPhantomScan, AtClaimReload,
         AtClaimScan, AtRecordScan, AtLockCheck, AtRetake, AtPatch, CopyOk, RefundEligible;
  }

  lemma SubmitLater(cfg: Config, s: State, s': State, pc: Pc, tx: Tx<Update>)
    requires s' == s.(canton := s'.canton, pcs := s'.pcs)
    requires s'.canton == s.canton || s'.canton == s.canton + [tx]
    requires s.now < cfg.solverTimelock && tx.what == Refund ==> Owns(pc)
    ensures CareLater(cfg, s, s', pc)
  {
    HasMore(s.canton, tx, Refund);
    hide Has, Spent;
  }

  lemma RefundSubmitLater(cfg: Config, s: State, w: nat, o: Row, prev: Status, e: Entry, ch: Choice)
    requires Ladder(cfg) && PcOk(cfg, RefundSubmit(o, prev, e), s) && AtRefundSubmit(cfg, s, w, o, prev, e, ch).Some?
    ensures CareLater(cfg, s, AtRefundSubmit(cfg, s, w, o, prev, e, ch).value, RefundSubmit(o, prev, e))
  {
    hide CareLater, CopyOk, RefundEligible, Spent, RefundId, CanRefund;
    SubmitLater(cfg, s, AtRefundSubmit(cfg, s, w, o, prev, e, ch).value, RefundSubmit(o, prev, e),
                Tx(Some(RefundId(cfg.order, e)), Refund));
  }

  lemma ConfirmingLater(cfg: Config, s: State, w: nat, o: Row, ch: Choice)
    requires AtConfirming(cfg, s, w, o, ch).Some?
    ensures CareLater(cfg, s, AtConfirming(cfg, s, w, o, ch).value, Confirming(o))
  {
    hide CareLater, LockId;
    SubmitLater(cfg, s, AtConfirming(cfg, s, w, o, ch).value, Confirming(o), CustodyTx(cfg));
  }

  lemma ClaimSubmitLater(cfg: Config, s: State, w: nat, o: Row, ch: Choice)
    requires AtClaimSubmit(cfg, s, w, o, ch).Some?
    ensures CareLater(cfg, s, AtClaimSubmit(cfg, s, w, o, ch).value, ClaimSubmit(o))
  {
    hide CareLater, ClaimId, CanClaim;
    SubmitLater(cfg, s, AtClaimSubmit(cfg, s, w, o, ch).value, ClaimSubmit(o), Tx(Some(ClaimId(cfg.order)), Claim));
  }

  lemma SubmitterLater(cfg: Config, s: State, w: nat, ch: Choice)
    requires Ladder(cfg) && w in s.pcs && PcOk(cfg, s.pcs[w], s) && StepGo(cfg, s, w, ch).Some? && Submitter(PcOf(s, w))
    ensures CareLater(cfg, s, StepGo(cfg, s, w, ch).value, PcOf(s, w))
  {
    hide CareLater, PcOk, AtConfirming, AtRefundSubmit, AtClaimSubmit;
    match PcOf(s, w) {
      case Confirming(o) => ConfirmingLater(cfg, s, w, o, ch);
      case RefundSubmit(o, prev, e) => RefundSubmitLater(cfg, s, w, o, prev, e, ch);
      case ClaimSubmit(o) => ClaimSubmitLater(cfg, s, w, o, ch);
    }
  }

  lemma LockReaderLater(cfg: Config, s: State, w: nat, ch: Choice)
    requires StepGo(cfg, s, w, ch).Some? && LockReader(PcOf(s, w))
    ensures CareLater(cfg, s, StepGo(cfg, s, w, ch).value, PcOf(s, w))
  {
    hide ClaimSeen, Live, IsEvent, IsUpdate, IsCustody, CanRefund, CanClaim, AtRefundCas, AtClaimReveal,
         AtRetakeWrite, AtMark, AtConfirming, AtRefundSubmit, AtClaimSubmit, AtClaimScan, AtRecordScan,
         AtLockCheck, AtRetake, AtPatch, Has, Spent;
  }

  lemma ScannerLater(cfg: Config, s: State, w: nat, ch: Choice)
    requires StepGo(cfg, s, w, ch).Some? && !Writer(PcOf(s, w)) && !Submitter(PcOf(s, w)) && !LockReader(PcOf(s, w))
    ensures CareLater(cfg, s, StepGo(cfg, s, w, ch).value, PcOf(s, w))
  {
    hide ClaimSeen, Live, IsEvent, IsUpdate, IsCustody, CanRefund, CanClaim, AtRefundCas, AtClaimReveal,
         AtRetakeWrite, AtMark, AtConfirming, AtRefundSubmit, AtClaimSubmit, AtLateLock, AtLateScan,
         AtEarlyLock, AtPhantom, AtPhantomScan, AtClaimReload, Has, Spent;
  }

  lemma GoLater(cfg: Config, s: State, w: nat, ch: Choice)
    requires Ladder(cfg) && Inv(cfg, s) && StepGo(cfg, s, w, ch).Some?
    ensures CareLater(cfg, s, StepGo(cfg, s, w, ch).value, PcOf(s, w))
  {
    hide StepGo, CareLater, WorldOk, PcOk, Writer, Submitter, LockReader;
    assert w in s.pcs by { if w !in s.pcs { IdleStops(cfg, s, w, ch); } }
    if Writer(PcOf(s, w)) { WriterLater(cfg, s, w, ch); }
    else if Submitter(PcOf(s, w)) { SubmitterLater(cfg, s, w, ch); }
    else if LockReader(PcOf(s, w)) { LockReaderLater(cfg, s, w, ch); }
    else { ScannerLater(cfg, s, w, ch); }
  }

  lemma IdleStops(cfg: Config, s: State, w: nat, ch: Choice)
    requires w !in s.pcs
    ensures StepGo(cfg, s, w, ch).None?
  {
  }

  // ----- What a worker's step leaves of the order -----

  /** What remains to be shown of one step. */
  ghost predicate StepCare(cfg: Config, s: State, s': State, w: nat) {
    WorldCare(cfg, s') && Apart(cfg, s') && PcCare(cfg, PcOf(s', w), s')
  }

  lemma WorldCareIgnoresPcs(cfg: Config, s: State, s': State)
    requires WorldCare(cfg, s) && s' == s.(pcs := s'.pcs)
    ensures WorldCare(cfg, s')
  {
    hide Has, Spent;
  }

  /** A step that only moves `w` to a point at which it is not in an early refund, or on to the
      write that takes the row. */
  lemma MoveCares(cfg: Config, s: State, w: nat, pc: Pc)
    requires Care(cfg, s) && cfg.loop && !pc.RefundSubmit? && !pc.RefundWrite?
    requires InEarlyRefund(pc) ==> InEarlyRefund(PcOf(s, w)) && (Waits(pc) <==> Waits(PcOf(s, w)))
    requires PcOf(s, w).RefundSubmit? || PcOf(s, w).RefundWrite? ==> !InEarlyRefund(pc)
    ensures StepCare(cfg, s, Move(s, w, pc), w)
  {
    var s' := Move(s, w, pc);
    WorldCareIgnoresPcs(cfg, s, s');
    ApartStays(cfg, s, s', w, pc);
    if w in s.pcs { assert PcCare(cfg, s.pcs[w], s); }
    hide WorldCare, Apart, Has, Spent;
  }

  lemma LockReaderCares(cfg: Config, s: State, w: nat, ch: Choice)
    requires Care(cfg, s) && cfg.loop && StepGo(cfg, s, w, ch).Some? && LockReader(PcOf(s, w))
    ensures StepCare(cfg, s, StepGo(cfg, s, w, ch).value, w)
  {
    hide Care, StepCare, ClaimSeen, Live, IsEvent, IsUpdate, IsCustody, CanRefund, CanClaim, AtRefundCas, AtClaimReveal,
         AtRetakeWrite, AtMark, AtConfirming, AtRefundSubmit, AtClaimSubmit, AtClaimScan, AtRecordScan,
         AtLockCheck, AtRetake, AtPatch;
    MoveCares(cfg, s, w, StepGo(cfg, s, w, ch).value.pcs[w]);
  }

  /** `w` moved, nothing else did, and it is in no early refund. */
  ghost predicate JustMoved(s: State, s': State, w: nat) {
    w in s'.pcs && s' == Move(s, w, s'.pcs[w]) && !InEarlyRefund(s'.pcs[w])
    && !s'.pcs[w].RefundSubmit? && !s'.pcs[w].RefundWrite?
  }

  lemma ClaimScanMoves(cfg: Config, s: State, w: nat, o: Row, ch: Choice)
    requires AtClaimScan(s, w, o, ch).Some?
    ensures JustMoved(s, AtClaimScan(s, w, o, ch).value, w)
  {
  }

  lemma RecordScanMoves(cfg: Config, s: State, w: nat, o: Row, ch: Choice)
    requires AtRecordScan(s, w, o, ch).Some?
    ensures JustMoved(s, AtRecordScan(s, w, o, ch).value, w)
  {
    hide ClaimSeen, IsEvent;
  }

  lemma LockCheckMoves(cfg: Config, s: State, w: nat, o: Row, ch: Choice)
    requires AtLockCheck(s, w, o, ch).Some?
    ensures JustMoved(s, AtLockCheck(s, w, o, ch).value, w)
  {
    hide Live, IsEvent;
  }

  lemma ScannerMoves(cfg: Config, s: State, w: nat, ch: Choice)
    requires StepGo(cfg, s, w, ch).Some?
    requires !Writer(PcOf(s, w)) && !Submitter(PcOf(s, w)) && !LockReader(PcOf(s, w))
    ensures JustMoved(s, StepGo(cfg, s, w, ch).value, w) && !InEarlyRefund(PcOf(s, w))
  {
    hide AtClaimScan, AtRecordScan, AtLockCheck, IsEvent;
    match PcOf(s, w) {
      case ClaimScan(o) =>
        hide JustMoved;
        ClaimScanMoves(cfg, s, w, o, ch);
      case RecordScan(o) =>
        hide JustMoved;
        RecordScanMoves(cfg, s, w, o, ch);
      case LockCheck(o) =>
        hide JustMoved;
        LockCheckMoves(cfg, s, w, o, ch);
      case Retake(_) =>
      case Patch(_) =>
    }
  }

  lemma ScannerCares(cfg: Config, s: State, w: nat, ch: Choice)
    requires Care(cfg, s) && cfg.loop && StepGo(cfg, s, w, ch).Some?
    requires !Writer(PcOf(s, w)) && !Submitter(PcOf(s, w)) && !LockReader(PcOf(s, w))
    ensures StepCare(cfg, s, StepGo(cfg, s, w, ch).value, w)
  {
    ScannerMoves(cfg, s, w, ch);
    hide StepGo, Care, StepCare, Writer, Submitter, LockReader;
    MoveCares(cfg, s, w, StepGo(cfg, s, w, ch).value.pcs[w]);
  }

  /** A row write that reopens nothing. */
  lemma RowCares(cfg: Config, s: State, o: Row)
    requires WorldCare(cfg, s)
    requires QuietStatus(o.status) ==> QuietStatus(s.row.status) || (Spent(s.evm) && Unarmed(cfg, s))
    requires Has(s.canton, Refund) ==>
               NeverClaimable(cfg, s) || o.status == Refunding || o.status == Refunded
    ensures WorldCare(cfg, s.(row := o))
  {
    hide Has, QuietStatus;
  }

  lemma IdleCares(cfg: Config, pc: Pc, s: State)
    requires !InEarlyRefund(pc)
    ensures PcCare(cfg, pc, s) && !Owns(pc) && !MayReopen(pc)
  {
  }

  /** A row write after which `w` is not in an early refund. */
  lemma WroteCares(cfg: Config, s: State, s': State, w: nat, pc: Pc)
    requires Care(cfg, s) && cfg.loop && !InEarlyRefund(pc)
    requires s' == Move(s.(row := s'.row, marked := s'.marked), w, pc)
    requires QuietStatus(s'.row.status) ==> QuietStatus(s.row.status) || (Spent(s.evm) && Unarmed(cfg, s))
    requires Has(s.canton, Refund) ==>
               NeverClaimable(cfg, s) || s'.row.status == Refunding || s'.row.status == Refunded
    ensures StepCare(cfg, s, s', w)
  {
    RowCares(cfg, s, s'.row);
    IdleCares(cfg, pc, s');
    hide QuietStatus, NeverClaimable, PcCare;
    assert WorldCare(cfg, s') by {
      hide RowQuiet, Sealed;
      assert s'.(row := s'.row) == s';
      MarkCares(cfg, s.(row := s'.row), s');
    }
    hide WorldCare;
    ApartStays(cfg, s, s', w, pc);
  }

  lemma MarkCares(cfg: Config, s: State, s': State)
    requires WorldCare(cfg, s) && s' == s.(pcs := s'.pcs, marked := s'.marked)
    ensures WorldCare(cfg, s')
  {
    hide Has, Spent, QuietStatus;
  }

  /** Where the row stands when the return has committed. */
  lemma SealedRow(cfg: Config, s: State)
    requires Care(cfg, s) && cfg.loop && Has(s.canton, Refund)
    ensures NeverClaimable(cfg, s) || Closed(s)
  {
    hide Has;
  }

  lemma WriteCares(cfg: Config, s: State, w: nat, o: Row, expected: Status)
    requires Inv(cfg, s) && Care(cfg, s) && cfg.loop && PcOf(s, w) == Write(o, expected)
    ensures StepCare(cfg, s, Move(PutIfStatus(s, o, expected), w, Idle), w)
  {
    SplitWorld(cfg, s);
    assert PcOk(cfg, s.pcs[w], s) by { hide WorldOk, PcOk; }
    if Has(s.canton, Refund) { SealedRow(cfg, s); }
    hide Inv, Care, CopyOk, LogOk, TakingOk, Has, StepCare;
    WroteCares(cfg, s, Move(PutIfStatus(s, o, expected), w, Idle), w, Idle) by {
      if QuietStatus(s.row.status) { assert s.row.status == s.row.status; }
    }
  }

  lemma ReservingCares(cfg: Config, s: State, w: nat)
    requires Care(cfg, s) && cfg.loop && PcOf(s, w).Reserving?
    requires Has(s.canton, Refund) ==> NeverClaimable(cfg, s) || Closed(s)
    ensures StepCare(cfg, s, StepGo(cfg, s, w, Proceed).value, w)
  {
    hide Care, Has, StepCare, NeverClaimable;
    WroteCares(cfg, s, StepGo(cfg, s, w, Proceed).value, w, Idle);
  }

  lemma RevealCares(cfg: Config, s: State, w: nat, o: Row, expected: Status)
    requires Care(cfg, s) && cfg.loop && PcOf(s, w) == ClaimReveal(o, expected)
    requires PcOk(cfg, ClaimReveal(o, expected), s) && (Has(s.canton, Refund) ==> NeverClaimable(cfg, s) || Closed(s))
    ensures StepCare(cfg, s, AtClaimReveal(s, w, o, expected), w)
  {
    var s' := AtClaimReveal(s, w, o, expected);
    hide Care, CopyOk, Has, StepCare, NeverClaimable;
    WroteCares(cfg, s, s', w, s'.pcs[w]);
  }

  lemma RetakeCares(cfg: Config, s: State, w: nat, o: Row)
    requires Care(cfg, s) && cfg.loop && PcOf(s, w) == RetakeWrite(o)
    requires PcOk(cfg, RetakeWrite(o), s) && (Has(s.canton, Refund) ==> NeverClaimable(cfg, s) || Closed(s))
    ensures StepCare(cfg, s, AtRetakeWrite(cfg, s, w, o), w)
  {
    var s' := AtRetakeWrite(cfg, s, w, o);
    hide Care, CopyOk, Has, StepCare, NeverClaimable;
    WroteCares(cfg, s, s', w, s'.pcs[w]);
  }

  lemma MarkWriteCares(cfg: Config, s: State, w: nat, o: Row)
    requires Care(cfg, s) && cfg.loop && PcOf(s, w) == Mark(o)
    requires PcOk(cfg, Mark(o), s) && (Has(s.canton, Refund) ==> NeverClaimable(cfg, s) || Closed(s))
    ensures StepCare(cfg, s, AtMark(s, w, o), w)
  {
    hide Care, CopyOk, Has, StepCare, NeverClaimable;
    WroteCares(cfg, s, AtMark(s, w, o), w, Idle);
  }

  // ----- The refund itself -----

  lemma LateCasCares(cfg: Config, s: State, w: nat, o: Row)
    requires Ladder(cfg) && Inv(cfg, s) && Care(cfg, s) && cfg.loop && PcOf(s, w) == RefundCas(o, Late)
    ensures StepCare(cfg, s, AtRefundCas(s, w, o, Late), w)
  {
    assert PcOk(cfg, s.pcs[w], s) by { hide WorldOk, PcOk; }
    var s' := AtRefundCas(s, w, o, Late);
    hide Inv, Care, CopyOk, Has, StepCare;
    WroteCares(cfg, s, s', w, s'.pcs[w]);
  }

  lemma EarlyCasCares(cfg: Config, s: State, w: nat, o: Row)
    requires Inv(cfg, s) && Care(cfg, s) && cfg.loop && PcOf(s, w) == RefundCas(o, Early)
    ensures StepCare(cfg, s, AtRefundCas(s, w, o, Early), w)
  {
    assert PcOk(cfg, s.pcs[w], s) by { hide WorldOk, PcOk; }
    var s' := AtRefundCas(s, w, o, Early);
    if s.row.status == o.status {
      assert Spent(s.evm) && Unarmed(cfg, s) by { hide Inv, CopyOk; }
      if Has(s.canton, Refund) { SealedRow(cfg, s); }
      EarlyTakes(cfg, s, w, o);
    } else {
      hide Inv, Care, CopyOk, Has, StepCare;
      WroteCares(cfg, s, s', w, Idle) by { assert s' == Move(s.(row := s.row, marked := s.marked), w, Idle); }
    }
  }

  /** Taking the row from `main_locked` is safe because no other early refund owns it then. */
  lemma EarlyTakes(cfg: Config, s: State, w: nat, o: Row)
    requires Care(cfg, s) && cfg.loop && PcOf(s, w) == RefundCas(o, Early) && s.row.status == o.status
    requires EarlyTarget(o.status) && Spent(s.evm) && Unarmed(cfg, s)
    requires Has(s.canton, Refund) ==> NeverClaimable(cfg, s) || Closed(s)
    ensures StepCare(cfg, s, AtRefundCas(s, w, o, Early), w)
  {
    var s' := AtRefundCas(s, w, o, Early);
    RowCares(cfg, s, s'.row);
    hide Has;
    assert WorldCare(cfg, s');
    assert PcCare(cfg, PcOf(s', w), s');
    if s.now < cfg.solverTimelock && o.status == MainLocked {
      forall v | v in s.pcs ensures !Owns(s.pcs[v]) && !MayReopen(s.pcs[v]) {
        assert PcCare(cfg, s.pcs[v], s) && !Closed(s);
        hide PcCare;
      }
    }
    hide PcCare, WorldCare;
  }

  lemma RefundWriteCares(cfg: Config, s: State, w: nat, o: Row, e: Entry)
    requires Ladder(cfg) && Inv(cfg, s) && Care(cfg, s) && cfg.loop && PcOf(s, w) == RefundWrite(o, e)
    ensures StepCare(cfg, s, Move(PutIfStatus(s, o, Refunding), w, Idle), w)
  {
    assert PcOk(cfg, s.pcs[w], s) by { hide WorldOk, PcOk; }
    assert PcCare(cfg, s.pcs[w], s) by { hide WorldCare, PcCare; }
    var s' := Move(PutIfStatus(s, o, Refunding), w, Idle);
    if Has(s.canton, Refund) { SealedRow(cfg, s); }
    hide Inv, Care, CopyOk, Has, StepCare;
    WroteCares(cfg, s, s', w, Idle);
  }

  /** A commit: the log grows, row, escrow, daemon and clock do not move. */
  lemma CommitCares(cfg: Config, s: State, tx: Tx<Update>)
    requires WorldCare(cfg, s)
    requires tx.what == Refund ==> Spent(s.evm) && (s.now >= cfg.solverTimelock || Closed(s))
    ensures WorldCare(cfg, s.(canton := s.canton + [tx]))
  {
    HasMore(s.canton, tx, Refund);
    hide Has, Spent;
  }

  lemma PlainSubmitCares(cfg: Config, s: State, w: nat, ch: Choice)
    requires Care(cfg, s) && cfg.loop && StepGo(cfg, s, w, ch).Some?
    requires PcOf(s, w).Confirming? || PcOf(s, w).ClaimSubmit?
    ensures StepCare(cfg, s, StepGo(cfg, s, w, ch).value, w)
  {
    var s' := StepGo(cfg, s, w, ch).value;
    var pc := s'.pcs[w];
    if s'.canton != s.canton {
      CommitCares(cfg, s, CustodyTx(cfg));
      WorldCareIgnoresPcs(cfg, s.(canton := s'.canton), s');
    } else {
      WorldCareIgnoresPcs(cfg, s, s');
    }
    IdleCares(cfg, pc, s');
    hide WorldCare, PcCare;
    ApartStays(cfg, s, s', w, pc);
  }

  lemma SubmittedPcCare(cfg: Config, s: State, w: nat, o: Row, prev: Status, e: Entry, ch: Choice)
    requires PcCare(cfg, RefundSubmit(o, prev, e), s) && (e == Early ==> EarlyTarget(prev))
    requires AtRefundSubmit(cfg, s, w, o, prev, e, ch).Some?
    ensures var s' := AtRefundSubmit(cfg, s, w, o, prev, e, ch).value; var pc := s'.pcs[w];
      && PcCare(cfg, pc, s')
      && (MayReopen(pc) ==> MayReopen(RefundSubmit(o, prev, e))) && (Owns(pc) ==> Owns(RefundSubmit(o, prev, e)))
  {
    HasMore(s.canton, Tx(Some(RefundId(cfg.order, e)), Refund), Refund);
    hide Has, RefundId, CanRefund, CommittedAs, Unused, Spent;
  }

  lemma SubmittedWorldCare(cfg: Config, s: State, w: nat, o: Row, prev: Status, e: Entry, ch: Choice)
    requires WorldCare(cfg, s) && AtRefundSubmit(cfg, s, w, o, prev, e, ch).Some?
    requires Spent(s.evm) && (s.now >= cfg.solverTimelock || Closed(s))
    ensures WorldCare(cfg, AtRefundSubmit(cfg, s, w, o, prev, e, ch).value)
  {
    var s' := AtRefundSubmit(cfg, s, w, o, prev, e, ch).value;
    hide WorldCare, Closed, Spent, RefundId, CanRefund, CommittedAs, Unused;
    if s'.canton != s.canton { CommitCares(cfg, s, Tx(Some(RefundId(cfg.order, e)), Refund)); }
    WorldCareIgnoresPcs(cfg, s.(canton := s'.canton), s');
  }

  /** At every submission no WBTC was claimed, and none can be unless the row leaves the refund
      calls before solverTimelock. */
  lemma SubmitFacts(cfg: Config, s: State, w: nat, o: Row, prev: Status, e: Entry)
    requires Ladder(cfg) && Inv(cfg, s) && Care(cfg, s) && cfg.loop && PcOf(s, w) == RefundSubmit(o, prev, e)
    ensures PcCare(cfg, RefundSubmit(o, prev, e), s) && (e == Early ==> EarlyTarget(prev))
    ensures Spent(s.evm) && (s.now >= cfg.solverTimelock || Closed(s))
  {
    assert PcOk(cfg, s.pcs[w], s) by { hide WorldOk, PcOk; }
    assert PcCare(cfg, s.pcs[w], s) by { hide WorldCare, PcCare; }
    hide Inv, Care, CopyOk, Has;
  }

  lemma RefundSubmitCares(cfg: Config, s: State, w: nat, o: Row, prev: Status, e: Entry, ch: Choice)
    requires Ladder(cfg) && Inv(cfg, s) && Care(cfg, s) && cfg.loop && PcOf(s, w) == RefundSubmit(o, prev, e)
    requires AtRefundSubmit(cfg, s, w, o, prev, e, ch).Some?
    ensures StepCare(cfg, s, AtRefundSubmit(cfg, s, w, o, prev, e, ch).value, w)
  {
    hide Inv, WorldCare, PcCare, MayReopen, Owns, Apart, Closed, Spent;
    var s' := AtRefundSubmit(cfg, s, w, o, prev, e, ch).value;
    SubmitFacts(cfg, s, w, o, prev, e);
    SubmittedPcCare(cfg, s, w, o, prev, e, ch);
    SubmittedWorldCare(cfg, s, w, o, prev, e, ch);
    RefundSubmitFramed(cfg, s, w, o, prev, e, ch);
    hide AtRefundSubmit;
    ApartStays(cfg, s, s', w, s'.pcs[w]);
  }

  lemma WriterCares(cfg: Config, s: State, w: nat, ch: Choice)
    requires Ladder(cfg) && Inv(cfg, s) && Care(cfg, s) && cfg.loop && StepGo(cfg, s, w, ch).Some?
    requires Writer(PcOf(s, w))
    ensures StepCare(cfg, s, StepGo(cfg, s, w, ch).value, w)
  {
    hide Inv, Care, StepCare, PcOk, Has, NeverClaimable, Closed, AtRefundCas, AtClaimReveal, AtRetakeWrite, AtMark,
         PutIfStatus, Ladder;
    assert PcOk(cfg, PcOf(s, w), s) by { PcFacts(cfg, s, w); }
    if Has(s.canton, Refund) { SealedRow(cfg, s); }
    match PcOf(s, w) {
      case Write(o, expected) => WriteCares(cfg, s, w, o, expected);
      case Reserving => ReservingCares(cfg, s, w);
      case RefundCas(o, e) => if e == Late { LateCasCares(cfg, s, w, o); } else { EarlyCasCares(cfg, s, w, o); }
      case RefundWrite(o, e) => RefundWriteCares(cfg, s, w, o, e);
      case ClaimReveal(o, expected) => RevealCares(cfg, s, w, o, expected);
      case RetakeWrite(o) => RetakeCares(cfg, s, w, o);
      case Mark(o) => MarkWriteCares(cfg, s, w, o);
    }
  }

  lemma PcFacts(cfg: Config, s: State, w: nat)
    requires Inv(cfg, s)
    ensures PcOk(cfg, PcOf(s, w), s)
  {
    IdleOk(cfg, s);
    hide WorldOk, PcOk;
  }

  lemma SubmitterCares(cfg: Config, s: State, w: nat, ch: Choice)
    requires Ladder(cfg) && Inv(cfg, s) && Care(cfg, s) && cfg.loop && StepGo(cfg, s, w, ch).Some?
    requires Submitter(PcOf(s, w))
    ensures StepCare(cfg, s, StepGo(cfg, s, w, ch).value, w)
  {
    hide Inv, Care, StepCare, AtConfirming, AtRefundSubmit, AtClaimSubmit;
    match PcOf(s, w) {
      case RefundSubmit(o, prev, e) => RefundSubmitCares(cfg, s, w, o, prev, e, ch);
      case _ => PlainSubmitCares(cfg, s, w, ch);
    }
  }

  lemma GoCares(cfg: Config, s: State, w: nat, ch: Choice)
    requires Ladder(cfg) && Inv(cfg, s) && Care(cfg, s) && StepGo(cfg, s, w, ch).Some?
    ensures Care(cfg, StepGo(cfg, s, w, ch).value)
  {
    hide StepGo, Inv, WorldCare, Apart, PcCare, CareLater, Writer, Submitter, LockReader, Ladder;
    if cfg.loop {
      var s' := StepGo(cfg, s, w, ch).value;
      GoLater(cfg, s, w, ch);
      StepFramed(cfg, s, Go(w, ch));
      if Writer(PcOf(s, w)) { WriterCares(cfg, s, w, ch); }
      else if Submitter(PcOf(s, w)) { SubmitterCares(cfg, s, w, ch); }
      else if LockReader(PcOf(s, w)) { LockReaderCares(cfg, s, w, ch); }
      else { ScannerCares(cfg, s, w, ch); }
      CareSettles(cfg, s, s', w, s'.pcs[w]);
    }
  }

  // ----- Starting, the daemon, the escrow, and whole runs -----

  lemma StartCares(cfg: Config, s: State, w: nat, call: Call)
    requires Care(cfg, s) && cfg.loop && PcOf(s, w).Idle? && Careful(cfg, s, Start(w, call))
    ensures Care(cfg, Move(s, w, StartPc(cfg, s.row, s.now, call)))
  {
    var pc := StartPc(cfg, s.row, s.now, call);
    var s' := Move(s, w, pc);
    WorldCareIgnoresPcs(cfg, s, s');
    assert PcCare(cfg, pc, s') && !MayReopen(pc) by { hide WorldCare, Apart; }
    assert Apart(cfg, s') by {
      if Owns(pc) { assert s.row.status == Refunding; }
      hide StartPc, WorldCare, PcCare, MayReopen, Owns;
      NotIdle();
    }
    assert CareLater(cfg, s, s', PcOf(s, w)) by { hide WorldCare, PcCare, Apart, StartPc; }
    hide WorldCare, PcCare, Apart, CareLater, StartPc;
    CareSettles(cfg, s, s', w, pc);
  }

  lemma CrashCares(cfg: Config, s: State, w: nat)
    requires Care(cfg, s) && cfg.loop
    ensures Care(cfg, Move(s, w, Idle))
  {
    var s' := Move(s, w, Idle);
    WorldCareIgnoresPcs(cfg, s, s');
    IdleCares(cfg, Idle, s');
    ApartStays(cfg, s, s', w, Idle);
    assert CareLater(cfg, s, s', PcOf(s, w)) by { hide WorldCare, PcCare, Apart; }
    hide WorldCare, PcCare, Apart, CareLater;
    CareSettles(cfg, s, s', w, Idle);
  }

  lemma WorldCareStays(cfg: Config, s: State, l: Label)
    requires Inv(cfg, s) && WorldCare(cfg, s) && cfg.loop && StepWorld(cfg, s, l).Some? && Careful(cfg, s, l)
    ensures WorldCare(cfg, StepWorld(cfg, s, l).value)
    ensures CareLater(cfg, s, StepWorld(cfg, s, l).value, Idle)
  {
    SplitWorld(cfg, s);
    hide Inv, CopyOk, LogOk, TakingOk, Has;
  }

  lemma WorldCares(cfg: Config, s: State, l: Label)
    requires Inv(cfg, s) && Care(cfg, s) && cfg.loop && StepWorld(cfg, s, l).Some? && Careful(cfg, s, l)
    ensures Care(cfg, StepWorld(cfg, s, l).value)
  {
    var s' := StepWorld(cfg, s, l).value;
    WorldCareStays(cfg, s, l);
    assert s'.pcs == s.pcs && s.now <= s'.now;
    NotIdle();
    hide Inv, WorldCare, PcCare, CareLater, StepWorld, Careful, MayReopen, Owns;
    forall v | v in s'.pcs ensures PcCare(cfg, s'.pcs[v], s') {
      PcCareStays(cfg, s.pcs[v], s, s', Idle);
    }
  }

  lemma StepCares(cfg: Config, s: State, l: Label)
    requires Ladder(cfg) && Inv(cfg, s) && Care(cfg, s) && Step(cfg, s, l).Some? && Careful(cfg, s, l)
    ensures Care(cfg, Step(cfg, s, l).value)
  {
    if cfg.loop {
      hide StepGo, StepWorld, StartPc, Inv, Care, Careful, Ladder;
      match l
      case Start(w, call) => StartCares(cfg, s, w, call);
      case Go(w, ch) => GoCares(cfg, s, w, ch);
      case Crash(w) => CrashCares(cfg, s, w);
      case _ => WorldCares(cfg, s, l);
    }
  }

  lemma {:induction false} RunCares(cfg: Config, s: State, labels: seq<Label>)
    requires Ladder(cfg) && Inv(cfg, s) && Care(cfg, s) && Clean(cfg, s, labels) && Run(cfg, s, labels).Some?
    ensures Care(cfg, Run(cfg, s, labels).value)
    decreases labels
  {
    hide Inv, Care, Ladder, Careful, Step;
    if labels != [] {
      StepKeeps(cfg, s, labels[0]);
      StepCares(cfg, s, labels[0]);
      RunCares(cfg, Step(cfg, s, labels[0]).value, labels[1..]);
    }
  }
}
