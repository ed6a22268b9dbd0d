/** What every run of the same-Canton swap keeps, careful or not: what the ledger never does, and
    what a receipt, a settlement and a counter offer mean in the row and in any copy of it. */
module CantonSwapEvery {
  import opened Wrappers
  import opened CantonSwapLedger
  import opened CantonSwapMachine
  import opened CantonSwapSafety

  /** The fill made an offer. */
  ghost predicate FillOffered(log: Log) {
    exists f | 0 <= f < |log| :: CommandAt(log, f, 0) && IsOffer(log, f)
  }

  /** The fill comes first; a managed order is paid by the fill itself, and only a fill that made
      an offer is followed by reissues. */
  ghost predicate FillFirst(mode: WalletMode, log: Log) {
    forall i | 0 <= i < |log| && IsCommand(log[i]) ::
      && Committed(log, 0) && (mode == Managed ==> log[i].Fill? && log[i].outcome.Direct?)
      && (log[i].Reissue? ==> FillOffered(log))
  }

  /** Only a sell offer that was made is given back. */
  ghost predicate ReturnsOk(log: Log) {
    forall f: nat :: UserOfferClosed(f) in log ==> f < |log|
  }

  ghost predicate LogReal(mode: WalletMode, log: Log) {
    NumbersUnique(log) && AcceptsOk(log) && SellLegsOk(log) && FillFirst(mode, log) && ReturnsOk(log)
  }

  /** What the fields of any copy name on the ledger. */
  ghost predicate CopyReal(mode: WalletMode, o: Row, log: Log) {
    && (o.settlement.Some? ==> CommandAt(log, o.settlement.value, 0))
    && (o.receipt.Some? ==> Delivers(log, o.receipt.value))
    && (o.status == Filled ==> o.receipt.Some? && o.settlement.Some?)
    && (o.counterOffer.Some? ==> IsOffer(log, o.counterOffer.value))
    && (o.createdOffset.Some? ==> o.counterOffer.Some? && o.createdOffset.value == o.counterOffer.value + 1)
  }

  /** A copy that waits for its counter offer. */
  predicate Waits(o: Row) {
    o.counterOffer.Some? && o.status != Filled
  }

  /** The offer was accepted or closed. */
  predicate Gone(log: Log, c: nat) {
    CounterAccepted(c) in log || CounterClosed(c) in log
  }

  /** The purposes of reconcileLoopCounters. */
  predicate LoopPurpose(purpose: Purpose) {
    purpose == FirstCheck || purpose == Recheck
  }

  /** What a worker holds at each await, in every run. */
  ghost predicate PcReal(mode: WalletMode, pc: Pc, log: Log) {
    match pc
    case Idle | FillInFlight | Confirming(_) => true
    case FillReserved(st) => mode == Loop && st != Filled
    case Write(o, expected) => CopyReal(mode, o, log) && (expected == Filled ==> mode == Managed && o.status == Filled)
    case WriteOffer(o, _) => CopyReal(mode, o, log) && mode == Loop
    case Expiring(_) | Repair(_) => CopyReal(mode, pc.o, log) && pc.o.status != Filled
    case FillChecked(_) | FillReady(_) | FillOwned(_) => mode == Loop && CopyReal(mode, pc.o, log) && pc.o.status != Filled
    case FillSubmit(_) | Rejecting(_) => CopyReal(mode, pc.o, log)
    case SettleReserve(from) => mode == Managed && from != Filled
    case SettleReload => mode == Managed
    case Recover(_) | SettleReady(_) | SettleOffer(_) => mode == Managed && CopyReal(mode, pc.o, log)
    case FilledRepair(_) | TryComplete(_, _) => false
    case CounterLoaded(o) => mode == Loop && CopyReal(mode, o, log) && Waits(o)
    case Verify(o, purpose) =>
      CopyReal(mode, o, log) && o.counterOffer.Some? && (LoopPurpose(purpose) ==> mode == Loop)
    case VerifyScan(o, purpose) =>
      CopyReal(mode, o, log) && EarlyVerdict(mode, o).None? && Gone(log, o.counterOffer.value)
      && (LoopPurpose(purpose) ==> mode == Loop)
    case Proof(o, purpose) => mode == Loop && CopyReal(mode, o, log) && LoopPurpose(purpose) && Waits(o)
    case Cooling(_) | Reload(_) | ReissueReady(_) | ReissueReserved(_) | ReissueSubmit(_) =>
      mode == Loop && CopyReal(mode, pc.o, log) && Waits(pc.o)
  }

  ghost predicate Real(mode: WalletMode, s: State) {
    && LogReal(mode, s.log)
    && CopyReal(mode, s.row, s.log)
    && forall w | w in s.pcs :: PcReal(mode, s.pcs[w], s.log)
  }

  // ----- The ledger -----

  /** The updates the machine may append. */
  ghost predicate NextOk(mode: WalletMode, log: Log, u: Update) {
    && (u.Fill? ==> !Committed(log, 0) && UserOfferPending(log, u.offer) && (mode == Managed ==> u.outcome.Direct?))
    && (u.Reissue? ==> u.attempt > 0 && !Committed(log, u.attempt) && FillOffered(log) && mode == Loop)
    && (u.CounterAccepted? || u.CounterClosed? ==> CounterPending(log, u.offer))
    && (u.UserOfferClosed? ==> UserOfferPending(log, u.offer))
  }

  ghost predicate Grows(mode: WalletMode, log: Log, log': Log) {
    log' == log || (|log'| == |log| + 1 && log' == log + [log'[|log|]] && NextOk(mode, log, log'[|log|]))
  }

  lemma FillOfferedStays(log: Log, u: Update)
    requires FillOffered(log)
    ensures FillOffered(log + [u]) && Committed(log + [u], 0)
  {
    var f :| 0 <= f < |log| && CommandAt(log, f, 0) && IsOffer(log, f);
    assert CommandAt(log + [u], f, 0) && IsOffer(log + [u], f);
  }

  lemma AppendReal(mode: WalletMode, log: Log, u: Update)
    requires LogReal(mode, log) && NextOk(mode, log, u)
    ensures LogReal(mode, log + [u])
  {
    CommandsBefore(log, u);
    AppendKeepsAccepts(log, u);
    AppendKeepsSellLegs(log, u);
    if FillOffered(log) { FillOfferedStays(log, u); }
    hide AcceptsOk, SellLegsOk, CounterPending, UserOfferPending, FillOffered;
    var log' := log + [u];
    assert u.Fill? ==> CommandAt(log', |log|, 0);
    forall i | 0 <= i < |log'| && IsCommand(log'[i])
      ensures Committed(log', 0) && (mode == Managed ==> log'[i].Fill? && log'[i].outcome.Direct?)
      ensures log'[i].Reissue? ==> FillOffered(log')
    {
      if i < |log| { assert IsCommand(log[i]); }
    }
    forall i: nat, j: nat, k: nat | CommandAt(log', i, k) && CommandAt(log', j, k) ensures i == j {
      if i < |log| { assert CommandAt(log, i, k) && Committed(log, k); }
      if j < |log| { assert CommandAt(log, j, k) && Committed(log, k); }
    }
  }

  lemma GrowsReal(mode: WalletMode, log: Log, log': Log)
    requires LogReal(mode, log) && Grows(mode, log, log')
    ensures LogReal(mode, log') && log <= log'
  {
    hide LogReal, NextOk;
    if log' != log { AppendReal(mode, log, log'[|log|]); }
  }

  /** Whoever was paid, some command paid it, and the fill came first. */
  lemma DeliveryHasFill(mode: WalletMode, log: Log, u: nat) returns (f: nat)
    requires LogReal(mode, log) && Delivers(log, u)
    ensures CommandAt(log, f, 0)
    ensures mode == Managed ==> u == f
  {
    var c := if log[u].CounterAccepted? then log[u].offer else u;
    assert log[u] in log;
    assert IsCommand(log[c]);
    f :| 0 <= f < |log| && CommandAt(log, f, 0);
    if mode == Managed { assert c == u && CommandAt(log, u, 0); }
  }

  lemma OfferHasFill(mode: WalletMode, log: Log, c: nat)
    requires LogReal(mode, log) && IsOffer(log, c)
    ensures FillOffered(log)
  {
    assert log[c].Fill? ==> CommandAt(log, c, 0);
  }

  /** The settlement of a copy that names a counter offer did not deliver directly. */
  lemma SettlementOffered(mode: WalletMode, o: Row, log: Log)
    requires LogReal(mode, log) && CopyReal(mode, o, log) && o.counterOffer.Some? && o.settlement.Some?
    ensures !IsDirect(log, o.settlement.value) && IsOffer(log, o.settlement.value)
  {
    OfferHasFill(mode, log, o.counterOffer.value);
    var f :| 0 <= f < |log| && CommandAt(log, f, 0) && IsOffer(log, f);
    assert f == o.settlement.value;
  }

  // ----- Facts that name the ledger stay -----

  lemma CopyRealStays(mode: WalletMode, o: Row, log: Log, log': Log)
    requires CopyReal(mode, o, log) && log <= log'
    ensures CopyReal(mode, o, log')
  {
  }

  lemma PcRealStays(mode: WalletMode, pc: Pc, log: Log, log': Log)
    requires PcReal(mode, pc, log) && log <= log'
    ensures PcReal(mode, pc, log')
  {
    match pc
    case Idle | FillInFlight | Confirming(_) | FillReserved(_) | SettleReserve(_) | SettleReload =>
    case FilledRepair(_) | TryComplete(_, _) =>
    case _ =>
      CopyRealStays(mode, pc.o, log, log');
      hide CopyReal, EarlyVerdict;
  }

  // ----- Every step -----

  /** What one worker's step has to establish. */
  ghost predicate GoReal(mode: WalletMode, s: State, s': State, w: nat) {
    && w in s'.pcs && s'.pcs == s.pcs[w := s'.pcs[w]] && Grows(mode, s.log, s'.log)
    && CopyReal(mode, s'.row, s'.log) && PcReal(mode, s'.pcs[w], s'.log)
  }

  lemma SettleReal(mode: WalletMode, s: State, s': State, w: nat)
    requires Real(mode, s) && GoReal(mode, s, s', w)
    ensures Real(mode, s')
  {
    hide LogReal, CopyReal, PcReal;
    GrowsReal(mode, s.log, s'.log);
    hide Grows;
    forall v | v in s'.pcs ensures PcReal(mode, s'.pcs[v], s'.log) {
      if v != w { PcRealStays(mode, s.pcs[v], s.log, s'.log); }
    }
  }

  lemma ApplyFillReal(mode: WalletMode, o: Row, log: Log, u: nat)
    requires CopyReal(mode, o, log) && CommandAt(log, u, 0) && FillFirst(mode, log)
    ensures CopyReal(mode, ApplyFill(mode, o, log, u), log)
    ensures mode == Managed ==> ApplyFill(mode, o, log, u).status == Filled
  {
    assert IsCommand(log[u]);
  }

  lemma ApplyReissueReal(mode: WalletMode, o: Row, log: Log, u: nat, k: nat)
    requires CopyReal(mode, o, log) && CommandAt(log, u, k) && k > 0 && o.settlement.Some? && o.status != Filled
    ensures CopyReal(mode, ApplyReissue(o, log, u), log)
  {
  }

  lemma VerdictReal(mode: WalletMode, o: Row, purpose: Purpose, v: Verdict, log: Log)
    requires CopyReal(mode, o, log) && o.counterOffer.Some? && (LoopPurpose(purpose) ==> mode == Loop)
    requires v.Received? ==> Delivers(log, v.update) && o.settlement.Some?
    requires v == NotReceived ==> o.status != Filled
    ensures PcReal(mode, OnVerdict(mode, o, purpose, v), log)
  {
  }

  lemma StartReal(mode: WalletMode, row: Row, log: Log, call: Call)
    requires CopyReal(mode, row, log)
    ensures PcReal(mode, StartPc(mode, row, log, call), log)
  {
    hide Delivers, IsOffer;
  }

  /** A finished scan that saw no acceptance: the offer is dead. */
  lemma ScanMissedMeansDead(mode: WalletMode, o: Row, purpose: Purpose, log: Log)
    requires LogReal(mode, log) && PcReal(mode, VerifyScan(o, purpose), log)
    ensures o.createdOffset.value <= |log|
    ensures CounterAccepted(o.counterOffer.value) !in log[o.createdOffset.value..] ==> Dead(log, o.counterOffer.value)
  {
    ScanComplete(log, o.counterOffer.value);
    hide NumbersUnique, AcceptsOk, SellLegsOk, FillFirst;
  }

  // the fill

  lemma FillSubmitReal(mode: WalletMode, s: State, w: nat, o: Row, ch: Choice)
    requires LogReal(mode, s.log) && CopyReal(mode, s.row, s.log) && CopyReal(mode, o, s.log)
    requires AtFillSubmit(mode, s, w, o, ch).Some?
    ensures GoReal(mode, s, AtFillSubmit(mode, s, w, o, ch).value, w)
  {
    hide NumbersUnique, AcceptsOk, SellLegsOk;
    var s' := AtFillSubmit(mode, s, w, o, ch).value;
    if ch.Commit? {
      var u := Fill(o.userLeg.value, ch.outcome);
      assert Grows(mode, s.log, s'.log) by { hide UserOfferPending, Committed; }
      CopyRealStays(mode, s.row, s.log, s'.log);
      CopyRealStays(mode, o, s.log, s'.log);
      GrowsReal(mode, s.log, s'.log);
      ApplyFillReal(mode, o, s'.log, |s.log|);
    } else if ch.Duplicate? && CommandAt(s.log, ch.u, 0) {
      ApplyFillReal(mode, o, s.log, ch.u);
    }
    hide CopyReal, Grows, LogReal, ApplyFill, CanFill;
  }

  lemma FillOwnedReal(mode: WalletMode, s: State, w: nat, o: Row, ch: Choice)
    requires LogReal(mode, s.log) && CopyReal(mode, s.row, s.log) && PcReal(mode, FillOwned(o), s.log)
    requires AtFillOwned(s, w, o, ch).Some?
    ensures GoReal(mode, s, AtFillOwned(s, w, o, ch).value, w)
  {
    if ch.Found? && CommandAt(s.log, ch.u, 0) { ApplyFillReal(mode, o, s.log, ch.u); }
    hide LogReal, CopyReal, ApplyFill;
  }

  lemma RecoverReal(mode: WalletMode, s: State, w: nat, o: Row, ch: Choice)
    requires LogReal(mode, s.log) && CopyReal(mode, s.row, s.log) && PcReal(mode, Recover(o), s.log)
    requires AtRecover(s, w, o, ch).Some?
    ensures GoReal(mode, s, AtRecover(s, w, o, ch).value, w)
  {
    hide NumbersUnique, AcceptsOk, SellLegsOk;
    if ch.Found? {
      ApplyFillReal(mode, o, s.log, ch.u);
      hide LogReal, CopyReal, ApplyFill;
    } else {
      hide LogReal, Delivers, IsOffer, CommandAt, ApplyFill;
    }
  }

  lemma RejectGrows(mode: WalletMode, s: State, o: Row)
    ensures Grows(mode, s.log, RejectUserLeg(s, o).log) && s.log <= RejectUserLeg(s, o).log
  {
    hide UserOfferPending;
  }

  lemma RejectingReal(mode: WalletMode, s: State, w: nat, o: Row, ch: Choice)
    requires CopyReal(mode, s.row, s.log) && PcReal(mode, Rejecting(o), s.log)
    ensures GoReal(mode, s, AtRejecting(mode, s, w, o, ch), w)
  {
    RejectGrows(mode, s, o);
    CopyRealStays(mode, s.row, s.log, RejectUserLeg(s, o).log);
    CopyRealStays(mode, o, s.log, RejectUserLeg(s, o).log);
    hide NextOk, UserOfferPending, Delivers, IsOffer, CommandAt;
  }

  /** Claiming the order. */
  lemma ClaimReal(mode: WalletMode, s: State, w: nat, ch: Choice)
    requires CopyReal(mode, s.row, s.log) && PcReal(mode, PcOf(s, w), s.log) && StepGo(mode, s, w, ch).Some?
    requires var pc := PcOf(s, w); pc.FillChecked? || pc.FillReserved? || pc.FillReady? || pc.FillInFlight?
    ensures GoReal(mode, s, StepGo(mode, s, w, ch).value, w)
  {
    hide NextOk, Delivers, IsOffer, CommandAt;
    match PcOf(s, w) {
      case FillChecked(_) =>
      case FillReserved(_) =>
      case FillReady(_) =>
      case FillInFlight =>
    }
  }

  lemma FillReal(mode: WalletMode, s: State, w: nat, ch: Choice)
    requires LogReal(mode, s.log) && CopyReal(mode, s.row, s.log) && PcReal(mode, PcOf(s, w), s.log)
    requires FillPoint(PcOf(s, w)) && StepGo(mode, s, w, ch).Some?
    ensures GoReal(mode, s, StepGo(mode, s, w, ch).value, w)
  {
    hide LogReal, CopyReal, GoReal, AtFillSubmit, AtFillOwned, AtRecover, AtRejecting;
    match PcOf(s, w) {
      case FillSubmit(o) => FillSubmitReal(mode, s, w, o, ch);
      case FillOwned(o) => FillOwnedReal(mode, s, w, o, ch);
      case Recover(o) => RecoverReal(mode, s, w, o, ch);
      case Rejecting(o) => RejectingReal(mode, s, w, o, ch);
      case _ => ClaimReal(mode, s, w, ch);
    }
  }

  // the receipt and the reissue

  lemma PendingOrGone(log: Log, c: nat)
    requires IsOffer(log, c)
    ensures CounterPending(log, c) || Gone(log, c)
  {
  }

  lemma VerifyReal(mode: WalletMode, s: State, w: nat, o: Row, purpose: Purpose)
    requires CopyReal(mode, s.row, s.log) && PcReal(mode, Verify(o, purpose), s.log)
    ensures GoReal(mode, s, AtVerify(mode, s, w, o, purpose), w)
  {
    hide OnVerdict, CounterPending, Delivers, IsOffer, CommandAt;
    match EarlyVerdict(mode, o) {
      case Some(v) => VerdictReal(mode, o, purpose, v, s.log);
      case None =>
        VerdictReal(mode, o, purpose, StillPending, s.log);
        PendingOrGone(s.log, o.counterOffer.value);
    }
  }

  lemma VerifyScanReal(mode: WalletMode, s: State, w: nat, o: Row, purpose: Purpose, ch: Choice)
    requires CopyReal(mode, s.row, s.log) && PcReal(mode, VerifyScan(o, purpose), s.log)
    requires AtVerifyScan(mode, s, w, o, purpose, ch).Some?
    ensures GoReal(mode, s, AtVerifyScan(mode, s, w, o, purpose, ch).value, w)
  {
    hide OnVerdict, IsOffer, CommandAt;
    if ch.Found? { VerdictReal(mode, o, purpose, Received(ch.u), s.log); }
    VerdictReal(mode, o, purpose, NotReceived, s.log);
    hide CopyReal, Delivers;
  }

  lemma ReissueReal(s: State, w: nat, o: Row, ch: Choice)
    requires LogReal(Loop, s.log) && CopyReal(Loop, s.row, s.log) && CopyReal(Loop, o, s.log) && Waits(o)
    requires AtReissueSubmit(s, w, o, ch).Some?
    ensures GoReal(Loop, s, AtReissueSubmit(s, w, o, ch).value, w)
  {
    var s' := AtReissueSubmit(s, w, o, ch).value;
    OfferHasFill(Loop, s.log, o.counterOffer.value);
    hide LogReal, FillOffered;
    if o.settlement.Some? {
      if ch.Commit? {
        assert Grows(Loop, s.log, s'.log);
        CopyRealStays(Loop, s.row, s.log, s'.log);
        CopyRealStays(Loop, o, s.log, s'.log);
        ApplyReissueReal(Loop, o, s'.log, |s.log|, o.attempt + 1);
      } else if ch.Duplicate? && CommandAt(s.log, ch.u, o.attempt + 1) {
        ApplyReissueReal(Loop, o, s.log, ch.u, o.attempt + 1);
      }
    }
    hide CopyReal, Grows, ApplyReissue, Committed;
  }

  lemma ProofReal(s: State, w: nat, o: Row, purpose: Purpose, ch: Choice)
    requires LogReal(Loop, s.log) && CopyReal(Loop, s.row, s.log) && PcReal(Loop, Proof(o, purpose), s.log)
    ensures GoReal(Loop, s, AtProof(s, w, o, purpose, ch), w)
  {
    if o.settlement.Some? { SettlementOffered(Loop, o, s.log); }
    hide LogReal, CopyReal, IsDirect, IsOffer, NextOk;
  }

  lemma CompletionReal(mode: WalletMode, s: State, w: nat, ch: Choice)
    requires CopyReal(mode, s.row, s.log) && PcReal(mode, PcOf(s, w), s.log) && StepGo(mode, s, w, ch).Some?
    requires PcOf(s, w).CounterLoaded? || PcOf(s, w).WriteOffer?
    ensures GoReal(mode, s, StepGo(mode, s, w, ch).value, w)
  {
    hide NextOk, IsOffer, CounterPending, Delivers, CommandAt;
  }

  lemma CoolingReal(mode: WalletMode, s: State, w: nat, ch: Choice)
    requires CopyReal(mode, s.row, s.log) && PcReal(mode, PcOf(s, w), s.log) && StepGo(mode, s, w, ch).Some?
    requires PcOf(s, w).Cooling? || PcOf(s, w).Reload?
    ensures GoReal(mode, s, StepGo(mode, s, w, ch).value, w)
  {
    hide NextOk, Delivers, IsOffer, CommandAt;
  }

  lemma ReissueReadyReal(mode: WalletMode, s: State, w: nat, ch: Choice)
    requires CopyReal(mode, s.row, s.log) && PcReal(mode, PcOf(s, w), s.log) && StepGo(mode, s, w, ch).Some?
    requires PcOf(s, w).ReissueReady? || PcOf(s, w).ReissueReserved?
    ensures GoReal(mode, s, StepGo(mode, s, w, ch).value, w)
  {
    hide NextOk, Delivers, IsOffer, CommandAt;
  }

  lemma CounterReal(mode: WalletMode, s: State, w: nat, ch: Choice)
    requires LogReal(mode, s.log) && CopyReal(mode, s.row, s.log) && PcReal(mode, PcOf(s, w), s.log)
    requires CounterPoint(PcOf(s, w)) && StepGo(mode, s, w, ch).Some?
    ensures GoReal(mode, s, StepGo(mode, s, w, ch).value, w)
  {
    hide LogReal, CopyReal, GoReal, AtVerify, AtVerifyScan, AtProof, AtReissueSubmit;
    match PcOf(s, w) {
      case ReissueSubmit(o) => ReissueReal(s, w, o, ch);
      case Verify(o, purpose) => VerifyReal(mode, s, w, o, purpose);
      case VerifyScan(o, purpose) => VerifyScanReal(mode, s, w, o, purpose, ch);
      case Cooling(_) | Reload(_) => CoolingReal(mode, s, w, ch);
      case ReissueReady(_) | ReissueReserved(_) => ReissueReadyReal(mode, s, w, ch);
      case Proof(o, purpose) => ProofReal(s, w, o, purpose, ch);
      case _ => CompletionReal(mode, s, w, ch);
    }
  }

  // everything else

  lemma RepairReal(mode: WalletMode, s: State, w: nat, o: Row, ch: Choice)
    requires LogReal(mode, s.log) && CopyReal(mode, s.row, s.log) && PcReal(mode, Repair(o), s.log)
    requires AtRepair(mode, s, w, o, ch).Some?
    ensures GoReal(mode, s, AtRepair(mode, s, w, o, ch).value, w)
  {
    if ch.Found? && CommandAt(s.log, ch.u, 0) { ApplyFillReal(mode, o, s.log, ch.u); }
    hide LogReal, Delivers, IsOffer, CommandAt, ApplyFill;
  }

  lemma ExpiredCopyReal(mode: WalletMode, o: Row, log: Log)
    requires CopyReal(mode, o, log) && o.status != Filled
    ensures PcReal(mode, Write(o.(status := Expired, floatReserved := false), o.status), log)
  {
    hide Delivers, IsOffer, CommandAt;
  }

  lemma ExpiringReal(mode: WalletMode, s: State, w: nat, o: Row, ch: Choice)
    requires CopyReal(mode, s.row, s.log) && PcReal(mode, Expiring(o), s.log)
    ensures GoReal(mode, s, AtExpiring(s, w, o, ch), w)
  {
    RejectGrows(mode, s, o);
    hide NextOk, CopyReal, UserOfferPending;
    var log' := AtExpiring(s, w, o, ch).log;
    CopyRealStays(mode, s.row, s.log, log');
    CopyRealStays(mode, o, s.log, log');
    ExpiredCopyReal(mode, o, log');
    hide Grows, RejectUserLeg;
  }

  lemma SettleReadyReal(mode: WalletMode, s: State, w: nat, o: Row, ch: Choice)
    requires CopyReal(mode, s.row, s.log) && PcReal(mode, SettleReady(o), s.log) && AtSettleReady(s, w, o, ch).Some?
    ensures GoReal(mode, s, AtSettleReady(s, w, o, ch).value, w)
  {
    var s' := AtSettleReady(s, w, o, ch).value;
    assert Grows(mode, s.log, s'.log);
    CopyRealStays(mode, s.row, s.log, s'.log);
    CopyRealStays(mode, o, s.log, s'.log);
    hide Grows, NextOk, Delivers, IsOffer, CommandAt;
  }

  lemma OtherReal(mode: WalletMode, s: State, w: nat, ch: Choice)
    requires LogReal(mode, s.log) && CopyReal(mode, s.row, s.log) && PcReal(mode, PcOf(s, w), s.log)
    requires !FillPoint(PcOf(s, w)) && !CounterPoint(PcOf(s, w)) && StepGo(mode, s, w, ch).Some?
    ensures GoReal(mode, s, StepGo(mode, s, w, ch).value, w)
  {
    hide LogReal, CopyReal, GoReal, AtRepair, AtExpiring, AtSettleReady, AtConfirming;
    match PcOf(s, w) {
      case Repair(o) => RepairReal(mode, s, w, o, ch);
      case Expiring(o) => ExpiringReal(mode, s, w, o, ch);
      case SettleReady(o) => SettleReadyReal(mode, s, w, o, ch);
      case Confirming(f) => ConfirmingReal(mode, s, w, f, ch);
      case _ => PlainReal(mode, s, w, ch);
    }
  }

  lemma ConfirmingReal(mode: WalletMode, s: State, w: nat, f: nat, ch: Choice)
    requires CopyReal(mode, s.row, s.log)
    ensures GoReal(mode, s, AtConfirming(s, w, f, ch), w)
  {
    CopyRealStays(mode, s.row, s.log, AtConfirming(s, w, f, ch).log);
    hide UserOfferPending, Delivers, IsOffer, CommandAt;
  }

  lemma PlainReal(mode: WalletMode, s: State, w: nat, ch: Choice)
    requires CopyReal(mode, s.row, s.log) && PcReal(mode, PcOf(s, w), s.log) && StepGo(mode, s, w, ch).Some?
    requires var pc := PcOf(s, w); pc.Write? || pc.SettleReserve? || pc.SettleReload? || pc.SettleOffer?
    ensures GoReal(mode, s, StepGo(mode, s, w, ch).value, w)
  {
    hide NextOk, Delivers, IsOffer, CommandAt;
    match PcOf(s, w) {
      case Write(_, _) =>
      case SettleReserve(_) =>
      case SettleReload =>
      case SettleOffer(_) =>
    }
  }

  lemma PcOfReal(mode: WalletMode, s: State, w: nat)
    requires Real(mode, s)
    ensures PcReal(mode, PcOf(s, w), s.log) && CopyReal(mode, s.row, s.log) && LogReal(mode, s.log)
  {
    hide LogReal, CopyReal;
  }

  lemma StepKeepsReal(mode: WalletMode, s: State, l: Label)
    requires Real(mode, s) && Step(mode, s, l).Some?
    ensures Real(mode, Step(mode, s, l).value)
  {
    hide LogReal, CopyReal, StepGo, StartPc, FillPoint, CounterPoint;
    var s' := Step(mode, s, l).value;
    match l {
      case Start(w, call) =>
        StartReal(mode, s.row, s.log, call);
        SettleReal(mode, s, s', w);
      case Go(w, ch) =>
        hide PcReal, GoReal;
        PcOfReal(mode, s, w);
        if FillPoint(PcOf(s, w)) { FillReal(mode, s, w, ch); }
        else if CounterPoint(PcOf(s, w)) { CounterReal(mode, s, w, ch); }
        else { OtherReal(mode, s, w, ch); }
        SettleReal(mode, s, s', w);
      case Crash(w) => SettleReal(mode, s, s', w);
      case _ => EnvironmentReal(mode, s, s');
    }
  }

  lemma EnvironmentReal(mode: WalletMode, s: State, s': State)
    requires Real(mode, s) && s'.row == s.row && s'.pcs == s.pcs && Grows(mode, s.log, s'.log)
    ensures Real(mode, s')
  {
    hide LogReal, CopyReal, PcReal;
    GrowsReal(mode, s.log, s'.log);
    hide Grows;
    CopyRealStays(mode, s.row, s.log, s'.log);
    forall v | v in s'.pcs ensures PcReal(mode, s'.pcs[v], s'.log) { PcRealStays(mode, s.pcs[v], s.log, s'.log); }
  }

  lemma {:induction false} RunKeepsReal(mode: WalletMode, s: State, labels: seq<Label>)
    requires Real(mode, s) && Run(mode, s, labels).Some?
    ensures Real(mode, Run(mode, s, labels).value)
    decreases labels
  {
    hide Real, Step;
    if labels != [] {
      StepKeepsReal(mode, s, labels[0]);
      RunKeepsReal(mode, Step(mode, s, labels[0]).value, labels[1..]);
    }
  }
}
