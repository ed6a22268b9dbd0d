/** The cooldown in seconds of the clock. The ledger carries no times in the model, so `LogTimes`
    says for each of its updates when it was appended. In every run a reissue is appended at least
    90 seconds after the offer it replaces was closed. */
module CantonSwapCooldown {
  import opened Wrappers
  import opened CantonSwapLedger
  import opened CantonSwapMachine
  import opened CantonSwapSafety
  import opened CantonSwapEvery
  import opened CantonSwapFrozen
  import opened CantonSwapTheorems

  type Times = seq<nat>

  function NextTimes(s: State, s': State, times: Times): Times {
    if |s'.log| > |s.log| then times + [s.now] else times
  }

  /** When each update of the ledger was appended. */
  function LogTimes(mode: WalletMode, s: State, times: Times, labels: seq<Label>): Times
    decreases labels
  {
    if labels == [] then times
    else
      match Step(mode, s, labels[0])
      case None => times
      case Some(s') => LogTimes(mode, s', NextTimes(s, s', times), labels[1..])
  }

  /** Offer `c` was closed at time `t` or before. */
  ghost predicate ClosedBy(log: Log, times: Times, c: nat, t: int) {
    exists m :: 0 <= m < |log| && m < |times| && log[m] == CounterClosed(c) && times[m] <= t
  }

  /** A stamp is not set before the offer of its copy is closed. */
  ghost predicate CopyTimed(mode: WalletMode, o: Row, log: Log, times: Times, now: nat) {
    o.clearedAt.Some? ==>
      && mode == Loop && o.counterOffer.Some? && o.clearedAt.value <= now
      && ClosedBy(log, times, o.counterOffer.value, o.clearedAt.value)
  }

  /** The offer of this copy has been closed for 90 seconds. */
  ghost predicate Cooled(o: Row, log: Log, times: Times, now: nat) {
    o.counterOffer.Some? && ClosedBy(log, times, o.counterOffer.value, now - 90)
  }

  predicate Closed(o: Row, log: Log) {
    o.counterOffer.Some? && CounterClosed(o.counterOffer.value) in log
  }

  predicate HoldsCopy(pc: Pc) {
    !pc.Idle? && !pc.Confirming? && !pc.FillReserved? && !pc.SettleReserve? && !pc.SettleReload? && !pc.FillInFlight?
  }

  ghost predicate PcTimed(mode: WalletMode, pc: Pc, log: Log, times: Times, now: nat) {
    && (HoldsCopy(pc) ==> CopyTimed(mode, pc.o, log, times, now))
    && match pc
       case CounterLoaded(o) => IsLoopFillPendingCounterAccept(mode, o)
       case Verify(o, purpose) =>
         (purpose == FirstCheck ==> IsLoopFillPendingCounterAccept(mode, o))
         && (purpose == Recheck ==> Cooled(o, log, times, now))
       case VerifyScan(o, purpose) => purpose == Recheck ==> Cooled(o, log, times, now)
       case Proof(o, purpose) =>
         (purpose == FirstCheck ==> Closed(o, log)) && (purpose == Recheck ==> Cooled(o, log, times, now))
       case Cooling(o) => Closed(o, log)
       case Reload(_) | ReissueReady(_) | ReissueReserved(_) | ReissueSubmit(_) => Cooled(pc.o, log, times, now)
       case _ => true
  }

  /** Update `j` came at least 90 seconds after some counter offer was closed. */
  ghost predicate WaitedAt(log: Log, times: Times, j: nat) {
    exists m :: 0 <= m < j && m < |log| && j < |times| && log[m].CounterClosed? && times[m] + 90 <= times[j]
  }

  ghost predicate ReissuesWaited(log: Log, times: Times) {
    forall j | 0 <= j < |log| && log[j].Reissue? :: WaitedAt(log, times, j)
  }

  ghost predicate Timed(mode: WalletMode, s: State, times: Times) {
    && |times| == |s.log| && (forall i | 0 <= i < |times| :: times[i] <= s.now)
    && CopyTimed(mode, s.row, s.log, times, s.now)
    && (forall w | w in s.pcs :: PcTimed(mode, s.pcs[w], s.log, times, s.now))
    && ReissuesWaited(s.log, times)
  }

  // ----- Facts stay as ledger and clock go on -----

  lemma ClosedByStays(log: Log, times: Times, log': Log, times': Times, c: nat, t: int, t': int)
    requires ClosedBy(log, times, c, t) && log <= log' && times <= times' && t <= t'
    ensures ClosedBy(log', times', c, t')
  {
    var m :| 0 <= m < |log| && m < |times| && log[m] == CounterClosed(c) && times[m] <= t;
    assert log'[m] == log[m] && times'[m] == times[m];
  }

  lemma CopyTimedStays(mode: WalletMode, o: Row, log: Log, times: Times, now: nat, log': Log, times': Times, now': nat)
    requires CopyTimed(mode, o, log, times, now) && log <= log' && times <= times' && now <= now'
    ensures CopyTimed(mode, o, log', times', now')
  {
    hide ClosedBy;
    if o.clearedAt.Some? {
      ClosedByStays(log, times, log', times', o.counterOffer.value, o.clearedAt.value, o.clearedAt.value);
    }
  }

  lemma CooledStays(o: Row, log: Log, times: Times, now: nat, log': Log, times': Times, now': nat)
    requires Cooled(o, log, times, now) && log <= log' && times <= times' && now <= now'
    ensures Cooled(o, log', times', now')
  {
    ClosedByStays(log, times, log', times', o.counterOffer.value, now - 90, now' - 90);
  }

  lemma PcTimedStays(mode: WalletMode, pc: Pc, log: Log, times: Times, now: nat, log': Log, times': Times, now': nat)
    requires PcTimed(mode, pc, log, times, now) && log <= log' && times <= times' && now <= now'
    ensures PcTimed(mode, pc, log', times', now')
  {
    if HoldsCopy(pc) {
      CopyTimedStays(mode, pc.o, log, times, now, log', times', now');
      if Cooled(pc.o, log, times, now) { CooledStays(pc.o, log, times, now, log', times', now'); }
    }
    hide CopyTimed, Cooled;
  }

  /** A closing that is on the ledger happened by now. */
  lemma ClosedByNow(o: Row, log: Log, times: Times, now: nat)
    requires Closed(o, log) && |times| == |log| && forall i | 0 <= i < |times| :: times[i] <= now
    ensures ClosedBy(log, times, o.counterOffer.value, now)
  {
    var m :| 0 <= m < |log| && log[m] == CounterClosed(o.counterOffer.value);
    assert times[m] <= now;
  }

  // ----- Every step -----

  /** What the stepping worker has to establish, on the ledger after the step. */
  ghost predicate GoTimed(mode: WalletMode, s: State, s': State, w: nat, times': Times) {
    && CopyTimed(mode, s'.row, s'.log, times', s.now) && PcTimed(mode, PcOf(s', w), s'.log, times', s.now)
  }

  /** The step appends no reissue. */
  predicate NoReissue(s: State, s': State) {
    s'.log == s.log || (|s'.log| == |s.log| + 1 && s.log <= s'.log && !s'.log[|s.log|].Reissue?)
  }

  /** What a worker holds, on the ledger its step leaves behind. */
  ghost predicate Before(mode: WalletMode, s: State, w: nat, log': Log, times': Times) {
    CopyTimed(mode, s.row, log', times', s.now) && PcTimed(mode, PcOf(s, w), log', times', s.now)
  }

  lemma FillSubmitTimed(mode: WalletMode, s: State, w: nat, o: Row, ch: Choice, times: Times)
    requires PcOf(s, w) == FillSubmit(o) && AtFillSubmit(mode, s, w, o, ch).Some?
    requires Before(mode, s, w, AtFillSubmit(mode, s, w, o, ch).value.log, times)
    ensures GoTimed(mode, s, AtFillSubmit(mode, s, w, o, ch).value, w, times)
    ensures NoReissue(s, AtFillSubmit(mode, s, w, o, ch).value)
  {
    hide ClosedBy, Cooled, CommandAt, CanFill, Committed;
  }

  lemma FillOwnedTimed(mode: WalletMode, s: State, w: nat, o: Row, ch: Choice, times: Times)
    requires PcOf(s, w) == FillOwned(o) && AtFillOwned(s, w, o, ch).Some?
    requires Before(mode, s, w, AtFillOwned(s, w, o, ch).value.log, times)
    ensures GoTimed(mode, s, AtFillOwned(s, w, o, ch).value, w, times)
    ensures AtFillOwned(s, w, o, ch).value.log == s.log
  {
    hide ClosedBy, Cooled, CommandAt;
  }

  lemma RecoverTimed(s: State, w: nat, o: Row, ch: Choice, times: Times)
    requires PcOf(s, w) == Recover(o) && AtRecover(s, w, o, ch).Some?
    requires Before(Managed, s, w, AtRecover(s, w, o, ch).value.log, times)
    ensures GoTimed(Managed, s, AtRecover(s, w, o, ch).value, w, times)
    ensures AtRecover(s, w, o, ch).value.log == s.log
  {
    hide ClosedBy, Cooled, CommandAt;
  }

  lemma RejectNoReissue(s: State, o: Row)
    ensures NoReissue(s, RejectUserLeg(s, o))
  {
    hide UserOfferPending;
  }

  lemma RejectingTimed(mode: WalletMode, s: State, w: nat, o: Row, ch: Choice, times: Times)
    requires PcOf(s, w) == Rejecting(o) && Before(mode, s, w, AtRejecting(mode, s, w, o, ch).log, times)
    ensures GoTimed(mode, s, AtRejecting(mode, s, w, o, ch), w, times)
    ensures NoReissue(s, AtRejecting(mode, s, w, o, ch))
  {
    RejectNoReissue(s, o);
    hide ClosedBy, Cooled, UserOfferPending;
  }

  lemma ClaimTimed(mode: WalletMode, s: State, w: nat, ch: Choice, times: Times)
    requires StepGo(mode, s, w, ch).Some? && Before(mode, s, w, s.log, times)
    requires var pc := PcOf(s, w); pc.FillChecked? || pc.FillReserved? || pc.FillReady? || pc.FillInFlight?
    ensures GoTimed(mode, s, StepGo(mode, s, w, ch).value, w, times) && StepGo(mode, s, w, ch).value.log == s.log
  {
    hide ClosedBy, Cooled;
  }

  lemma FillTimed(mode: WalletMode, s: State, w: nat, ch: Choice, times: Times)
    requires StepGo(mode, s, w, ch).Some? && FillPoint(PcOf(s, w)) && (PcOf(s, w).Recover? ==> mode == Managed)
    requires Before(mode, s, w, StepGo(mode, s, w, ch).value.log, times)
    ensures GoTimed(mode, s, StepGo(mode, s, w, ch).value, w, times) && NoReissue(s, StepGo(mode, s, w, ch).value)
  {
    hide GoTimed, Before, AtFillSubmit, AtFillOwned, AtRecover, AtRejecting, UserOfferPending;
    match PcOf(s, w)
    case FillSubmit(o) => FillSubmitTimed(mode, s, w, o, ch, times);
    case FillOwned(o) => FillOwnedTimed(mode, s, w, o, ch, times);
    case Recover(o) => RecoverTimed(s, w, o, ch, times);
    case Rejecting(o) => RejectingTimed(mode, s, w, o, ch, times);
    case _ => ClaimTimed(mode, s, w, ch, times);
  }

  // the receipt and the reissue

  lemma VerdictTimed(mode: WalletMode, o: Row, purpose: Purpose, v: Verdict, log: Log, times: Times, now: nat)
    requires CopyTimed(mode, o, log, times, now)
    requires v == NotReceived && purpose == FirstCheck ==> Closed(o, log)
    requires purpose == Recheck ==> Cooled(o, log, times, now)
    ensures PcTimed(mode, OnVerdict(mode, o, purpose, v), log, times, now)
  {
    hide ClosedBy, Cooled;
  }

  lemma VerifyTimed(mode: WalletMode, s: State, w: nat, o: Row, purpose: Purpose, times: Times)
    requires PcOf(s, w) == Verify(o, purpose) && Before(mode, s, w, s.log, times)
    ensures GoTimed(mode, s, AtVerify(mode, s, w, o, purpose), w, times)
  {
    hide ClosedBy, Cooled, OnVerdict, CopyTimed, CounterPending;
    match EarlyVerdict(mode, o) {
      case Some(v) => VerdictTimed(mode, o, purpose, v, s.log, times, s.now);
      case None => VerdictTimed(mode, o, purpose, StillPending, s.log, times, s.now);
    }
  }

  lemma VerifyScanTimed(mode: WalletMode, s: State, w: nat, o: Row, purpose: Purpose, ch: Choice, times: Times)
    requires PcOf(s, w) == VerifyScan(o, purpose) && Before(mode, s, w, s.log, times)
    requires AtVerifyScan(mode, s, w, o, purpose, ch).Some?
    requires LogReal(mode, s.log) && PcReal(mode, VerifyScan(o, purpose), s.log)
    ensures GoTimed(mode, s, AtVerifyScan(mode, s, w, o, purpose, ch).value, w, times)
  {
    ScanMissedMeansDead(mode, o, purpose, s.log);
    WaitsAfterScan(mode, o);
    hide LogReal, CopyReal, ClosedBy, Cooled, OnVerdict, CopyTimed;
    if ch.Found? { VerdictTimed(mode, o, purpose, Received(ch.u), s.log, times, s.now); }
    if ch.Missed? { VerdictTimed(mode, o, purpose, NotReceived, s.log, times, s.now); }
  }

  lemma WaitsAfterScan(mode: WalletMode, o: Row)
    requires EarlyVerdict(mode, o).None?
    ensures IsPendingCounterAccept(mode, o) && (mode == Loop ==> IsLoopFillPendingCounterAccept(mode, o))
  {
  }

  /** The cooldown: the stamp is the time of the first look, and only 90 seconds later is the row
      read again. */
  lemma CoolingTimed(mode: WalletMode, s: State, w: nat, o: Row, times: Times)
    requires PcOf(s, w) == Cooling(o) && Before(mode, s, w, s.log, times) && mode == Loop
    requires |times| == |s.log| && forall i | 0 <= i < |times| :: times[i] <= s.now
    ensures GoTimed(mode, s, AtCooling(s, w, o), w, times)
  {
    ClosedByNow(o, s.log, times, s.now);
    if o.clearedAt.Some? && CounterReissueCooldownElapsed(o.clearedAt, s.now) {
      ClosedByStays(s.log, times, s.log, times, o.counterOffer.value, o.clearedAt.value, s.now - 90);
    }
    hide ClosedBy;
  }

  lemma ReissueTimed(mode: WalletMode, s: State, w: nat, o: Row, ch: Choice, times: Times)
    requires PcOf(s, w) == ReissueSubmit(o) && mode == Loop && AtReissueSubmit(s, w, o, ch).Some?
    requires Before(mode, s, w, AtReissueSubmit(s, w, o, ch).value.log, times)
    ensures GoTimed(mode, s, AtReissueSubmit(s, w, o, ch).value, w, times)
  {
    hide ClosedBy, Cooled, CommandAt, Committed;
  }

  lemma CounterTimed(mode: WalletMode, s: State, w: nat, ch: Choice, times: Times)
    requires StepGo(mode, s, w, ch).Some? && CounterPoint(PcOf(s, w)) && mode == Loop
    requires !PcOf(s, w).Cooling? && !PcOf(s, w).Verify? && !PcOf(s, w).VerifyScan? && !PcOf(s, w).ReissueSubmit?
    requires !PcOf(s, w).TryComplete?
    requires Before(mode, s, w, s.log, times) && (PcOf(s, w).Proof? ==> LoopPurpose(PcOf(s, w).purpose))
    ensures GoTimed(mode, s, StepGo(mode, s, w, ch).value, w, times) && StepGo(mode, s, w, ch).value.log == s.log
  {
    hide ClosedBy, CounterPending, IsDirect, AtCooling, AtVerify, AtVerifyScan, AtReissueSubmit;
    match PcOf(s, w)
    case CounterLoaded(_) => hide AtProof, AtTryComplete, AtReload, AtReissueReady, AtReissueReserved, AtWriteOffer;
    case Proof(_, _) => hide AtCounterLoaded, AtTryComplete, AtReload, AtReissueReady, AtReissueReserved, AtWriteOffer;
    case Reload(_) => hide AtCounterLoaded, AtProof, AtTryComplete, AtReissueReady, AtReissueReserved, AtWriteOffer;
    case ReissueReady(_) => hide AtCounterLoaded, AtProof, AtTryComplete, AtReload, AtReissueReserved, AtWriteOffer;
    case ReissueReserved(_) => hide AtCounterLoaded, AtProof, AtTryComplete, AtReload, AtReissueReady, AtWriteOffer;
    case WriteOffer(_, _) => hide AtCounterLoaded, AtProof, AtTryComplete, AtReload, AtReissueReady, AtReissueReserved;
  }

  // everything else

  lemma RepairTimed(mode: WalletMode, s: State, w: nat, o: Row, ch: Choice, times: Times)
    requires PcOf(s, w) == Repair(o) && AtRepair(mode, s, w, o, ch).Some?
    requires Before(mode, s, w, AtRepair(mode, s, w, o, ch).value.log, times)
    ensures GoTimed(mode, s, AtRepair(mode, s, w, o, ch).value, w, times)
    ensures AtRepair(mode, s, w, o, ch).value.log == s.log
  {
    hide ClosedBy, Cooled, CommandAt;
  }

  lemma ExpiringTimed(mode: WalletMode, s: State, w: nat, o: Row, ch: Choice, times: Times)
    requires PcOf(s, w) == Expiring(o) && Before(mode, s, w, AtExpiring(s, w, o, ch).log, times)
    ensures GoTimed(mode, s, AtExpiring(s, w, o, ch), w, times) && NoReissue(s, AtExpiring(s, w, o, ch))
  {
    RejectNoReissue(s, o);
    hide ClosedBy, Cooled, UserOfferPending;
  }

  lemma SettleReadyTimed(mode: WalletMode, s: State, w: nat, o: Row, ch: Choice, times: Times)
    requires PcOf(s, w) == SettleReady(o) && AtSettleReady(s, w, o, ch).Some?
    requires Before(mode, s, w, AtSettleReady(s, w, o, ch).value.log, times)
    ensures GoTimed(mode, s, AtSettleReady(s, w, o, ch).value, w, times)
    ensures NoReissue(s, AtSettleReady(s, w, o, ch).value)
  {
    hide ClosedBy, Cooled;
  }

  lemma ConfirmingTimed(mode: WalletMode, s: State, w: nat, f: nat, ch: Choice, times: Times)
    requires PcOf(s, w) == Confirming(f) && Before(mode, s, w, AtConfirming(s, w, f, ch).log, times)
    ensures GoTimed(mode, s, AtConfirming(s, w, f, ch), w, times) && NoReissue(s, AtConfirming(s, w, f, ch))
  {
    hide ClosedBy, Cooled, UserOfferPending;
  }

  lemma PlainTimed(mode: WalletMode, s: State, w: nat, ch: Choice, times: Times)
    requires StepGo(mode, s, w, ch).Some? && Before(mode, s, w, StepGo(mode, s, w, ch).value.log, times)
    requires var pc := PcOf(s, w); pc.Write? || pc.SettleReserve? || pc.SettleReload? || pc.SettleOffer?
    ensures GoTimed(mode, s, StepGo(mode, s, w, ch).value, w, times) && StepGo(mode, s, w, ch).value.log == s.log
  {
    hide ClosedBy, Cooled;
  }

  lemma OtherTimed(mode: WalletMode, s: State, w: nat, ch: Choice, times: Times)
    requires StepGo(mode, s, w, ch).Some? && !FillPoint(PcOf(s, w)) && !CounterPoint(PcOf(s, w))
    requires Before(mode, s, w, StepGo(mode, s, w, ch).value.log, times) && !PcOf(s, w).FilledRepair?
    ensures GoTimed(mode, s, StepGo(mode, s, w, ch).value, w, times) && NoReissue(s, StepGo(mode, s, w, ch).value)
  {
    hide GoTimed, Before, AtRepair, AtExpiring, AtSettleReady, AtConfirming, UserOfferPending;
    match PcOf(s, w)
    case Repair(o) => RepairTimed(mode, s, w, o, ch, times);
    case Expiring(o) => ExpiringTimed(mode, s, w, o, ch, times);
    case SettleReady(o) => SettleReadyTimed(mode, s, w, o, ch, times);
    case Confirming(f) => ConfirmingTimed(mode, s, w, f, ch, times);
    case _ => PlainTimed(mode, s, w, ch, times);
  }

  // ----- Every run -----

  lemma StartTimed(mode: WalletMode, s: State, call: Call, times: Times)
    requires CopyTimed(mode, s.row, s.log, times, s.now)
    ensures PcTimed(mode, StartPc(mode, s.row, s.log, call), s.log, times, s.now)
  {
    hide ClosedBy;
  }

  /** The reissue that worker `w` commits has waited. */
  lemma ReissueWaited(mode: WalletMode, s: State, w: nat, ch: Choice, times: Times)
    requires Timed(mode, s, times) && PcOf(s, w).ReissueSubmit? && StepGo(mode, s, w, ch).Some?
    ensures var s' := StepGo(mode, s, w, ch).value;
      |s'.log| > |s.log| ==> WaitedAt(s'.log, NextTimes(s, s', times), |s.log|)
  {
    var o, s' := PcOf(s, w).o, StepGo(mode, s, w, ch).value;
    assert Cooled(o, s.log, times, s.now);
    var m :| 0 <= m < |s.log| && s.log[m] == CounterClosed(o.counterOffer.value) && times[m] <= s.now - 90;
    if |s'.log| > |s.log| { assert s'.log[m] == s.log[m] && NextTimes(s, s', times)[m] == times[m]; }
  }

  lemma WaitedStays(log: Log, times: Times, log': Log, times': Times)
    requires |times| == |log| && |times'| == |log'| && ReissuesWaited(log, times) && log <= log' && times <= times'
    requires forall j | |log| <= j < |log'| && log'[j].Reissue? :: WaitedAt(log', times', j)
    ensures ReissuesWaited(log', times')
  {
    forall j | 0 <= j < |log'| && log'[j].Reissue? ensures WaitedAt(log', times', j) {
      if j < |log| {
        assert log'[j] == log[j] && WaitedAt(log, times, j);
        var m :| 0 <= m < j && log[m].CounterClosed? && times[m] + 90 <= times[j];
        assert log'[m] == log[m] && times'[m] == times[m] && times'[j] == times[j];
      }
    }
  }

  lemma CounterIsTimed(mode: WalletMode, s: State, w: nat, ch: Choice, times: Times, times': Times)
    requires LogReal(mode, s.log) && PcReal(mode, PcOf(s, w), s.log) && Before(mode, s, w, s.log, times)
    requires |times| == |s.log| && forall i | 0 <= i < |times| :: times[i] <= s.now
    requires StepGo(mode, s, w, ch).Some? && CounterPoint(PcOf(s, w))
    requires times' == NextTimes(s, StepGo(mode, s, w, ch).value, times)
    requires Before(mode, s, w, StepGo(mode, s, w, ch).value.log, times')
    ensures var s' := StepGo(mode, s, w, ch).value;
      GoTimed(mode, s, s', w, times') && (!PcOf(s, w).ReissueSubmit? ==> s'.log == s.log)
  {
    hide LogReal, CopyReal, GoTimed, Before, AtReissueSubmit, CounterPending;
    match PcOf(s, w)
    case Verify(o, purpose) => VerifyTimed(mode, s, w, o, purpose, times);
    case VerifyScan(o, purpose) => VerifyScanTimed(mode, s, w, o, purpose, ch, times);
    case Cooling(o) => CoolingTimed(mode, s, w, o, times);
    case ReissueSubmit(o) => ReissueTimed(mode, s, w, o, ch, times');
    case _ => CounterTimed(mode, s, w, ch, times);
  }

  /** One worker's step, on the ledger it leaves behind. */
  lemma GoIsTimed(mode: WalletMode, s: State, w: nat, ch: Choice, times: Times)
    requires Real(mode, s) && Timed(mode, s, times) && StepGo(mode, s, w, ch).Some?
    ensures var s' := StepGo(mode, s, w, ch).value; var times' := NextTimes(s, s', times);
      && s.log <= s'.log && GoTimed(mode, s, s', w, times') && (!PcOf(s, w).ReissueSubmit? ==> NoReissue(s, s'))
  {
    hide LogReal, CopyReal, StepGo, GoTimed, Before, CopyTimed, ReissuesWaited, FillPoint, CounterPoint;
    var s' := StepGo(mode, s, w, ch).value;
    var times' := NextTimes(s, s', times);
    PcOfReal(mode, s, w);
    LogGrows(mode, s, w, ch);
    CarriedOver(mode, s, w, s'.log, times, times');
    CarriedOver(mode, s, w, s.log, times, times);
    hide Real, Timed;
    if FillPoint(PcOf(s, w)) { FillTimed(mode, s, w, ch, times'); }
    else if CounterPoint(PcOf(s, w)) {
      assert |times| == |s.log| && (forall i | 0 <= i < |times| :: times[i] <= s.now) by { TimesFit(mode, s, times); }
      CounterIsTimed(mode, s, w, ch, times, times');
    } else { OtherTimed(mode, s, w, ch, times'); }
  }

  lemma TimesFit(mode: WalletMode, s: State, times: Times)
    requires Timed(mode, s, times)
    ensures |times| == |s.log| && forall i | 0 <= i < |times| :: times[i] <= s.now
  {
  }

  lemma LogGrows(mode: WalletMode, s: State, w: nat, ch: Choice)
    requires StepGo(mode, s, w, ch).Some?
    ensures s.log <= StepGo(mode, s, w, ch).value.log
  {
    hide StepGo;
    StepFramed(mode, s, Go(w, ch));
  }

  lemma CarriedOver(mode: WalletMode, s: State, w: nat, log': Log, times: Times, times': Times)
    requires Timed(mode, s, times) && s.log <= log' && times <= times'
    ensures Before(mode, s, w, log', times')
  {
    CopyTimedStays(mode, s.row, s.log, times, s.now, log', times', s.now);
    assert PcTimed(mode, PcOf(s, w), s.log, times, s.now);
    PcTimedStays(mode, PcOf(s, w), s.log, times, s.now, log', times', s.now);
  }

  /** What follows for all workers and the whole ledger. */
  lemma SettleTimed(mode: WalletMode, s: State, s': State, times: Times, times': Times)
    requires Timed(mode, s, times) && s.log <= s'.log && s.now <= s'.now && |s'.log| <= |s.log| + 1
    requires times' == NextTimes(s, s', times) && CopyTimed(mode, s'.row, s'.log, times', s'.now)
    requires forall w | w in s'.pcs :: (w in s.pcs && s'.pcs[w] == s.pcs[w]) || PcTimed(mode, s'.pcs[w], s'.log, times', s'.now)
    requires forall j | |s.log| <= j < |s'.log| && s'.log[j].Reissue? :: WaitedAt(s'.log, times', j)
    ensures Timed(mode, s', times')
  {
    WaitedStays(s.log, times, s'.log, times') by { hide CopyTimed, PcTimed; }
    hide CopyTimed, PcTimed, ReissuesWaited;
    forall w | w in s'.pcs ensures PcTimed(mode, s'.pcs[w], s'.log, times', s'.now) {
      if w in s.pcs && s'.pcs[w] == s.pcs[w] {
        PcTimedStays(mode, s.pcs[w], s.log, times, s.now, s'.log, times', s'.now);
      }
    }
  }

  lemma StepKeepsTimed(mode: WalletMode, s: State, l: Label, times: Times)
    requires Real(mode, s) && Timed(mode, s, times) && Step(mode, s, l).Some?
    ensures Timed(mode, Step(mode, s, l).value, NextTimes(s, Step(mode, s, l).value, times))
  {
    hide Real, CopyTimed, PcTimed, ReissuesWaited, StepGo, StartPc, WaitedAt;
    var s' := Step(mode, s, l).value;
    var times' := NextTimes(s, s', times);
    StepFramed(mode, s, l);
    match l {
      case Start(w, call) => StartTimed(mode, s, call, times);
      case Go(w, ch) =>
        GoIsTimed(mode, s, w, ch, times);
        if PcOf(s, w).ReissueSubmit? { ReissueWaited(mode, s, w, ch, times); }
      case Crash(w) => IdleTimed(mode, s'.log, times', s.now);
      case _ => CopyTimedStays(mode, s.row, s.log, times, s.now, s'.log, times', s'.now);
    }
    SettleTimed(mode, s, s', times, times');
  }

  lemma IdleTimed(mode: WalletMode, log: Log, times: Times, now: nat)
    ensures PcTimed(mode, Idle, log, times, now)
  {
  }

  lemma {:induction false} RunKeepsTimed(mode: WalletMode, s: State, times: Times, labels: seq<Label>)
    requires Real(mode, s) && Timed(mode, s, times) && Run(mode, s, labels).Some?
    ensures Timed(mode, Run(mode, s, labels).value, LogTimes(mode, s, times, labels))
    decreases labels
  {
    hide Real, Timed, Step;
    if labels != [] {
      var s' := Step(mode, s, labels[0]).value;
      StepKeepsReal(mode, s, labels[0]);
      StepKeepsTimed(mode, s, labels[0], times);
      RunKeepsTimed(mode, s', NextTimes(s, s', times), labels[1..]);
    }
  }

  /** In every run a reissue is on the ledger only if a counter offer was closed at least 90 seconds
      before it, whatever copies the workers hold. */
  lemma ReissueWaits(mode: WalletMode, labels: seq<Label>, j: nat)
    requires Run(mode, Init, labels).Some?
    ensures var s, times := Run(mode, Init, labels).value, LogTimes(mode, Init, [], labels);
      && |times| == |s.log|
      && (j < |s.log| && s.log[j].Reissue? ==>
            exists m :: 0 <= m < j && s.log[m].CounterClosed? && times[m] + 90 <= times[j])
  {
    hide Run, LogTimes;
    RunKeepsTimed(mode, Init, [], labels);
    var s, times := Run(mode, Init, labels).value, LogTimes(mode, Init, [], labels);
    hide CopyTimed, PcTimed;
    if j < |s.log| && s.log[j].Reissue? { assert WaitedAt(s.log, times, j); }
  }

  // ----- Careful runs: the offer that was waited for is the one that is replaced -----

  /** Reissue `j` came at least 90 seconds after the offer of the preceding command was closed. */
  ghost predicate WaitedForPrevious(log: Log, times: Times, j: nat) {
    && j < |log| && j < |times| && log[j].Reissue? && log[j].attempt > 0
    && exists c: nat, m: nat :: CommandAt(log, c, log[j].attempt - 1) && m < j && log[m] == CounterClosed(c)
                                && times[m] + 90 <= times[j]
  }

  ghost predicate ChainWaited(log: Log, times: Times) {
    forall j | 0 <= j < |log| && log[j].Reissue? :: WaitedForPrevious(log, times, j)
  }

  lemma PreviousStays(log: Log, times: Times, log': Log, times': Times, j: nat)
    requires WaitedForPrevious(log, times, j) && log <= log' && times <= times'
    ensures WaitedForPrevious(log', times', j)
  {
    var c: nat, m: nat :| CommandAt(log, c, log[j].attempt - 1) && m < j && log[m] == CounterClosed(c)
                          && times[m] + 90 <= times[j];
    assert CommandAt(log', c, log'[j].attempt - 1) && log'[m] == CounterClosed(c);
  }

  /** The copy a reissue is committed from names the offer of its own attempt. */
  lemma CopyWaited(mode: WalletMode, s: State, w: nat, ch: Choice, times: Times, k: nat, outcome: Outcome)
    requires Inv(mode, s) && Timed(mode, s, times) && StepGo(mode, s, w, ch).Some?
    requires StepGo(mode, s, w, ch).value.log == s.log + [Reissue(k, outcome)]
    ensures WaitedForPrevious(s.log + [Reissue(k, outcome)], times + [s.now], |s.log|)
  {
    hide LogOk, ReissuesWaited, StepGo;
    OnlyReissueSubmitReissues(mode, s, w, ch, k, outcome);
    var o := PcOf(s, w).o;
    assert PcOk(mode, s.pcs[w], s.row, s.log) && Cooled(o, s.log, times, s.now);
    var log', times', c := s.log + [Reissue(k, outcome)], times + [s.now], o.counterOffer.value;
    var m :| 0 <= m < |s.log| && s.log[m] == CounterClosed(c) && times[m] <= s.now - 90;
    assert CommandAt(log', c, k - 1) && log'[m] == CounterClosed(c) && times'[m] == times[m];
  }

  lemma StepChains(mode: WalletMode, s: State, l: Label, times: Times)
    requires Secured(mode, s) && Real(mode, s) && Timed(mode, s, times) && Step(mode, s, l).Some?
    requires ChainWaited(s.log, times)
    ensures ChainWaited(Step(mode, s, l).value.log, NextTimes(s, Step(mode, s, l).value, times))
  {
    hide Step, Inv, Frozen, CopyTimed, PcTimed, ReissuesWaited, Real;
    var s' := Step(mode, s, l).value;
    var times' := NextTimes(s, s', times);
    StepFramed(mode, s, l);
    forall j | 0 <= j < |s'.log| && s'.log[j].Reissue? ensures WaitedForPrevious(s'.log, times', j) {
      if j < |s.log| {
        PreviousStays(s.log, times, s'.log, times', j);
      } else {
        var u := s'.log[j];
        assert s'.log == s.log + [Reissue(u.attempt, u.outcome)];
        NewReissueWaited(mode, s, l, times, u.attempt, u.outcome);
      }
    }
  }

  lemma NewReissueWaited(mode: WalletMode, s: State, l: Label, times: Times, k: nat, outcome: Outcome)
    requires Secured(mode, s) && Timed(mode, s, times) && Step(mode, s, l).Some?
    requires Step(mode, s, l).value.log == s.log + [Reissue(k, outcome)]
    ensures WaitedForPrevious(s.log + [Reissue(k, outcome)], times + [s.now], |s.log|)
  {
    hide Inv, Frozen, Timed, WaitedForPrevious;
    if Inv(mode, s) {
      OnlyWorkersReissue(mode, s, l, k, outcome);
      CopyWaited(mode, s, l.w, l.choice, times, k, outcome);
    } else {
      hide Step;
      var d: nat, n: nat :| Frozen(s, d, n);
      FrozenReissuesNothing(s, l, k, outcome, d, n);
    }
  }

  lemma OnlyWorkersReissue(mode: WalletMode, s: State, l: Label, k: nat, outcome: Outcome)
    requires Step(mode, s, l).Some? && Step(mode, s, l).value.log == s.log + [Reissue(k, outcome)]
    ensures l.Go? && Step(mode, s, l) == StepGo(mode, s, l.w, l.choice)
  {
    hide StepGo, StartPc;
    assert Step(mode, s, l).value.log[|s.log|] == Reissue(k, outcome);
  }

  lemma {:induction false} RunChains(mode: WalletMode, s: State, times: Times, labels: seq<Label>)
    requires Secured(mode, s) && Real(mode, s) && Timed(mode, s, times) && ChainWaited(s.log, times)
    requires Clean(mode, false, s, labels) && Run(mode, s, labels).Some?
    ensures ChainWaited(Run(mode, s, labels).value.log, LogTimes(mode, s, times, labels))
    decreases labels
  {
    hide Secured, Real, Timed, ChainWaited, Step, Careful;
    if labels != [] {
      var s' := Step(mode, s, labels[0]).value;
      StepSecures(mode, s, labels[0]);
      StepKeepsReal(mode, s, labels[0]);
      StepKeepsTimed(mode, s, labels[0], times);
      StepChains(mode, s, labels[0], times);
      RunChains(mode, s', NextTimes(s, s', times), labels[1..]);
    }
  }

  /** In every careful run reissue k is on the ledger only if the offer of command k-1 was closed at
      least 90 seconds before it. */
  lemma ReissueWaitsForPrevious(mode: WalletMode, labels: seq<Label>, j: nat)
    requires Clean(mode, false, Init, labels) && Run(mode, Init, labels).Some?
    ensures var s, times := Run(mode, Init, labels).value, LogTimes(mode, Init, [], labels);
      j < |s.log| && s.log[j].Reissue? ==> WaitedForPrevious(s.log, times, j)
  {
    hide Run, LogTimes, Clean, WaitedForPrevious;
    RunChains(mode, Init, [], labels);
  }

  /** The decision itself: the first look stamps the row with the time, and a later look reads the
      row again if and only if 90 seconds have passed since the stamp. */
  lemma CooldownDecides(mode: WalletMode, s: State, w: nat, o: Row, ch: Choice)
    requires PcOf(s, w) == Cooling(o)
    ensures StepGo(mode, s, w, ch).Some? && StepGo(mode, s, w, ch).value.row == s.row
    ensures var pc := PcOf(StepGo(mode, s, w, ch).value, w);
      && (pc.Reload? <==> o.clearedAt.Some? && s.now >= o.clearedAt.value + 90)
      && (o.clearedAt.None? ==> pc == Write(o.(clearedAt := Some(s.now)), UserLocked))
      && (o.clearedAt.Some? && s.now < o.clearedAt.value + 90 ==> pc == Idle)
  {
  }
}
