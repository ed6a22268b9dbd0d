/** A Loop order whose leg a reissue paid directly. From then on nothing can be paid any more,
    whatever copies the workers hold and however stale the row is. */
module CantonSwapFrozen {
  import opened Wrappers
  import opened CantonSwapLedger
  import opened CantonSwapMachine
  import opened CantonSwapSafety

  /** Update `d` paid the leg directly under number n > 0. */
  ghost predicate PaidBy(log: Log, d: nat, n: nat) {
    n > 0 && CommandAt(log, d, n) && IsDirect(log, d)
  }

  /** No copy is beyond number n, and one that reached it is a filled row without an offer. */
  predicate CopyCold(o: Row, d: nat, n: nat) {
    o.settlement != Some(d) && o.attempt <= n && (o.counterOffer.Some? || o.status != Filled ==> o.attempt < n)
    && (o.status == Filled ==> o.receipt.Some? && o.settlement.Some?)
  }

  /** A filled row stays; what a worker would write over it is lost. */
  predicate PcCold(pc: Pc, row: Row, d: nat, n: nat) {
    match pc
    case Idle | FillInFlight | Confirming(_) => true
    case FillReserved(st) => st != Filled
    case Write(o, expected) => (CopyCold(o, d, n) || row.status == Filled) && expected != Filled
    case Expiring(_) | FillChecked(_) | FillReady(_) | FillOwned(_) | FillSubmit(_) | Rejecting(_) | Repair(_) =>
      CopyCold(pc.o, d, n) && pc.o.attempt < n && pc.o.status != Filled
    case VerifyScan(o, _) => CopyCold(o, d, n) && EarlyVerdict(Loop, o).None?
    case Proof(_, _) | Cooling(_) | Reload(_) | ReissueReady(_) | ReissueReserved(_) | ReissueSubmit(_) =>
      CopyCold(pc.o, d, n) && pc.o.status != Filled
    case CounterLoaded(_) | Verify(_, _) | WriteOffer(_, _) => CopyCold(pc.o, d, n)
    case FilledRepair(_) | TryComplete(_, _) | Recover(_) | SettleReserve(_) | SettleReload | SettleReady(_)
       | SettleOffer(_) => false
  }

  ghost predicate Frozen(s: State, d: nat, n: nat) {
    && LogOk(s.log) && PaidBy(s.log, d, n) && CopyCold(s.row, d, n)
    && forall w | w in s.pcs :: PcCold(s.pcs[w], s.row, d, n)
  }

  // ----- The ledger is finished -----

  /** Every other command was superseded. */
  lemma OthersDead(log: Log, d: nat, n: nat, i: nat, k: nat)
    requires LogOk(log) && PaidBy(log, d, n) && CommandAt(log, i, k)
    ensures k <= n && (k < n ==> Dead(log, i)) && (k == n ==> i == d)
  {
  }

  lemma NumbersTaken(log: Log, d: nat, n: nat, k: nat)
    requires LogOk(log) && PaidBy(log, d, n) && k <= n
    ensures Committed(log, k)
  {
    NumbersBelow(log, d, n, k);
  }

  lemma NoOfferPending(log: Log, d: nat, n: nat, c: nat)
    requires LogOk(log) && PaidBy(log, d, n)
    ensures !CounterPending(log, c)
  {
    if CounterPending(log, c) {
      var k := if log[c].Fill? then 0 else log[c].attempt;
      assert HasPredecessor(log, c);
      OthersDead(log, d, n, c, k);
    }
  }

  /** Only sell offers still come and go. */
  lemma PlainStays(log: Log, d: nat, n: nat, u: Update)
    requires LogOk(log) && PaidBy(log, d, n) && !IsCommand(u) && !u.CounterAccepted? && !u.CounterClosed?
    requires u.UserOfferClosed? ==> UserOfferPending(log, u.offer)
    ensures LogOk(log + [u]) && PaidBy(log + [u], d, n)
  {
    AppendPlain(log, u);
    hide LogOk, Extends;
    CommandsBefore(log, u);
  }

  // ----- Every step -----

  /** The log grew by at most one update about a sell offer. */
  ghost predicate PlainMore(log: Log, log': Log) {
    log' == log
    || (|log'| == |log| + 1 && log' == log + [log'[|log|]] && PlainNext(log, log'[|log|]))
  }

  ghost predicate PlainNext(log: Log, u: Update) {
    u.UserOffer? || (u.UserOfferClosed? && UserOfferPending(log, u.offer))
  }

  /** What remains to be shown of one worker's step. */
  ghost predicate GoCold(s: State, s': State, w: nat, d: nat, n: nat) {
    && w in s'.pcs && s'.pcs == s.pcs[w := s'.pcs[w]] && CopyCold(s'.row, d, n) && PcCold(s'.pcs[w], s'.row, d, n)
    && (s.row.status == Filled ==> s'.row.status == Filled) && PlainMore(s.log, s'.log)
  }

  lemma NoDirectElse(log: Log, d: nat, n: nat)
    requires LogOk(log) && PaidBy(log, d, n)
    ensures forall u: nat :: CommandAt(log, u, 0) ==> u != d
    ensures forall u: nat :: IsDirect(log, u) ==> u == d
  {
    forall u: nat | IsDirect(log, u) ensures u == d {
      var k := if log[u].Fill? then 0 else log[u].attempt;
      assert HasPredecessor(log, u);
      OthersDead(log, d, n, u, k);
    }
  }

  lemma FillSubmitCold(s: State, w: nat, o: Row, ch: Choice, d: nat, n: nat)
    requires CopyCold(s.row, d, n) && CopyCold(o, d, n) && o.attempt < n && o.status != Filled
    requires LogOk(s.log) && PaidBy(s.log, d, n) && Committed(s.log, 0) && AtFillSubmit(Loop, s, w, o, ch).Some?
    ensures GoCold(s, AtFillSubmit(Loop, s, w, o, ch).value, w, d, n)
  {
    NoDirectElse(s.log, d, n);
    hide LogOk, PaidBy, CommandAt, UserOfferPending, Committed;
  }

  lemma FillOwnedCold(s: State, w: nat, o: Row, ch: Choice, d: nat, n: nat)
    requires CopyCold(s.row, d, n) && CopyCold(o, d, n) && o.attempt < n && o.status != Filled
    requires LogOk(s.log) && PaidBy(s.log, d, n) && AtFillOwned(s, w, o, ch).Some?
    ensures GoCold(s, AtFillOwned(s, w, o, ch).value, w, d, n)
  {
    NoDirectElse(s.log, d, n);
    hide LogOk, PaidBy, CommandAt;
  }

  lemma FillCold(s: State, w: nat, ch: Choice, d: nat, n: nat)
    requires CopyCold(s.row, d, n) && PcCold(PcOf(s, w), s.row, d, n) && FillPoint(PcOf(s, w))
    requires LogOk(s.log) && PaidBy(s.log, d, n) && Committed(s.log, 0) && StepGo(Loop, s, w, ch).Some?
    ensures GoCold(s, StepGo(Loop, s, w, ch).value, w, d, n)
  {
    hide AtFillSubmit, AtFillOwned, LogOk, PaidBy, UserOfferPending;
    match PcOf(s, w) {
      case FillSubmit(o) =>
        hide GoCold;
        FillSubmitCold(s, w, o, ch, d, n);
      case FillOwned(o) =>
        hide GoCold;
        FillOwnedCold(s, w, o, ch, d, n);
      case FillChecked(_) => hide AtFillReserved, AtFillReady, AtFillInFlight, AtRejecting;
      case FillReserved(_) => hide AtFillChecked, AtFillReady, AtFillInFlight, AtRejecting;
      case FillReady(_) => hide AtFillChecked, AtFillReserved, AtFillInFlight, AtRejecting;
      case FillInFlight => hide AtFillChecked, AtFillReserved, AtFillReady, AtRejecting;
      case Rejecting(o) => hide AtFillChecked, AtFillReserved, AtFillReady, AtFillInFlight;
    }
  }

  lemma VerdictCold(o: Row, purpose: Purpose, v: Verdict, row: Row, d: nat, n: nat)
    requires CopyCold(o, d, n) && (v.Received? ==> o.settlement.Some?) && (v == NotReceived ==> o.status != Filled)
    ensures PcCold(OnVerdict(Loop, o, purpose, v), row, d, n)
  {
  }

  /** The reissue commits nothing: the next number of any copy is taken. */
  lemma ReissueCold(s: State, w: nat, o: Row, ch: Choice, d: nat, n: nat)
    requires LogOk(s.log) && PaidBy(s.log, d, n)
    requires CopyCold(s.row, d, n) && CopyCold(o, d, n) && o.status != Filled && AtReissueSubmit(s, w, o, ch).Some?
    requires forall k: nat | k <= n :: Committed(s.log, k)
    ensures GoCold(s, AtReissueSubmit(s, w, o, ch).value, w, d, n)
  {
    if o.counterOffer.Some? { assert o.attempt + 1 <= n && Committed(s.log, o.attempt + 1); }
    if ch.Duplicate? && CommandAt(s.log, ch.u, o.attempt + 1) { OthersDead(s.log, d, n, ch.u, o.attempt + 1); }
    hide LogOk, Committed;
  }

  lemma VerifyCold(s: State, w: nat, o: Row, purpose: Purpose, d: nat, n: nat)
    requires CopyCold(s.row, d, n) && CopyCold(o, d, n)
    ensures GoCold(s, AtVerify(Loop, s, w, o, purpose), w, d, n)
  {
    hide OnVerdict, CounterPending;
    if EarlyVerdict(Loop, o).Some? { VerdictCold(o, purpose, EarlyVerdict(Loop, o).value, s.row, d, n); }
    VerdictCold(o, purpose, StillPending, s.row, d, n);
  }

  lemma VerifyScanCold(s: State, w: nat, o: Row, purpose: Purpose, ch: Choice, d: nat, n: nat)
    requires CopyCold(s.row, d, n) && CopyCold(o, d, n) && EarlyVerdict(Loop, o).None?
    requires AtVerifyScan(Loop, s, w, o, purpose, ch).Some?
    ensures GoCold(s, AtVerifyScan(Loop, s, w, o, purpose, ch).value, w, d, n)
  {
    hide OnVerdict;
    if ch.Found? { VerdictCold(o, purpose, Received(ch.u), s.row, d, n); }
    VerdictCold(o, purpose, NotReceived, s.row, d, n);
  }

  /** The steps of the cooldown. */
  lemma CoolingCold(s: State, w: nat, ch: Choice, d: nat, n: nat)
    requires CopyCold(s.row, d, n) && PcCold(PcOf(s, w), s.row, d, n) && StepGo(Loop, s, w, ch).Some?
    requires var pc := PcOf(s, w); pc.Cooling? || pc.Reload? || pc.ReissueReady? || pc.ReissueReserved?
    ensures GoCold(s, StepGo(Loop, s, w, ch).value, w, d, n)
  {
    hide CounterPending, IsDirect;
    match PcOf(s, w) {
      case Cooling(_) =>
      case Reload(_) =>
      case ReissueReady(_) =>
      case ReissueReserved(_) =>
    }
  }

  lemma ProofCold(s: State, w: nat, ch: Choice, d: nat, n: nat)
    requires LogOk(s.log) && PaidBy(s.log, d, n)
    requires CopyCold(s.row, d, n) && PcCold(PcOf(s, w), s.row, d, n) && StepGo(Loop, s, w, ch).Some?
    requires var pc := PcOf(s, w); pc.CounterLoaded? || pc.Proof? || pc.WriteOffer?
    ensures GoCold(s, StepGo(Loop, s, w, ch).value, w, d, n)
  {
    NoDirectElse(s.log, d, n);
    hide LogOk, PaidBy, CounterPending, IsDirect;
    match PcOf(s, w) {
      case CounterLoaded(_) =>
      case Proof(_, _) =>
      case WriteOffer(_, _) =>
    }
  }

  lemma CounterCold(s: State, w: nat, ch: Choice, d: nat, n: nat)
    requires LogOk(s.log) && PaidBy(s.log, d, n)
    requires CopyCold(s.row, d, n) && PcCold(PcOf(s, w), s.row, d, n) && CounterPoint(PcOf(s, w))
    requires forall k: nat | k <= n :: Committed(s.log, k)
    requires StepGo(Loop, s, w, ch).Some?
    ensures GoCold(s, StepGo(Loop, s, w, ch).value, w, d, n)
  {
    hide LogOk, PaidBy, Committed, AtReissueSubmit, AtVerify, AtVerifyScan, GoCold;
    match PcOf(s, w) {
      case ReissueSubmit(o) => ReissueCold(s, w, o, ch, d, n);
      case Verify(o, purpose) => VerifyCold(s, w, o, purpose, d, n);
      case VerifyScan(o, purpose) => VerifyScanCold(s, w, o, purpose, ch, d, n);
      case Cooling(_) | Reload(_) | ReissueReady(_) | ReissueReserved(_) => CoolingCold(s, w, ch, d, n);
      case _ => ProofCold(s, w, ch, d, n);
    }
  }

  lemma OtherCold(s: State, w: nat, ch: Choice, d: nat, n: nat)
    requires CopyCold(s.row, d, n) && PcCold(PcOf(s, w), s.row, d, n)
    requires LogOk(s.log) && PaidBy(s.log, d, n)
    requires !FillPoint(PcOf(s, w)) && !CounterPoint(PcOf(s, w)) && StepGo(Loop, s, w, ch).Some?
    ensures GoCold(s, StepGo(Loop, s, w, ch).value, w, d, n)
  {
    NoDirectElse(s.log, d, n);
    hide LogOk, PaidBy, CommandAt, UserOfferPending, Committed, CounterPending, AtFillChecked, AtFillReserved,
         AtFillReady, AtFillOwned,
         AtFillInFlight, AtFillSubmit, AtRecover, AtRejecting, AtCounterLoaded, AtVerify, AtVerifyScan, AtProof,
         AtTryComplete, AtCooling, AtReload, AtReissueReady, AtReissueReserved, AtReissueSubmit, AtWriteOffer;
  }

  lemma StartCold(s: State, call: Call, d: nat, n: nat)
    requires CopyCold(s.row, d, n)
    ensures PcCold(StartPc(Loop, s.row, s.log, call), s.row, d, n)
  {
  }

  /** No step of anyone thaws the order. */
  lemma StepStaysFrozen(s: State, l: Label, d: nat, n: nat)
    requires Frozen(s, d, n) && Step(Loop, s, l).Some?
    ensures Frozen(Step(Loop, s, l).value, d, n)
  {
    var s' := Step(Loop, s, l).value;
    match l {
      case Start(w, call) =>
        hide LogOk, PaidBy, StepGo, StartPc;
        StartCold(s, call, d, n);
        Thaws(s, s', w, d, n);
      case Go(w, ch) =>
        GoStaysFrozen(s, w, ch, d, n);
      case Crash(w) =>
        hide LogOk, PaidBy, StepGo;
        Thaws(s, s', w, d, n);
      case UserAccepts(c) => NoOfferPending(s.log, d, n, c);
      case CounterCloses(c) => NoOfferPending(s.log, d, n, c);
      case UserOffers => PlainStays(s.log, d, n, UserOffer);
      case UserOfferCloses(f) => PlainStays(s.log, d, n, UserOfferClosed(f));
      case Tick =>
    }
  }

  lemma Thaws(s: State, s': State, w: nat, d: nat, n: nat)
    requires Frozen(s, d, n) && GoCold(s, s', w, d, n)
    ensures Frozen(s', d, n)
  {
    hide LogOk, PaidBy;
    if s'.log != s.log { PlainStays(s.log, d, n, s'.log[|s.log|]); }
    hide CopyCold, PlainMore;
  }

  lemma GoStaysFrozen(s: State, w: nat, ch: Choice, d: nat, n: nat)
    requires Frozen(s, d, n) && StepGo(Loop, s, w, ch).Some?
    ensures Frozen(StepGo(Loop, s, w, ch).value, d, n)
  {
    forall k: nat | k <= n ensures Committed(s.log, k) { NumbersTaken(s.log, d, n, k); }
    hide LogOk, PaidBy, StepGo, GoCold, Committed, FillPoint, CounterPoint, CopyCold;
    assert PcCold(PcOf(s, w), s.row, d, n);
    if FillPoint(PcOf(s, w)) { FillCold(s, w, ch, d, n); }
    else if CounterPoint(PcOf(s, w)) { CounterCold(s, w, ch, d, n); }
    else { OtherCold(s, w, ch, d, n); }
    Thaws(s, StepGo(Loop, s, w, ch).value, w, d, n);
  }

  lemma {:induction false} RunStaysFrozen(s: State, labels: seq<Label>, d: nat, n: nat)
    requires Frozen(s, d, n) && Run(Loop, s, labels).Some?
    ensures Frozen(Run(Loop, s, labels).value, d, n)
    decreases labels
  {
    hide Frozen, Step;
    if labels != [] {
      StepStaysFrozen(s, labels[0], d, n);
      RunStaysFrozen(Step(Loop, s, labels[0]).value, labels[1..], d, n);
    }
  }

  // ----- How an order freezes -----

  lemma CopyFreezes(o: Row, log: Log, d: nat, n: nat)
    requires LogOk(log) && PaidBy(log, d, n) && CopyOk(Loop, o, log)
    ensures CopyCold(o, d, n)
  {
    if o.attempt > 0 {
      var i: nat :| i < |log| && CommandAt(log, i, o.attempt);
      OthersDead(log, d, n, i, o.attempt);
    }
    if o.counterOffer.Some? { OthersDead(log, d, n, o.counterOffer.value, o.attempt); }
  }

  lemma OneFill(log: Log, f: nat, d: nat)
    requires NumbersUnique(log) && CommandAt(log, f, 0) && IsCommand(log[f]) && d < |log|
    ensures log[d].Fill? ==> f == d
  {
    assert log[d].Fill? <==> CommandAt(log, d, 0);
  }

  /** A row that waits for an offer cannot have been paid directly by its fill. */
  lemma DirectIsReissue(s: State, d: nat) returns (n: nat)
    requires Inv(Loop, s) && IsLoopFillPendingCounterAccept(Loop, s.row) && IsDirect(s.log, d)
    ensures PaidBy(s.log, d, n)
  {
    SettlementNotDirect(Loop, s.row, s.log);
    OneFill(s.log, s.row.settlement.value, d);
    n := s.log[d].attempt;
    assert HasPredecessor(s.log, d);
    assert CommandAt(s.log, d, n);
  }

  lemma PcFreezes(s: State, pc: Pc, d: nat, n: nat)
    requires LogOk(s.log) && PaidBy(s.log, d, n) && PcOk(Loop, pc, s.row, s.log)
    ensures PcCold(pc, s.row, d, n)
  {
    match pc
    case Idle | FillInFlight | Confirming(_) | FillReserved(_) =>
    case Write(o, _) =>
      if CopyOk(Loop, o, s.log) { CopyFreezes(o, s.log, d, n); }
    case FilledRepair(_) | TryComplete(_, _) | Recover(_) | SettleReserve(_) | SettleReload | SettleReady(_)
       | SettleOffer(_) =>
    case _ =>
      CopyFreezes(pc.o, s.log, d, n);
      hide LogOk, CopyOk;
  }

  /** A re-read row of an order that was paid directly does no harm: from then on the order is
      frozen. */
  lemma StraddleFreezes(s: State, w: nat) returns (d: nat, n: nat)
    requires Inv(Loop, s) && PcOf(s, w).FillReserved? && Proceeds(s, w) && HasDirect(s.log)
    requires IsLoopFillPendingCounterAccept(Loop, s.row)
    ensures Frozen(AtFillReserved(s, w, PcOf(s, w).status), d, n)
  {
    d :| 0 <= d < |s.log| && IsDirect(s.log, d);
    n := DirectIsReissue(s, d);
    hide LogOk, PaidBy, IsDirect;
    CopyFreezes(s.row, s.log, d, n);
    forall v | v in s.pcs ensures PcCold(s.pcs[v], s.row, d, n) { PcFreezes(s, s.pcs[v], d, n); }
    hide CopyOk, PcOk;
  }

  /** Where every run that is not strict stands. */
  ghost predicate Secured(mode: WalletMode, s: State) {
    Inv(mode, s) || (mode == Loop && exists d: nat, n: nat :: Frozen(s, d, n))
  }

  lemma StepSecures(mode: WalletMode, s: State, l: Label)
    requires Secured(mode, s) && Step(mode, s, l).Some? && Careful(mode, false, s, l)
    ensures Secured(mode, Step(mode, s, l).value)
  {
    hide Inv, Frozen, Step, HasDirect, FirstAccepted, Proceeds;
    if !Inv(mode, s) {
      var d: nat, n: nat :| Frozen(s, d, n);
      StepStaysFrozen(s, l, d, n);
    } else if Careful(mode, true, s, l) {
      StepKeeps(mode, s, l);
    } else {
      var d, n := StraddleFreezes(s, l.w);
      FillReservedStep(mode, s, l);
    }
  }

  lemma FillReservedStep(mode: WalletMode, s: State, l: Label)
    requires l.Go? && PcOf(s, l.w).FillReserved?
    ensures Step(mode, s, l) == Some(AtFillReserved(s, l.w, PcOf(s, l.w).status))
  {
  }

  lemma {:induction false} RunSecures(mode: WalletMode, s: State, labels: seq<Label>)
    requires Secured(mode, s) && Clean(mode, false, s, labels) && Run(mode, s, labels).Some?
    ensures Secured(mode, Run(mode, s, labels).value)
    decreases labels
  {
    hide Secured, Step, Careful;
    if labels != [] {
      StepSecures(mode, s, labels[0]);
      RunSecures(mode, Step(mode, s, labels[0]).value, labels[1..]);
    }
  }

  lemma SecuredLog(mode: WalletMode, s: State)
    requires Secured(mode, s)
    ensures LogOk(s.log)
  {
    hide LogOk;
  }
}
