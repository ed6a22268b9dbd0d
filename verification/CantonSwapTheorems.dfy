/** What holds for every run of the same-Canton swap, whatever the workers interleave. */
module CantonSwapTheorems {
  import opened Wrappers
  import opened CantonSwapLedger
  import opened CantonSwapMachine
  import opened CantonSwapSafety
  import opened CantonSwapFrozen
  import opened CantonSwapEvery

  /** Some run from a new order ends in `s`. */
  ghost predicate Reachable(mode: WalletMode, s: State) {
    exists labels: seq<Label> :: Run(mode, Init, labels) == Some(s)
  }

  /** Some careful run from a new order ends in `s`: see `CantonSwapMachine.Careful`. */
  ghost predicate CarefullyReachable(mode: WalletMode, s: State) {
    exists labels: seq<Label> :: Clean(mode, false, Init, labels) && Run(mode, Init, labels) == Some(s)
  }

  /** Some strict run from a new order ends in `s`. */
  ghost predicate StrictlyReachable(mode: WalletMode, s: State) {
    exists labels: seq<Label> :: Clean(mode, true, Init, labels) && Run(mode, Init, labels) == Some(s)
  }

  lemma RunIsReal(mode: WalletMode, s: State)
    requires Reachable(mode, s)
    ensures Real(mode, s)
  {
    hide Run;
    var labels :| Run(mode, Init, labels) == Some(s);
    RunKeepsReal(mode, Init, labels);
  }

  lemma StrictInv(mode: WalletMode, s: State)
    requires StrictlyReachable(mode, s)
    ensures Inv(mode, s)
  {
    hide Run, Clean;
    var labels :| Clean(mode, true, Init, labels) && Run(mode, Init, labels) == Some(s);
    RunKeeps(mode, Init, labels);
  }

  lemma StrictIsCareful(mode: WalletMode, s: State)
    requires StrictlyReachable(mode, s)
    ensures CarefullyReachable(mode, s)
  {
    hide Run, Clean;
    var labels :| Clean(mode, true, Init, labels) && Run(mode, Init, labels) == Some(s);
    StrictIsClean(mode, Init, labels);
  }

  lemma CarefullySecured(mode: WalletMode, s: State)
    requires CarefullyReachable(mode, s)
    ensures Secured(mode, s) && LogOk(s.log)
  {
    hide Run, Clean;
    var labels :| Clean(mode, false, Init, labels) && Run(mode, Init, labels) == Some(s);
    RunSecures(mode, Init, labels);
    SecuredLog(mode, s);
  }

  // ----- The counter leg is paid at most once -----

  /** The command behind a delivery: the direct payment itself, or the offer accepted. */
  function Source(log: Log, u: nat): nat
    requires Delivers(log, u)
  {
    if log[u].CounterAccepted? then log[u].offer else u
  }

  function Number(u: Update): nat {
    if u.Reissue? then u.attempt else 0
  }

  lemma SourceIsCommand(log: Log, u: nat)
    requires LogOk(log) && Delivers(log, u)
    ensures var c := Source(log, u);
      c < |log| && IsCommand(log[c]) && CommandAt(log, c, Number(log[c])) && !Dead(log, c)
  {
    assert log[u] in log;
    assert HasPredecessor(log, Source(log, u));
  }

  lemma DeliveryUnique(log: Log, u: nat, v: nat)
    requires LogOk(log) && Delivers(log, u) && Delivers(log, v)
    ensures u == v
  {
    SourceIsCommand(log, u);
    SourceIsCommand(log, v);
    assert Source(log, u) == Source(log, v);
    assert log[u] in log && log[v] in log;
  }

  /** In every careful run the user receives the counter leg at most once. */
  lemma CounterLegPaidAtMostOnce(mode: WalletMode, s: State, u: nat, v: nat)
    requires CarefullyReachable(mode, s)
    requires Delivers(s.log, u) && Delivers(s.log, v)
    ensures u == v
  {
    CarefullySecured(mode, s);
    DeliveryUnique(s.log, u, v);
  }

  /** In every run, whoever was paid gave the sell leg: the fill took an offer that was never
      returned. */
  lemma PaidMeansSold(mode: WalletMode, s: State, u: nat)
    requires Reachable(mode, s) && Delivers(s.log, u)
    ensures exists i | 0 <= i < |s.log| :: s.log[i].Fill? && s.log[i].offer < |s.log|
              && s.log[s.log[i].offer].UserOffer? && UserOfferClosed(s.log[i].offer) !in s.log
  {
    RunIsReal(mode, s);
    var f := DeliveryHasFill(mode, s.log, u);
    assert s.log[f].Fill?;
  }

  /** Reissue k+1 commits only when offer k is gone and was never accepted. */
  lemma ReissueAfterDeadOffer(mode: WalletMode, s: State, l: Label, k: nat, outcome: Outcome)
    requires CarefullyReachable(mode, s) && Step(mode, s, l).Some?
    requires Step(mode, s, l).value.log == s.log + [Reissue(k, outcome)]
    ensures k > 0 && !Committed(s.log, k)
    ensures exists c | 0 <= c < |s.log| :: CommandAt(s.log, c, k - 1) && Dead(s.log, c)
  {
    CarefullySecured(mode, s);
    if Inv(mode, s) {
      ReissueFromCopy(mode, s, l, k, outcome);
    } else {
      hide LogOk, Step;
      var d: nat, n: nat :| Frozen(s, d, n);
      FrozenReissuesNothing(s, l, k, outcome, d, n);
    }
  }

  lemma FrozenReissuesNothing(s: State, l: Label, k: nat, outcome: Outcome, d: nat, n: nat)
    requires Frozen(s, d, n) && Step(Loop, s, l).Some?
    ensures Step(Loop, s, l).value.log != s.log + [Reissue(k, outcome)]
  {
    hide Step;
    StepStaysFrozen(s, l, d, n);
    var log' := Step(Loop, s, l).value.log;
    if log' == s.log + [Reissue(k, outcome)] {
      assert log'[|s.log|] == Reissue(k, outcome);
      assert HasPredecessor(log', |s.log|);
      OthersDead(log', d, n, |s.log|, k);
      NumbersTaken(s.log, d, n, k);
      NotAgain(s.log, k, outcome);
    }
  }

  /** A number that is taken cannot be committed once more. */
  lemma NotAgain(log: Log, k: nat, outcome: Outcome)
    requires k > 0 && Committed(log, k)
    ensures !NumbersUnique(log + [Reissue(k, outcome)])
  {
    var log' := log + [Reissue(k, outcome)];
    var i :| 0 <= i < |log| && CommandAt(log, i, k);
    assert CommandAt(log', i, k) && CommandAt(log', |log|, k);
  }

  lemma ReissueFromCopy(mode: WalletMode, s: State, l: Label, k: nat, outcome: Outcome)
    requires Inv(mode, s) && Step(mode, s, l).Some?
    requires Step(mode, s, l).value.log == s.log + [Reissue(k, outcome)]
    ensures k > 0 && !Committed(s.log, k)
    ensures exists c | 0 <= c < |s.log| :: CommandAt(s.log, c, k - 1) && Dead(s.log, c)
  {
    hide LogOk, CopyOk;
    var log' := Step(mode, s, l).value.log;
    assert log'[|s.log|] == Reissue(k, outcome);
    if l.Go? {
      OnlyReissueSubmitReissues(mode, s, l.w, l.choice, k, outcome);
      var o := PcOf(s, l.w).o;
      assert PcOk(mode, s.pcs[l.w], s.row, s.log);
      DeadPredecessor(mode, o, s.log);
    }
  }

  lemma DeadPredecessor(mode: WalletMode, o: Row, log: Log)
    requires CopyOk(mode, o, log) && o.counterOffer.Some? && Dead(log, o.counterOffer.value)
    ensures exists c | 0 <= c < |log| :: CommandAt(log, c, o.attempt) && Dead(log, c)
  {
    assert CommandAt(log, o.counterOffer.value, o.attempt);
  }

  lemma OnlyReissueSubmitReissues(mode: WalletMode, s: State, w: nat, ch: Choice, k: nat, outcome: Outcome)
    requires StepGo(mode, s, w, ch).Some?
    requires StepGo(mode, s, w, ch).value.log == s.log + [Reissue(k, outcome)]
    ensures PcOf(s, w).ReissueSubmit? && PcOf(s, w).o.attempt + 1 == k && !Committed(s.log, k)
    ensures PcOf(s, w).o.counterOffer.Some?
  {
    hide ApplyFill, ApplyFilledProofRepair, ApplyReissue, OnVerdict, EarlyVerdict, CommandAt, CounterPending, Committed,
         CanFill, UserOfferPending;
    assert StepGo(mode, s, w, ch).value.log[|s.log|] == Reissue(k, outcome);
  }

  // ----- The row and every worker's copy -----

  /** The copy of the row a worker may still write back. A write that waits for a status the
      row has left, in a Loop order that is already filled, is lost whatever it holds. */
  function LiveCopy(mode: WalletMode, s: State, w: nat): Option<Row> {
    match PcOf(s, w)
    case Write(o, expected) => if mode == Loop && s.row.status == Filled then None else Some(o)
    case WriteOffer(o, _) => Some(o)
    case Expiring(o) => Some(o)
    case FillChecked(o) => Some(o)
    case FillReady(o) => Some(o)
    case FillOwned(o) => Some(o)
    case FillSubmit(o) => Some(o)
    case Rejecting(o) => Some(o)
    case Recover(o) => Some(o)
    case SettleReady(o) => Some(o)
    case SettleOffer(o) => Some(o)
    case Repair(o) => Some(o)
    case FilledRepair(o) => Some(o)
    case CounterLoaded(o) => Some(o)
    case Verify(o, _) => Some(o)
    case VerifyScan(o, _) => Some(o)
    case Proof(o, _) => Some(o)
    case TryComplete(o, _) => Some(o)
    case Cooling(o) => Some(o)
    case Reload(o) => Some(o)
    case ReissueReady(o) => Some(o)
    case ReissueReserved(o) => Some(o)
    case ReissueSubmit(o) => Some(o)
    case _ => None
  }

  lemma LiveCopyOk(mode: WalletMode, s: State, w: nat)
    requires Inv(mode, s) && LiveCopy(mode, s, w).Some?
    ensures CopyOk(mode, LiveCopy(mode, s, w).value, s.log)
  {
    hide CopyOk, LogOk;
    assert PcOk(mode, s.pcs[w], s.row, s.log);
  }

  /** A row or copy at attempt k names the offer made by command k, so two copies at the same
      attempt name the same offer, however stale each of them is. */
  lemma CopiesNameTheirOwnOffer(mode: WalletMode, s: State, w: nat)
    requires StrictlyReachable(mode, s)
    requires LiveCopy(mode, s, w).Some? && LiveCopy(mode, s, w).value.counterOffer.Some?
    ensures var o := LiveCopy(mode, s, w).value;
      && CommandAt(s.log, o.counterOffer.value, o.attempt) && IsOffer(s.log, o.counterOffer.value)
      && (s.row.counterOffer.Some? && s.row.attempt == o.attempt ==> s.row.counterOffer == o.counterOffer)
  {
    StrictInv(mode, s);
    LiveCopyOk(mode, s, w);
    hide LogOk;
    var o := LiveCopy(mode, s, w).value;
    if s.row.counterOffer.Some? && s.row.attempt == o.attempt { CopiesAgree(mode, s.row, o, s.log); }
  }

  lemma CopiesAgree(mode: WalletMode, o: Row, o': Row, log: Log)
    requires LogOk(log) && CopyOk(mode, o, log) && CopyOk(mode, o', log)
    requires o.counterOffer.Some? && o'.counterOffer.Some? && o.attempt == o'.attempt
    ensures o.counterOffer == o'.counterOffer
  {
    assert CommandAt(log, o.counterOffer.value, o.attempt) && CommandAt(log, o'.counterOffer.value, o.attempt);
  }

  /** The cooldown of an offer runs only when the offer is gone and was never accepted, and it
      runs for the row's own attempt. */
  lemma CooldownMeansDead(mode: WalletMode, s: State)
    requires StrictlyReachable(mode, s) && s.row.clearedAt.Some?
    ensures mode == Loop && s.row.counterOffer.Some?
    ensures Dead(s.log, s.row.counterOffer.value) && CommandAt(s.log, s.row.counterOffer.value, s.row.attempt)
  {
    StrictInv(mode, s);
  }

  /** In every run a `filled` row carries a receipt that names a delivery, and its settlement is
      the fill. In careful runs that is the one delivery of the order. */
  lemma FilledCarriesReceipt(mode: WalletMode, s: State, u: nat)
    requires Reachable(mode, s) && s.row.status == Filled
    ensures s.row.receipt.Some? && Delivers(s.log, s.row.receipt.value)
    ensures s.row.settlement.Some? && CommandAt(s.log, s.row.settlement.value, 0)
    ensures CarefullyReachable(mode, s) && Delivers(s.log, u) ==> s.row.receipt == Some(u)
  {
    RunIsReal(mode, s);
    if CarefullyReachable(mode, s) && Delivers(s.log, u) {
      hide CarefullyReachable;
      CounterLegPaidAtMostOnce(mode, s, u, s.row.receipt.value);
    }
  }

  /** The program points whose own await may write the row. */
  predicate WritesInPlace(pc: Pc) {
    pc.Write? || pc.WriteOffer? || pc.Confirming? || pc.FillChecked? || pc.FillReady? || pc.SettleReserve?
    || pc.SettleReady? || pc.SettleOffer? || pc.TryComplete? || pc.ReissueReady?
  }

  lemma InPlaceKeepsFilled(mode: WalletMode, s: State, w: nat, ch: Choice)
    requires StepGo(mode, s, w, ch).Some? && s.row.status == Filled
    requires WritesInPlace(PcOf(s, w))
    requires PcOf(s, w).FillChecked? ==> PcOf(s, w).o.status != Filled
    requires PcOf(s, w).SettleReserve? ==> PcOf(s, w).from != Filled
    ensures StepGo(mode, s, w, ch).value.row == s.row || (PcOf(s, w).Write? && PcOf(s, w).expected == Filled)
  {
  }

  lemma FillKeepsRow(mode: WalletMode, s: State, w: nat, ch: Choice)
    requires StepGo(mode, s, w, ch).Some? && !WritesInPlace(PcOf(s, w)) && FillPoint(PcOf(s, w))
    ensures StepGo(mode, s, w, ch).value.row == s.row
  {
    hide ApplyFill, CommandAt, CanFill, UserOfferPending, AtWriteOffer, AtConfirming, AtExpiring, AtRepair,
         AtFilledRepair, AtCounterLoaded, AtVerify, AtVerifyScan, AtProof, AtTryComplete, AtCooling, AtReload,
         AtReissueReady, AtReissueReserved, AtReissueSubmit, AtSettleReserve, AtSettleReload, AtSettleReady,
         AtSettleOffer;
  }

  lemma CounterKeepsRow(mode: WalletMode, s: State, w: nat, ch: Choice)
    requires StepGo(mode, s, w, ch).Some? && !WritesInPlace(PcOf(s, w)) && CounterPoint(PcOf(s, w))
    ensures StepGo(mode, s, w, ch).value.row == s.row
  {
    hide ApplyReissue, OnVerdict, EarlyVerdict, CommandAt, CounterPending, Committed, AfterProof, AtConfirming,
         AtExpiring, AtRepair, AtFilledRepair, AtFillChecked, AtFillReserved, AtFillReady, AtFillOwned,
         AtFillInFlight, AtFillSubmit, AtRecover, AtRejecting, AtSettleReserve, AtSettleReload, AtSettleReady,
         AtSettleOffer;
  }

  lemma OthersKeepRow(mode: WalletMode, s: State, w: nat, ch: Choice)
    requires StepGo(mode, s, w, ch).Some? && !WritesInPlace(PcOf(s, w))
    ensures StepGo(mode, s, w, ch).value.row == s.row
  {
    if FillPoint(PcOf(s, w)) {
      hide StepGo;
      FillKeepsRow(mode, s, w, ch);
    } else if CounterPoint(PcOf(s, w)) {
      hide StepGo;
      CounterKeepsRow(mode, s, w, ch);
    } else {
      hide ApplyFill, ApplyFilledProofRepair, CommandAt, UserOfferPending, AtFillChecked, AtFillReserved, AtFillReady,
           AtFillOwned, AtFillInFlight, AtFillSubmit, AtRecover, AtRejecting, AtCounterLoaded, AtVerify, AtVerifyScan,
           AtProof, AtTryComplete, AtCooling, AtReload, AtReissueReady, AtReissueReserved, AtReissueSubmit,
           AtWriteOffer;
    }
  }

  lemma FilledStays(mode: WalletMode, s: State, l: Label)
    requires Real(mode, s) && Step(mode, s, l).Some? && s.row.status == Filled
    ensures var s' := Step(mode, s, l).value;
      Real(mode, s') && (s'.row == s.row || (mode == Managed && s'.row.status == Filled))
  {
    StepKeepsReal(mode, s, l);
    hide LogReal, CopyReal;
    if l.Go? {
      PcOfReal(mode, s, l.w);
      if WritesInPlace(PcOf(s, l.w)) { InPlaceKeepsFilled(mode, s, l.w, l.choice); }
      else { OthersKeepRow(mode, s, l.w, l.choice); }
    } else {
      hide StepGo;
    }
  }

  /** Two filled rows of a managed order name the same settlement and the same receipt. */
  lemma ManagedRowsAgree(log: Log, log': Log, o: Row, o': Row)
    requires LogReal(Managed, log') && log <= log' && CopyReal(Managed, o, log) && CopyReal(Managed, o', log')
    requires o.status == Filled && o'.status == Filled
    ensures o.settlement == o'.settlement && o.receipt == o'.receipt
  {
    CopyRealStays(Managed, o, log, log');
    var f := DeliveryHasFill(Managed, log', o.receipt.value);
    var f' := DeliveryHasFill(Managed, log', o'.receipt.value);
    hide AcceptsOk, SellLegsOk, FillFirst;
  }

  lemma {:induction false} RunKeepsFilled(mode: WalletMode, s: State, labels: seq<Label>)
    requires Real(mode, s) && s.row.status == Filled && Run(mode, s, labels).Some?
    ensures var s' := Run(mode, s, labels).value;
      && Real(mode, s') && s.log <= s'.log && s'.row.status == Filled && (mode == Loop ==> s'.row == s.row)
    decreases labels
  {
    hide Real, Step;
    if labels != [] {
      StepFramed(mode, s, labels[0]);
      FilledStays(mode, s, labels[0]);
      RunKeepsFilled(mode, Step(mode, s, labels[0]).value, labels[1..]);
    }
  }

  /** In every run an order that reached `filled` stays filled with the same receipt and the same
      settlement, whatever comes after; a Loop row never changes again. */
  lemma FilledIsFinal(mode: WalletMode, s: State, labels: seq<Label>)
    requires Reachable(mode, s) && s.row.status == Filled && Run(mode, s, labels).Some?
    ensures var o := Run(mode, s, labels).value.row;
      && o.status == Filled && o.receipt == s.row.receipt && o.settlement == s.row.settlement
      && (mode == Loop ==> o == s.row)
  {
    hide Run;
    RunIsReal(mode, s);
    RunKeepsFilled(mode, s, labels);
    var s' := Run(mode, s, labels).value;
    hide LogReal, CopyReal;
    if mode == Managed { ManagedRowsAgree(s.log, s'.log, s.row, s'.row); }
  }

  /** The two repairs that only a broken `filled` row or a delivering settlement of an order with a
      counter offer could reach are never reached, in any run. */
  lemma NoLateProofRepair(mode: WalletMode, s: State, w: nat)
    requires Reachable(mode, s)
    ensures !PcOf(s, w).FilledRepair? && !PcOf(s, w).TryComplete?
  {
    hide LogReal, CopyReal;
    RunIsReal(mode, s);
    PcOfReal(mode, s, w);
  }

  // ----- What the result of a fill means -----

  /** applyLoopFillResult: the new row says on the ledger what it claims to say. A filled row
      names the one delivery of the order and holds no float. Any other row waits for the offer of
      this very fill, and a scan from its creation offset sees the acceptance if there is one. */
  lemma FillResultMeans(o: Row, log: Log, u: nat, v: nat)
    requires LogOk(log) && CopyOk(Loop, o, log) && Fillable(o, log) && CommandAt(log, u, 0)
    ensures var o' := ApplyFill(Loop, o, log, u);
      && CopyOk(Loop, o', log) && o'.settlement == Some(u) && o'.userLeg == o.userLeg && o'.attempt == 0
      && (o'.status == Filled <==> IsDirect(log, u))
      && (o'.status == Filled ==>
            o'.receipt == Some(u) && !o'.floatReserved && (Delivers(log, v) <==> v == u))
      && (o'.status != Filled ==>
            IsLoopFillPendingCounterAccept(Loop, o') && o'.counterOffer == Some(u) && IsOffer(log, u)
            && o'.receipt.None? && o'.floatReserved && o'.createdOffset.Some? && o'.createdOffset.value <= |log|
            && (CounterAccepted(u) in log[o'.createdOffset.value..] <==> CounterAccepted(u) in log))
  {
    ApplyFillOk(Loop, o, log, u);
    if IsDirect(log, u) {
      if Delivers(log, v) { DeliveryUnique(log, u, v); }
    } else {
      ScanComplete(log, u);
    }
    hide LogOk, CopyOk;
  }
}
