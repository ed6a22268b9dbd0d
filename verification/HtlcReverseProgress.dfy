/** What one call of a reverse order achieves when nothing else moves: where it acts, what it
    leaves on row and ledgers, and where it leaves everything alone. */
module HtlcReverseProgress {
  import opened Wrappers
  import opened HtlcCommands
  import opened HtlcReverseMachine
  import opened HtlcReverseSafety
  import opened HtlcReverseTheorems

  // ----- One worker alone -----

  function Goes(w: nat, choices: seq<Choice>): seq<Label> {
    seq(|choices|, i requires 0 <= i < |choices| => Go(w, choices[i]))
  }

  /** Worker `w` runs `call` from `s` to `t`, and nobody else moves. */
  ghost predicate Alone(cfg: Config, s: State, w: nat, call: Call, t: State) {
    exists choices: seq<Choice> :: Run(cfg, s, [Start(w, call)] + Goes(w, choices)) == Some(t)
  }

  lemma Begins(cfg: Config, s: State, w: nat, call: Call) returns (t: State)
    requires PcOf(s, w).Idle?
    ensures t == Move(s, w, StartPc(cfg, s.row, s.now, call)) && Alone(cfg, s, w, call, t)
  {
    hide StartPc, StepGo;
    t := Move(s, w, StartPc(cfg, s.row, s.now, call));
    RunOne(cfg, s, Start(w, call));
    assert [Start(w, call)] + Goes(w, []) == [Start(w, call)];
  }

  lemma Continues(cfg: Config, s: State, w: nat, call: Call, t: State, ch: Choice) returns (t': State)
    requires Alone(cfg, s, w, call, t) && StepGo(cfg, t, w, ch).Some?
    ensures t' == StepGo(cfg, t, w, ch).value && Alone(cfg, s, w, call, t')
  {
    hide StepGo, Run;
    var choices :| Run(cfg, s, [Start(w, call)] + Goes(w, choices)) == Some(t);
    t' := StepGo(cfg, t, w, ch).value;
    RunOne(cfg, t, Go(w, ch));
    RunAppend(cfg, s, [Start(w, call)] + Goes(w, choices), [Go(w, ch)]);
    assert [Start(w, call)] + Goes(w, choices + [ch]) == [Start(w, call)] + Goes(w, choices) + [Go(w, ch)];
  }

  /** Only an early refund, or the daemon, can be careless. */
  lemma {:induction false} GoesAreCareful(cfg: Config, s: State, w: nat, choices: seq<Choice>)
    ensures Clean(cfg, s, Goes(w, choices))
    decreases |choices|
  {
    if choices != [] {
      assert Goes(w, choices)[0] == Go(w, choices[0]) && Goes(w, choices)[1..] == Goes(w, choices[1..]);
      hide Step;
      if Step(cfg, s, Go(w, choices[0])).Some? {
        GoesAreCareful(cfg, Step(cfg, s, Go(w, choices[0])).value, w, choices[1..]);
      }
    }
  }

  lemma AloneIsCareful(cfg: Config, s: State, w: nat, call: Call, choices: seq<Choice>)
    requires call != EarlyRefund
    ensures Clean(cfg, s, [Start(w, call)] + Goes(w, choices))
  {
    var labels := [Start(w, call)] + Goes(w, choices);
    assert labels[0] == Start(w, call) && labels[1..] == Goes(w, choices);
    hide Step;
    if Step(cfg, s, labels[0]).Some? { GoesAreCareful(cfg, Step(cfg, s, labels[0]).value, w, choices); }
  }

  // ----- Where a call does nothing -----

  /** The rows and times a call acts on. */
  predicate Acts(cfg: Config, o: Row, now: nat, call: Call) {
    match call
    case Accept => o.status == Open
    case Cancel => o.status == Open || o.status == Accepted
    case Reserve => o.status == Accepted
    case ConfirmLock => o.status == MainLocking
    case ReleasePrelock => o.status == MainLocking && o.custody.None?
    case LateRefund =>
      now >= cfg.userTimelock && !o.revealed
      && (o.status == MainLocked || o.status == CounterLocking || o.status == CounterLocked || o.status == CounterClaimed
          || o.status == Refunding || (o.status == Failed && o.evmTx.Some?))
    case EarlyRefund =>
      cfg.loop && !o.revealed && o.custody.Some? && (o.status == MainLocked || o.status == Refunding)
    case ClaimMain => o.status == CounterLocked || o.status == CounterClaimed
    case RecordClaimed | ReconcilePhantom => o.status == CounterLocked
    case RecordLocked => o.status == MainLocked || o.status == CounterLocking
    case RecordRetake => o.status == CounterLocked && !o.revealed
    case MarkRefunded => o.status == MainLocked || o.status == CounterLocked
    case PatchProof => o.status == MainClaimed
    case Rewrite => true
  }

  lemma GoesOn(cfg: Config, s: State, w: nat, choices: seq<Choice>)
    requires choices != []
    ensures Run(cfg, s, Goes(w, choices)) == match StepGo(cfg, s, w, choices[0])
                                             case None => None
                                             case Some(s') => Run(cfg, s', Goes(w, choices[1..]))
  {
    hide StepGo;
    assert Goes(w, choices)[0] == Go(w, choices[0]) && Goes(w, choices)[1..] == Goes(w, choices[1..]);
  }

  lemma IdleStays(cfg: Config, s: State, w: nat, choices: seq<Choice>)
    requires PcOf(s, w).Idle? && Run(cfg, s, Goes(w, choices)).Some?
    ensures Run(cfg, s, Goes(w, choices)) == Some(s)
  {
    if choices != [] { GoesOn(cfg, s, w, choices); }
  }

  /** What follows the load of the row. */
  lemma AfterLoad(cfg: Config, s: State, w: nat, call: Call, t: State) returns (choices: seq<Choice>)
    requires Alone(cfg, s, w, call, t)
    ensures PcOf(s, w).Idle?
    ensures Run(cfg, Move(s, w, StartPc(cfg, s.row, s.now, call)), Goes(w, choices)) == Some(t)
  {
    hide StartPc, StepGo;
    choices :| Run(cfg, s, [Start(w, call)] + Goes(w, choices)) == Some(t);
    assert ([Start(w, call)] + Goes(w, choices))[1..] == Goes(w, choices);
  }

  /** On any other row the call ends at once: row, ledgers and clock stay as they are. */
  lemma NothingElsewhere(cfg: Config, s: State, w: nat, call: Call, t: State)
    requires Alone(cfg, s, w, call, t)
    ensures Acts(cfg, s.row, s.now, call) || t == Move(s, w, Idle)
  {
    hide Alone, Run;
    var choices := AfterLoad(cfg, s, w, call, t);
    if !Acts(cfg, s.row, s.now, call) { IdleStays(cfg, Move(s, w, Idle), w, choices); }
  }

  // ----- From a new order to custody -----

  lemma AcceptAccepts(cfg: Config, s: State, w: nat) returns (t: State)
    requires PcOf(s, w).Idle? && s.row.status == Open
    ensures Alone(cfg, s, w, Accept, t) && t == Move(s.(row := s.row.(status := Accepted)), w, Idle)
  {
    hide Alone;
    t := Begins(cfg, s, w, Accept);
    t := Continues(cfg, s, w, Accept, t, Proceed);
  }

  lemma CancelCancels(cfg: Config, s: State, w: nat) returns (t: State)
    requires PcOf(s, w).Idle? && (s.row.status == Open || s.row.status == Accepted)
    ensures Alone(cfg, s, w, Cancel, t) && t == Move(s.(row := s.row.(status := Cancelled)), w, Idle)
  {
    hide Alone;
    t := Begins(cfg, s, w, Cancel);
    t := Continues(cfg, s, w, Cancel, t, Proceed);
  }

  lemma ReserveReserves(cfg: Config, s: State, w: nat) returns (t: State)
    requires PcOf(s, w).Idle? && s.row.status == Accepted
    ensures Alone(cfg, s, w, Reserve, t) && t == Move(s.(row := s.row.(status := MainLocking)), w, Idle)
  {
    hide Alone;
    t := Begins(cfg, s, w, Reserve);
    t := Continues(cfg, s, w, Reserve, t, Proceed);
  }

  /** A custody that is not on the ledger yet is committed; one that is, is found. */
  lemma ConfirmSecures(cfg: Config, s: State, w: nat) returns (t: State, u: nat)
    requires PcOf(s, w).Idle? && s.row.status == MainLocking && LogOk(cfg, s.canton)
    ensures Alone(cfg, s, w, ConfirmLock, t) && IsCustody(cfg, t.canton, u)
    ensures t == Move(s.(row := s.row.(custody := Some(u), status := MainLocked), canton := t.canton), w, Idle)
    ensures t.canton == s.canton || t.canton == s.canton + [CustodyTx(cfg)]
  {
    hide Alone, LogOk, LockId, AtRefundSubmit, AtClaimScan, AtClaimSubmit, AtRecordScan, AtLockCheck, AtRetake, AtRetakeWrite,
         AtPatch, AtPhantomScan, AtClaimReveal;
    t := Begins(cfg, s, w, ConfirmLock);
    if Submit(s.canton, CustodyTx(cfg)).Some? {
      u := |s.canton|;
      t := Continues(cfg, s, w, ConfirmLock, t, Commit);
    } else {
      u :| 0 <= u < |s.canton| && s.canton[u].id == Some(LockId(cfg.order));
      LockFound(cfg, s.canton, u);
      t := Continues(cfg, s, w, ConfirmLock, t, Found(u));
    }
    t := Continues(cfg, s, w, ConfirmLock, t, Proceed);
  }

  lemma LockFound(cfg: Config, canton: Canton, u: nat)
    requires LogOk(cfg, canton) && CommittedAs(canton, u, LockId(cfg.order))
    ensures IsUpdate(canton, u, HtlcLocked)
  {
    IdsTellApart(cfg.order, cfg.order, Late, Early);
    hide LockId, ClaimId, RefundId;
    assert IdFits(cfg, canton[u]);
  }

  lemma ReleaseFails(cfg: Config, s: State, w: nat) returns (t: State)
    requires PcOf(s, w).Idle? && s.row.status == MainLocking && s.row.custody.None?
    ensures Alone(cfg, s, w, ReleasePrelock, t) && t == Move(s.(row := s.row.(status := Failed)), w, Idle)
  {
    hide Alone;
    t := Begins(cfg, s, w, ReleasePrelock);
    t := Continues(cfg, s, w, ReleasePrelock, t, Proceed);
  }

  // ----- The lock and the claim of the WBTC -----

  lemma LockRecorded(cfg: Config, s: State, w: nat, i: nat) returns (t: State)
    requires PcOf(s, w).Idle? && (s.row.status == CounterLocking || s.row.status == MainLocked)
    requires IsEvent(s.evm, i, Locked) && Live(s.evm)
    ensures Alone(cfg, s, w, RecordLocked, t)
    ensures t == Move(s.(row := s.row.(lockTx := Some(i), status := CounterLocked)), w, Idle)
  {
    hide Alone, Live;
    t := Begins(cfg, s, w, RecordLocked);
    t := Continues(cfg, s, w, RecordLocked, t, Found(i));
    t := Continues(cfg, s, w, RecordLocked, t, Proceed);
  }

  /** A lock that is not final yet keeps the order in `counter_locking`. */
  lemma LockAwaited(cfg: Config, s: State, w: nat, i: nat) returns (t: State)
    requires PcOf(s, w).Idle? && (s.row.status == CounterLocking || s.row.status == MainLocked)
    requires IsEvent(s.evm, i, Locked) && Live(s.evm)
    ensures Alone(cfg, s, w, RecordLocked, t)
    ensures t == Move(s.(row := s.row.(lockTx := Some(i), status := CounterLocking)), w, Idle)
  {
    hide Alone, Live;
    t := Begins(cfg, s, w, RecordLocked);
    t := Continues(cfg, s, w, RecordLocked, t, Awaiting(i));
    t := Continues(cfg, s, w, RecordLocked, t, Proceed);
  }

  /** A lock that is no longer live is not recorded. */
  lemma DeadLockIgnored(cfg: Config, s: State, w: nat, t: State)
    requires Alone(cfg, s, w, RecordLocked, t) && !Live(s.evm)
    ensures t.row == s.row && t.canton == s.canton && t.evm == s.evm
  {
    hide Alone, Run, Live;
    var choices := AfterLoad(cfg, s, w, RecordLocked, t);
    var s1 := Move(s, w, StartPc(cfg, s.row, s.now, RecordLocked));
    if PcOf(s1, w).Idle? {
      IdleStays(cfg, s1, w, choices);
    } else if choices == [] {
      NoGoes(cfg, s1, w);
    } else {
      GoesOn(cfg, s1, w, choices);
      IdleStays(cfg, Move(s1, w, Idle), w, choices[1..]);
    }
  }

  lemma ClaimRecorded(cfg: Config, s: State, w: nat, j: nat) returns (t: State)
    requires PcOf(s, w).Idle? && s.row.status == CounterLocked && IsEvent(s.evm, j, Claimed) && ClaimSeen(s.evm, s.row)
    ensures Alone(cfg, s, w, RecordClaimed, t)
    ensures t == Move(s.(row := s.row.(status := CounterClaimed, revealed := true, evmTx := Some(j))), w, Idle)
  {
    hide Alone, ClaimSeen;
    t := Begins(cfg, s, w, RecordClaimed);
    t := Continues(cfg, s, w, RecordClaimed, t, Found(j));
    t := Continues(cfg, s, w, RecordClaimed, t, Proceed);
  }

  /** reconcilePhantomEvmCounterLock: claimed, retaken, or still locked. */
  lemma PhantomResolved(cfg: Config, s: State, w: nat) returns (t: State)
    requires PcOf(s, w).Idle? && s.row.status == CounterLocked
    ensures Alone(cfg, s, w, ReconcilePhantom, t)
    ensures t == Move(s.(row := if Live(s.evm) then s.row
                                else if ClaimSeen(s.evm, s.row) then s.row.(status := CounterClaimed)
                                else s.row.(status := MainLocked, lockTx := None)), w, Idle)
  {
    hide Alone, ClaimSeen, Live, AtRefundSubmit, AtConfirming, AtClaimScan, AtClaimSubmit, AtRecordScan, AtLockCheck, AtRetake,
         AtRetakeWrite, AtPatch, AtClaimReveal;
    t := Begins(cfg, s, w, ReconcilePhantom);
    t := Continues(cfg, s, w, ReconcilePhantom, t, Proceed);
    if !Live(s.evm) {
      t := Continues(cfg, s, w, ReconcilePhantom, t, Proceed);
      t := Continues(cfg, s, w, ReconcilePhantom, t, Proceed);
    }
  }

  /** The retake is recorded; before userTimelock the order fails, and can then be refunded late. */
  lemma RetakeRecorded(cfg: Config, s: State, w: nat, j: nat) returns (t: State)
    requires PcOf(s, w).Idle? && s.row.status == CounterLocked && !s.row.revealed && IsEvent(s.evm, j, Retaken)
    ensures Alone(cfg, s, w, RecordRetake, t)
    ensures t == Move(s.(row := s.row.(evmTx := Some(j),
                                       status := if s.now >= cfg.userTimelock then CounterLocked else Failed)), w, Idle)
  {
    hide Alone, AtRefundSubmit, AtConfirming, AtClaimScan, AtClaimSubmit, AtRecordScan, AtLockCheck, AtPatch, AtPhantomScan,
         AtClaimReveal;
    t := Begins(cfg, s, w, RecordRetake);
    t := Continues(cfg, s, w, RecordRetake, t, Found(j));
    t := Continues(cfg, s, w, RecordRetake, t, Proceed);
    if s.now < cfg.userTimelock { t := Continues(cfg, s, w, RecordRetake, t, Proceed); }
  }

  lemma MarkMarks(cfg: Config, s: State, w: nat) returns (t: State)
    requires PcOf(s, w).Idle? && (s.row.status == MainLocked || s.row.status == CounterLocked)
    ensures Alone(cfg, s, w, MarkRefunded, t)
    ensures t == Move(s.(row := s.row.(status := Refunded), marked := true), w, Idle)
  {
    hide Alone;
    t := Begins(cfg, s, w, MarkRefunded);
    t := Continues(cfg, s, w, MarkRefunded, t, Proceed);
  }

  lemma ProofPatched(cfg: Config, s: State, w: nat, j: nat) returns (t: State)
    requires PcOf(s, w).Idle? && s.row.status == MainClaimed && IsEvent(s.evm, j, Claimed)
    ensures Alone(cfg, s, w, PatchProof, t) && t == Move(s.(row := s.row.(evmTx := Some(j))), w, Idle)
  {
    hide Alone;
    t := Begins(cfg, s, w, PatchProof);
    t := Continues(cfg, s, w, PatchProof, t, Found(j));
    t := Continues(cfg, s, w, PatchProof, t, Proceed);
  }

  // ----- The refunds -----

  /** The row and ledger after the return: it commits unless it had committed before. */
  function Returned(cfg: Config, s: State, w: nat, u: nat): State {
    Move(s.(row := s.row.(status := Refunded, result := Some(Committed(u))), canton := ReturnLog(cfg, s.canton)), w, Idle)
  }

  /** Custody that the solver did not take can be returned, or was. */
  lemma CanReturn(cfg: Config, s: State, e: Entry)
    requires Reachable(cfg, s) && s.row.custody.Some? && (cfg.loop || Claimed !in s.evm)
    ensures Has(s.canton, Refund) || CanRefund(cfg, s.canton, e)
    ensures LogOk(cfg, s.canton)
  {
    hide Run, Reachable;
    ReachableInv(cfg, s);
    SplitWorld(cfg, s);
    hide Inv;
    RefundUnused(cfg, s.canton, e);
    assert IsCustody(cfg, s.canton, s.row.custody.value);
  }

  /** A claim is after the recorded lock. */
  lemma ScanSeesClaim(cfg: Config, s: State)
    requires Reachable(cfg, s)
    ensures Claimed in s.evm <==> ClaimSeen(s.evm, s.row)
  {
    hide Run, Reachable;
    ReachableInv(cfg, s);
    SplitWorld(cfg, s);
    hide Inv, LogOk, TakingOk;
    if Claimed in s.evm { assert s.evm[1] == Claimed; }
  }

  lemma TakesRow(cfg: Config, s: State, w: nat, call: Call, e: Entry, t: State) returns (t': State)
    requires Alone(cfg, s, w, call, t) && t == Move(s, w, RefundCas(s.row, e))
    ensures Alone(cfg, s, w, call, t')
    ensures var owned := s.row.(status := Refunding);
      t' == Move(s.(row := owned), w, RefundSubmit(owned, s.row.status, e))
  {
    AtCas(cfg, t, w, s.row, e);
    hide Alone, StepGo;
    t' := Continues(cfg, s, w, call, t, Proceed);
    assert t'.pcs == s.pcs[w := PcOf(t', w)];
  }

  /** The awaits from the reservation of `refunding` on. */
  lemma PaysBack(cfg: Config, s: State, w: nat, call: Call, e: Entry, t: State) returns (t': State, u: nat)
    requires Alone(cfg, s, w, call, t) && t == Move(s, w, RefundCas(s.row, e)) && s.row.custody.Some?
    requires LogOk(cfg, s.canton) && (Has(s.canton, Refund) || CanRefund(cfg, s.canton, e))
    ensures Alone(cfg, s, w, call, t') && t' == Returned(cfg, s, w, u) && IsUpdate(t'.canton, u, Refund)
  {
    hide RefundId, StepGo, Alone;
    var ch: Choice;
    if Has(s.canton, Refund) {
      u :| 0 <= u < |s.canton| && s.canton[u].what == Refund;
      ch := Duplicate(u);
      RefundFound(cfg, s.canton, u, e);
    } else {
      u, ch := |s.canton|, Commit;
    }
    ReturnIsUpdate(cfg, s.canton, u);
    hide LogOk, CanRefund, Has, CommittedAs, ReturnLog, IsUpdate;
    t' := TakesRow(cfg, s, w, call, e, t);
    var owned := s.row.(status := Refunding);
    t' := SubmitsReturn(cfg, s, w, call, e, t', ch, u, owned);
    t' := WritesReturn(cfg, s, w, call, e, t', owned, s.row.(status := Refunded, result := Some(Committed(u))),
                       ReturnLog(cfg, s.canton));
  }

  function ReturnTx(cfg: Config): Tx<Update> {
    Tx(Some("htlc-refund-main-" + cfg.order), Refund)
  }

  /** The answers of the ledger: it commits the return, or finds the one that had committed. */
  lemma ReturnSubmitted(cfg: Config, t: State, w: nat, o: Row, prev: Status, e: Entry, ch: Choice, u: nat)
    requires o.custody.Some?
    requires (ch == Duplicate(u) && CommittedAs(t.canton, u, RefundId(cfg.order, e)))
             || (ch == Commit && CanRefund(cfg, t.canton, e) && u == |t.canton|)
    ensures var done := o.(status := Refunded, result := Some(Committed(u)));
      AtRefundSubmit(cfg, t, w, o, prev, e, ch)
      == Some(Move(if ch == Commit then t.(canton := t.canton + [ReturnTx(cfg)]) else t, w, RefundWrite(done, e)))
  {
    hide CanRefund;
  }

  /** The ledger once return `u` is on it. */
  function ReturnLog(cfg: Config, canton: Canton): Canton {
    if Has(canton, Refund) then canton else canton + [ReturnTx(cfg)]
  }

  lemma SubmitsReturn(cfg: Config, s: State, w: nat, call: Call, e: Entry, t: State, ch: Choice, u: nat, owned: Row)
    returns (t': State)
    requires Alone(cfg, s, w, call, t) && owned.custody.Some?
    requires t == Move(s.(row := owned), w, RefundSubmit(owned, s.row.status, e))
    requires (ch == Duplicate(u) && Has(s.canton, Refund) && CommittedAs(s.canton, u, RefundId(cfg.order, e)))
             || (ch == Commit && !Has(s.canton, Refund) && CanRefund(cfg, s.canton, e) && u == |s.canton|)
    ensures Alone(cfg, s, w, call, t')
    ensures t' == Move(s.(row := owned, canton := ReturnLog(cfg, s.canton)), w,
                       RefundWrite(owned.(status := Refunded, result := Some(Committed(u))), e))
  {
    hide Alone, CanRefund, Has, CommittedAs, StepGo, AtRefundSubmit, RefundId, ReturnTx;
    ReturnSubmitted(cfg, t, w, owned, s.row.status, e, ch, u);
    AtSubmit(cfg, t, w, owned, s.row.status, e, ch);
    t' := Continues(cfg, s, w, call, t, ch);
    assert t'.pcs == s.pcs[w := PcOf(t', w)];
  }

  lemma WritesReturn(cfg: Config, s: State, w: nat, call: Call, e: Entry, t: State, owned: Row, done: Row, log': Canton)
    returns (t': State)
    requires Alone(cfg, s, w, call, t) && owned.status == Refunding
    requires t == Move(s.(row := owned, canton := log'), w, RefundWrite(done, e))
    ensures Alone(cfg, s, w, call, t') && t' == Move(s.(row := done, canton := log'), w, Idle)
  {
    AtWrite(cfg, t, w, done, e);
    hide Alone, StepGo;
    t' := Continues(cfg, s, w, call, t, Proceed);
    assert t'.pcs == s.pcs[w := Idle];
  }

  lemma ReturnIsUpdate(cfg: Config, canton: Canton, u: nat)
    requires if Has(canton, Refund) then IsUpdate(canton, u, Refund) else u == |canton|
    ensures IsUpdate(ReturnLog(cfg, canton), u, Refund)
  {
    hide Has;
  }

  lemma AtCas(cfg: Config, t: State, w: nat, o: Row, e: Entry)
    requires PcOf(t, w) == RefundCas(o, e) && t.row.status == o.status
    ensures var owned := o.(status := Refunding);
      StepGo(cfg, t, w, Proceed) == Some(Move(t.(row := owned), w, RefundSubmit(owned, o.status, e)))
  {
  }

  lemma AtSubmit(cfg: Config, t: State, w: nat, o: Row, prev: Status, e: Entry, ch: Choice)
    requires PcOf(t, w) == RefundSubmit(o, prev, e)
    ensures StepGo(cfg, t, w, ch) == AtRefundSubmit(cfg, t, w, o, prev, e, ch)
  {
  }

  lemma AtWrite(cfg: Config, t: State, w: nat, o: Row, e: Entry)
    requires PcOf(t, w) == RefundWrite(o, e)
    ensures StepGo(cfg, t, w, Proceed) == Some(Move(PutIfStatus(t, o, Refunding), w, Idle))
  {
  }

  /** refundMainCanton, whatever status it starts from: past userTimelock, with no lock live and no
      claim, the order ends `refunded` with the id of the one return. */
  lemma LateRefundFinishes(cfg: Config, s: State, w: nat) returns (t: State, u: nat)
    requires Reachable(cfg, s) && PcOf(s, w).Idle?
    requires s.row.status == MainLocked || s.row.status == CounterLocking || s.row.status == CounterLocked
             || s.row.status == CounterClaimed || s.row.status == Refunding
             || (s.row.status == Failed && s.row.evmTx.Some?)
    requires s.row.custody.Some? && !s.row.revealed && s.now >= cfg.userTimelock
    requires !Live(s.evm) && !ClaimSeen(s.evm, s.row)
    ensures Alone(cfg, s, w, LateRefund, t) && t == Returned(cfg, s, w, u) && IsUpdate(t.canton, u, Refund)
  {
    ScanSeesClaim(cfg, s);
    CanReturn(cfg, s, Late);
    hide Alone, Reachable, LogOk, CanRefund, Live, ClaimSeen, Has, Returned;
    t := Begins(cfg, s, w, LateRefund);
    t := Continues(cfg, s, w, LateRefund, t, Proceed);
    assert t == Move(s, w, LateScan(s.row));
    t := Continues(cfg, s, w, LateRefund, t, Proceed);
    assert t == Move(s, w, RefundCas(s.row, Late));
    t, u := PaysBack(cfg, s, w, LateRefund, Late, t);
  }

  /** earlyRefundLoopCustody from `main_locked` or `refunding`, with no lock live. */
  lemma EarlyRefundFinishes(cfg: Config, s: State, w: nat) returns (t: State, u: nat)
    requires Reachable(cfg, s) && PcOf(s, w).Idle? && cfg.loop
    requires s.row.status == MainLocked || s.row.status == Refunding
    requires s.row.custody.Some? && !s.row.revealed && !Live(s.evm)
    ensures Alone(cfg, s, w, EarlyRefund, t) && t == Returned(cfg, s, w, u) && IsUpdate(t.canton, u, Refund)
  {
    CanReturn(cfg, s, Early);
    hide Alone, Reachable, LogOk, CanRefund, Live, ClaimSeen, Has, Returned;
    t := Begins(cfg, s, w, EarlyRefund);
    t := Continues(cfg, s, w, EarlyRefund, t, Proceed);
    assert t == Move(s, w, RefundCas(s.row, Early));
    t, u := PaysBack(cfg, s, w, EarlyRefund, Early, t);
  }

  /** A late refund that finds a live lock, or a claim, leaves row and ledgers alone. */
  lemma LateRefundStops(cfg: Config, s: State, w: nat, t: State)
    requires Alone(cfg, s, w, LateRefund, t) && (Live(s.evm) || ClaimSeen(s.evm, s.row))
    ensures t.row == s.row && t.canton == s.canton && t.evm == s.evm
  {
    hide Alone, Run, Live, ClaimSeen;
    var choices := AfterLoad(cfg, s, w, LateRefund, t);
    var s1 := Move(s, w, StartPc(cfg, s.row, s.now, LateRefund));
    if PcOf(s1, w).Idle? {
      IdleStays(cfg, s1, w, choices);
    } else if choices == [] {
      NoGoes(cfg, s1, w);
    } else {
      GoesOn(cfg, s1, w, choices);
      StopsFromLock(cfg, s, Move(s1, w, if Live(s.evm) then Idle else LateScan(s.row)), w, choices[1..], t);
    }
  }

  lemma NoGoes(cfg: Config, s: State, w: nat)
    ensures Run(cfg, s, Goes(w, [])) == Some(s)
  {
  }

  lemma StopsFromLock(cfg: Config, s: State, s1: State, w: nat, choices: seq<Choice>, t: State)
    requires s1.row == s.row && s1.canton == s.canton && s1.evm == s.evm
    requires PcOf(s1, w).Idle? || (PcOf(s1, w) == LateScan(s.row) && ClaimSeen(s.evm, s.row))
    requires Run(cfg, s1, Goes(w, choices)) == Some(t)
    ensures t.row == s.row && t.canton == s.canton && t.evm == s.evm
  {
    hide Run, ClaimSeen;
    if PcOf(s1, w).Idle? {
      IdleStays(cfg, s1, w, choices);
    } else if choices == [] {
      NoGoes(cfg, s1, w);
    } else {
      GoesOn(cfg, s1, w, choices);
      IdleStays(cfg, Move(s1, w, Idle), w, choices[1..]);
    }
  }

  /** So an undisturbed late refund can return the CBTC if and only if the row is one of six statuses
      past userTimelock and the escrow holds neither a live lock nor a claim. */
  lemma LateRefundIff(cfg: Config, s: State, w: nat)
    requires Reachable(cfg, s) && PcOf(s, w).Idle? && s.row.status != Refunded && s.row.custody.Some?
    ensures (exists t :: Alone(cfg, s, w, LateRefund, t) && t.row.status == Refunded)
            <==> Acts(cfg, s.row, s.now, LateRefund) && !Live(s.evm) && Claimed !in s.evm
  {
    hide Alone, Reachable, Live, ClaimSeen;
    ScanSeesClaim(cfg, s);
    if Acts(cfg, s.row, s.now, LateRefund) && !Live(s.evm) && Claimed !in s.evm {
      var t, u := LateRefundFinishes(cfg, s, w);
    } else {
      forall t | Alone(cfg, s, w, LateRefund, t) ensures t.row.status != Refunded {
        NothingElsewhere(cfg, s, w, LateRefund, t);
        if Live(s.evm) || ClaimSeen(s.evm, s.row) { LateRefundStops(cfg, s, w, t); }
      }
    }
  }

  /** An early refund that finds a live lock stops there. */
  lemma EarlyRefundStops(cfg: Config, s: State, w: nat, t: State)
    requires Alone(cfg, s, w, EarlyRefund, t) && Live(s.evm)
    ensures t.row == s.row && t.canton == s.canton && t.evm == s.evm
  {
    hide Alone, Run, Live, ClaimSeen;
    var choices := AfterLoad(cfg, s, w, EarlyRefund, t);
    var s1 := Move(s, w, StartPc(cfg, s.row, s.now, EarlyRefund));
    if PcOf(s1, w).Idle? {
      IdleStays(cfg, s1, w, choices);
    } else if choices == [] {
      NoGoes(cfg, s1, w);
    } else {
      GoesOn(cfg, s1, w, choices);
      IdleStays(cfg, Move(s1, w, Idle), w, choices[1..]);
    }
  }

  /** The same equivalence for the early refund: a Loop order, `main_locked` or `refunding`, not revealed,
      and no lock live. */
  lemma EarlyRefundIff(cfg: Config, s: State, w: nat)
    requires Reachable(cfg, s) && PcOf(s, w).Idle? && s.row.status != Refunded && s.row.custody.Some?
    ensures (exists t :: Alone(cfg, s, w, EarlyRefund, t) && t.row.status == Refunded)
            <==> cfg.loop && (s.row.status == MainLocked || s.row.status == Refunding) && !s.row.revealed && !Live(s.evm)
  {
    hide Alone, Reachable, Live;
    if Acts(cfg, s.row, s.now, EarlyRefund) && !Live(s.evm) {
      var t, u := EarlyRefundFinishes(cfg, s, w);
    } else {
      forall t | Alone(cfg, s, w, EarlyRefund, t) ensures t.row.status != Refunded {
        NothingElsewhere(cfg, s, w, EarlyRefund, t);
        if Live(s.evm) { EarlyRefundStops(cfg, s, w, t); }
      }
    }
  }

  // ----- The solver's side -----

  /** The claim of the HtlcLock commits, or had committed; from custody there is nothing to submit. */
  lemma ClaimSubmitted(cfg: Config, t: State, w: nat, o: Row) returns (ch: Choice, u: nat)
    requires o.custody.Some? && LogOk(cfg, t.canton) && (cfg.loop || Has(t.canton, Claim) || CanClaim(cfg, t.canton))
    ensures var done := o.(status := MainClaimed, revealed := true, result := Some(Committed(u)));
      AtClaimSubmit(cfg, t, w, o, ch) == Some(Move(t.(canton := ClaimLog(cfg, t.canton)), w, Write(done, o.status)))
    ensures if cfg.loop then Some(u) == o.custody else IsUpdate(ClaimLog(cfg, t.canton), u, Claim)
  {
    if cfg.loop {
      ch, u := Proceed, o.custody.value;
    } else if Has(t.canton, Claim) {
      u :| 0 <= u < |t.canton| && t.canton[u].what == Claim;
      ClaimFound(cfg, t.canton, u);
      ch := Found(u);
    } else {
      ch, u := Commit, |t.canton|;
    }
    hide LogOk, CanClaim;
  }

  function ClaimLog(cfg: Config, canton: Canton): Canton {
    if cfg.loop || Has(canton, Claim) then canton else canton + [Tx(Some("htlc-claim-main-" + cfg.order), Claim)]
  }

  /** The row after a settled claim `j`. */
  function Taken(o: Row, j: nat, u: nat): Row {
    o.(status := MainClaimed, revealed := true, evmTx := Some(j), result := Some(Committed(u)))
  }

  /** claimMainAsSolver: once the user claimed the WBTC, the order ends `main_claimed`; a managed order
      by the solver's claim of the HtlcLock, a Loop one by the custody the solver holds already. */
  lemma ClaimTakes(cfg: Config, s: State, w: nat, j: nat) returns (t: State, u: nat)
    requires PcOf(s, w).Idle? && (s.row.status == CounterLocked || s.row.status == CounterClaimed)
    requires IsEvent(s.evm, j, Claimed) && (s.row.evmTx.None? || s.row.evmTx == Some(j)) && s.row.custody.Some?
    requires LogOk(cfg, s.canton) && (cfg.loop || Has(s.canton, Claim) || CanClaim(cfg, s.canton))
    ensures Alone(cfg, s, w, ClaimMain, t)
    ensures t == Move(s.(row := Taken(s.row, j, u), canton := ClaimLog(cfg, s.canton)), w, Idle)
    ensures if cfg.loop then Some(u) == s.row.custody else IsUpdate(t.canton, u, Claim)
  {
    hide LogOk, CanClaim, ClaimLog, Has;
    var o: Row;
    t, o := ToClaimSubmit(cfg, s, w, j);
    hide Alone;
    var ch: Choice;
    ch, u := ClaimSubmitted(cfg, t, w, o);
    AtClaim(cfg, t, w, o, ch);
    hide StepGo, AtClaimSubmit, IsUpdate;
    t := Continues(cfg, s, w, ClaimMain, t, ch);
    t := WritesTaken(cfg, s, w, t, o, j, u);
  }

  lemma AtClaim(cfg: Config, t: State, w: nat, o: Row, ch: Choice)
    requires PcOf(t, w) == ClaimSubmit(o)
    ensures StepGo(cfg, t, w, ch) == AtClaimSubmit(cfg, t, w, o, ch)
  {
  }

  /** The reveal is on the row before the claim is submitted. */
  lemma ToClaimSubmit(cfg: Config, s: State, w: nat, j: nat) returns (t: State, o: Row)
    requires PcOf(s, w).Idle? && (s.row.status == CounterLocked || s.row.status == CounterClaimed)
    requires IsEvent(s.evm, j, Claimed) && (s.row.evmTx.None? || s.row.evmTx == Some(j))
    ensures Alone(cfg, s, w, ClaimMain, t) && t == Move(s.(row := t.row), w, ClaimSubmit(o))
    ensures t.row.status == CounterClaimed && o == s.row.(evmTx := Some(j), status := CounterClaimed, revealed := true)
    ensures t.row == o || (t.row == s.row && s.row.revealed)
  {
    hide Alone, StepGo;
    t := Begins(cfg, s, w, ClaimMain);
    AtFound(cfg, t, w, s.row, j);
    t := Continues(cfg, s, w, ClaimMain, t, Found(j));
    o := s.row.(evmTx := Some(j), status := CounterClaimed, revealed := true);
    assert t.pcs == s.pcs[w := PcOf(t, w)];
    if PcOf(t, w).ClaimReveal? {
      AtReveal(cfg, t, w, o, s.row.status);
      t := Continues(cfg, s, w, ClaimMain, t, Proceed);
      assert t.pcs == s.pcs[w := ClaimSubmit(o)];
    }
  }

  lemma AtFound(cfg: Config, t: State, w: nat, o: Row, j: nat)
    requires PcOf(t, w) == ClaimScan(o) && IsEvent(t.evm, j, Claimed) && (o.evmTx.None? || o.evmTx == Some(j))
    requires o.status == CounterLocked || o.status == CounterClaimed
    ensures var o' := o.(evmTx := Some(j), status := CounterClaimed, revealed := true);
      StepGo(cfg, t, w, Found(j)) == Some(Move(t, w, if o.revealed && o.status == CounterClaimed then ClaimSubmit(o')
                                                     else ClaimReveal(o', o.status)))
  {
  }

  lemma AtReveal(cfg: Config, t: State, w: nat, o: Row, expected: Status)
    requires PcOf(t, w) == ClaimReveal(o, expected) && t.row.status == expected
    ensures StepGo(cfg, t, w, Proceed) == Some(Move(t.(row := o), w, ClaimSubmit(o)))
  {
  }

  lemma WritesTaken(cfg: Config, s: State, w: nat, t: State, o: Row, j: nat, u: nat) returns (t': State)
    requires Alone(cfg, s, w, ClaimMain, t) && t.row.status == CounterClaimed && o.status == CounterClaimed
    requires o == s.row.(evmTx := Some(j), status := CounterClaimed, revealed := true)
    requires PcOf(t, w) == Write(o.(status := MainClaimed, revealed := true, result := Some(Committed(u))), CounterClaimed)
    requires t == s.(row := t.row, canton := t.canton, pcs := t.pcs) && t.pcs[w := Idle] == s.pcs[w := Idle]
    ensures Alone(cfg, s, w, ClaimMain, t') && t' == Move(s.(row := Taken(s.row, j, u), canton := t.canton), w, Idle)
  {
    hide Alone, AtConfirming, AtRefundSubmit, AtClaimSubmit, AtRecordScan, AtLockCheck, AtRetake, AtRetakeWrite, AtPatch,
         AtPhantomScan, AtClaimScan, AtClaimReveal;
    t' := Continues(cfg, s, w, ClaimMain, t, Proceed);
  }

  // ----- Whole orders -----

  ghost predicate CanGet(cfg: Config, s: State, t: State) {
    exists labels: seq<Label> :: Run(cfg, s, labels) == Some(t)
  }

  lemma GetsAlone(cfg: Config, from: State, s: State, w: nat, call: Call, t: State)
    requires CanGet(cfg, from, s) && Alone(cfg, s, w, call, t)
    ensures CanGet(cfg, from, t)
  {
    hide Run;
    var before :| Run(cfg, from, before) == Some(s);
    var choices :| Run(cfg, s, [Start(w, call)] + Goes(w, choices)) == Some(t);
    RunAppend(cfg, from, before, [Start(w, call)] + Goes(w, choices));
  }

  lemma GetsStep(cfg: Config, from: State, s: State, l: Label) returns (t: State)
    requires CanGet(cfg, from, s) && Step(cfg, s, l).Some?
    ensures t == Step(cfg, s, l).value && CanGet(cfg, from, t)
  {
    hide Run, Step;
    var before :| Run(cfg, from, before) == Some(s);
    RunAppend(cfg, from, before, [l]);
    RunOne(cfg, s, l);
    t := Step(cfg, s, l).value;
  }

  /** Nobody but the escrow writes its log: a sent lock lands and the user claims before solverTimelock,
      the solver retakes from it on, and claim and retake spend a live lock. */
  lemma EscrowMoves(cfg: Config, s: State, l: Label)
    requires Step(cfg, s, l).Some?
    ensures var s' := Step(cfg, s, l).value;
      || s'.evm == s.evm
      || (s'.evm == s.evm + [Locked] && s.sending && !s'.sending && !Live(s.evm) && s.now < cfg.solverTimelock)
      || (s'.evm == s.evm + [Claimed] && Live(s.evm) && s.now < cfg.solverTimelock)
      || (s'.evm == s.evm + [Retaken] && Live(s.evm) && s.now >= cfg.solverTimelock)
  {
    hide StepGo, StartPc, Live;
    if l.Go? { GoFrames(cfg, s, l.w, l.choice); }
  }

  /** What clock, daemon and escrow may do, for any state: they are not held back. */
  lemma OthersMayMove(cfg: Config, s: State)
    ensures Step(cfg, s, Tick) == Some(s.(now := s.now + 1)) && Step(cfg, s, DaemonCrash) == Some(s.(daemon := Resting))
    ensures s.sending ==> Step(cfg, s, LockReverts) == Some(s.(sending := false))
    ensures s.sending && !Live(s.evm) && s.now < cfg.solverTimelock ==>
              Step(cfg, s, LockLands) == Some(s.(sending := false, evm := s.evm + [Locked]))
    ensures s.evm != [] && s.evm[|s.evm| - 1] == Locked ==>
              if s.now < cfg.solverTimelock then Step(cfg, s, UserClaims) == Some(s.(evm := s.evm + [Claimed]))
              else Step(cfg, s, SolverRetakes) == Some(s.(evm := s.evm + [Retaken]))
    ensures s.row.status == CounterLocking && !s.daemon.Aborting? && !Live(s.evm) ==>
              Step(cfg, s, Abort) == Some(s.(daemon := Aborting(s.row)))
    ensures s.daemon.Aborting? && s.row.status == CounterLocking ==>
              Step(cfg, s, AbortWrite) == Some(s.(row := s.daemon.o.(status := MainLocked), daemon := Resting))
  {
  }

  /** The daemon locks the WBTC of an order that is `main_locked`. */
  lemma DaemonLocks(cfg: Config, from: State, s: State) returns (t: State)
    requires CanGet(cfg, from, s) && s.row.status == MainLocked && s.daemon.Resting? && !s.sending && s.evm == []
    requires s.now < cfg.solverTimelock
    ensures CanGet(cfg, from, t) && t == s.(row := s.row.(status := CounterLocking), evm := [Locked])
  {
    hide CanGet;
    t := GetsStep(cfg, from, s, Begin);
    t := GetsStep(cfg, from, t, Send);
    t := GetsStep(cfg, from, t, LockLands);
  }

  /** The user's CBTC is in custody. */
  lemma OrderSecured(cfg: Config) returns (t: State, u: nat)
    ensures CanGet(cfg, Init, t) && IsCustody(cfg, t.canton, u)
    ensures t.row == NewRow.(status := MainLocked, custody := Some(u)) && t.canton == [CustodyTx(cfg)]
    ensures t == Init.(row := t.row, canton := t.canton, pcs := map[0 := Idle])
  {
    assert CanGet(cfg, Init, Init) by { assert Run(cfg, Init, []) == Some(Init); }
    hide CanGet, Alone, LockId, StepGo, StartPc;
    var s := Init;
    t := AcceptAccepts(cfg, s, 0);
    GetsAlone(cfg, Init, s, 0, Accept, t);
    s := t;
    t := ReserveReserves(cfg, s, 0);
    GetsAlone(cfg, Init, s, 0, Reserve, t);
    s := t;
    t, u := ConfirmSecures(cfg, s, 0);
    GetsAlone(cfg, Init, s, 0, ConfirmLock, t);
  }

  /** From a new order to both legs exchanged. */
  lemma OrderCompletes(cfg: Config) returns (t: State)
    requires cfg.solverTimelock > 0
    ensures CanGet(cfg, Init, t) && t.row.status == MainClaimed && t.evm == [Locked, Claimed]
    ensures !Has(t.canton, Refund) && (!cfg.loop ==> Has(t.canton, Claim))
  {
    var u: nat;
    t, u := OrderSecured(cfg);
    hide CanGet, Alone, StepGo, StartPc, LockId, ClaimId, RefundId;
    t := DaemonLocks(cfg, Init, t);
    var s := t;
    t := LockRecorded(cfg, s, 0, 0);
    GetsAlone(cfg, Init, s, 0, RecordLocked, t);
    t := GetsStep(cfg, Init, t, UserClaims);
    t := OrderClaimed(cfg, t);
  }

  lemma OrderClaimed(cfg: Config, s: State) returns (t: State)
    requires CanGet(cfg, Init, s) && s.row.status == CounterLocked && s.row.evmTx.None? && s.row.custody.Some?
    requires s.evm == [Locked, Claimed] && s.canton == [CustodyTx(cfg)] && PcOf(s, 0).Idle?
    ensures CanGet(cfg, Init, t) && t.row.status == MainClaimed && t.evm == [Locked, Claimed]
    ensures !Has(t.canton, Refund) && (!cfg.loop ==> Has(t.canton, Claim))
  {
    NewLogOk(cfg);
    hide CanGet, Alone, StepGo, StartPc, LockId, ClaimId, RefundId, LogOk;
    var u: nat;
    t, u := ClaimTakes(cfg, s, 0, 1);
    GetsAlone(cfg, Init, s, 0, ClaimMain, t);
  }

  lemma NewLogOk(cfg: Config)
    ensures LogOk(cfg, [CustodyTx(cfg)]) && !Has([CustodyTx(cfg)], Refund)
    ensures cfg.loop || CanClaim(cfg, [CustodyTx(cfg)])
  {
    IdsTellApart(cfg.order, cfg.order, Late, Early);
    hide LockId, ClaimId, RefundId;
    assert !cfg.loop ==> [CustodyTx(cfg)][0].what == HtlcLocked;
  }
}
