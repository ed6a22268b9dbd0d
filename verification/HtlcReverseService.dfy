/** The reverse half of the HTLC service, as the source writes it: a method loads the row,
    reassigns its fields on a local copy, and awaits the database or a ledger while every
    other call, the daemon and the escrow do whatever the machine allows. `trace` is the run so
    far, so the theorems about runs hold at every await; only the early refund also asks whether
    that run was careful. */
module HtlcReverseService {
  import opened Wrappers
  import opened HtlcCommands
  import opened HtlcReverseMachine
  import opened HtlcReverseSafety
  import opened HtlcReverseCare
  import opened HtlcReverseTheorems

  predicate LeavesAlone(w: nat, l: Label) {
    (l.Start? || l.Go? || l.Crash?) ==> l.w != w
  }

  /** A step of another worker: `w` stays where it is. */
  lemma OtherStep(cfg: Config, s: State, w: nat, l: Label)
    requires LeavesAlone(w, l) && Step(cfg, s, l).Some?
    ensures PcOf(Step(cfg, s, l).value, w) == PcOf(s, w)
  {
    StepFramed(cfg, s, l);
    hide Step;
  }

  lemma {:induction false} OtherSteps(cfg: Config, s: State, w: nat, batch: seq<Label>)
    requires Run(cfg, s, batch).Some? && forall l | l in batch :: LeavesAlone(w, l)
    ensures PcOf(Run(cfg, s, batch).value, w) == PcOf(s, w)
    ensures s.canton <= Run(cfg, s, batch).value.canton && s.evm <= Run(cfg, s, batch).value.evm
    decreases batch
  {
    hide Step;
    if batch != [] {
      StepFramed(cfg, s, batch[0]);
      OtherStep(cfg, s, w, batch[0]);
      OtherSteps(cfg, Step(cfg, s, batch[0]).value, w, batch[1..]);
    }
  }

  datatype RefundAnswer =
    | Returned(u: nat, recorded: bool)   // the CBTC went back with update u
    | Elsewhere                          // another call owns the refund
    | Threw

  class Service {
    const cfg: Config
    var row: Row
    var canton: Canton
    var evm: seq<Event>
    var now: nat
    var daemon: Daemon
    var sending: bool
    var marked: bool
    var pcs: map<nat, Pc>
    ghost var trace: seq<Label>

    function View(): State
      reads this
    {
      State(row, canton, evm, now, daemon, sending, marked, pcs)
    }

    ghost predicate Valid()
      reads this
    {
      Ladder(cfg) && Run(cfg, Init, trace) == Some(View())
    }

    /** No call, and not the daemon, took a careless step so far. */
    ghost predicate Careful()
      reads this
    {
      Clean(cfg, Init, trace)
    }

    /** The WBTC was not claimed and never will be. */
    ghost predicate Unclaimable()
      reads this
    {
      NeverClaimable(cfg, View())
    }

    function At(w: nat): Pc
      reads this
    {
      if w in pcs then pcs[w] else Idle
    }

    constructor (cfg: Config)
      requires Ladder(cfg)
      ensures Valid() && this.cfg == cfg && View() == Init
    {
      this.cfg := cfg;
      row, canton, evm, now := NewRow, [], [], 0;
      daemon, sending, marked, pcs, trace := Resting, false, false, map[], [];
    }

    lemma Facts()
      requires Valid()
      ensures Inv(cfg, View())
    {
      hide Ladder;
      RunKeeps(cfg, Init, trace);
    }

    lemma CarefulFacts()
      requires Valid() && Careful()
      ensures !BothLegs(View())
    {
      hide Run;
      Facts();
      RunCares(cfg, Init, trace);
      hide Inv, Care;
      CareExcludes(cfg, View());
    }

    ghost method Took(l: Label, before: State)
      requires Ladder(cfg) && Run(cfg, Init, trace) == Some(before) && Step(cfg, before, l) == Some(View())
      modifies this`trace
      ensures Valid() && trace == old(trace) + [l]
    {
      hide Step;
      RunAppend(cfg, Init, trace, [l]);
      RunOne(cfg, before, l);
      trace := trace + [l];
    }

    lemma Interfered(w: nat, batch: seq<Label>, s: State)
      requires Valid() && Run(cfg, View(), batch) == Some(s) && forall b | b in batch :: LeavesAlone(w, b)
      ensures Run(cfg, Init, trace + batch) == Some(s) && PcOf(s, w) == PcOf(View(), w)
      ensures canton <= s.canton && evm <= s.evm && (Unclaimable() ==> NeverClaimable(cfg, s))
    {
      hide Run, Inv, NeverClaimable;
      OtherSteps(cfg, View(), w, batch);
      RunAppend(cfg, Init, trace, batch);
      Facts();
      if Unclaimable() { NeverClaimedAfter(cfg, View(), batch); }
    }

    /** Any number of steps of everyone but worker `w`. */
    method Interfere(w: nat)
      requires Valid()
      modifies this
      ensures Valid() && At(w) == old(At(w)) && old(trace) <= trace
      ensures old(canton) <= canton && old(evm) <= evm && (old(Unclaimable()) ==> Unclaimable())
    {
      hide Run, NeverClaimable, LeavesAlone;
      var batch: seq<Label> := *;
      if Run(cfg, View(), batch).Some? && forall b | b in batch :: LeavesAlone(w, b) {
        var s := Run(cfg, View(), batch).value;
        Interfered(w, batch, s);
        row, canton, evm, now := s.row, s.canton, s.evm, s.now;
        daemon, sending, marked, pcs := s.daemon, s.sending, s.marked, s.pcs;
        trace := trace + batch;
      }
    }

    // ----- Database and ledgers -----

    method Must(w: nat, call: Call) returns (o: Row)
      requires Valid() && At(w).Idle?
      modifies this
      ensures Valid() && old(trace) <= trace && o == row && At(w) == StartPc(cfg, o, now, call)
    {
      hide StepGo, StepWorld, StartPc, Run;
      Interfere(w);
      ghost var before := View();
      o := row;
      pcs := pcs[w := StartPc(cfg, row, now, call)];
      Took(Start(w, call), before);
    }

    method PutIfStatus(w: nat, o: Row, expected: Status) returns (won: bool)
      requires Valid() && At(w) == Write(o, expected)
      modifies this
      ensures Valid() && old(trace) <= trace && At(w).Idle? && (won ==> row == o)
      ensures old(canton) <= canton && old(evm) <= evm
    {
      hide Run;
      Interfere(w);
      ghost var before := View();
      won := row.status == expected;
      if won { row := o; }
      pcs := pcs[w := Idle];
      Took(Go(w, Proceed), before);
    }

    /** readOrderEvmLock: is the order's lock live? */
    method ReadLock(w: nat, o: Row) returns (live: bool)
      requires Valid() && (At(w) == LateLock(o) || At(w) == EarlyLock(o) || At(w) == Phantom(o))
      modifies this
      ensures Valid() && old(trace) <= trace
      ensures At(w) == if live then Idle
                       else if old(At(w)).LateLock? then LateScan(o)
                       else if old(At(w)).EarlyLock? then RefundCas(o, Early) else PhantomScan(o)
    {
      hide Run, Live;
      Interfere(w);
      ghost var before := View();
      live := Live(evm);
      pcs := pcs[w := if live then Idle
                      else if At(w).LateLock? then LateScan(o)
                      else if At(w).EarlyLock? then RefundCas(o, Early) else PhantomScan(o)];
      Took(Go(w, Proceed), before);
    }

    /** assertEvmCounterNotClaimed: the lock first, then the Claimed scan. */
    method AssertEvmCounterNotClaimed(w: nat, o: Row) returns (ok: bool)
      requires Valid() && At(w) == LateLock(o)
      modifies this
      ensures Valid() && old(trace) <= trace && At(w) == if ok then RefundCas(o, Late) else Idle
      ensures ok ==> Unclaimable()
    {
      hide Run, ClaimSeen, NeverClaimable;
      var live := ReadLock(w, o);
      if live { return false; }
      Interfere(w);
      ghost var before := View();
      ok := !ClaimSeen(evm, o);
      pcs := pcs[w := if ok then RefundCas(o, Late) else Idle];
      Took(Go(w, Proceed), before);
      if ok { ScanFacts(w, o); }
    }

    lemma ScanFacts(w: nat, o: Row)
      requires Valid() && At(w) == RefundCas(o, Late)
      ensures Unclaimable()
    {
      hide Run, WorldOk, CopyOk;
      Facts();
      assert PcOk(cfg, pcs[w], View());
    }

    lemma SubmitFacts(w: nat, o: Row, prev: Status)
      requires Valid() && At(w) == RefundSubmit(o, prev, Late)
      ensures Unclaimable()
    {
      hide Run, Inv;
      Facts();
      LateReady(cfg, View(), w, o, prev);
    }

    lemma ReturnFacts(u: nat)
      requires Valid() && IsUpdate(canton, u, Refund)
      ensures Careful() ==> Claimed !in evm
    {
      hide Run, Clean;
      if Careful() { CarefulFacts(); }
    }

    lemma ClaimFacts(u: nat)
      requires Valid() && Claimed in evm
      ensures Careful() || IsUpdate(canton, u, Claim) ==> !Has(canton, Refund)
    {
      hide Run, Clean;
      Facts();
      SplitWorld(cfg, View());
      hide Inv;
      if Careful() { CarefulFacts(); }
    }

    lemma SettledFacts(w: nat, o: Row, expected: Status)
      requires Valid() && At(w) == Write(o, expected) && o.status == MainClaimed
      ensures Claimed in evm
    {
      hide Run, WorldOk;
      Facts();
      assert PcOk(cfg, pcs[w], View());
    }

    lemma FoundReturn(u: nat, e: Entry)
      requires Valid() && CommittedAs(canton, u, RefundId(cfg.order, e))
      ensures IsUpdate(canton, u, Refund)
    {
      hide Run;
      Facts();
      SplitWorld(cfg, View());
      hide Inv;
      RefundFound(cfg, canton, u, e);
    }

    lemma FoundClaim(u: nat)
      requires Valid() && CommittedAs(canton, u, ClaimId(cfg.order))
      ensures IsUpdate(canton, u, Claim)
    {
      hide Run;
      Facts();
      SplitWorld(cfg, View());
      hide Inv;
      ClaimFound(cfg, canton, u);
    }

    // ----- refundMainCanton and earlyRefundLoopCustody -----

    /** The durable `refunding` claim: losing it means another call owns the refund. */
    method ClaimRefunding(w: nat, o: Row, e: Entry) returns (won: bool)
      requires Valid() && At(w) == RefundCas(o, e)
      modifies this
      ensures Valid() && old(trace) <= trace
      ensures At(w) == if won then RefundSubmit(o.(status := Refunding), o.status, e) else Idle
    {
      hide Run;
      Interfere(w);
      ghost var before := View();
      won := row.status == o.status;
      if won { row := o.(status := Refunding); }
      pcs := pcs[w := if won then RefundSubmit(o.(status := Refunding), o.status, e) else Idle];
      Took(Go(w, Proceed), before);
    }

    /** Submit the return under the id this call computes, or find it committed under that id.
        None: it failed, or its duplicate could not be found (`lost`). */
    method SubmitReturn(w: nat, o: Row, prev: Status, e: Entry) returns (u: Option<nat>, lost: bool)
      requires Valid() && At(w) == RefundSubmit(o, prev, e)
      modifies this
      ensures Valid() && old(trace) <= trace && (old(Unclaimable()) ==> Unclaimable())
      ensures (u.Some? ==> IsUpdate(canton, u.value, Refund)) && (lost ==> u.None?)
      ensures At(w) == if u.Some? then RefundWrite(o.(status := Refunded, result := Some(Committed(u.value))), e)
                       else if lost then Idle else RefundWrite(o.(status := prev), e)
    {
      hide Run, CanRefund, RefundId, Unused, StartPc, AtConfirming, AtClaimSubmit, AtClaimScan,
           AtRecordScan, AtLockCheck, AtRetakeWrite, AtMark, AtPatch, AtPhantom, AtPhantomScan, AtRefundCas, StepWorld;
      Interfere(w);
      ghost var before := View();
      var ch: Choice := *;
      var commandId := RefundId(cfg.order, e);
      u, lost := None, false;
      if o.custody.None? {
        ch := Fail;
      } else if ch.Found? && e == Late && cfg.loop && CommittedAs(canton, ch.i, commandId) {
        FoundReturn(ch.i, e);
        u := Some(ch.i);
      } else if ch.Commit? && CanRefund(cfg, canton, e) {
        u := Some(|canton|);
        canton := canton + [Tx(Some(commandId), Refund)];
      } else if ch.Duplicate? && CommittedAs(canton, ch.i, commandId) {
        FoundReturn(ch.i, e);
        u := Some(ch.i);
      } else if ch.Lost? && !Unused(canton, commandId) {
        lost := true;
      } else {
        ch := Fail;
      }
      pcs := pcs[w := if u.Some? then RefundWrite(o.(status := Refunded, result := Some(Committed(u.value))), e)
                      else if lost then Idle else RefundWrite(o.(status := prev), e)];
      Took(Go(w, ch), before);
    }

    method PutRefund(w: nat, o: Row, e: Entry) returns (won: bool)
      requires Valid() && At(w) == RefundWrite(o, e)
      modifies this
      ensures Valid() && old(trace) <= trace && At(w).Idle? && (won ==> row == o)
      ensures old(canton) <= canton && old(evm) <= evm && (old(Unclaimable()) ==> Unclaimable())
    {
      hide Run;
      Interfere(w);
      ghost var before := View();
      won := row.status == Refunding;
      if won { row := o; }
      pcs := pcs[w := Idle];
      Took(Go(w, Proceed), before);
    }

    /** The part both refund calls share: pay back, then `refunded` or roll back. */
    method PayBack(w: nat, o: Row, prev: Status, e: Entry) returns (r: RefundAnswer)
      requires Valid() && At(w) == RefundSubmit(o, prev, e)
      modifies this
      ensures Valid() && old(trace) <= trace && At(w).Idle?
      ensures r.Returned? ==> IsUpdate(canton, r.u, Refund)
      ensures r.Returned? && r.recorded ==> row.status == Refunded && row.result == Some(Committed(r.u))
      ensures e == Late ==> Unclaimable()
      ensures r.Returned? && Careful() ==> Claimed !in evm
    {
      hide Run, Clean, NeverClaimable;
      if e == Late { SubmitFacts(w, o, prev); }
      var u, lost := SubmitReturn(w, o, prev, e);
      if lost { return Threw; }
      if u.None? {
        var rollback := o.(status := prev);
        var _ := PutRefund(w, rollback, e);
        return Threw;
      }
      var done := o.(status := Refunded);
      done := done.(result := Some(Committed(u.value)));
      var recorded := PutRefund(w, done, e);
      ReturnFacts(u.value);
      r := Returned(u.value, recorded);
    }

    /** A late return is final for the WBTC, whatever else ran before or runs later. */
    method RefundMainCanton(w: nat) returns (r: RefundAnswer)
      requires Valid() && At(w).Idle?
      modifies this
      ensures Valid() && old(trace) <= trace && At(w).Idle?
      ensures r.Returned? ==> IsUpdate(canton, r.u, Refund) && Unclaimable()
      ensures r.Returned? && r.recorded ==> row.status == Refunded && row.result == Some(Committed(r.u))
    {
      hide Run, Clean, NeverClaimable;
      var o := Must(w, LateRefund);
      if !RefundEligible(o) { return Threw; }
      if now < cfg.userTimelock { return Threw; }
      if o.revealed { return Threw; }
      var unclaimed := AssertEvmCounterNotClaimed(w, o);
      if !unclaimed { return Threw; }
      var prev := o.status;
      var won := ClaimRefunding(w, o, Late);
      if !won { return Elsewhere; }
      o := o.(status := Refunding);
      r := PayBack(w, o, prev, Late);
    }

    /** An early return is as good as the run around it was careful. */
    method EarlyRefundLoopCustody(w: nat) returns (r: RefundAnswer)
      requires Valid() && At(w).Idle?
      modifies this
      ensures Valid() && old(trace) <= trace && At(w).Idle?
      ensures r.Returned? ==> IsUpdate(canton, r.u, Refund)
      ensures r.Returned? && Careful() ==> Claimed !in evm
      ensures r.Returned? && r.recorded ==> row.status == Refunded && row.result == Some(Committed(r.u))
    {
      hide Run, Clean;
      var o := Must(w, EarlyRefund);
      if !cfg.loop { return Threw; }
      if o.status != MainLocked && o.status != Refunding { return Threw; }
      if o.revealed { return Threw; }
      if o.custody.None? { return Threw; }
      var live := ReadLock(w, o);
      if live { return Threw; }
      var prev := o.status;
      var won := ClaimRefunding(w, o, Early);
      if !won { return Elsewhere; }
      o := o.(status := Refunding);
      r := PayBack(w, o, prev, Early);
    }

    // ----- claimMainAsSolver -----

    /** findEvmClaimTxForHashLock */
    method FindClaim(w: nat, o: Row) returns (j: Option<nat>)
      requires Valid() && At(w) == ClaimScan(o)
      modifies this
      ensures Valid() && old(trace) <= trace
      ensures j.Some? ==> IsEvent(evm, j.value, Claimed)
      ensures At(w) ==
              if j.None? || (o.evmTx.Some? && o.evmTx != j) then Idle
              else if !o.revealed || o.status == CounterLocked
              then ClaimReveal(o.(evmTx := j).(status := CounterClaimed, revealed := true), o.status)
              else ClaimSubmit(o.(evmTx := j))
    {
      hide Run;
      Interfere(w);
      ghost var before := View();
      var ch: Choice := *;
      if ch.Found? && IsEvent(evm, ch.i, Claimed) { j := Some(ch.i); } else { j, ch := None, Give; }
      pcs := pcs[w :=
        if j.None? || (o.evmTx.Some? && o.evmTx != j) then Idle
        else if !o.revealed || o.status == CounterLocked
        then ClaimReveal(o.(evmTx := j).(status := CounterClaimed, revealed := true), o.status)
        else ClaimSubmit(o.(evmTx := j))];
      Took(Go(w, ch), before);
    }

    /** Persist the reveal before the Canton claim; on a lost write accept only a row that
        already carries it. */
    method PersistReveal(w: nat, o: Row, expected: Status) returns (ready: Option<Row>)
      requires Valid() && At(w) == ClaimReveal(o, expected)
      modifies this
      ensures Valid() && old(trace) <= trace && At(w) == if ready.Some? then ClaimSubmit(ready.value) else Idle
    {
      hide Run;
      Interfere(w);
      ghost var before := View();
      var won := row.status == expected;
      if won { row := o; }
      pcs := pcs[w := if won then ClaimSubmit(o) else ClaimReload];
      Took(Go(w, Proceed), before);
      if won { return Some(o); }
      ready := MustRevealed(w);
    }

    method MustRevealed(w: nat) returns (ready: Option<Row>)
      requires Valid() && At(w) == ClaimReload
      modifies this
      ensures Valid() && old(trace) <= trace && At(w) == if ready.Some? then ClaimSubmit(ready.value) else Idle
    {
      hide Run;
      Interfere(w);
      ghost var before := View();
      if row.status == CounterClaimed && row.revealed { ready := Some(row); } else { ready := None; }
      pcs := pcs[w := if ready.Some? then ClaimSubmit(row) else Idle];
      Took(Go(w, Proceed), before);
    }

    /** Loop custody settles by recording it; an HtlcLock is claimed under its command id. */
    method SettleCanton(w: nat, o: Row) returns (u: Option<nat>)
      requires Valid() && At(w) == ClaimSubmit(o)
      modifies this
      ensures Valid() && old(trace) <= trace
      ensures u.Some? && !cfg.loop ==> IsUpdate(canton, u.value, Claim)
      ensures u.Some? && cfg.loop ==> u == o.custody
      ensures At(w) == if u.None? then Idle
                       else Write(o.(status := MainClaimed, revealed := true, result := Some(Committed(u.value))), o.status)
    {
      hide Run;
      Interfere(w);
      ghost var before := View();
      var ch: Choice := *;
      if o.custody.None? {
        u := None;
      } else if cfg.loop {
        u := o.custody;
      } else if ch.Commit? && CanClaim(cfg, canton) {
        u := Some(|canton|);
        canton := canton + [Tx(Some(ClaimId(cfg.order)), Claim)];
      } else if ch.Found? && CommittedAs(canton, ch.i, ClaimId(cfg.order)) {
        FoundClaim(ch.i);
        u := Some(ch.i);
      } else {
        u, ch := None, Fail;
      }
      pcs := pcs[w := if u.None? then Idle
                      else Write(o.(status := MainClaimed, revealed := true, result := Some(Committed(u.value))), o.status)];
      Took(Go(w, ch), before);
    }

    method ClaimMainAsSolver(w: nat) returns (r: Result<nat, string>)
      requires Valid() && At(w).Idle?
      modifies this
      ensures Valid() && old(trace) <= trace && At(w).Idle?
      ensures r.Ok? ==> Claimed in evm && (!cfg.loop || Careful() ==> !Has(canton, Refund))
    {
      hide Run, Clean, Has, IsEvent;
      var o := Must(w, ClaimMain);
      if o.status != CounterClaimed && o.status != CounterLocked { return Err("unexpected status"); }
      assert At(w) == ClaimScan(o);
      hide StartPc;
      var j := FindClaim(w, o);
      if j.None? { return Err("EVM claim proof missing"); }
      if o.evmTx.Some? && o.evmTx != j { return Err("EVM claim proof mismatch"); }
      o := o.(evmTx := j);
      if !o.revealed || o.status == CounterLocked {
        var expected := o.status;
        var withReveal := o.(status := CounterClaimed, revealed := true);
        var ready := PersistReveal(w, withReveal, expected);
        if ready.None? { return Err("claim-main state changed"); }
        o := ready.value;
      }
      r := RecordSettled(w, o);
    }

    method RecordSettled(w: nat, o: Row) returns (r: Result<nat, string>)
      requires Valid() && At(w) == ClaimSubmit(o)
      modifies this
      ensures Valid() && old(trace) <= trace && At(w).Idle?
      ensures r.Ok? ==> Claimed in evm && (!cfg.loop || Careful() ==> !Has(canton, Refund))
    {
      hide Run;
      var u := SettleCanton(w, o);
      if u.None? { return Err("on-ledger settlement not available"); }
      var expected := o.status;
      var done := o.(revealed := true);
      done := done.(status := MainClaimed);
      done := done.(result := Some(Committed(u.value)));
      SettledFacts(w, done, expected);
      var _ := PutIfStatus(w, done, expected);
      ClaimFacts(u.value);
      r := Ok(u.value);
    }

    // ----- recording the escrow -----

    /** verifyReverseCounterLockTx: a matching Locked event and a live lock. `final` is false
        while the transaction waits for confirmations. */
    method VerifyCounterLock(w: nat, o: Row) returns (i: Option<nat>, final: bool)
      requires Valid() && At(w) == LockCheck(o)
      modifies this
      ensures Valid() && old(trace) <= trace
      ensures i.Some? ==> IsEvent(evm, i.value, Locked)
      ensures At(w) == if i.None? then Idle
                       else Write(o.(lockTx := i, status := if final then CounterLocked else CounterLocking), o.status)
    {
      hide Run;
      Interfere(w);
      ghost var before := View();
      var ch: Choice := *;
      i, final := None, ch.Found?;
      if (ch.Found? || ch.Awaiting?) && IsEvent(evm, ch.i, Locked) && Live(evm) { i := Some(ch.i); } else { ch := Give; }
      pcs := pcs[w := if i.None? then Idle
                      else Write(o.(lockTx := i, status := if final then CounterLocked else CounterLocking), o.status)];
      Took(Go(w, ch), before);
    }

    /** recordCounterLocked (lines 2465-2538) on an order that is not yet counter_locked. */
    method RecordCounterLocked(w: nat) returns (recorded: bool)
      requires Valid() && At(w).Idle?
      modifies this
      ensures Valid() && old(trace) <= trace && At(w).Idle?
      ensures recorded ==> row.status == CounterLocked && row.lockTx.Some? && IsEvent(evm, row.lockTx.value, Locked)
    {
      hide Run;
      var o := Must(w, RecordLocked);
      if o.status != CounterLocking && o.status != MainLocked { return false; }
      var expected := o.status;
      var i, final := VerifyCounterLock(w, o);
      if i.None? { return false; }
      o := o.(lockTx := i);
      o := o.(status := if final then CounterLocked else CounterLocking);
      var won := PutIfStatus(w, o, expected);
      recorded := won && final;
    }

    /** hasEvmClaimedForHashLock on an order whose lock reads empty. */
    method ScanPhantom(w: nat, o: Row) returns (claimed: bool, failed: bool)
      requires Valid() && At(w) == PhantomScan(o)
      modifies this
      ensures Valid() && old(trace) <= trace
      ensures At(w) == if failed then Idle
                       else if claimed then Write(o.(status := CounterClaimed), CounterLocked)
                       else Write(o.(status := MainLocked, lockTx := None), CounterLocked)
    {
      hide Run, ClaimSeen;
      Interfere(w);
      ghost var before := View();
      failed := *;
      claimed := ClaimSeen(evm, o);
      pcs := pcs[w := if failed then Idle
                      else if claimed then Write(o.(status := CounterClaimed), CounterLocked)
                      else Write(o.(status := MainLocked, lockTx := None), CounterLocked)];
      Took(Go(w, if failed then Give else Proceed), before);
    }

    /** reconcilePhantomEvmCounterLock (lines 1002-1155): a cleared lock means claimed or, only
        when conclusively not claimed, back to main_locked; then the lock was retaken. */
    method ReconcilePhantomEvmCounterLock(w: nat) returns (changed: bool)
      requires Valid() && At(w).Idle?
      modifies this
      ensures Valid() && old(trace) <= trace && At(w).Idle?
      ensures changed ==> row.status == CounterClaimed || row.status == MainLocked
      ensures changed && row.status == CounterClaimed ==> Claimed in evm
      ensures changed && row.status == MainLocked ==> evm == [Locked, Retaken] && row.lockTx.None?
    {
      hide Run;
      var o := Must(w, ReconcilePhantom);
      if o.status != CounterLocked { return false; }
      var live := ReadLock(w, o);
      if live { return false; }
      var claimed, failed := ScanPhantom(w, o);
      if failed { return false; }
      if claimed {
        o := o.(status := CounterClaimed);
      } else {
        o := o.(status := MainLocked);
        o := o.(lockTx := None);
      }
      PhantomFacts(w, o);
      changed := PutIfStatus(w, o, CounterLocked);
      EscrowFacts();
    }

    lemma PhantomFacts(w: nat, o: Row)
      requires Valid() && At(w) == Write(o, CounterLocked)
      ensures o.status == CounterClaimed ==> Claimed in evm
      ensures o.status == MainLocked ==> evm == [Locked, Retaken]
    {
      hide Run, WorldOk;
      Facts();
      assert PcOk(cfg, pcs[w], View());
    }

    lemma EscrowFacts()
      requires Valid()
      ensures |evm| <= 2
    {
      hide Run;
      Facts();
      SplitWorld(cfg, View());
    }
  }
}
