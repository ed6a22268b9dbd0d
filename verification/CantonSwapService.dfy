/** The methods of the swap service, one order, as the source writes them: a local copy of
    the row is loaded, its fields are reassigned step by step, and every database or ledger
    call is an await during which the other workers, the user and the ledger move on.

    The object holds the shared state. `trace` is the run that led to it, and it may be any run, so
    everything `CantonSwapTheorems` proves about runs holds at every await of every method. */
module CantonSwapService {
  import opened Wrappers
  import opened CantonSwapLedger
  import opened CantonSwapMachine
  import opened CantonSwapSafety
  import opened CantonSwapFrozen
  import opened CantonSwapEvery
  import opened CantonSwapCooldown

  predicate LeavesAlone(w: nat, l: Label) {
    (l.Start? || l.Go? || l.Crash?) ==> l.w != w
  }

  /** A step of another worker: `w` stays where it is. */
  lemma OtherStepKeepsPc(mode: WalletMode, s: State, w: nat, l: Label)
    requires LeavesAlone(w, l) && Step(mode, s, l).Some?
    ensures PcOf(Step(mode, s, l).value, w) == PcOf(s, w)
  {
    StepFramed(mode, s, l);
    hide Step;
  }

  lemma {:induction false} OthersKeepPc(mode: WalletMode, s: State, w: nat, batch: seq<Label>)
    requires Run(mode, s, batch).Some? && forall l | l in batch :: LeavesAlone(w, l)
    ensures PcOf(Run(mode, s, batch).value, w) == PcOf(s, w) && s.log <= Run(mode, s, batch).value.log
    decreases batch
  {
    hide Step;
    if batch != [] {
      StepFramed(mode, s, batch[0]);
      OtherStepKeepsPc(mode, s, w, batch[0]);
      OthersKeepPc(mode, Step(mode, s, batch[0]).value, w, batch[1..]);
    }
  }

  lemma {:induction false} ClockGoesOn(mode: WalletMode, s: State, batch: seq<Label>)
    requires Run(mode, s, batch).Some?
    ensures s.now <= Run(mode, s, batch).value.now
    decreases batch
  {
    hide Step;
    if batch != [] {
      StepFramed(mode, s, batch[0]);
      ClockGoesOn(mode, Step(mode, s, batch[0]).value, batch[1..]);
    }
  }

  lemma ReceiptDelivers(mode: WalletMode, o: Row, log: Log)
    requires CopyReal(mode, o, log)
    ensures o.receipt.Some? ==> Delivers(log, o.receipt.value)
  {
  }

  datatype FillAnswer = Settled(u: nat) | SubmissionInFlight | NotFound | Again | Refused

  datatype Delivery = FilledNow | Blocked | GoOn

  datatype MarkError = InvalidStatus | NoCounterOffer | NotSettled | NotVerified

  datatype Reconciled = Skipped | Completed | Reissued(u: nat)

  class Service {
    const mode: WalletMode
    var row: Row
    var log: Log
    var now: nat
    var pcs: map<nat, Pc>
    ghost var trace: seq<Label>

    function View(): State
      reads this
    {
      State(row, log, now, pcs)
    }

    ghost predicate Valid()
      reads this
    {
      Run(mode, Init, trace) == Some(View())
    }

    /** No step so far was a harmful re-read. */
    ghost predicate Careful()
      reads this
    {
      Clean(mode, false, Init, trace)
    }

    function At(w: nat): Pc
      reads this
    {
      if w in pcs then pcs[w] else Idle
    }

    constructor (mode: WalletMode)
      ensures Valid() && this.mode == mode && row == NewRow && log == [] && trace == []
    {
      this.mode := mode;
      row, log, now, pcs, trace := NewRow, [], 0, map[], [];
    }

    /** What is known about every run, at this moment of this one. */
    lemma Facts()
      requires Valid()
      ensures Real(mode, View())
    {
      RunKeepsReal(mode, Init, trace);
    }

    lemma FilledRowDelivers()
      requires Valid() && row.status == Filled
      ensures row.receipt.Some? && Delivers(log, row.receipt.value)
    {
      hide LogReal, Run;
      Facts();
    }

    /** What worker `w` holds. */
    lemma Holds(w: nat)
      requires Valid()
      ensures PcReal(mode, At(w), log) && LogReal(mode, log)
    {
      hide LogReal, PcReal, Run;
      Facts();
      PcOfReal(mode, View(), w);
    }

    /** In a careful run command k > 0 followed an offer of command k-1 that is dead. */
    lemma PredecessorDead(u: nat, k: nat)
      requires Valid() && Careful() && k > 0 && CommandAt(log, u, k)
      ensures exists c | 0 <= c < |log| :: CommandAt(log, c, k - 1) && Dead(log, c)
    {
      hide Run, Clean;
      RunSecures(mode, Init, trace);
      SecuredLog(mode, View());
      assert HasPredecessor(log, u);
      var c :| 0 <= c < |log| && CommandAt(log, c, k - 1);
      assert Dead(log, c);
    }

    /** The step just taken extends the run. */
    ghost method Took(l: Label, before: State)
      requires Run(mode, Init, trace) == Some(before)
      requires Step(mode, before, l) == Some(View())
      modifies this`trace
      ensures Valid() && trace == old(trace) + [l]
    {
      hide Step, Clean;
      RunAppend(mode, false, Init, trace, [l]);
      RunOne(mode, false, before, l);
      trace := trace + [l];
    }

    /** Any number of steps of everyone but worker `w`. */
    method Interfere(w: nat)
      requires Valid()
      modifies this
      ensures Valid() && At(w) == old(At(w)) && old(trace) <= trace && old(log) <= log
    {
      hide Run, Clean;
      var batch: seq<Label> := *;
      if Run(mode, View(), batch).Some? && forall l | l in batch :: LeavesAlone(w, l) {
        var s := Run(mode, View(), batch).value;
        OthersKeepPc(mode, View(), w, batch);
        RunAppend(mode, false, Init, trace, batch);
        row, log, now, pcs := s.row, s.log, s.now, s.pcs;
        trace := trace + batch;
      }
    }

    /** Label `k` of the run is the load of row `o` by worker `w`. */
    ghost predicate Loads(w: nat, call: Call, k: int, o: Row)
      reads this
    {
      && 0 <= k < |trace| && trace[k] == Start(w, call)
      && Run(mode, Init, trace[..k]).Some? && Run(mode, Init, trace[..k]).value.row == o
    }

    lemma StillLoads(w: nat, call: Call, k: int, o: Row, before: seq<Label>)
      requires 0 <= k < |before| && before[k] == Start(w, call) && before <= trace
      requires Run(mode, Init, before[..k]).Some? && Run(mode, Init, before[..k]).value.row == o
      ensures Loads(w, call, k, o)
    {
      hide Run;
      assert trace[..k] == before[..k];
    }

    lemma ClockWentOn(before: seq<Label>, t: nat)
      requires Valid() && before <= trace && Run(mode, Init, before).Some? && Run(mode, Init, before).value.now == t
      ensures t <= now
    {
      hide Run, Clean;
      assert trace == before + trace[|before|..];
      RunAppend(mode, false, Init, before, trace[|before|..]);
      ClockGoesOn(mode, Run(mode, Init, before).value, trace[|before|..]);
    }

    // ----- Database -----

    /** store.get followed by the guards at the top of the method. */
    method Load(w: nat, call: Call) returns (o: Row)
      requires Valid() && At(w).Idle?
      modifies this
      ensures Valid() && old(trace) <= trace && o == row && At(w) == StartPc(mode, o, log, call)
      ensures |old(trace)| < |trace| && Loads(w, call, |trace| - 1, o)
    {
      hide StepGo, StartPc, Run, Clean;
      Interfere(w);
      ghost var before := View();
      o := row;
      pcs := pcs[w := StartPc(mode, row, log, call)];
      Took(Start(w, call), before);
    }

    method PutIfStatus(w: nat, o: Row, expected: Status) returns (won: bool)
      requires Valid() && At(w) == Write(o, expected)
      modifies this
      ensures Valid() && old(trace) <= trace && At(w).Idle?
      ensures won ==> row == o
    {
      hide Run, Clean;
      Interfere(w);
      ghost var before := View();
      won := row.status == expected;
      if won { row := o; }
      pcs := pcs[w := Idle];
      Took(Go(w, Proceed), before);
    }

    method PutIfStatusAndCounterOffer(w: nat, o: Row, prior: nat) returns (won: bool)
      requires Valid() && At(w) == WriteOffer(o, prior)
      modifies this
      ensures Valid() && old(trace) <= trace && At(w).Idle?
      ensures (won ==> row == o) && old(log) <= log
    {
      hide Run, Clean;
      Interfere(w);
      ghost var before := View();
      won := row.status == UserLocked && row.counterOffer == Some(prior);
      if won { row := o; }
      pcs := pcs[w := Idle];
      Took(Go(w, Proceed), before);
    }

    // ----- Ledger reads -----

    method OfferListed(w: nat, o: Row) returns (listed: bool)
      requires Valid() && At(w) == CounterLoaded(o) && o.counterOffer.Some?
      modifies this
      ensures Valid() && old(trace) <= trace
      ensures At(w) == if !listed then Verify(o, FirstCheck)
                       else if o.clearedAt.Some? then Write(o.(clearedAt := None), UserLocked) else Idle
    {
      hide Run, Clean, CounterPending;
      Interfere(w);
      ghost var before := View();
      listed := CounterPending(log, o.counterOffer.value);
      pcs := pcs[w := if !listed then Verify(o, FirstCheck)
                      else if o.clearedAt.Some? then Write(o.(clearedAt := None), UserLocked) else Idle];
      Took(Go(w, Proceed), before);
    }

    /** The answers verifyCounterLegReceiptProof gives without asking the ledger. */
    method AnswerEarly(w: nat, o: Row, purpose: Purpose) returns (v: Verdict)
      requires Valid() && At(w) == Verify(o, purpose) && EarlyVerdict(mode, o).Some?
      modifies this
      ensures Valid() && old(trace) <= trace
      ensures v == EarlyVerdict(mode, o).value && At(w) == OnVerdict(mode, o, purpose, v)
      ensures v.Received? ==> Delivers(log, v.update)
    {
      hide Run, Clean, OnVerdict, CopyReal, LogReal;
      Interfere(w);
      Holds(w);
      ReceiptDelivers(mode, o, log);
      ghost var before := View();
      v := EarlyVerdict(mode, o).value;
      pcs := pcs[w := OnVerdict(mode, o, purpose, v)];
      Took(Go(w, Proceed), before);
    }

    method StillListed(w: nat, o: Row, purpose: Purpose) returns (listed: bool)
      requires Valid() && At(w) == Verify(o, purpose) && EarlyVerdict(mode, o).None?
      modifies this
      ensures Valid() && old(trace) <= trace
      ensures At(w) == if listed then OnVerdict(mode, o, purpose, StillPending) else VerifyScan(o, purpose)
      ensures listed ==> o.counterOffer.Some? && CounterPending(log, o.counterOffer.value)
    {
      hide Run, Clean, OnVerdict, CounterPending;
      Interfere(w);
      ghost var before := View();
      listed := CounterPending(log, o.counterOffer.value);
      pcs := pcs[w := if listed then OnVerdict(mode, o, purpose, StillPending) else VerifyScan(o, purpose)];
      Took(Go(w, Proceed), before);
    }

    /** fetchOfferAcceptFromOffset: the strict scan from the creation offset. */
    method FetchAccept(w: nat, o: Row, purpose: Purpose, last: bool) returns (found: Option<nat>)
      requires Valid() && At(w) == VerifyScan(o, purpose) && o.counterOffer.Some?
      modifies this
      ensures Valid() && old(trace) <= trace
      ensures At(w) == if found.Some? then OnVerdict(mode, o, purpose, Received(found.value))
                       else if last then OnVerdict(mode, o, purpose, NotReceived) else Verify(o, purpose)
      ensures found.Some? ==> found.value < |log| && log[found.value] == CounterAccepted(o.counterOffer.value)
      ensures found.None? ==> Dead(log, o.counterOffer.value)
    {
      hide Run, Clean, OnVerdict;
      Interfere(w);
      Scannable(w, o, purpose);
      hide Dead;
      ghost var before := View();
      var hit := CounterAccepted(o.counterOffer.value);
      if hit in log[o.createdOffset.value..] {
        var u :| o.createdOffset.value <= u < |log| && log[u] == hit;
        found := Some(u);
        pcs := pcs[w := OnVerdict(mode, o, purpose, Received(u))];
        Took(Go(w, Found(u)), before);
      } else {
        found := None;
        pcs := pcs[w := if last then OnVerdict(mode, o, purpose, NotReceived) else Verify(o, purpose)];
        Took(Go(w, if last then Missed else Proceed), before);
      }
    }

    lemma Scannable(w: nat, o: Row, purpose: Purpose)
      requires Valid() && At(w) == VerifyScan(o, purpose)
      ensures o.counterOffer.Some? && o.createdOffset.Some? && o.createdOffset.value <= |log|
      ensures CounterAccepted(o.counterOffer.value) !in log[o.createdOffset.value..] ==> Dead(log, o.counterOffer.value)
    {
      hide LogReal, CopyReal, Run;
      Holds(w);
      ScanMissedMeansDead(mode, o, purpose, log);
    }

    /** What a verdict says about the ledger. "Not received" about a row that waits for its counter
        offer means that the offer is gone and was never accepted. */
    static ghost predicate VerdictMeans(mode: WalletMode, o: Row, v: Verdict, log: Log) {
      match v
      case Received(u) =>
        Delivers(log, u)
        && (o.receipt == Some(u) || (o.counterOffer.Some? && log[u] == CounterAccepted(o.counterOffer.value)))
      case StillPending => o.counterOffer.Some? && CounterPending(log, o.counterOffer.value)
      case NotReceived => o.receipt.None? && IsPendingCounterAccept(mode, o) ==> Dead(log, o.counterOffer.value)
      case Unknown => o.receipt.None? && IsPendingCounterAccept(mode, o) && o.createdOffset.None?
    }

    method VerifyCounterLegReceiptProof(w: nat, o: Row, purpose: Purpose, maxAttempts: nat) returns (v: Verdict)
      requires Valid() && At(w) == Verify(o, purpose) && maxAttempts > 0
      modifies this
      ensures Valid() && old(trace) <= trace && At(w) == OnVerdict(mode, o, purpose, v)
      ensures VerdictMeans(mode, o, v, log)
    {
      hide Run, Clean, OnVerdict, CounterPending, Dead;
      if EarlyVerdict(mode, o).Some? {
        v := AnswerEarly(w, o, purpose);
        return;
      }
      for attempt := 0 to maxAttempts
        invariant Valid() && old(trace) <= trace
        invariant At(w) == if attempt < maxAttempts then Verify(o, purpose) else OnVerdict(mode, o, purpose, NotReceived)
        invariant attempt > 0 ==> Dead(log, o.counterOffer.value)
      {
        var listed := StillListed(w, o, purpose);
        if listed { return StillPending; }
        var found := FetchAccept(w, o, purpose, attempt + 1 == maxAttempts);
        if found.Some? { return Received(found.value); }
      }
      v := NotReceived;
    }

    method ProveDelivered(w: nat, o: Row, purpose: Purpose) returns (ch: Choice, delivered: bool)
      requires Valid() && At(w) == Proof(o, purpose)
      modifies this
      ensures Valid() && old(trace) <= trace
      ensures delivered ==> o.settlement.Some?
      ensures At(w) == if ch == Unreadable then Write(o, UserLocked)
                       else if delivered then TryComplete(Delivered(o), purpose) else AfterProof(o, purpose)
    {
      hide Run, Clean, AfterProof;
      Interfere(w);
      ghost var before := View();
      ch := *;
      delivered := o.settlement.Some? && IsDirect(log, o.settlement.value);
      pcs := pcs[w := if ch == Unreadable then Write(o, UserLocked)
                      else if delivered then TryComplete(Delivered(o), purpose) else AfterProof(o, purpose)];
      Took(Go(w, ch), before);
    }

    static function Delivered(o: Row): Row {
      o.(receipt := o.settlement, counterOffer := None, createdOffset := None, clearedAt := None, status := Filled)
    }

    method WriteDelivered(w: nat, o: Row, purpose: Purpose) returns (won: bool)
      requires Valid() && At(w) == TryComplete(o, purpose)
      modifies this
      ensures Valid() && old(trace) <= trace && At(w) == if won then Idle else AfterProof(o, purpose)
      ensures won ==> row == o
    {
      hide Run, Clean, AfterProof;
      Interfere(w);
      ghost var before := View();
      won := row.status == UserLocked;
      if won { row := o; }
      pcs := pcs[w := if won then Idle else AfterProof(o, purpose)];
      Took(Go(w, Proceed), before);
    }

    method TryCompleteFromSettlementDelivery(w: nat, o: Row, purpose: Purpose) returns (d: Delivery, o': Row)
      requires Valid() && At(w) == Proof(o, purpose) && (purpose == FirstCheck || purpose == Recheck)
      modifies this
      ensures Valid() && old(trace) <= trace
      ensures At(w) == if d == GoOn then AfterProof(o', purpose) else Idle
      ensures d == FilledNow ==> row == o' && o'.status == Filled
      ensures d == GoOn ==> o' == o || o'.clearedAt.None?
    {
      hide Run, Clean, AfterProof;
      o' := o;
      var ch, delivered := ProveDelivered(w, o, purpose);
      if ch == Unreadable {
        var _ := PutIfStatus(w, o, UserLocked);
        return Blocked, o;
      }
      if !delivered { return GoOn, o; }
      o' := o'.(receipt := o.settlement);
      o' := o'.(counterOffer := None, createdOffset := None, clearedAt := None);
      o' := o'.(status := Filled);
      var won := WriteDelivered(w, o', purpose);
      d := if won then FilledNow else GoOn;
    }

    // ----- reconcileLoopCounters, one order -----

    /** Reads the clock for the cooldown test. */
    method Clock(w: nat, o: Row) returns (t: nat)
      requires Valid() && At(w) == Cooling(o)
      modifies this
      ensures Valid() && old(trace) <= trace
      ensures t == now
      ensures At(w) == if o.clearedAt.None? then Write(o.(clearedAt := Some(t)), UserLocked)
                       else if CounterReissueCooldownElapsed(o.clearedAt, t) then Reload(o) else Idle
    {
      hide Run, Clean;
      Interfere(w);
      ghost var before := View();
      t := now;
      pcs := pcs[w := if o.clearedAt.None? then Write(o.(clearedAt := Some(t)), UserLocked)
                      else if CounterReissueCooldownElapsed(o.clearedAt, t) then Reload(o) else Idle];
      Took(Go(w, Proceed), before);
    }

    method MustUnchanged(w: nat, o: Row) returns (reread: Row)
      requires Valid() && At(w) == Reload(o)
      modifies this
      ensures Valid() && old(trace) <= trace
      ensures At(w) == if reread.counterOffer == o.counterOffer && reread.attempt == o.attempt
                       then Verify(reread, Recheck) else Idle
    {
      hide Run, Clean;
      Interfere(w);
      ghost var before := View();
      reread := row;
      pcs := pcs[w := if row.counterOffer == o.counterOffer && row.attempt == o.attempt
                      then Verify(row, Recheck) else Idle];
      Took(Go(w, Proceed), before);
    }

    /** reserveSwapFloat before a reissue: reserve, then read the row again. */
    method ReserveForReissue(w: nat, o: Row) returns (reread: Option<Row>)
      requires Valid() && At(w) == ReissueReady(o)
      modifies this
      ensures Valid() && old(trace) <= trace
      ensures At(w) == if reread.Some? then ReissueSubmit(reread.value) else Idle
    {
      hide Run, Clean;
      Interfere(w);
      ghost var before := View();
      if o.floatReserved {
        pcs := pcs[w := ReissueSubmit(o)];
        Took(Go(w, Proceed), before);
        return Some(o);
      }
      if row.status != UserLocked {
        pcs := pcs[w := Idle];
        Took(Go(w, Proceed), before);
        return None;
      }
      row := row.(floatReserved := true);
      pcs := pcs[w := ReissueReserved(o)];
      Took(Go(w, Proceed), before);
      reread := ReadReserved(w, o);
    }

    method ReadReserved(w: nat, o: Row) returns (reread: Option<Row>)
      requires Valid() && At(w) == ReissueReserved(o)
      modifies this
      ensures Valid() && old(trace) <= trace
      ensures At(w) == if reread.Some? then ReissueSubmit(reread.value) else Idle
    {
      hide Run, Clean;
      Interfere(w);
      ghost var before := View();
      if row.status == UserLocked && row.floatReserved && row.counterOffer == o.counterOffer && row.attempt == o.attempt {
        reread := Some(row);
      } else {
        reread := None;
      }
      pcs := pcs[w := if reread.Some? then ReissueSubmit(reread.value) else Idle];
      Took(Go(w, Proceed), before);
    }

    /** reissueLoopCounterLeg: submit command attempt+1, or recover it when it had committed. */
    method ReissueLoopCounterLeg(w: nat, o: Row) returns (u: Option<nat>)
      requires Valid() && At(w) == ReissueSubmit(o)
      modifies this
      ensures Valid() && old(trace) <= trace
      ensures u.Some? ==> CommandAt(log, u.value, o.attempt + 1) && o.counterOffer.Some?
      ensures At(w) == if u.Some? then WriteOffer(ApplyReissue(o, log, u.value), o.counterOffer.value) else Idle
    {
      hide Run, Clean;
      Interfere(w);
      ghost var before := View();
      var ch: Choice := *;
      if o.settlement.Some? && o.counterOffer.Some? && ch.Commit? && !Committed(log, o.attempt + 1) {
        u := Some(|log|);
        log := log + [Reissue(o.attempt + 1, ch.outcome)];
      } else if o.settlement.Some? && o.counterOffer.Some? && ch.Duplicate? && CommandAt(log, ch.u, o.attempt + 1) {
        u := Some(ch.u);
      } else {
        u, ch := None, Proceed;
      }
      pcs := pcs[w := if u.Some? then WriteOffer(ApplyReissue(o, log, u.value), o.counterOffer.value) else Idle];
      Took(Go(w, ch), before);
    }

    /** Everything verifyCounterLegReceiptProof may answer, except that nothing was received. */
    method ActOnProof(w: nat, o: Row, purpose: Purpose, proof: Verdict) returns (r: Reconciled)
      requires Valid() && (purpose == FirstCheck || purpose == Recheck)
      requires proof != NotReceived && At(w) == OnVerdict(mode, o, purpose, proof)
      modifies this
      ensures Valid() && old(trace) <= trace && At(w).Idle? && !r.Reissued?
      ensures r == Completed ==> row.status == Filled && row.receipt.Some? && Delivers(log, row.receipt.value)
    {
      hide Run, Clean;
      r := Skipped;
      var o' := o;
      match proof
      case Received(u) =>
        o' := o'.(receipt := Some(u), status := Filled);
        o' := o'.(clearedAt := None);
        var won := PutIfStatus(w, o', UserLocked);
        if won {
          FilledRowDelivers();
          r := Completed;
        }
      case StillPending =>
        if purpose == Recheck || o'.clearedAt.Some? {
          o' := o'.(clearedAt := None);
          var _ := PutIfStatus(w, o', UserLocked);
        }
      case Unknown =>
        var _ := PutIfStatus(w, o', UserLocked);
    }

    /** One order of reconcileLoopCounters (lines 1029-1204). */
    method ReconcileLoopCounter(w: nat) returns (r: Reconciled)
      requires Valid() && At(w).Idle?
      modifies this
      ensures Valid() && old(trace) <= trace && At(w).Idle?
      ensures r == Completed ==> row.status == Filled && row.receipt.Some? && Delivers(log, row.receipt.value)
      ensures r.Reissued? ==> ReissuedBy(r.u)
      ensures r.Reissued? ==>
                exists k, o :: |old(trace)| <= k < |trace| && Loads(w, ReconcileCounter, k, o)
                               && o.clearedAt.Some? && o.clearedAt.value + 90 <= now
    {
      hide Run, Clean, CounterPending, EarlyVerdict, VerdictMeans, Delivers, ReissuedBy;
      var o := Load(w, ReconcileCounter);
      ghost var loaded, loadedTrace := o, trace;
      if !IsLoopFillPendingCounterAccept(mode, o) { return Skipped; }
      var listed := OfferListed(w, o);
      if listed {
        if o.clearedAt.Some? {
          o := o.(clearedAt := None);
          var _ := PutIfStatus(w, o, UserLocked);
        }
        return Skipped;
      }
      r := FirstLook(w, o);
      StillLoads(w, ReconcileCounter, |loadedTrace| - 1, loaded, loadedTrace);
    }

    /** The offer is off the list: was it accepted, did the settlement deliver, or is it gone? */
    method FirstLook(w: nat, o: Row) returns (r: Reconciled)
      requires Valid() && At(w) == Verify(o, FirstCheck)
      modifies this
      ensures Valid() && old(trace) <= trace && At(w).Idle?
      ensures r == Completed ==> row.status == Filled && row.receipt.Some? && Delivers(log, row.receipt.value)
      ensures r.Reissued? ==> ReissuedBy(r.u)
      ensures r.Reissued? ==> o.clearedAt.Some? && o.clearedAt.value + 90 <= now
    {
      hide Run, Clean, CounterPending, EarlyVerdict, VerdictMeans, Delivers, ReissuedBy;
      var proof := VerifyCounterLegReceiptProof(w, o, FirstCheck, 8);
      if proof != NotReceived {
        r := ActOnProof(w, o, FirstCheck, proof);
        return;
      }
      var delivery, seen := TryCompleteFromSettlementDelivery(w, o, FirstCheck);
      if delivery == GoOn {
        r := CoolDown(w, seen);
      } else if delivery == FilledNow {
        FilledRowDelivers();
        r := Completed;
      } else {
        r := Skipped;
      }
    }

    /** The first sight of a cleared offer starts the cooldown; only after it comes the reissue. */
    method CoolDown(w: nat, o: Row) returns (r: Reconciled)
      requires Valid() && At(w) == Cooling(o)
      modifies this
      ensures Valid() && old(trace) <= trace && At(w).Idle?
      ensures r == Completed ==> row.status == Filled && row.receipt.Some? && Delivers(log, row.receipt.value)
      ensures r.Reissued? ==> ReissuedBy(r.u)
      ensures r.Reissued? ==> o.clearedAt.Some? && o.clearedAt.value + 90 <= now
    {
      hide Run, Clean, CounterPending, Delivers, ReissuedBy;
      r := Skipped;
      var t := Clock(w, o);
      if o.clearedAt.None? {
        var o' := o.(clearedAt := Some(t));
        var _ := PutIfStatus(w, o', UserLocked);
      } else if CounterReissueCooldownElapsed(o.clearedAt, t) {
        ghost var looked := trace;
        r := RecheckAndReissue(w, o);
        ClockWentOn(looked, t);
      }
    }

    /** The second half, on a row read again after the cooldown. */
    method RecheckAndReissue(w: nat, o: Row) returns (r: Reconciled)
      requires Valid() && At(w) == Reload(o)
      modifies this
      ensures Valid() && old(trace) <= trace && At(w).Idle?
      ensures r == Completed ==> row.status == Filled && row.receipt.Some? && Delivers(log, row.receipt.value)
      ensures r.Reissued? ==> ReissuedBy(r.u)
    {
      hide Run, Clean, CounterPending, EarlyVerdict, VerdictMeans, Delivers, ReissuedBy;
      var reread := MustUnchanged(w, o);
      if reread.counterOffer != o.counterOffer || reread.attempt != o.attempt { return Skipped; }
      var recheck := VerifyCounterLegReceiptProof(w, reread, Recheck, 4);
      if recheck != NotReceived {
        r := ActOnProof(w, reread, Recheck, recheck);
        return;
      }
      var delivery, seen := TryCompleteFromSettlementDelivery(w, reread, Recheck);
      if delivery == GoOn {
        r := ReissueAndRecord(w, seen);
      } else if delivery == FilledNow {
        FilledRowDelivers();
        r := Completed;
      } else {
        r := Skipped;
      }
    }

    /** When each update of the ledger was appended. */
    ghost function Stamps(): Times
      reads this
    {
      LogTimes(mode, Init, [], trace)
    }

    /** Update `u` came at least 90 seconds after some counter offer was closed. */
    ghost predicate CooledDown(u: nat)
      reads this
    {
      && u < |log| && u < |Stamps()|
      && exists m :: 0 <= m < u && log[m].CounterClosed? && Stamps()[m] + 90 <= Stamps()[u]
    }

    lemma ReissueCooled(u: nat, k: nat)
      requires Valid() && k > 0 && CommandAt(log, u, k)
      ensures CooledDown(u)
    {
      hide Run, LogTimes;
      ReissueWaits(mode, trace, u);
    }

    /** The row names reissue `u` at its attempt, which waited for the cooldown; in a careful run it
        followed an offer that is gone and was never accepted. */
    ghost predicate ReissuedBy(u: nat)
      reads this
    {
      && row.attempt > 0 && CommandAt(log, u, row.attempt) && CooledDown(u)
      && (row.counterOffer == Some(u) || (row.status == Filled && row.receipt == Some(u)))
      && (Careful() ==> exists c | 0 <= c < |log| :: CommandAt(log, c, row.attempt - 1) && Dead(log, c))
    }

    method ReissueAndRecord(w: nat, o: Row) returns (r: Reconciled)
      requires Valid() && At(w) == ReissueReady(o)
      modifies this
      ensures Valid() && old(trace) <= trace && At(w).Idle?
      ensures r.Reissued? ==> ReissuedBy(r.u)
      ensures r != Completed
    {
      hide Run, Clean;
      var reserved := ReserveForReissue(w, o);
      if reserved.None? { return Skipped; }
      var reread := reserved.value;
      var prior := reread.counterOffer;
      var issued := ReissueLoopCounterLeg(w, reread);
      if issued.None? { return Skipped; }
      var u := issued.value;
      reread := reread.(attempt := reread.attempt + 1);
      reread := reread.(receipt := None, clearedAt := None);
      if log[u].outcome.Offered? {
        reread := reread.(counterOffer := Some(u), createdOffset := Some(u + 1));
      } else {
        reread := reread.(createdOffset := None, status := Filled);
        reread := reread.(receipt := Some(u), counterOffer := None);
      }
      var won := PutIfStatusAndCounterOffer(w, reread, prior.value);
      assert CommandAt(log, u, reread.attempt);
      if won {
        ReissueCooled(u, reread.attempt);
        if Careful() { PredecessorDead(u, reread.attempt); }
      }
      r := if won then Reissued(u) else Skipped;
    }

    /** markCounterAccepted (lines 1434-1505). */
    method MarkCounterAccepted(w: nat) returns (r: Result<Row, MarkError>)
      requires Valid() && At(w).Idle?
      modifies this
      ensures Valid() && old(trace) <= trace && At(w).Idle?
      ensures r.Ok? ==> r.value == row && row.status == Filled && row.receipt.Some? && Delivers(log, row.receipt.value)
    {
      hide Run, Clean, EarlyVerdict, VerdictMeans, Delivers;
      var o := Load(w, Call.MarkCounterAccepted);
      if o.status != AcceptStatus(mode) { return Err(InvalidStatus); }
      if o.counterOffer.None? { return Err(NoCounterOffer); }
      if o.settlement.None? { return Err(NotSettled); }
      var proof := VerifyCounterLegReceiptProof(w, o, Purpose.MarkAccepted, 5);
      if !proof.Received? { return Err(NotVerified); }
      o := o.(receipt := Some(proof.update));
      o := o.(status := Filled);
      var won := PutIfStatus(w, o, AcceptStatus(mode));
      if !won {
        Interfere(w);
        if row.status != Filled { return Err(InvalidStatus); }
      }
      FilledRowDelivers();
      r := Ok(row);
    }

    // ----- fillLoop -----

    /** reserveSwapFloat, or only the float check when the order holds a reservation. */
    method ReserveSwapFloat(w: nat, o: Row) returns (reserved: Option<Row>)
      requires Valid() && At(w) == FillChecked(o)
      modifies this
      ensures Valid() && old(trace) <= trace
      ensures At(w) == if reserved.Some? then FillReady(reserved.value) else Idle
    {
      hide Run, Clean;
      Interfere(w);
      ghost var before := View();
      if o.floatReserved || o.settlement.Some? {
        pcs := pcs[w := FillReady(o)];
        Took(Go(w, Proceed), before);
        return Some(o);
      }
      if row.status != o.status {
        pcs := pcs[w := Idle];
        Took(Go(w, Proceed), before);
        return None;
      }
      row := row.(floatReserved := true);
      pcs := pcs[w := FillReserved(o.status)];
      Took(Go(w, Proceed), before);
      reserved := ReReadReserved(w, o.status);
    }

    /** The re-read of line 746. */
    method ReReadReserved(w: nat, st: Status) returns (reserved: Option<Row>)
      requires Valid() && At(w) == FillReserved(st)
      modifies this
      ensures Valid() && old(trace) <= trace
      ensures At(w) == if reserved.Some? then FillReady(reserved.value) else Idle
    {
      hide Run, Clean;
      Interfere(w);
      ghost var before := View();
      reserved := if row.status == st && row.floatReserved then Some(row) else None;
      pcs := pcs[w := if reserved.Some? then FillReady(row) else Idle];
      Took(Go(w, Proceed), before);
    }

    method ClaimFilling(w: nat, o: Row) returns (won: bool)
      requires Valid() && At(w) == FillReady(o)
      modifies this
      ensures Valid() && old(trace) <= trace
      ensures At(w) == if won then FillOwned(if o.status == UserLocked then o.(status := Filling) else o) else Idle
    {
      hide Run, Clean;
      Interfere(w);
      ghost var before := View();
      if o.status != UserLocked {
        pcs := pcs[w := FillOwned(o)];
        Took(Go(w, Proceed), before);
        return true;
      }
      won := row.status == UserLocked;
      if won { row := o.(status := Filling); }
      pcs := pcs[w := if won then FillOwned(o.(status := Filling)) else Idle];
      Took(Go(w, Proceed), before);
    }

    /** repairLoopFillFromLedger: did the fill of this order commit earlier? */
    method RepairLoopFillFromLedger(w: nat, o: Row) returns (found: Option<nat>)
      requires Valid() && At(w) == FillOwned(o)
      modifies this
      ensures Valid() && old(trace) <= trace
      ensures found.Some? ==> CommandAt(log, found.value, 0)
      ensures At(w) == if found.Some? then Write(ApplyFill(Loop, o, log, found.value), Filling) else FillSubmit(o)
    {
      hide Run, Clean, ApplyFill;
      Interfere(w);
      ghost var before := View();
      var ch: Choice := *;
      found := if ch.Found? && CommandAt(log, ch.u, 0) then Some(ch.u) else None;
      pcs := pcs[w := if found.Some? then Write(ApplyFill(Loop, o, log, found.value), Filling) else FillSubmit(o)];
      Took(Go(w, if found.Some? then ch else Missed), before);
    }

    /** fillLoopSwap: submit the fill command, or recover it when it had committed. */
    method SubmitFill(w: nat, o: Row) returns (a: FillAnswer)
      requires Valid() && At(w) == FillSubmit(o) && mode == Loop
      modifies this
      ensures Valid() && old(trace) <= trace
      ensures a.Settled? ==> CommandAt(log, a.u, 0)
      ensures At(w) == match a
                       case Settled(u) => Write(ApplyFill(mode, o, log, u), Filling)
                       case SubmissionInFlight => FillInFlight
                       case NotFound => Idle
                       case Again => Write(o.(status := UserLocked), Filling)
                       case Refused => Rejecting(o)
    {
      hide Run, Clean, ApplyFill;
      Interfere(w);
      ghost var before := View();
      var ch: Choice := *;
      if ch.Commit? && CanFill(log, o) {
        a := Settled(|log|);
        log := log + [Fill(o.userLeg.value, ch.outcome)];
        pcs := pcs[w := Write(ApplyFill(mode, o, log, a.u), Filling)];
      } else if ch.Duplicate? && CommandAt(log, ch.u, 0) {
        a := Settled(ch.u);
        pcs := pcs[w := Write(ApplyFill(mode, o, log, ch.u), Filling)];
      } else if ch == InFlight {
        a := SubmissionInFlight;
        pcs := pcs[w := FillInFlight];
      } else if ch == DuplicateNotFound {
        a := NotFound;
        pcs := pcs[w := Idle];
      } else if ch == Retriable {
        a := Again;
        pcs := pcs[w := Write(o.(status := UserLocked), Filling)];
      } else {
        a, ch := Refused, Terminal;
        pcs := pcs[w := Rejecting(o)];
      }
      Took(Go(w, ch), before);
    }

    /** rejectUserLegOffer, whose own failure is only logged. */
    method RejectUserLegOffer(w: nat, o: Row)
      requires Valid() && At(w) == Rejecting(o) && mode == Loop
      modifies this
      ensures Valid() && old(trace) <= trace && At(w) == Write(o.(status := Failed, floatReserved := false), Filling)
    {
      hide Run, Clean;
      Interfere(w);
      ghost var before := View();
      var rejected: bool := *;
      if rejected && o.userLeg.Some? && o.settlement.None? && UserOfferPending(log, o.userLeg.value) {
        log := log + [UserOfferClosed(o.userLeg.value)];
      }
      pcs := pcs[w := Write(o.(status := Failed, floatReserved := false), Filling)];
      Took(Go(w, if rejected then Proceed else Give), before);
    }

    /** After "submission in flight" the row is read again. */
    method MustAfterFlight(w: nat) returns (o: Row)
      requires Valid() && At(w) == FillInFlight
      modifies this
      ensures Valid() && old(trace) <= trace
      ensures At(w) == if o.status == Filling then Idle else Write(o.(status := UserLocked), Filling)
    {
      hide Run, Clean;
      Interfere(w);
      ghost var before := View();
      o := row;
      pcs := pcs[w := if row.status == Filling then Idle else Write(row.(status := UserLocked), Filling)];
      Took(Go(w, Proceed), before);
    }

    /** applyLoopFillResult (lines 825-853). On a copy that fillLoop owns the new row says on the
        ledger what it claims to say: `CantonSwapTheorems.FillResultMeans`. */
    method ApplyLoopFillResult(w: nat, o: Row, u: nat) returns (o': Row)
      requires Valid() && mode == Loop && CommandAt(log, u, 0) && At(w) == Write(ApplyFill(Loop, o, log, u), Filling)
      ensures o' == ApplyFill(Loop, o, log, u)
      ensures o'.status == Filled ==> o'.receipt == Some(u) && Delivers(log, u) && !o'.floatReserved
      ensures o'.status != Filled ==> o'.counterOffer == Some(u) && IsOffer(log, u) && o'.floatReserved
    {
      var pendingAccept := log[u].outcome.Offered?;
      o' := o.(settlement := Some(u));
      if pendingAccept { o' := o'.(counterOffer := Some(u)); }
      o' := o'.(createdOffset := if pendingAccept then Some(u + 1) else None);
      o' := o'.(receipt := None);
      o' := o'.(clearedAt := None);
      o' := o'.(floatReserved := pendingAccept);
      o' := o'.(status := if pendingAccept then UserLocked else Filled);
      if !pendingAccept { o' := o'.(receipt := Some(u)); }
      hide Run, Clean;
    }

    /** The row names the one committed fill: it delivered, or its offer waits for the user. */
    ghost predicate FillRecorded()
      reads this
    {
      && row.settlement.Some? && CommandAt(log, row.settlement.value, 0)
      && if row.status == Filled then row.receipt.Some? && Delivers(log, row.receipt.value)
         else IsLoopFillPendingCounterAccept(mode, row) && row.counterOffer == row.settlement
    }

    lemma RecordedFacts(o: Row, u: nat)
      requires Valid() && mode == Loop && row == o && o.settlement == Some(u)
      requires o.status == Filled || (o.status == UserLocked && o.counterOffer == Some(u))
      ensures FillRecorded()
    {
      hide LogReal, Run, Clean;
      Facts();
    }

    /** fillLoop (lines 706-823). `r` is true when this call wrote a fill result. */
    method FillLoop(w: nat) returns (r: bool)
      requires Valid() && At(w).Idle? && mode == Loop
      modifies this
      ensures Valid() && old(trace) <= trace && At(w).Idle?
      ensures r ==> FillRecorded()
    {
      hide Run, Clean, ApplyFill, FillRecorded;
      r := false;
      var o := Load(w, Call.FillLoop);
      if o.status != UserLocked && o.status != Filling { return; }
      if IsLoopFillPendingCounterAccept(mode, o) { return; }
      var reserved := ReserveSwapFloat(w, o);
      if reserved.None? { return; }
      o := reserved.value;
      var won := ClaimFilling(w, o);
      if !won { return; }
      if o.status == UserLocked { o := o.(status := Filling); }
      r := RepairOrSubmit(w, o);
    }

    method RepairOrSubmit(w: nat, o: Row) returns (r: bool)
      requires Valid() && At(w) == FillOwned(o) && mode == Loop
      modifies this
      ensures Valid() && old(trace) <= trace && At(w).Idle?
      ensures r ==> FillRecorded()
    {
      hide Run, Clean, ApplyFill, FillRecorded;
      var repaired := RepairLoopFillFromLedger(w, o);
      if repaired.Some? {
        r := WriteFill(w, o, repaired.value);
      } else {
        r := SubmitAndRecord(w, o);
      }
    }

    method WriteFill(w: nat, o: Row, u: nat) returns (r: bool)
      requires Valid() && mode == Loop && CommandAt(log, u, 0) && At(w) == Write(ApplyFill(Loop, o, log, u), Filling)
      modifies this
      ensures Valid() && old(trace) <= trace && At(w).Idle?
      ensures r ==> FillRecorded()
    {
      hide Run, Clean;
      var done := ApplyLoopFillResult(w, o, u);
      r := PutIfStatus(w, done, Filling);
      if r { RecordedFacts(done, u); }
    }

    /** The try block and its catch blocks. */
    method SubmitAndRecord(w: nat, o: Row) returns (r: bool)
      requires Valid() && At(w) == FillSubmit(o) && mode == Loop
      modifies this
      ensures Valid() && old(trace) <= trace && At(w).Idle?
      ensures r ==> FillRecorded()
    {
      hide Run, Clean, ApplyFill, FillRecorded;
      r := false;
      var a := SubmitFill(w, o);
      match a
      case Settled(u) =>
        r := WriteFill(w, o, u);
      case SubmissionInFlight =>
        var reread := MustAfterFlight(w);
        if reread.status == Filling { return; }
        reread := reread.(status := UserLocked);
        var _ := PutIfStatus(w, reread, Filling);
      case NotFound =>
      case Again =>
        var back := o.(status := UserLocked);
        var _ := PutIfStatus(w, back, Filling);
      case Refused =>
        RejectUserLegOffer(w, o);
        var failed := o.(status := Failed);
        failed := failed.(floatReserved := false);
        var _ := PutIfStatus(w, failed, Filling);
    }
  }
}
