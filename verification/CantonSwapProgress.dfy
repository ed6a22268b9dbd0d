/** What one call of the swap service achieves on an order when nothing else moves. */
module CantonSwapProgress {
  import opened Wrappers
  import opened CantonSwapLedger
  import opened CantonSwapMachine
  import opened CantonSwapEvery

  // ----- One worker alone -----

  function Goes(w: nat, choices: seq<Choice>): seq<Label> {
    seq(|choices|, i requires 0 <= i < |choices| => Go(w, choices[i]))
  }

  /** Worker `w` runs `call` from `s` to `t`, and nobody else moves. */
  ghost predicate Alone(mode: WalletMode, s: State, w: nat, call: Call, t: State) {
    exists choices: seq<Choice> :: Run(mode, s, [Start(w, call)] + Goes(w, choices)) == Some(t)
  }

  lemma Begins(mode: WalletMode, s: State, w: nat, call: Call) returns (t: State)
    requires PcOf(s, w).Idle?
    ensures t == Move(s, w, StartPc(mode, s.row, s.log, call)) && Alone(mode, s, w, call, t)
  {
    hide StartPc, StepGo;
    t := Move(s, w, StartPc(mode, s.row, s.log, call));
    RunOne(mode, false, s, Start(w, call));
    assert [Start(w, call)] + Goes(w, []) == [Start(w, call)];
  }

  /** The worker goes from `x` at `pc` to `x'` at `pc'`. */
  lemma Advance(mode: WalletMode, s: State, w: nat, call: Call, x: State, pc: Pc, ch: Choice, x': State, pc': Pc)
    requires Alone(mode, s, w, call, Move(x, w, pc)) && x.pcs == x'.pcs
    requires StepGo(mode, Move(x, w, pc), w, ch).Some?
    requires StepGo(mode, Move(x, w, pc), w, ch).value == Move(x'.(pcs := x'.pcs[w := pc]), w, pc')
    ensures Alone(mode, s, w, call, Move(x', w, pc'))
  {
    hide StepGo, Run, Clean;
    var t := Move(x, w, pc);
    var choices :| Run(mode, s, [Start(w, call)] + Goes(w, choices)) == Some(t);
    RunOne(mode, false, t, Go(w, ch));
    RunAppend(mode, false, s, [Start(w, call)] + Goes(w, choices), [Go(w, ch)]);
    assert [Start(w, call)] + Goes(w, choices + [ch]) == [Start(w, call)] + Goes(w, choices) + [Go(w, ch)];
    assert x'.pcs[w := pc][w := pc'] == x'.pcs[w := pc'];
  }

  // ----- Where a call does nothing -----

  /** A Loop order whose counter offer waits for the user. */
  predicate WaitsForAccept(mode: WalletMode, o: Row) {
    mode == Loop && o.status == UserLocked && o.settlement.Some? && o.counterOffer.Some?
  }

  /** The rows a call acts on. */
  predicate Acts(mode: WalletMode, o: Row, log: Log, call: Call) {
    match call
    case ConfirmUserLeg(f) => mode == Loop && o.status == Open && f < |log| && log[f].UserOffer?
    case FillLoop => mode == Loop && (o.status == UserLocked || o.status == Filling) && !WaitsForAccept(mode, o)
    case SettleManaged => mode == Managed && (o.status == Open || o.status == Settling)
    case RepairFromLedger =>
      o.status == Failed || (mode == Loop && o.status == Filling)
      || (mode == Managed && (o.status == Settling || o.status == Expired || o.status == Open))
    case ReconcileCounter => WaitsForAccept(mode, o)
    case ReconcileSettling =>
      mode == Managed && o.status == Settling && o.settlement.Some? && o.counterOffer.Some?
    case ReconcileFilledProof => mode == Loop && o.status == Filled && o.settlement.Some? && o.receipt.None?
    case MarkCounterAccepted =>
      o.status == (if mode == Loop then UserLocked else Settling) && o.settlement.Some? && o.counterOffer.Some?
    case ExpireStale =>
      (o.status == Open || o.status == Failed || (mode == Loop && o.status == UserLocked)) && !WaitsForAccept(mode, o)
    case Cancel => o.status == Open
  }

  lemma IdleStays(mode: WalletMode, s: State, w: nat, choices: seq<Choice>)
    requires PcOf(s, w).Idle?
    ensures Run(mode, s, Goes(w, choices)) == if choices == [] then Some(s) else None
  {
    if choices != [] { assert Goes(w, choices)[0] == Go(w, choices[0]); }
  }

  lemma GoesOn(mode: WalletMode, s: State, w: nat, choices: seq<Choice>)
    ensures Run(mode, s, Goes(w, choices))
            == if choices == [] then Some(s)
               else match StepGo(mode, s, w, choices[0])
                    case None => None
                    case Some(s') => Run(mode, s', Goes(w, choices[1..]))
  {
    hide StepGo;
    if choices != [] {
      assert Goes(w, choices)[0] == Go(w, choices[0]) && Goes(w, choices)[1..] == Goes(w, choices[1..]);
    }
  }

  /** On any other row the call ends at once: row, ledger and clock stay as they are. */
  lemma NothingElsewhere(mode: WalletMode, s: State, w: nat, call: Call, t: State)
    requires Alone(mode, s, w, call, t)
    ensures Acts(mode, s.row, s.log, call) || t == Move(s, w, Idle)
  {
    var choices :| Run(mode, s, [Start(w, call)] + Goes(w, choices)) == Some(t);
    assert ([Start(w, call)] + Goes(w, choices))[1..] == Goes(w, choices);
    if !Acts(mode, s.row, s.log, call) {
      assert StartPc(mode, s.row, s.log, call) == Idle;
      hide StartPc, StepGo;
      assert Run(mode, s, [Start(w, call)] + Goes(w, choices)) == Run(mode, Move(s, w, Idle), Goes(w, choices));
      hide Run;
      IdleStays(mode, Move(s, w, Idle), w, choices);
    }
  }

  // ----- Opening, cancelling and expiring -----

  lemma Writes(mode: WalletMode, s: State, w: nat, call: Call, x: State, o: Row, expected: Status)
    requires Alone(mode, s, w, call, Move(x, w, Write(o, expected))) && x.row.status == expected
    ensures Alone(mode, s, w, call, Move(x.(row := o), w, Idle))
  {
    hide Alone;
    Advance(mode, s, w, call, x, Write(o, expected), Proceed, x.(row := o), Idle);
  }

  /** confirmUserLeg binds the sell offer and reserves float. */
  lemma ConfirmBinds(s: State, w: nat, f: nat) returns (t: State)
    requires PcOf(s, w).Idle? && s.row.status == Open && f < |s.log| && s.log[f].UserOffer?
    ensures Alone(Loop, s, w, ConfirmUserLeg(f), t)
    ensures t == Move(s.(row := s.row.(status := UserLocked, floatReserved := true, userLeg := Some(f))), w, Idle)
  {
    hide Alone;
    t := Begins(Loop, s, w, ConfirmUserLeg(f));
    var x := s.(row := s.row.(status := UserLocked, floatReserved := true, userLeg := Some(f)));
    Advance(Loop, s, w, ConfirmUserLeg(f), s, Confirming(f), Proceed, x, Idle);
    t := Move(x, w, Idle);
  }

  /** An offer that cannot be bound is given back. */
  lemma ConfirmRefuses(s: State, w: nat, f: nat) returns (t: State)
    requires PcOf(s, w).Idle? && s.row.status == Open && UserOfferPending(s.log, f)
    ensures Alone(Loop, s, w, ConfirmUserLeg(f), t)
    ensures t == Move(s.(log := s.log + [UserOfferClosed(f)]), w, Idle)
  {
    hide Alone;
    t := Begins(Loop, s, w, ConfirmUserLeg(f));
    var x := s.(log := s.log + [UserOfferClosed(f)]);
    Advance(Loop, s, w, ConfirmUserLeg(f), s, Confirming(f), Give, x, Idle);
    t := Move(x, w, Idle);
  }

  lemma CancelCancels(mode: WalletMode, s: State, w: nat) returns (t: State)
    requires PcOf(s, w).Idle? && s.row.status == Open
    ensures Alone(mode, s, w, Cancel, t)
    ensures t == Move(s.(row := s.row.(status := Cancelled, floatReserved := false)), w, Idle)
  {
    hide Alone;
    t := Begins(mode, s, w, Cancel);
    Writes(mode, s, w, Cancel, s, s.row.(status := Cancelled, floatReserved := false), Open);
    t := Move(s.(row := s.row.(status := Cancelled, floatReserved := false)), w, Idle);
  }

  /** The ledger after the sell offer of a row that sold nothing was given back. */
  function GivenBack(o: Row, log: Log): Log {
    if o.userLeg.Some? && o.settlement.None? && UserOfferPending(log, o.userLeg.value)
    then log + [UserOfferClosed(o.userLeg.value)] else log
  }

  /** Expiring gives the sell offer back and releases the float. */
  lemma ExpireExpires(mode: WalletMode, s: State, w: nat) returns (t: State)
    requires PcOf(s, w).Idle? && !WaitsForAccept(mode, s.row)
    requires s.row.status == Open || s.row.status == Failed || (mode == Loop && s.row.status == UserLocked)
    ensures Alone(mode, s, w, ExpireStale, t)
    ensures t == Move(s.(row := s.row.(status := Expired, floatReserved := false),
                         log := if s.row.status == Open then s.log else GivenBack(s.row, s.log)), w, Idle)
  {
    hide Alone, UserOfferPending;
    t := Begins(mode, s, w, ExpireStale);
    var o := s.row.(status := Expired, floatReserved := false);
    var x := s.(log := if s.row.status == Open then s.log else GivenBack(s.row, s.log));
    Advance(mode, s, w, ExpireStale, s, Expiring(s.row), Proceed, x, Write(o, s.row.status));
    Writes(mode, s, w, ExpireStale, x, o, s.row.status);
    t := Move(x.(row := o), w, Idle);
  }

  // ----- The fill -----

  /** The row a fill `u` leaves: paid, or waiting for the offer of this fill. */
  function Settled(mode: WalletMode, o: Row, u: nat, outcome: Outcome): Row {
    var settled := o.(settlement := Some(u), floatReserved := mode == Loop && outcome.Offered?,
                      clearedAt := if mode == Loop then None else o.clearedAt);
    if outcome.Direct? then settled.(status := Filled, receipt := Some(u), createdOffset := None)
    else settled.(status := if mode == Loop then UserLocked else Settling, counterOffer := Some(u),
                  createdOffset := Some(u + 1), receipt := None)
  }

  lemma AppliesFill(mode: WalletMode, o: Row, log: Log, u: nat)
    requires CommandAt(log, u, 0)
    ensures ApplyFill(mode, o, log, u) == Settled(mode, o, u, log[u].outcome)
  {
  }

  /** A Loop order that may be filled comes to the point where the fill is looked for. */
  lemma ToOwned(s: State, w: nat) returns (x: State)
    requires PcOf(s, w).Idle? && !WaitsForAccept(Loop, s.row) && (s.row.status == UserLocked || s.row.status == Filling)
    ensures x == s.(row := s.row.(status := Filling, floatReserved := s.row.floatReserved || s.row.settlement.None?))
    ensures Alone(Loop, s, w, FillLoop, Move(x, w, FillOwned(x.row)))
  {
    hide Alone;
    var _ := Begins(Loop, s, w, FillLoop);
    x := s;
    if s.row.floatReserved || s.row.settlement.Some? {
      Advance(Loop, s, w, FillLoop, s, FillChecked(s.row), Proceed, s, FillReady(s.row));
    } else {
      x := s.(row := s.row.(floatReserved := true));
      Advance(Loop, s, w, FillLoop, s, FillChecked(s.row), Proceed, x, FillReserved(s.row.status));
      Advance(Loop, s, w, FillLoop, x, FillReserved(s.row.status), Proceed, x, FillReady(x.row));
    }
    var y := x.(row := x.row.(status := Filling));
    Advance(Loop, s, w, FillLoop, x, FillReady(x.row), Proceed, y, FillOwned(y.row));
    x := y;
  }

  /** fillLoop from every status it serves, with or without a reservation: a fill that has not
      committed is submitted, and the row keeps what it did. */
  lemma FillFills(s: State, w: nat, outcome: Outcome) returns (t: State)
    requires PcOf(s, w).Idle? && !WaitsForAccept(Loop, s.row) && (s.row.status == UserLocked || s.row.status == Filling)
    requires s.row.userLeg.Some? && UserOfferPending(s.log, s.row.userLeg.value) && !Committed(s.log, 0)
    ensures Alone(Loop, s, w, FillLoop, t)
    ensures t == Move(s.(row := Settled(Loop, s.row, |s.log|, outcome),
                         log := s.log + [Fill(s.row.userLeg.value, outcome)]), w, Idle)
  {
    var x := ToOwned(s, w);
    hide Alone, UserOfferPending, Committed, CommandAt, ApplyFill;
    Advance(Loop, s, w, FillLoop, x, FillOwned(x.row), Missed, x, FillSubmit(x.row));
    var y := x.(log := s.log + [Fill(s.row.userLeg.value, outcome)]);
    AppliesFill(Loop, x.row, y.log, |s.log|) by { NewFill(s.log, s.row.userLeg.value, outcome); }
    var o := Settled(Loop, x.row, |s.log|, outcome);
    Advance(Loop, s, w, FillLoop, x, FillSubmit(x.row), Commit(outcome), y, Write(o, Filling));
    Writes(Loop, s, w, FillLoop, y, o, Filling);
    t := Move(y.(row := o), w, Idle);
  }

  lemma NewFill(log: Log, f: nat, outcome: Outcome)
    ensures CommandAt(log + [Fill(f, outcome)], |log|, 0)
  {
  }

  /** A fill that committed without being recorded is found and recorded; nothing is submitted. */
  lemma FillRecovers(s: State, w: nat, u: nat) returns (t: State)
    requires PcOf(s, w).Idle? && !WaitsForAccept(Loop, s.row) && (s.row.status == UserLocked || s.row.status == Filling)
    requires CommandAt(s.log, u, 0)
    ensures Alone(Loop, s, w, FillLoop, t)
    ensures t == Move(s.(row := Settled(Loop, s.row, u, s.log[u].outcome)), w, Idle)
  {
    var x := ToOwned(s, w);
    AppliesFill(Loop, x.row, s.log, u);
    hide Alone, CommandAt, ApplyFill;
    var o := Settled(Loop, x.row, u, s.log[u].outcome);
    Advance(Loop, s, w, FillLoop, x, FillOwned(x.row), Found(u), x, Write(o, Filling));
    Writes(Loop, s, w, FillLoop, x, o, Filling);
    t := Move(x.(row := o), w, Idle);
  }

  lemma ToSubmit(s: State, w: nat) returns (x: State)
    requires PcOf(s, w).Idle? && !WaitsForAccept(Loop, s.row) && (s.row.status == UserLocked || s.row.status == Filling)
    ensures x == s.(row := s.row.(status := Filling, floatReserved := s.row.floatReserved || s.row.settlement.None?))
    ensures Alone(Loop, s, w, FillLoop, Move(x, w, FillSubmit(x.row)))
  {
    x := ToOwned(s, w);
    hide Alone;
    Advance(Loop, s, w, FillLoop, x, FillOwned(x.row), Missed, x, FillSubmit(x.row));
  }

  /** So does the answer of the ledger that the command was committed before. */
  lemma FillDuplicates(s: State, w: nat, u: nat) returns (t: State)
    requires PcOf(s, w).Idle? && !WaitsForAccept(Loop, s.row) && (s.row.status == UserLocked || s.row.status == Filling)
    requires CommandAt(s.log, u, 0)
    ensures Alone(Loop, s, w, FillLoop, t)
    ensures t == Move(s.(row := Settled(Loop, s.row, u, s.log[u].outcome)), w, Idle)
  {
    var x := ToSubmit(s, w);
    AppliesFill(Loop, x.row, s.log, u);
    hide Alone, CommandAt, ApplyFill;
    var o := Settled(Loop, x.row, u, s.log[u].outcome);
    Advance(Loop, s, w, FillLoop, x, FillSubmit(x.row), Duplicate(u), x, Write(o, Filling));
    Writes(Loop, s, w, FillLoop, x, o, Filling);
    t := Move(x.(row := o), w, Idle);
  }

  /** A submission that fails for good fails the order and gives the sell offer back. */
  lemma FillFails(s: State, w: nat) returns (t: State)
    requires PcOf(s, w).Idle? && !WaitsForAccept(Loop, s.row) && (s.row.status == UserLocked || s.row.status == Filling)
    ensures Alone(Loop, s, w, FillLoop, t)
    ensures t == Move(s.(row := s.row.(status := Failed, floatReserved := false), log := GivenBack(s.row, s.log)), w, Idle)
  {
    var x := ToSubmit(s, w);
    hide Alone, UserOfferPending;
    var o, y := x.row.(status := Failed, floatReserved := false), x.(log := GivenBack(s.row, s.log));
    Advance(Loop, s, w, FillLoop, x, FillSubmit(x.row), Terminal, x, Rejecting(x.row));
    Advance(Loop, s, w, FillLoop, x, Rejecting(x.row), Proceed, y, Write(o, Filling));
    Writes(Loop, s, w, FillLoop, y, o, Filling);
    t := Move(y.(row := o), w, Idle);
  }

  /** A submission that may be tried again leaves the order as it was, with its reservation; one still
      in flight leaves it `filling`. */
  lemma FillRetries(s: State, w: nat, inFlight: bool) returns (t: State)
    requires PcOf(s, w).Idle? && !WaitsForAccept(Loop, s.row) && (s.row.status == UserLocked || s.row.status == Filling)
    ensures Alone(Loop, s, w, FillLoop, t)
    ensures t == Move(s.(row := s.row.(status := if inFlight then Filling else UserLocked,
                                       floatReserved := s.row.floatReserved || s.row.settlement.None?)), w, Idle)
  {
    var x := ToSubmit(s, w);
    hide Alone;
    if inFlight {
      Advance(Loop, s, w, FillLoop, x, FillSubmit(x.row), InFlight, x, FillInFlight);
      Advance(Loop, s, w, FillLoop, x, FillInFlight, Proceed, x, Idle);
      t := Move(x, w, Idle);
    } else {
      var o := x.row.(status := UserLocked);
      Advance(Loop, s, w, FillLoop, x, FillSubmit(x.row), Retriable, x, Write(o, Filling));
      Writes(Loop, s, w, FillLoop, x, o, Filling);
      t := Move(x.(row := o), w, Idle);
    }
  }

  // ----- The managed fill -----

  /** settleManaged from `open` or `settling`: the sell offer is made if there is none, and one direct
      fill takes it. */
  lemma SettleSettles(s: State, w: nat) returns (t: State, f: nat)
    requires PcOf(s, w).Idle? && (s.row.status == Open || s.row.status == Settling)
    requires ReturnsOk(s.log) && !Committed(s.log, 0) && (s.row.userLeg.Some? ==> UserOfferPending(s.log, s.row.userLeg.value))
    ensures Alone(Managed, s, w, SettleManaged, t)
    ensures var log := if s.row.userLeg.Some? then s.log else s.log + [UserOffer];
      && (if s.row.userLeg.Some? then Some(f) == s.row.userLeg else f == |s.log|)
      && t == Move(s.(row := s.row.(status := Filled, userLeg := Some(f), settlement := Some(|log|), receipt := Some(|log|),
                                    createdOffset := None, floatReserved := false),
                      log := log + [Fill(f, Direct)]), w, Idle)
  {
    var x := ToSettleReady(s, w);
    var y: State;
    y, f := ToManagedSubmit(s, w, x);
    hide Alone, UserOfferPending, Committed, CommandAt, ApplyFill;
    var z := y.(log := y.log + [Fill(f, Direct)]);
    NewFill(y.log, f, Direct);
    AppliesFill(Managed, y.row, z.log, |y.log|);
    var o := Settled(Managed, y.row, |y.log|, Direct);
    Advance(Managed, s, w, SettleManaged, y, FillSubmit(y.row), Commit(Direct), z, Write(o, Settling));
    Writes(Managed, s, w, SettleManaged, z, o, Settling);
    t := Move(z.(row := o), w, Idle);
  }

  lemma ToSettleReady(s: State, w: nat) returns (x: State)
    requires PcOf(s, w).Idle? && (s.row.status == Open || s.row.status == Settling)
    ensures Alone(Managed, s, w, SettleManaged, Move(x, w, SettleReady(x.row)))
    ensures x == s.(row := x.row)
    ensures x.row == s.row.(status := Settling,
                            floatReserved := s.row.status == Open || s.row.floatReserved || s.row.settlement.None?)
  {
    hide Alone;
    var _ := Begins(Managed, s, w, SettleManaged);
    x := s;
    if s.row.status == Open || (!s.row.floatReserved && s.row.settlement.None?) {
      x := s.(row := s.row.(status := Settling, floatReserved := true));
      Advance(Managed, s, w, SettleManaged, s, SettleReserve(s.row.status), Proceed, x, SettleReload);
      Advance(Managed, s, w, SettleManaged, x, SettleReload, Proceed, x, SettleReady(x.row));
    }
  }

  lemma ToRecover(s: State, w: nat) returns (x: State)
    requires PcOf(s, w).Idle? && (s.row.status == Open || s.row.status == Settling)
    ensures Alone(Managed, s, w, SettleManaged, Move(x, w, Recover(x.row))) && x == s.(row := x.row)
    ensures x.row == s.row.(status := Settling,
                            floatReserved := s.row.status == Open || s.row.floatReserved || s.row.settlement.None?)
  {
    x := ToSettleReady(s, w);
    hide Alone;
    Advance(Managed, s, w, SettleManaged, x, SettleReady(x.row), Terminal, x, Recover(x.row));
  }

  /** A settlement that failed looks for the fill: one that committed is applied. */
  lemma SettleRecovers(s: State, w: nat, u: nat) returns (t: State)
    requires PcOf(s, w).Idle? && (s.row.status == Open || s.row.status == Settling) && CommandAt(s.log, u, 0)
    ensures Alone(Managed, s, w, SettleManaged, t)
    ensures t == Move(s.(row := Settled(Managed, s.row, u, s.log[u].outcome)), w, Idle)
  {
    var x := ToRecover(s, w);
    AppliesFill(Managed, x.row, s.log, u);
    hide Alone, CommandAt, ApplyFill;
    var o := Settled(Managed, x.row, u, s.log[u].outcome);
    Advance(Managed, s, w, SettleManaged, x, Recover(x.row), Found(u), x, Write(o, Settling));
    Writes(Managed, s, w, SettleManaged, x, o, Settling);
    t := Move(x.(row := o), w, Idle);
  }

  /** So does the answer that the command was committed before. */
  lemma SettleDuplicates(s: State, w: nat, u: nat) returns (t: State)
    requires PcOf(s, w).Idle? && (s.row.status == Open || s.row.status == Settling) && CommandAt(s.log, u, 0)
    requires s.row.userLeg.Some?
    ensures Alone(Managed, s, w, SettleManaged, t)
    ensures t == Move(s.(row := Settled(Managed, s.row, u, s.log[u].outcome)), w, Idle)
  {
    var x := ToSettleReady(s, w);
    AppliesFill(Managed, x.row, s.log, u);
    hide Alone, CommandAt, ApplyFill;
    var o := Settled(Managed, x.row, u, s.log[u].outcome);
    Advance(Managed, s, w, SettleManaged, x, SettleReady(x.row), Proceed, x, FillSubmit(x.row));
    Advance(Managed, s, w, SettleManaged, x, FillSubmit(x.row), Duplicate(u), x, Write(o, Settling));
    Writes(Managed, s, w, SettleManaged, x, o, Settling);
    t := Move(x.(row := o), w, Idle);
  }

  /** Without a fill the order fails and the sell offer is given back. */
  lemma SettleFails(s: State, w: nat) returns (t: State)
    requires PcOf(s, w).Idle? && (s.row.status == Open || s.row.status == Settling)
    ensures Alone(Managed, s, w, SettleManaged, t)
    ensures t == Move(s.(row := s.row.(status := Failed, floatReserved := false), log := GivenBack(s.row, s.log)), w, Idle)
  {
    var x := ToRecover(s, w);
    hide Alone, UserOfferPending;
    var o, y := x.row.(status := Failed, floatReserved := false), x.(log := GivenBack(s.row, s.log));
    Advance(Managed, s, w, SettleManaged, x, Recover(x.row), Missed, x, Rejecting(x.row));
    Advance(Managed, s, w, SettleManaged, x, Rejecting(x.row), Proceed, y, Write(o, Settling));
    Writes(Managed, s, w, SettleManaged, y, o, Settling);
    t := Move(y.(row := o), w, Idle);
  }

  /** If the sell offer cannot be closed, the order stays `settling` with its float. */
  lemma SettleStays(s: State, w: nat) returns (t: State)
    requires PcOf(s, w).Idle? && (s.row.status == Open || s.row.status == Settling)
    ensures Alone(Managed, s, w, SettleManaged, t)
    ensures t == Move(s.(row := s.row.(status := Settling, floatReserved := s.row.status == Open || s.row.floatReserved
                                                                              || s.row.settlement.None?)), w, Idle)
  {
    var x := ToRecover(s, w);
    hide Alone;
    Advance(Managed, s, w, SettleManaged, x, Recover(x.row), Missed, x, Rejecting(x.row));
    Advance(Managed, s, w, SettleManaged, x, Rejecting(x.row), Give, x, Write(x.row, Settling));
    Writes(Managed, s, w, SettleManaged, x, x.row, Settling);
    t := Move(x, w, Idle);
  }

  /** Also when the fill may still be in flight. */
  lemma SettleWaits(s: State, w: nat) returns (t: State)
    requires PcOf(s, w).Idle? && (s.row.status == Open || s.row.status == Settling)
    ensures Alone(Managed, s, w, SettleManaged, t)
    ensures t == Move(s.(row := s.row.(status := Settling, floatReserved := s.row.status == Open || s.row.floatReserved
                                                                              || s.row.settlement.None?)), w, Idle)
  {
    var x := ToRecover(s, w);
    hide Alone;
    Advance(Managed, s, w, SettleManaged, x, Recover(x.row), InFlight, x, Write(x.row, Settling));
    Writes(Managed, s, w, SettleManaged, x, x.row, Settling);
    t := Move(x, w, Idle);
  }

  /** Every failure of a managed submission leads there. */
  lemma ManagedFailures(s: State, w: nat, o: Row, ch: Choice)
    requires PcOf(s, w) == FillSubmit(o) && ch in {DuplicateNotFound, InFlight, Retriable, Terminal}
    ensures StepGo(Managed, s, w, ch) == Some(Move(s, w, Recover(o)))
    ensures StepGo(Loop, s, w, DuplicateNotFound) == Some(Move(s, w, Idle))
  {
  }

  lemma ToManagedSubmit(s: State, w: nat, x: State) returns (y: State, f: nat)
    requires Alone(Managed, s, w, SettleManaged, Move(x, w, SettleReady(x.row))) && x.row.status == Settling
    requires ReturnsOk(x.log) && !Committed(x.log, 0) && (x.row.userLeg.Some? ==> UserOfferPending(x.log, x.row.userLeg.value))
    ensures Alone(Managed, s, w, SettleManaged, Move(y, w, FillSubmit(y.row)))
    ensures if x.row.userLeg.Some? then Some(f) == x.row.userLeg && y == x
            else f == |x.log| && y == x.(row := x.row.(userLeg := Some(f)), log := x.log + [UserOffer])
    ensures UserOfferPending(y.log, f) && !Committed(y.log, 0)
  {
    if x.row.userLeg.Some? {
      y, f := x, x.row.userLeg.value;
      hide Alone;
      Advance(Managed, s, w, SettleManaged, x, SettleReady(x.row), Proceed, x, FillSubmit(x.row));
    } else {
      f := |x.log|;
      var z := x.(log := x.log + [UserOffer]);
      y := z.(row := x.row.(userLeg := Some(f)));
      NewOffer(x.log);
      hide Alone, Committed, UserOfferPending, ReturnsOk;
      Advance(Managed, s, w, SettleManaged, x, SettleReady(x.row), Commit(Direct), z, SettleOffer(y.row));
      Advance(Managed, s, w, SettleManaged, z, SettleOffer(y.row), Proceed, y, FillSubmit(y.row));
    }
  }

  /** A new sell offer is pending: no update before it can name it. */
  lemma NewOffer(log: Log)
    requires !Committed(log, 0) && ReturnsOk(log)
    ensures UserOfferPending(log + [UserOffer], |log|) && !Committed(log + [UserOffer], 0)
  {
    assert forall i: nat | i < |log| :: CommandAt(log, i, 0) <==> log[i].Fill?;
    assert forall i: nat | i < |log| :: (log + [UserOffer])[i] == log[i];
  }

  /** The points of a settlement whose row names its sell offer. */
  predicate Bound(pc: Pc) {
    match pc
    case Idle | SettleReserve(_) | SettleReload => true
    case SettleReady(o) => o.userLeg.Some?
    case SettleOffer(o) => o.userLeg.Some?
    case FillSubmit(o) => o.userLeg.Some?
    case Recover(o) => o.userLeg.Some?
    case Rejecting(o) => o.userLeg.Some?
    case Write(o, _) => o.userLeg.Some?
    case _ => false
  }

  predicate NoNewOffer(log: Log, log': Log) {
    |log| <= |log'| && forall i | |log| <= i < |log'| :: !log'[i].UserOffer?
  }

  lemma BoundOffer(s: State, w: nat, ch: Choice)
    requires Bound(PcOf(s, w)) && s.row.userLeg.Some? && StepGo(Managed, s, w, ch).Some?
    requires var pc := PcOf(s, w); pc.SettleReserve? || pc.SettleReload? || pc.SettleReady? || pc.SettleOffer?
    ensures var t := StepGo(Managed, s, w, ch).value;
      Bound(PcOf(t, w)) && t.row.userLeg.Some? && NoNewOffer(s.log, t.log)
  {
    hide AtFillSubmit, AtRecover, AtRejecting, AtVerify, AtVerifyScan, AtProof, AtTryComplete, AtCooling, AtReload,
         AtReissueReady, AtReissueReserved, AtReissueSubmit, AtConfirming, AtExpiring, AtRepair, AtFilledRepair,
         AtCounterLoaded, AtFillChecked, AtFillReserved, AtFillReady, AtFillOwned;
  }

  lemma BoundFill(s: State, w: nat, ch: Choice)
    requires Bound(PcOf(s, w)) && s.row.userLeg.Some? && StepGo(Managed, s, w, ch).Some?
    requires var pc := PcOf(s, w); !pc.SettleReserve? && !pc.SettleReload? && !pc.SettleReady? && !pc.SettleOffer?
    ensures var t := StepGo(Managed, s, w, ch).value;
      Bound(PcOf(t, w)) && t.row.userLeg.Some? && NoNewOffer(s.log, t.log)
  {
    hide UserOfferPending, Committed, CommandAt, AtSettleReserve, AtSettleReload, AtSettleReady, AtSettleOffer,
         AtVerify, AtVerifyScan, AtProof, AtTryComplete, AtCooling, AtReload,
         AtReissueReady, AtReissueReserved, AtReissueSubmit, AtConfirming, AtExpiring, AtRepair, AtFilledRepair,
         AtCounterLoaded, AtFillChecked, AtFillReserved, AtFillReady, AtFillOwned;
  }

  lemma {:induction false} BoundGoes(s: State, w: nat, choices: seq<Choice>)
    requires Bound(PcOf(s, w)) && s.row.userLeg.Some? && Run(Managed, s, Goes(w, choices)).Some?
    ensures NoNewOffer(s.log, Run(Managed, s, Goes(w, choices)).value.log)
    decreases |choices|
  {
    if choices != [] {
      GoesOn(Managed, s, w, choices);
      hide StepGo, Bound, Run;
      var pc := PcOf(s, w);
      if pc.SettleReserve? || pc.SettleReload? || pc.SettleReady? || pc.SettleOffer? { BoundOffer(s, w, choices[0]); }
      else { BoundFill(s, w, choices[0]); }
      BoundGoes(StepGo(Managed, s, w, choices[0]).value, w, choices[1..]);
    }
  }

  /** A managed order that names a sell offer is settled without a second one, whatever the ledger
      answers. */
  lemma OffersOnce(s: State, w: nat, t: State)
    requires Alone(Managed, s, w, SettleManaged, t) && s.row.userLeg.Some?
    ensures NoNewOffer(s.log, t.log)
  {
    var choices :| Run(Managed, s, [Start(w, SettleManaged)] + Goes(w, choices)) == Some(t);
    assert ([Start(w, SettleManaged)] + Goes(w, choices))[1..] == Goes(w, choices);
    hide StepGo;
    BoundGoes(Move(s, w, StartPc(Managed, s.row, s.log, SettleManaged)), w, choices);
  }

  // ----- Repairs from the ledger -----

  /** A fill that committed is applied to a row of any status the sweep looks at. */
  lemma RepairApplies(mode: WalletMode, s: State, w: nat, u: nat) returns (t: State)
    requires PcOf(s, w).Idle? && CommandAt(s.log, u, 0)
    requires s.row.status == Failed || (mode == Loop && s.row.status == Filling)
             || (mode == Managed && (s.row.status == Settling || s.row.status == Expired || s.row.status == Open))
    ensures Alone(mode, s, w, RepairFromLedger, t)
    ensures t == Move(s.(row := Settled(mode, s.row, u, s.log[u].outcome)), w, Idle)
  {
    AppliesFill(mode, s.row, s.log, u);
    hide Alone, ApplyFill, CommandAt;
    var _ := Begins(mode, s, w, RepairFromLedger);
    var o := Settled(mode, s.row, u, s.log[u].outcome);
    Advance(mode, s, w, RepairFromLedger, s, Repair(s.row), Found(u), s, Write(o, s.row.status));
    Writes(mode, s, w, RepairFromLedger, s, o, s.row.status);
    t := Move(s.(row := o), w, Idle);
  }

  /** Without a committed fill the sweep leaves every other order alone. */
  lemma RepairLeaves(mode: WalletMode, s: State, w: nat, t: State)
    requires Alone(mode, s, w, RepairFromLedger, t) && !Committed(s.log, 0)
    requires mode == Managed || s.row.status != Failed || s.row.userLeg.None?
    ensures t.row == s.row && t.log == s.log
  {
    var choices :| Run(mode, s, [Start(w, RepairFromLedger)] + Goes(w, choices)) == Some(t);
    assert ([Start(w, RepairFromLedger)] + Goes(w, choices))[1..] == Goes(w, choices);
    var s1 := Move(s, w, StartPc(mode, s.row, s.log, RepairFromLedger));
    assert PcOf(s1, w).Idle? || PcOf(s1, w) == Repair(s.row);
    NoFillFound(s.log);
    GoesOn(mode, s1, w, choices);
    hide StepGo, Committed, CommandAt, Run;
    if PcOf(s1, w).Idle? {
      IdleStays(mode, s1, w, choices);
    } else if choices != [] {
      RepairLooks(mode, s1, w, s.row, choices[0]);
      IdleStays(mode, StepGo(mode, s1, w, choices[0]).value, w, choices[1..]);
    }
  }

  lemma NoFillFound(log: Log)
    requires !Committed(log, 0)
    ensures forall u: nat :: !CommandAt(log, u, 0)
  {
    forall u: nat ensures !CommandAt(log, u, 0) { }
  }

  lemma RepairLooks(mode: WalletMode, t: State, w: nat, o: Row, ch: Choice)
    requires PcOf(t, w) == Repair(o) && StepGo(mode, t, w, ch).Some? && forall u: nat :: !CommandAt(t.log, u, 0)
    requires mode == Managed || o.status != Failed || o.userLeg.None?
    ensures StepGo(mode, t, w, ch).value == Move(t, w, Idle)
  {
  }

  /** A filled Loop order without a receipt gets the evidence of its fill; if that left an offer, the
      order waits for it. */
  lemma ProofRepaired(s: State, w: nat, u: nat) returns (t: State)
    requires PcOf(s, w).Idle? && CommandAt(s.log, u, 0)
    requires s.row.status == Filled && s.row.settlement.Some? && s.row.receipt.None?
    ensures Alone(Loop, s, w, ReconcileFilledProof, t)
    ensures t == Move(s.(row :=
      if s.log[u].outcome.Direct? then
        s.row.(settlement := Some(u), receipt := Some(u), counterOffer := None, createdOffset := None, clearedAt := None,
               floatReserved := false)
      else
        s.row.(settlement := Some(u), counterOffer := Some(u), createdOffset := Some(u + 1), clearedAt := None,
               floatReserved := false, status := UserLocked)), w, Idle)
  {
    hide Alone, CommandAt;
    var _ := Begins(Loop, s, w, ReconcileFilledProof);
    IsFill(s.log, u);
    var o := ApplyFilledProofRepair(s.row, s.log, u);
    Advance(Loop, s, w, ReconcileFilledProof, s, FilledRepair(s.row), Found(u), s, Write(o, Filled));
    Writes(Loop, s, w, ReconcileFilledProof, s, o, Filled);
    t := Move(s.(row := o), w, Idle);
  }

  lemma IsFill(log: Log, u: nat)
    requires CommandAt(log, u, 0)
    ensures u < |log| && log[u].Fill?
  {
  }

  /** A failed Loop order whose fill never committed is opened again. */
  lemma RepairReopens(s: State, w: nat) returns (t: State)
    requires PcOf(s, w).Idle? && s.row.status == Failed && s.row.userLeg.Some?
    ensures Alone(Loop, s, w, RepairFromLedger, t) && t == Move(s.(row := s.row.(status := UserLocked)), w, Idle)
  {
    hide Alone;
    var _ := Begins(Loop, s, w, RepairFromLedger);
    var o := s.row.(status := UserLocked);
    Advance(Loop, s, w, RepairFromLedger, s, Repair(s.row), Missed, s, Write(o, Failed));
    Writes(Loop, s, w, RepairFromLedger, s, o, Failed);
    t := Move(s.(row := o), w, Idle);
  }

  // ----- The counter offer -----

  /** The acceptance of the row's offer, as a scan from its creation offset sees it. */
  predicate SeesAccept(o: Row, log: Log, a: nat) {
    && o.counterOffer.Some? && o.createdOffset.Some? && o.createdOffset.value <= a < |log|
    && log[a] == CounterAccepted(o.counterOffer.value)
  }

  /** markCounterAccepted: once the user accepted the offer, the order is filled with that receipt. */
  lemma MarkFills(mode: WalletMode, s: State, w: nat, a: nat) returns (t: State)
    requires PcOf(s, w).Idle? && s.row.status == (if mode == Loop then UserLocked else Settling)
    requires s.row.settlement.Some? && s.row.receipt.None? && SeesAccept(s.row, s.log, a)
    ensures Alone(mode, s, w, MarkCounterAccepted, t)
    ensures t == Move(s.(row := s.row.(receipt := Some(a), status := Filled)), w, Idle)
  {
    hide Alone;
    var _ := Begins(mode, s, w, MarkCounterAccepted);
    var o := s.row.(receipt := Some(a), status := Filled);
    Accepted(mode, s, w, MarkCounterAccepted, s.row, MarkAccepted, a, Write(o, s.row.status));
    Writes(mode, s, w, MarkCounterAccepted, s, o, s.row.status);
    t := Move(s.(row := o), w, Idle);
  }

  /** reconcileSettling does the same for a managed order. */
  lemma SettlingFills(s: State, w: nat, a: nat) returns (t: State)
    requires PcOf(s, w).Idle? && s.row.status == Settling
    requires s.row.settlement.Some? && s.row.receipt.None? && SeesAccept(s.row, s.log, a)
    ensures Alone(Managed, s, w, ReconcileSettling, t)
    ensures t == Move(s.(row := s.row.(receipt := Some(a), status := Filled)), w, Idle)
  {
    hide Alone;
    var _ := Begins(Managed, s, w, ReconcileSettling);
    var o := s.row.(receipt := Some(a), status := Filled);
    Accepted(Managed, s, w, ReconcileSettling, s.row, Settlement, a, Write(o, Settling));
    Writes(Managed, s, w, ReconcileSettling, s, o, Settling);
    t := Move(s.(row := o), w, Idle);
  }

  /** The receipt check finds the acceptance. */
  lemma Accepted(mode: WalletMode, s: State, w: nat, call: Call, o: Row, purpose: Purpose, a: nat, pc: Pc)
    requires Alone(mode, s, w, call, Move(s, w, Verify(o, purpose))) && SeesAccept(o, s.log, a)
    requires IsPendingCounterAccept(mode, o) && o.receipt.None?
    requires pc == OnVerdict(mode, o, purpose, Received(a))
    ensures Alone(mode, s, w, call, Move(s, w, pc))
  {
    assert !CounterPending(s.log, o.counterOffer.value) by { assert s.log[a] in s.log; }
    Unlisted(mode, Move(s, w, Verify(o, purpose)), w, o, purpose);
    ScanFinds(mode, Move(s, w, VerifyScan(o, purpose)), w, o, purpose, a);
    hide Alone, CounterPending, StepGo, OnVerdict;
    Advance(mode, s, w, call, s, Verify(o, purpose), Proceed, s, VerifyScan(o, purpose));
    Advance(mode, s, w, call, s, VerifyScan(o, purpose), Found(a), s, pc);
  }

  /** An offer that left the list sends the check to the scan. */
  lemma Unlisted(mode: WalletMode, t: State, w: nat, o: Row, purpose: Purpose)
    requires PcOf(t, w) == Verify(o, purpose) && IsPendingCounterAccept(mode, o) && o.receipt.None? && o.createdOffset.Some?
    requires !CounterPending(t.log, o.counterOffer.value)
    ensures StepGo(mode, t, w, Proceed) == Some(Move(t, w, VerifyScan(o, purpose)))
  {
    hide CounterPending;
  }

  lemma ScanFinds(mode: WalletMode, t: State, w: nat, o: Row, purpose: Purpose, a: nat)
    requires PcOf(t, w) == VerifyScan(o, purpose) && SeesAccept(o, t.log, a)
    ensures StepGo(mode, t, w, Found(a)) == Some(Move(t, w, OnVerdict(mode, o, purpose, Received(a))))
  {
    hide OnVerdict;
  }

  lemma ScanMisses(mode: WalletMode, t: State, w: nat, o: Row, purpose: Purpose)
    requires PcOf(t, w) == VerifyScan(o, purpose) && o.counterOffer.Some? && o.createdOffset.Some?
    requires o.createdOffset.value <= |t.log| && CounterAccepted(o.counterOffer.value) !in t.log
    ensures StepGo(mode, t, w, Missed) == Some(Move(t, w, OnVerdict(mode, o, purpose, NotReceived)))
  {
    hide OnVerdict;
  }

  /** The reconcile completes an order whose offer was accepted. */
  lemma ReconcileCompletes(s: State, w: nat, a: nat) returns (t: State)
    requires PcOf(s, w).Idle? && WaitsForAccept(Loop, s.row) && s.row.receipt.None? && SeesAccept(s.row, s.log, a)
    ensures Alone(Loop, s, w, ReconcileCounter, t)
    ensures t == Move(s.(row := s.row.(receipt := Some(a), status := Filled, clearedAt := None)), w, Idle)
  {
    assert !CounterPending(s.log, s.row.counterOffer.value) by { assert s.log[a] in s.log; }
    hide Alone, CounterPending;
    var _ := Begins(Loop, s, w, ReconcileCounter);
    var o := s.row.(receipt := Some(a), status := Filled, clearedAt := None);
    Advance(Loop, s, w, ReconcileCounter, s, CounterLoaded(s.row), Proceed, s, Verify(s.row, FirstCheck));
    Accepted(Loop, s, w, ReconcileCounter, s.row, FirstCheck, a, Write(o, UserLocked));
    Writes(Loop, s, w, ReconcileCounter, s, o, UserLocked);
    t := Move(s.(row := o), w, Idle);
  }

  /** While the offer is open the order stays as it is, and a stamp that was set is taken back. */
  lemma ReconcileWaits(s: State, w: nat) returns (t: State)
    requires PcOf(s, w).Idle? && WaitsForAccept(Loop, s.row) && CounterPending(s.log, s.row.counterOffer.value)
    ensures Alone(Loop, s, w, ReconcileCounter, t)
    ensures t == Move(s.(row := s.row.(clearedAt := None)), w, Idle)
  {
    hide Alone, CounterPending;
    var _ := Begins(Loop, s, w, ReconcileCounter);
    var o := s.row.(clearedAt := None);
    if s.row.clearedAt.Some? {
      Advance(Loop, s, w, ReconcileCounter, s, CounterLoaded(s.row), Proceed, s, Write(o, UserLocked));
      Writes(Loop, s, w, ReconcileCounter, s, o, UserLocked);
    } else {
      Advance(Loop, s, w, ReconcileCounter, s, CounterLoaded(s.row), Proceed, s, Idle);
    }
    t := Move(s.(row := o), w, Idle);
  }

  /** An offer that is gone and was never accepted, of an order that was not paid directly. */
  predicate OfferGone(o: Row, log: Log) {
    OfferMissing(o, log) && !IsDirect(log, o.settlement.value)
  }

  /** The same, whatever the settlement was. */
  predicate OfferMissing(o: Row, log: Log) {
    && WaitsForAccept(Loop, o) && o.receipt.None? && o.createdOffset.Some? && o.createdOffset.value <= |log|
    && !CounterPending(log, o.counterOffer.value) && CounterAccepted(o.counterOffer.value) !in log
  }

  /** The receipt check finds nothing. */
  lemma Unseen(s: State, w: nat, o: Row, purpose: Purpose)
    requires Alone(Loop, s, w, ReconcileCounter, Move(s, w, Verify(o, purpose))) && OfferMissing(o, s.log)
    requires purpose == FirstCheck || purpose == Recheck
    ensures Alone(Loop, s, w, ReconcileCounter, Move(s, w, Proof(o, purpose)))
  {
    hide Alone, StepGo, CounterPending;
    Unlisted(Loop, Move(s, w, Verify(o, purpose)), w, o, purpose);
    ScanMisses(Loop, Move(s, w, VerifyScan(o, purpose)), w, o, purpose);
    hide OfferMissing, WaitsForAccept;
    Advance(Loop, s, w, ReconcileCounter, s, Verify(o, purpose), Proceed, s, VerifyScan(o, purpose));
    Advance(Loop, s, w, ReconcileCounter, s, VerifyScan(o, purpose), Missed, s, Proof(o, purpose));
  }

  /** And the settlement delivered nothing. */
  lemma Missing(s: State, w: nat, o: Row, purpose: Purpose)
    requires Alone(Loop, s, w, ReconcileCounter, Move(s, w, Verify(o, purpose))) && OfferGone(o, s.log)
    requires purpose == FirstCheck || purpose == Recheck
    ensures Alone(Loop, s, w, ReconcileCounter, Move(s, w, if purpose == FirstCheck then Cooling(o) else ReissueReady(o)))
  {
    Unseen(s, w, o, purpose);
    hide Alone, StepGo, IsDirect, OfferMissing;
    ProvesNothing(Move(s, w, Proof(o, purpose)), w, o, purpose);
    Advance(Loop, s, w, ReconcileCounter, s, Proof(o, purpose), Proceed, s,
            if purpose == FirstCheck then Cooling(o) else ReissueReady(o));
  }

  lemma ProvesNothing(t: State, w: nat, o: Row, purpose: Purpose)
    requires PcOf(t, w) == Proof(o, purpose) && (o.settlement.Some? ==> !IsDirect(t.log, o.settlement.value))
    ensures StepGo(Loop, t, w, Proceed)
            == Some(Move(t, w, if purpose == FirstCheck then Cooling(o) else ReissueReady(o)))
  {
    hide IsDirect;
  }

  lemma ToFirstProof(s: State, w: nat)
    requires PcOf(s, w).Idle? && OfferMissing(s.row, s.log)
    ensures Alone(Loop, s, w, ReconcileCounter, Move(s, w, Proof(s.row, FirstCheck)))
  {
    hide Alone, CounterPending;
    var _ := Begins(Loop, s, w, ReconcileCounter);
    Advance(Loop, s, w, ReconcileCounter, s, CounterLoaded(s.row), Proceed, s, Verify(s.row, FirstCheck));
    Unseen(s, w, s.row, FirstCheck);
  }

  /** A settlement that delivered by itself completes the order. */
  lemma ReconcileDelivered(s: State, w: nat) returns (t: State)
    requires PcOf(s, w).Idle? && OfferMissing(s.row, s.log) && IsDirect(s.log, s.row.settlement.value)
    ensures Alone(Loop, s, w, ReconcileCounter, t)
    ensures t == Move(s.(row := s.row.(receipt := s.row.settlement, counterOffer := None, createdOffset := None,
                                       clearedAt := None, status := Filled)), w, Idle)
  {
    ToFirstProof(s, w);
    hide Alone, OfferMissing, IsDirect;
    var o := s.row.(receipt := s.row.settlement, counterOffer := None, createdOffset := None, clearedAt := None,
                    status := Filled);
    Advance(Loop, s, w, ReconcileCounter, s, Proof(s.row, FirstCheck), Proceed, s, TryComplete(o, FirstCheck));
    Advance(Loop, s, w, ReconcileCounter, s, TryComplete(o, FirstCheck), Proceed, s.(row := o), Idle);
    t := Move(s.(row := o), w, Idle);
  }

  /** A settlement that cannot be read stops the call before any cooldown. */
  lemma ReconcileUnsure(s: State, w: nat)
    requires PcOf(s, w).Idle? && OfferMissing(s.row, s.log)
    ensures Alone(Loop, s, w, ReconcileCounter, Move(s, w, Idle))
  {
    ToFirstProof(s, w);
    hide Alone, OfferMissing, IsDirect;
    Advance(Loop, s, w, ReconcileCounter, s, Proof(s.row, FirstCheck), Unreadable, s, Write(s.row, UserLocked));
    Writes(Loop, s, w, ReconcileCounter, s, s.row, UserLocked);
  }

  lemma ToCooling(s: State, w: nat)
    requires PcOf(s, w).Idle? && OfferGone(s.row, s.log)
    ensures Alone(Loop, s, w, ReconcileCounter, Move(s, w, Cooling(s.row)))
  {
    hide Alone, CounterPending, IsDirect;
    var _ := Begins(Loop, s, w, ReconcileCounter);
    Advance(Loop, s, w, ReconcileCounter, s, CounterLoaded(s.row), Proceed, s, Verify(s.row, FirstCheck));
    Missing(s, w, s.row, FirstCheck);
  }

  /** The first look at a cleared offer sets the stamp; until 90 seconds later nothing else happens. */
  lemma ReconcileCools(s: State, w: nat) returns (t: State)
    requires PcOf(s, w).Idle? && OfferGone(s.row, s.log)
    requires s.row.clearedAt.Some? ==> s.now < s.row.clearedAt.value + 90
    ensures Alone(Loop, s, w, ReconcileCounter, t)
    ensures t == Move(if s.row.clearedAt.None? then s.(row := s.row.(clearedAt := Some(s.now))) else s, w, Idle)
  {
    ToCooling(s, w);
    hide Alone, OfferGone;
    if s.row.clearedAt.None? {
      var o := s.row.(clearedAt := Some(s.now));
      Advance(Loop, s, w, ReconcileCounter, s, Cooling(s.row), Proceed, s, Write(o, UserLocked));
      Writes(Loop, s, w, ReconcileCounter, s, o, UserLocked);
      t := Move(s.(row := o), w, Idle);
    } else {
      Advance(Loop, s, w, ReconcileCounter, s, Cooling(s.row), Proceed, s, Idle);
      t := Move(s, w, Idle);
    }
  }

  /** The row after reissue `u`. */
  function Reissued(o: Row, u: nat, outcome: Outcome): Row {
    if outcome.Offered? then
      o.(attempt := o.attempt + 1, clearedAt := None, counterOffer := Some(u), createdOffset := Some(u + 1),
         receipt := None)
    else
      o.(attempt := o.attempt + 1, clearedAt := None, counterOffer := None, createdOffset := None, receipt := Some(u),
         status := Filled)
  }

  lemma AppliesReissue(o: Row, log: Log, u: nat)
    requires u < |log| && log[u].Reissue?
    ensures ApplyReissue(o, log, u) == Reissued(o, u, log[u].outcome)
  {
  }

  /** 90 seconds after the stamp the next number is committed, or found if it had committed, with the
      float reserved; the row names it, or is filled if it paid directly. */
  lemma ReconcileReissues(s: State, w: nat, outcome: Outcome, u: nat) returns (t: State)
    requires PcOf(s, w).Idle? && OfferGone(s.row, s.log)
    requires s.row.clearedAt.Some? && s.now >= s.row.clearedAt.value + 90
    requires if u < |s.log| then CommandAt(s.log, u, s.row.attempt + 1) && s.log[u].outcome == outcome
             else u == |s.log| && !Committed(s.log, s.row.attempt + 1)
    ensures Alone(Loop, s, w, ReconcileCounter, t)
    ensures t == Move(s.(row := Reissued(s.row.(floatReserved := true), u, outcome),
                         log := if u < |s.log| then s.log else s.log + [Reissue(s.row.attempt + 1, outcome)]), w, Idle)
  {
    ToCooling(s, w);
    var x := ToReissue(s, w);
    var y := x.(log := if u < |s.log| then s.log else s.log + [Reissue(s.row.attempt + 1, outcome)]);
    AppliesReissue(x.row, y.log, u);
    var o, prior := Reissued(x.row, u, outcome), s.row.counterOffer.value;
    hide Alone, OfferGone, Committed, ApplyReissue;
    Advance(Loop, s, w, ReconcileCounter, x, ReissueSubmit(x.row), if u < |s.log| then Duplicate(u) else Commit(outcome), y,
            WriteOffer(o, prior));
    Advance(Loop, s, w, ReconcileCounter, y, WriteOffer(o, prior), Proceed, y.(row := o), Idle);
    t := Move(y.(row := o), w, Idle);
  }

  lemma ToReissueReady(s: State, w: nat)
    requires Alone(Loop, s, w, ReconcileCounter, Move(s, w, Cooling(s.row))) && OfferGone(s.row, s.log)
    requires s.row.clearedAt.Some? && s.now >= s.row.clearedAt.value + 90
    ensures Alone(Loop, s, w, ReconcileCounter, Move(s, w, ReissueReady(s.row)))
  {
    hide Alone, OfferGone;
    Advance(Loop, s, w, ReconcileCounter, s, Cooling(s.row), Proceed, s, Reload(s.row));
    Advance(Loop, s, w, ReconcileCounter, s, Reload(s.row), Proceed, s, Verify(s.row, Recheck));
    Missing(s, w, s.row, Recheck);
  }

  lemma ToReissue(s: State, w: nat) returns (x: State)
    requires Alone(Loop, s, w, ReconcileCounter, Move(s, w, Cooling(s.row))) && OfferGone(s.row, s.log)
    requires s.row.clearedAt.Some? && s.now >= s.row.clearedAt.value + 90
    ensures x == s.(row := s.row.(floatReserved := true))
    ensures Alone(Loop, s, w, ReconcileCounter, Move(x, w, ReissueSubmit(x.row)))
    ensures x.row.settlement.Some? && x.row.counterOffer.Some? && x.row.status == UserLocked
  {
    ToReissueReady(s, w);
    hide Alone, CounterPending, IsDirect;
    x := s.(row := s.row.(floatReserved := true));
    if s.row.floatReserved {
      Advance(Loop, s, w, ReconcileCounter, s, ReissueReady(s.row), Proceed, s, ReissueSubmit(s.row));
    } else {
      Advance(Loop, s, w, ReconcileCounter, s, ReissueReady(s.row), Proceed, x, ReissueReserved(s.row));
      Advance(Loop, s, w, ReconcileCounter, x, ReissueReserved(s.row), Proceed, x, ReissueSubmit(x.row));
    }
  }

  // ----- Whole orders -----

  ghost predicate CanGet(mode: WalletMode, s: State, t: State) {
    exists labels: seq<Label> :: Run(mode, s, labels) == Some(t)
  }

  lemma GetsAlone(mode: WalletMode, from: State, s: State, w: nat, call: Call, t: State)
    requires CanGet(mode, from, s) && Alone(mode, s, w, call, t)
    ensures CanGet(mode, from, t)
  {
    hide Run, Clean;
    var before :| Run(mode, from, before) == Some(s);
    var choices :| Run(mode, s, [Start(w, call)] + Goes(w, choices)) == Some(t);
    RunAppend(mode, false, from, before, [Start(w, call)] + Goes(w, choices));
  }

  lemma GetsStep(mode: WalletMode, from: State, s: State, l: Label) returns (t: State)
    requires CanGet(mode, from, s) && Step(mode, s, l).Some?
    ensures t == Step(mode, s, l).value && CanGet(mode, from, t)
  {
    hide Run, Clean, Step;
    var before :| Run(mode, from, before) == Some(s);
    RunAppend(mode, false, from, before, [l]);
    RunOne(mode, false, s, l);
    t := Step(mode, s, l).value;
  }

  /** What the user, the registry and the clock may do, for any state: they are not held back. */
  lemma OthersMayMove(mode: WalletMode, s: State, c: nat)
    ensures Step(mode, s, Tick) == Some(s.(now := s.now + 1))
    ensures Step(mode, s, UserOffers) == Some(s.(log := s.log + [UserOffer]))
    ensures UserOfferPending(s.log, c) ==>
              Step(mode, s, UserOfferCloses(c)) == Some(s.(log := s.log + [UserOfferClosed(c)]))
    ensures IsOffer(s.log, c) && CounterAccepted(c) !in s.log && CounterClosed(c) !in s.log ==>
              Step(mode, s, UserAccepts(c)) == Some(s.(log := s.log + [CounterAccepted(c)]))
              && Step(mode, s, CounterCloses(c)) == Some(s.(log := s.log + [CounterClosed(c)]))
  {
    hide UserOfferPending, StepGo, StartPc;
  }

  /** And they move nothing else; an offer that ended moves no more. */
  lemma OthersMoves(mode: WalletMode, s: State, l: Label)
    requires Step(mode, s, l).Some? && !l.Start? && !l.Go?
    ensures var s' := Step(mode, s, l).value; s'.row == s.row && (s'.log == s.log || s'.now == s.now)
    ensures var s' := Step(mode, s, l).value;
      || s'.log == s.log
      || s'.log == s.log + [UserOffer]
      || (exists f :: UserOfferPending(s.log, f) && s'.log == s.log + [UserOfferClosed(f)])
      || (exists c :: CounterPending(s.log, c) && s'.log in {s.log + [CounterAccepted(c)], s.log + [CounterClosed(c)]})
  {
    hide UserOfferPending, CounterPending, StepGo, StartPc;
  }

  /** The order with its sell offer bound. */
  lemma OrderBound() returns (t: State)
    ensures CanGet(Loop, Init, t) && t.log == [UserOffer] && PcOf(t, 0).Idle?
    ensures t.row == NewRow.(status := UserLocked, floatReserved := true, userLeg := Some(0))
  {
    assert CanGet(Loop, Init, Init) by { assert Run(Loop, Init, []) == Some(Init); }
    hide CanGet, Alone, StepGo, StartPc;
    t := GetsStep(Loop, Init, Init, UserOffers);
    var s := t;
    t := ConfirmBinds(s, 0, 0);
    GetsAlone(Loop, Init, s, 0, ConfirmUserLeg(0), t);
  }

  lemma OrderSold(outcome: Outcome) returns (t: State)
    ensures CanGet(Loop, Init, t) && t.log == [UserOffer, Fill(0, outcome)] && PcOf(t, 0).Idle?
    ensures t.row == Settled(Loop, NewRow.(status := UserLocked, floatReserved := true, userLeg := Some(0)), 1, outcome)
  {
    var s := OrderBound();
    hide CanGet, Alone, StepGo, StartPc, Settled;
    t := FillFills(s, 0, outcome);
    GetsAlone(Loop, Init, s, 0, FillLoop, t);
  }

  /** From a new Loop order to `filled`: the user was paid by the fill itself, or accepted its offer. */
  lemma OrderFills(outcome: Outcome) returns (t: State)
    ensures CanGet(Loop, Init, t) && t.row.status == Filled && t.row.receipt.Some? && Delivers(t.log, t.row.receipt.value)
    ensures t.log == [UserOffer, Fill(0, outcome)] + if outcome.Offered? then [CounterAccepted(1)] else []
  {
    t := OrderSold(outcome);
    hide CanGet, Alone, StepGo, StartPc;
    if outcome.Offered? {
      var s := GetsStep(Loop, Init, t, UserAccepts(1));
      t := MarkFills(Loop, s, 0, 2);
      GetsAlone(Loop, Init, s, 0, MarkCounterAccepted, t);
    }
  }

  /** A new managed order is settled by one call. */
  lemma ManagedOrderFills() returns (t: State)
    ensures CanGet(Managed, Init, t) && t.row.status == Filled && t.log == [UserOffer, Fill(0, Direct)]
    ensures t.row.receipt == Some(1) && Delivers(t.log, 1)
  {
    assert CanGet(Managed, Init, Init) by { assert Run(Managed, Init, []) == Some(Init); }
    hide CanGet, Alone, StepGo, StartPc;
    var f: nat;
    t, f := SettleSettles(Init, 0);
    GetsAlone(Managed, Init, Init, 0, SettleManaged, t);
  }
}
