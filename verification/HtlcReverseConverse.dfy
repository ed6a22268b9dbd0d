/** Careful is exact: a step is careless if and only if some careful continuation of it gives the
    user both legs. The continuations are built from every state, not from one run. */
module HtlcReverseConverse {
  import opened Wrappers
  import opened HtlcCommands
  import opened HtlcReverseMachine
  import opened HtlcReverseSafety
  import opened HtlcReverseCare
  import opened HtlcReverseTheorems

  /** Some careful continuation of `s` ends with both legs in the user's hands. */
  ghost predicate CanEndWithBoth(cfg: Config, s: State) {
    exists more: seq<Label>, t: State :: Leads(cfg, s, more, t) && BothLegs(t)
  }

  lemma Begins(cfg: Config, s: State)
    ensures Leads(cfg, s, [], s)
  {
  }

  // ----- Pieces of the continuations -----

  /** An early refund of a row nobody holds reads an empty escrow and pays. */
  lemma EarlyRefundPays(cfg: Config, s: State, before: seq<Label>, t: State, w: nat)
    returns (labels: seq<Label>, t': State)
    requires Leads(cfg, s, before, t) && cfg.loop && PcOf(t, w).Idle? && t.row.status == MainLocked
    requires !t.row.revealed && t.row.custody.Some? && !Live(t.evm) && CanRefund(cfg, t.canton, Early)
    ensures Leads(cfg, s, labels, t') && Has(t'.canton, Refund)
    ensures t'.evm == t.evm && t'.now == t.now && t'.sending == t.sending
  {
    hide Leads, Live, CanRefund, Has, RefundId;
    labels, t' := Take(cfg, s, before, t, Start(w, EarlyRefund));
    labels, t' := Take(cfg, s, labels, t', Go(w, Proceed));
    assert t'.row == t.row && PcOf(t', w) == RefundCas(t.row, Early);
    labels, t' := EarlyRefundPaysFrom(cfg, s, labels, t', w, t.row);
  }

  lemma EarlyRefundPaysFrom(cfg: Config, s: State, before: seq<Label>, t: State, w: nat, o: Row)
    returns (labels: seq<Label>, t': State)
    requires Leads(cfg, s, before, t) && PcOf(t, w) == RefundCas(o, Early) && t.row.status == o.status
    requires o.custody.Some? && CanRefund(cfg, t.canton, Early)
    ensures Leads(cfg, s, labels, t') && Has(t'.canton, Refund)
    ensures t'.evm == t.evm && t'.now == t.now && t'.sending == t.sending
  {
    hide Leads, CanRefund, Has, RefundId;
    labels, t' := Take(cfg, s, before, t, Go(w, Proceed));
    labels, t' := CommitsNow(cfg, s, labels, t', w, o.(status := Refunding), o.status);
  }

  lemma CommitsNow(cfg: Config, s: State, before: seq<Label>, t: State, w: nat, o: Row, prev: Status)
    returns (labels: seq<Label>, t': State)
    requires Leads(cfg, s, before, t) && PcOf(t, w) == RefundSubmit(o, prev, Early)
    requires o.custody.Some? && CanRefund(cfg, t.canton, Early)
    ensures Leads(cfg, s, labels, t') && Has(t'.canton, Refund)
    ensures t' == t.(canton := t'.canton, pcs := t.pcs[w := PcOf(t', w)])
  {
    hide Leads, CanRefund, Has, RefundId;
    var tx := Tx(Some(RefundId(cfg.order, Early)), Refund);
    labels, t' := Take(cfg, s, before, t, Go(w, Commit));
    HasMore(t.canton, tx, Refund);
  }

  /** A lock that was sent lands and the user claims it. */
  lemma LandsAndClaims(cfg: Config, s: State, before: seq<Label>, t: State)
    returns (labels: seq<Label>, t': State)
    requires Leads(cfg, s, before, t) && t.sending && t.evm == [] && t.now < cfg.solverTimelock
    ensures Leads(cfg, s, labels, t') && Claimed in t'.evm && t'.canton == t.canton
  {
    hide Leads;
    labels, t' := Take(cfg, s, before, t, LockLands);
    labels, t' := Take(cfg, s, labels, t', UserClaims);
    assert t'.evm[1] == Claimed;
  }

  /** A row back in `main_locked` is locked again by the daemon. */
  lemma LocksAgain(cfg: Config, s: State, before: seq<Label>, t: State)
    returns (labels: seq<Label>, t': State)
    requires Leads(cfg, s, before, t) && !t.sending && t.evm == [] && t.row.status == MainLocked
    ensures Leads(cfg, s, labels, t') && t'.sending && t'.evm == [] && t'.now == t.now && t'.canton == t.canton
    ensures t'.row.status == CounterLocking && t'.daemon.Resting?
  {
    hide Leads;
    labels, t' := Take(cfg, s, before, t, DaemonCrash);
    labels, t' := Take(cfg, s, labels, t', Begin);
    labels, t' := Take(cfg, s, labels, t', Send);
  }

  // ----- Giving the reservation back too early -----

  /** A reservation given back after the user claimed, or while a lock can still land. */
  ghost predicate CarelessAbort(cfg: Config, s: State) {
    cfg.loop && (Claimed in s.evm || (s.sending && s.now < cfg.solverTimelock))
  }

  lemma AbortFacts(cfg: Config, s: State)
    requires Inv(cfg, s) && Care(cfg, s) && StepWorld(cfg, s, Abort).Some? && CarelessAbort(cfg, s)
    ensures !s.row.revealed && s.row.custody.Some? && CanRefund(cfg, s.canton, Early)
    ensures Claimed !in s.evm ==> s.evm == []
  {
    SplitWorld(cfg, s);
    RefundUnused(cfg, s.canton, Early);
    hide Inv, Has, LogOk, RefundId;
  }

  lemma AbortPaysBoth(cfg: Config, s: State)
    requires Inv(cfg, s) && Care(cfg, s) && StepWorld(cfg, s, Abort).Some? && CarelessAbort(cfg, s)
    ensures CanEndWithBoth(cfg, StepWorld(cfg, s, Abort).value)
  {
    AbortFacts(cfg, s);
    hide Inv, Care, Leads, CanRefund, Live, Has;
    var s1 := StepWorld(cfg, s, Abort).value;
    Begins(cfg, s1);
    var labels, t := Take(cfg, s1, [], s1, AbortWrite);
    labels, t := Take(cfg, s1, labels, t, Crash(0));
    labels, t := EarlyRefundPays(cfg, s1, labels, t, 0);
    if Claimed !in s.evm { labels, t := LandsAndClaims(cfg, s1, labels, t); }
    assert BothLegs(t);
  }

  /** Giving the reservation back is harmless exactly when nothing was claimed and no lock sent by
      the daemon can still land. */
  lemma AbortHarmsIff(cfg: Config, s: State)
    requires Ladder(cfg) && CarefullyReachable(cfg, s) && StepWorld(cfg, s, Abort).Some?
    ensures CanEndWithBoth(cfg, StepWorld(cfg, s, Abort).value) <==> CarelessAbort(cfg, s)
  {
    hide CarefullyReachable, Reachable;
    CarefullyReachableCare(cfg, s);
    hide Inv, Care, StepWorld, CanEndWithBoth;
    if CarelessAbort(cfg, s) { AbortPaysBoth(cfg, s); } else { CarefulStepIsSafe(cfg, s, Abort); }
  }

  // ----- Re-entering a refund that may still reopen the order -----

  /** Before solverTimelock, an early refund enters a `refunding` row that another early refund
      took from `main_locked` and may still put back there. */
  ghost predicate CarelessEntry(cfg: Config, s: State) {
    cfg.loop && s.now < cfg.solverTimelock && s.row.status == Refunding && exists v | v in s.pcs :: MayReopen(s.pcs[v])
  }

  lemma EntryFacts(cfg: Config, s: State, v: nat)
    requires Inv(cfg, s) && Care(cfg, s) && cfg.loop && s.now < cfg.solverTimelock && s.row.status == Refunding
    requires v in s.pcs && MayReopen(s.pcs[v])
    ensures !s.row.revealed && s.row.custody.Some? && CanRefund(cfg, s.canton, Early)
    ensures s.evm == [] && !s.sending && !Live(s.evm)
  {
    SplitWorld(cfg, s);
    RefundUnused(cfg, s.canton, Early);
    assert PcCare(cfg, s.pcs[v], s);
    hide Inv, Has, LogOk, RefundId, Apart, TakingOk;
  }

  lemma EntryPaysBoth(cfg: Config, s: State, w: nat, v: nat)
    requires Inv(cfg, s) && Care(cfg, s) && cfg.loop && s.now < cfg.solverTimelock && s.row.status == Refunding
    requires v in s.pcs && MayReopen(s.pcs[v]) && PcOf(s, w).Idle?
    ensures CanEndWithBoth(cfg, Step(cfg, s, Start(w, EarlyRefund)).value)
  {
    EntryFacts(cfg, s, v);
    hide Inv, Care, Leads, CanRefund, Live, Has;
    var s1 := Step(cfg, s, Start(w, EarlyRefund)).value;
    assert w != v && s1 == Move(s, w, EarlyLock(s.row));
    Begins(cfg, s1);
    var labels, t := Take(cfg, s1, [], s1, Go(w, Proceed));
    assert t == Move(s, w, RefundCas(s.row, Early));
    labels, t := EntersAndPays(cfg, s1, labels, s, w, v);
    labels, t := LocksAgain(cfg, s1, labels, t);
    labels, t := LandsAndClaims(cfg, s1, labels, t);
    assert BothLegs(t);
  }

  /** `v` fails, `w` pays, and `v` puts the row back to `main_locked`. */
  lemma EntersAndPays(cfg: Config, s1: State, before: seq<Label>, s: State, w: nat, v: nat)
    returns (labels: seq<Label>, t: State)
    requires Leads(cfg, s1, before, Move(s, w, RefundCas(s.row, Early))) && s.row.status == Refunding
    requires v in s.pcs && v != w && MayReopen(s.pcs[v]) && s.row.custody.Some? && CanRefund(cfg, s.canton, Early)
    ensures Leads(cfg, s1, labels, t) && Has(t.canton, Refund) && t.row.status == MainLocked
    ensures t.evm == s.evm && t.now == s.now && t.sending == s.sending
  {
    hide Leads, CanRefund, Has;
    labels, t := Take(cfg, s1, before, Move(s, w, RefundCas(s.row, Early)), Go(w, Proceed));
    assert t.canton == s.canton && t.row.status == Refunding && PcOf(t, v) == s.pcs[v];
    assert PcOf(t, w) == RefundSubmit(s.row.(status := Refunding), Refunding, Early);
    labels, t := Fails(cfg, s1, labels, t, v);
    labels, t := CommitsNow(cfg, s1, labels, t, w, s.row.(status := Refunding), Refunding);
    labels, t := Take(cfg, s1, labels, t, Go(v, Proceed));
  }

  lemma Fails(cfg: Config, s: State, before: seq<Label>, t: State, v: nat) returns (labels: seq<Label>, t': State)
    requires Leads(cfg, s, before, t) && MayReopen(PcOf(t, v))
    ensures Leads(cfg, s, labels, t') && PcOf(t', v).RefundWrite? && PcOf(t', v).o.status == MainLocked
    ensures t' == Move(t, v, PcOf(t', v)) || t' == t
  {
    labels, t' := before, t;
    hide Leads;
    if PcOf(t, v).RefundSubmit? { labels, t' := Take(cfg, s, labels, t', Go(v, Fail)); }
  }

  /** Starting an early refund is harmless exactly when the row is not in the hands of another
      early refund that may still reopen the order, or solverTimelock has passed. */
  lemma EarlyStartHarmsIff(cfg: Config, s: State, w: nat)
    requires Ladder(cfg) && CarefullyReachable(cfg, s) && PcOf(s, w).Idle?
    ensures CanEndWithBoth(cfg, Step(cfg, s, Start(w, EarlyRefund)).value) <==> CarelessEntry(cfg, s)
  {
    hide CarefullyReachable, Reachable;
    CarefullyReachableCare(cfg, s);
    hide Inv, Care, CanEndWithBoth, MayReopen;
    if CarelessEntry(cfg, s) {
      var v :| v in s.pcs && MayReopen(s.pcs[v]);
      EntryPaysBoth(cfg, s, w, v);
    } else {
      CarefulStepIsSafe(cfg, s, Start(w, EarlyRefund));
    }
  }

  // ----- Every step -----

  lemma CarefulStepIsSafe(cfg: Config, s: State, l: Label)
    requires Ladder(cfg) && Inv(cfg, s) && Care(cfg, s) && Step(cfg, s, l).Some? && Careful(cfg, s, l)
    ensures !CanEndWithBoth(cfg, Step(cfg, s, l).value)
  {
    hide Inv, Care, Step, Careful;
    StepKeeps(cfg, s, l);
    StepCares(cfg, s, l);
    var s1 := Step(cfg, s, l).value;
    forall more: seq<Label>, t: State | Leads(cfg, s1, more, t) ensures !BothLegs(t) {
      hide Run, Clean, BothLegs;
      RunKeeps(cfg, s1, more);
      RunCares(cfg, s1, more);
      CareExcludes(cfg, t);
    }
  }

  /** The conditions are exact: after a careful past, a step is careless if and only if a careful
      continuation of it ends with both legs in the user's hands. */
  lemma CarefulIsExact(cfg: Config, s: State, l: Label)
    requires Ladder(cfg) && CarefullyReachable(cfg, s) && Step(cfg, s, l).Some?
    ensures CanEndWithBoth(cfg, Step(cfg, s, l).value) <==> !Careful(cfg, s, l)
  {
    hide CanEndWithBoth, CarefullyReachable, MayReopen;
    match l
    case Start(w, EarlyRefund) => EarlyStartHarmsIff(cfg, s, w);
    case Abort => AbortHarmsIff(cfg, s);
    case _ =>
      CarefullyReachableCare(cfg, s);
      hide Inv, Care, Step;
      CarefulStepIsSafe(cfg, s, l);
  }

  // ----- Careless steps are there to be taken -----

  /** The user's CBTC is in custody and nothing else happened. */
  lemma ToCustody(cfg: Config) returns (labels: seq<Label>, t: State)
    requires cfg.loop
    ensures Leads(cfg, Init, labels, t) && t.row == Row(MainLocked, false, None, None, Some(0), None)
    ensures t == Init.(row := t.row, canton := [Tx(None, CustodyAccepted)], pcs := map[0 := Idle])
  {
    Begins(cfg, Init);
    hide Leads;
    labels, t := Take(cfg, Init, [], Init, Start(0, Accept));
    labels, t := Take(cfg, Init, labels, t, Go(0, Proceed));
    assert t.row == NewRow.(status := Accepted);
    labels, t := Take(cfg, Init, labels, t, Start(0, Reserve));
    labels, t := Take(cfg, Init, labels, t, Go(0, Proceed));
    labels, t := Confirms(cfg, labels, t);
  }

  lemma Confirms(cfg: Config, before: seq<Label>, s: State) returns (labels: seq<Label>, t: State)
    requires cfg.loop && Leads(cfg, Init, before, s)
    requires s == Init.(row := NewRow.(status := MainLocking), pcs := map[0 := Idle])
    ensures Leads(cfg, Init, labels, t) && t.row == Row(MainLocked, false, None, None, Some(0), None)
    ensures t == Init.(row := t.row, canton := [Tx(None, CustodyAccepted)], pcs := map[0 := Idle])
  {
    hide Leads;
    labels, t := Take(cfg, Init, before, s, Start(0, ConfirmLock));
    labels, t := Take(cfg, Init, labels, t, Go(0, Commit));
    labels, t := Take(cfg, Init, labels, t, Go(0, Proceed));
  }

  /** For every Loop order with time before solverTimelock, careful runs reach a careless abort. */
  lemma CarelessAbortOccurs(cfg: Config) returns (t: State)
    requires cfg.loop && 0 < cfg.solverTimelock
    ensures CarefullyReachable(cfg, t) && StepWorld(cfg, t, Abort).Some? && CarelessAbort(cfg, t)
  {
    var labels;
    labels, t := ToCustody(cfg);
    hide Leads;
    labels, t := LocksAgain(cfg, Init, labels, t);
    Led(cfg, labels, t);
  }

  /** And a careless entry, for every idle worker. */
  lemma CarelessEntryOccurs(cfg: Config) returns (t: State)
    requires cfg.loop && 0 < cfg.solverTimelock
    ensures CarefullyReachable(cfg, t) && CarelessEntry(cfg, t) && PcOf(t, 2).Idle?
  {
    var labels;
    labels, t := ToCustody(cfg);
    hide Leads;
    var o := t.row;
    labels, t := Take(cfg, Init, labels, t, Start(1, EarlyRefund));
    labels, t := Take(cfg, Init, labels, t, Go(1, Proceed));
    labels, t := Take(cfg, Init, labels, t, Go(1, Proceed));
    assert MayReopen(t.pcs[1]);
    Led(cfg, labels, t);
  }

  lemma Led(cfg: Config, labels: seq<Label>, t: State)
    requires Leads(cfg, Init, labels, t)
    ensures CarefullyReachable(cfg, t)
  {
  }
}
