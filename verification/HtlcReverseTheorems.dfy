/** What holds for every run of a reverse order, and what for every careful one. */
module HtlcReverseTheorems {
  import opened Wrappers
  import opened HtlcCommands
  import opened HtlcReverseMachine
  import opened HtlcReverseSafety
  import opened HtlcReverseCare

  /** Some run from a new order ends in `s`: any interleaving of calls, daemon, escrow, clock and
      crashes. */
  ghost predicate Reachable(cfg: Config, s: State) {
    exists labels: seq<Label> :: Run(cfg, Init, labels) == Some(s)
  }

  ghost predicate CarefullyReachable(cfg: Config, s: State) {
    exists labels: seq<Label> :: Clean(cfg, Init, labels) && Run(cfg, Init, labels) == Some(s)
  }

  lemma ReachableInv(cfg: Config, s: State)
    requires Reachable(cfg, s)
    ensures Inv(cfg, s)
  {
    hide Run;
    var labels :| Run(cfg, Init, labels) == Some(s);
    RunKeeps(cfg, Init, labels);
  }

  lemma CarefullyReachableCare(cfg: Config, s: State)
    requires Ladder(cfg) && CarefullyReachable(cfg, s)
    ensures Reachable(cfg, s) && Inv(cfg, s) && Care(cfg, s)
  {
    hide Run, Clean;
    var labels :| Clean(cfg, Init, labels) && Run(cfg, Init, labels) == Some(s);
    RunKeeps(cfg, Init, labels);
    RunCares(cfg, Init, labels);
  }

  lemma {:induction false} LedgersGrow(cfg: Config, s: State, more: seq<Label>)
    requires Run(cfg, s, more).Some?
    ensures s.canton <= Run(cfg, s, more).value.canton && s.evm <= Run(cfg, s, more).value.evm
    decreases more
  {
    hide Step;
    if more != [] {
      StepFramed(cfg, s, more[0]);
      LedgersGrow(cfg, Step(cfg, s, more[0]).value, more[1..]);
    }
  }

  // ----- Every run -----

  /** A spent escrow after solverTimelock stays as it is, whatever happens. */
  lemma {:induction false} NeverClaimedAfter(cfg: Config, s: State, more: seq<Label>)
    requires Inv(cfg, s) && NeverClaimable(cfg, s) && Run(cfg, s, more).Some?
    ensures Run(cfg, s, more).value.evm == s.evm && NeverClaimable(cfg, Run(cfg, s, more).value)
    decreases more
  {
    hide Inv, Step;
    if more != [] {
      StepKeeps(cfg, s, more[0]);
      StaysUnclaimable(cfg, s, more[0]);
      NeverClaimedAfter(cfg, Step(cfg, s, more[0]).value, more[1..]);
    }
  }

  lemma StaysUnclaimable(cfg: Config, s: State, l: Label)
    requires Inv(cfg, s) && NeverClaimable(cfg, s) && Step(cfg, s, l).Some?
    ensures Step(cfg, s, l).value.evm == s.evm && NeverClaimable(cfg, Step(cfg, s, l).value)
  {
    hide StartPc, StepGo, Inv;
    match l
    case Go(w, ch) => GoFrames(cfg, s, w, ch);
    case _ =>
  }

  /** When the late refund submits the return, the WBTC was never claimed and in no continuation
      ever is: however many refunds overlap and whatever the daemon gives back. */
  lemma LateReturnMeansNeverClaimed(cfg: Config, s: State, w: nat, more: seq<Label>)
    requires Ladder(cfg) && Reachable(cfg, s) && PcOf(s, w).RefundSubmit? && PcOf(s, w).entry == Late
    requires Run(cfg, s, more).Some?
    ensures Claimed !in s.evm && Claimed !in Run(cfg, s, more).value.evm
  {
    hide Run, Reachable, Inv;
    ReachableInv(cfg, s);
    LateReady(cfg, s, w, PcOf(s, w).o, PcOf(s, w).prev);
    NeverClaimedAfter(cfg, s, more);
  }

  /** A managed order is returned only when the WBTC was never claimed and never will be. */
  lemma ManagedReturnMeansNeverClaimed(cfg: Config, s: State, more: seq<Label>)
    requires Ladder(cfg) && !cfg.loop && Reachable(cfg, s) && Has(s.canton, Refund) && Run(cfg, s, more).Some?
    ensures Claimed !in s.evm && Claimed !in Run(cfg, s, more).value.evm
  {
    hide Run, Reachable;
    ReachableInv(cfg, s);
    SplitWorld(cfg, s);
    hide Inv;
    NeverClaimedAfter(cfg, s, more);
  }

  /** The solver takes or keeps the CBTC only if the user claimed the WBTC; an HtlcLock it took
      was not returned. */
  lemma TakenMeansClaimed(cfg: Config, s: State)
    requires Reachable(cfg, s) && (Has(s.canton, Claim) || s.row.status == MainClaimed)
    ensures Claimed in s.evm
    ensures s.row.status == MainClaimed ==> Settled(cfg, s.row, s.canton)
    ensures Has(s.canton, Claim) || !cfg.loop ==> !Has(s.canton, Refund)
  {
    hide Run, Reachable;
    ReachableInv(cfg, s);
    SplitWorld(cfg, s);
    hide Inv;
    if s.row.status == MainClaimed && !cfg.loop {
      assert IsUpdate(s.canton, s.row.result.value.u, Claim);
    }
  }

  /** The return commits at most once, whatever mixture of the two refund calls runs, because
      each of them submits it under the same command id. */
  lemma RefundCommitsOnce(cfg: Config, s: State, u: nat, v: nat)
    requires Reachable(cfg, s) && IsUpdate(s.canton, u, Refund) && IsUpdate(s.canton, v, Refund)
    ensures u == v && CommittedAs(s.canton, u, RefundId(cfg.order, Early))
    ensures RefundId(cfg.order, Late) == RefundId(cfg.order, Early)
  {
    hide Run, Reachable;
    ReachableInv(cfg, s);
    SplitWorld(cfg, s);
    OneOfAKind(cfg, s.canton, u, v, Refund);
    RefundFound(cfg, s.canton, u, Early);
    IdsTellApart(cfg.order, cfg.order, Late, Early);
  }

  /** A row the refund calls set to `refunded` holds the id of that one return. */
  lemma RefundedRowNamesReturn(cfg: Config, s: State, u: nat)
    requires Reachable(cfg, s) && s.row.status == Refunded && !s.marked
    ensures RefundRecorded(s.row, s.canton)
    ensures IsUpdate(s.canton, u, Refund) ==> s.row.result == Some(Committed(u))
  {
    hide Run, Reachable, IdFits;
    ReachableInv(cfg, s);
    SplitWorld(cfg, s);
    if IsUpdate(s.canton, u, Refund) { OneOfAKind(cfg, s.canton, u, s.row.result.value.u, Refund); }
  }

  /** Every evidence field of the row names a ledger fact of its kind; custody is never lost once
      the order is secured. */
  lemma EvidenceIsReal(cfg: Config, s: State)
    requires Reachable(cfg, s)
    ensures s.row.lockTx.Some? ==> IsEvent(s.evm, s.row.lockTx.value, Locked)
    ensures s.row.evmTx.Some? ==>
              IsEvent(s.evm, s.row.evmTx.value, Claimed) || IsEvent(s.evm, s.row.evmTx.value, Retaken)
    ensures s.row.custody.Some? ==> IsCustody(cfg, s.canton, s.row.custody.value)
    ensures s.row.custody.None? ==> Unsecured(s.row.status)
    ensures s.row.revealed || s.row.status == CounterClaimed ==> Claimed in s.evm
  {
    hide Run, Reachable;
    ReachableInv(cfg, s);
    SplitWorld(cfg, s);
  }

  // ----- Careful runs -----

  /** The user has both legs: the returned CBTC and the claimed WBTC. */
  ghost predicate BothLegs(s: State) {
    Has(s.canton, Refund) && Claimed in s.evm
  }

  lemma CareExcludes(cfg: Config, s: State)
    requires Ladder(cfg) && Inv(cfg, s) && Care(cfg, s)
    ensures !BothLegs(s)
  {
    SplitWorld(cfg, s);
    hide Inv, Has, LogOk, CopyOk;
  }

  /** When the CBTC return committed, by whichever call, the user has not claimed the WBTC and in
      no careful continuation ever does. */
  lemma RefundMeansNeverClaimed(cfg: Config, s: State, more: seq<Label>)
    requires Ladder(cfg) && CarefullyReachable(cfg, s) && Has(s.canton, Refund)
    requires Clean(cfg, s, more) && Run(cfg, s, more).Some?
    ensures Claimed !in s.evm && Claimed !in Run(cfg, s, more).value.evm
  {
    hide Run, Clean, CarefullyReachable, Inv, Care;
    CarefullyReachableCare(cfg, s);
    CareExcludes(cfg, s);
    RunKeeps(cfg, s, more);
    RunCares(cfg, s, more);
    var t := Run(cfg, s, more).value;
    CareExcludes(cfg, t);
    LedgersGrow(cfg, s, more);
    var u :| 0 <= u < |s.canton| && s.canton[u].what == Refund;
    assert t.canton[u].what == Refund;
  }

  /** A settled order was not returned. */
  lemma SettledMeansNotReturned(cfg: Config, s: State)
    requires Ladder(cfg) && CarefullyReachable(cfg, s) && s.row.status == MainClaimed
    ensures !Has(s.canton, Refund)
  {
    hide Run, Clean, CarefullyReachable, Reachable, Inv, Care;
    CarefullyReachableCare(cfg, s);
    TakenMeansClaimed(cfg, s);
    CareExcludes(cfg, s);
  }

  // ----- An interrupted refund -----

  /** Careful steps `labels` lead from `s` to `t`. */
  ghost predicate Leads(cfg: Config, s: State, labels: seq<Label>, t: State) {
    Run(cfg, s, labels) == Some(t) && Clean(cfg, s, labels)
  }

  lemma Take(cfg: Config, s: State, labels: seq<Label>, t: State, l: Label) returns (labels': seq<Label>, t': State)
    requires Leads(cfg, s, labels, t) && Step(cfg, t, l).Some? && Careful(cfg, t, l)
    ensures labels' == labels + [l] && t' == Step(cfg, t, l).value && Leads(cfg, s, labels', t')
  {
    hide Step, Careful;
    labels', t' := labels + [l], Step(cfg, t, l).value;
    RunAppend(cfg, s, labels, [l]);
    RunOne(cfg, t, l);
  }

  /** In a careful run a row left in `refunding` passes every guard of a late refund but the
      clock. */
  lemma InterruptedRefundFacts(cfg: Config, s: State)
    requires Ladder(cfg) && CarefullyReachable(cfg, s) && s.row.status == Refunding
    ensures RefundEligible(s.row) && !s.row.revealed && s.row.custody.Some?
    ensures !Live(s.evm) && !ClaimSeen(s.evm, s.row)
  {
    hide Run, Clean, CarefullyReachable;
    CarefullyReachableCare(cfg, s);
    SplitWorld(cfg, s);
    hide Inv, LogOk, Has;
  }
}
