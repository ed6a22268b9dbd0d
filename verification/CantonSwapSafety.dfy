/** What every step of the same-Canton swap keeps, and what follows for every run. */
module CantonSwapSafety {
  import opened Wrappers
  import opened CantonSwapLedger
  import opened CantonSwapMachine

  // ----- Invariants -----

  /** Every command number commits at most once. */
  ghost predicate NumbersUnique(log: Log) {
    forall i, j, k :: CommandAt(log, i, k) && CommandAt(log, j, k) ==> i == j
  }

  ghost predicate HasPredecessor(log: Log, i: nat)
    requires i < |log|
  {
    log[i].Reissue? ==> log[i].attempt > 0 && Committed(log, log[i].attempt - 1)
  }

  /** Number k+1 commits only after number k. */
  ghost predicate NumbersChained(log: Log) {
    forall i: nat | i < |log| :: HasPredecessor(log, i)
  }

  /** When a later number committed, the earlier one had made an offer that is closed and
      was never accepted. */
  ghost predicate SupersededDead(log: Log) {
    forall i, j, k, m :: CommandAt(log, i, k) && CommandAt(log, j, m) && k < m ==> Dead(log, i)
  }

  /** Only open counter offers are accepted, once each. */
  ghost predicate AcceptsOk(log: Log) {
    && (forall c :: CounterAccepted(c) in log ==> IsOffer(log, c) && CounterClosed(c) !in log)
    && (forall c :: CounterClosed(c) in log ==> IsOffer(log, c))
    && (forall i | 0 <= i < |log| && log[i].CounterAccepted? :: log[i].offer < i)
    && (forall i, j | 0 <= i < j < |log| && log[i].CounterAccepted? :: log[i] != log[j])
  }

  /** A fill took a sell offer that was never given back. */
  ghost predicate SellLegsOk(log: Log) {
    forall i | 0 <= i < |log| && log[i].Fill? ::
      log[i].offer < |log| && log[log[i].offer].UserOffer? && UserOfferClosed(log[i].offer) !in log
  }

  ghost predicate LogOk(log: Log) {
    NumbersUnique(log) && NumbersChained(log) && SupersededDead(log) && AcceptsOk(log) && SellLegsOk(log)
  }

  /** A copy the committed fill may be applied to: it names no offer, or the first one and that
      was accepted. */
  ghost predicate Fillable(o: Row, log: Log) {
    o.attempt == 0 && (o.counterOffer.None? || FirstAccepted(o, log))
  }

  /** The facts any copy of the row carries, however old the copy is. */
  ghost predicate CopyOk(mode: WalletMode, o: Row, log: Log) {
    && (o.userLeg.Some? ==> o.userLeg.value < |log| && log[o.userLeg.value].UserOffer?)
    && (o.settlement.Some? ==> o.settlement.value < |log| && log[o.settlement.value].Fill?)
    && (o.counterOffer.Some? ==>
          o.settlement.Some? && IsOffer(log, o.counterOffer.value) && CommandAt(log, o.counterOffer.value, o.attempt))
    && (o.createdOffset.Some? ==> o.counterOffer.Some? && o.createdOffset.value == o.counterOffer.value + 1)
    && (o.receipt.Some? ==> Delivers(log, o.receipt.value))
    && (o.status == Filled ==> o.receipt.Some? && o.settlement.Some?)
    && (mode == Managed ==> o.attempt == 0)
    && (o.clearedAt.Some? ==> mode == Loop && o.counterOffer.Some? && Dead(log, o.counterOffer.value))
    && (mode == Loop && o.status != UserLocked && o.status != Filled ==> Fillable(o, log))
    && (mode == Loop && o.status != Filled ==>
          o.receipt.None? && (o.counterOffer.Some? ==> o.createdOffset == Some(o.counterOffer.value + 1)))
    && (o.attempt > 0 ==> Committed(log, o.attempt) && (o.status == Filled || o.counterOffer.Some?))
  }

  /** A copy the reissue path may act on: its offer is dead and no receipt is known. */
  ghost predicate ReissueOk(mode: WalletMode, o: Row, log: Log) {
    CopyOk(mode, o, log) && IsLoopFillPendingCounterAccept(mode, o) && o.receipt.None?
    && Dead(log, o.counterOffer.value)
  }

  /** A copy fillLoop or completeSettling may apply a fill result to. */
  ghost predicate FillOk(mode: WalletMode, o: Row, log: Log) {
    CopyOk(mode, o, log) && (mode == Loop ==> Fillable(o, log) && o.status == Filling)
  }

  ghost predicate VerifyOk(mode: WalletMode, o: Row, purpose: Purpose, log: Log) {
    CopyOk(mode, o, log) && o.counterOffer.Some? && o.settlement.Some?
    && (purpose == FirstCheck ==> IsLoopFillPendingCounterAccept(mode, o))
    && (purpose == Recheck ==> mode == Loop && Dead(log, o.counterOffer.value))
  }

  /** What a worker knows at each await. */
  ghost predicate PcOk(mode: WalletMode, pc: Pc, row: Row, log: Log) {
    match pc
    case Idle | FillInFlight => true
    case SettleReload => mode == Managed
    case FillReserved(st) => mode == Loop && (st == UserLocked || st == Filling)
    case Write(o, expected) =>
      (CopyOk(mode, o, log) || (mode == Loop && row.status == Filled)) && (mode == Loop ==> expected != Filled)
    case WriteOffer(o, _) => CopyOk(mode, o, log) && mode == Loop
    case Confirming(f) => mode == Loop && f < |log| && log[f].UserOffer?
    case Expiring(o) =>
      CopyOk(mode, o, log) && (o.status == Open || o.status == Failed || (mode == Loop && o.status == UserLocked))
      && (mode == Loop ==> Fillable(o, log))
    case FillChecked(_) | FillReady(_) =>
      mode == Loop && CopyOk(mode, pc.o, log) && Fillable(pc.o, log)
      && (pc.o.status == UserLocked || pc.o.status == Filling)
    case FillOwned(o) => mode == Loop && FillOk(mode, o, log)
    case FillSubmit(o) => FillOk(mode, o, log)
    case Rejecting(o) => FillOk(mode, o, log)
    case Recover(o) => mode == Managed && CopyOk(mode, o, log)
    case SettleReserve(from) => mode == Managed && (from == Open || from == Settling)
    case SettleReady(o) => mode == Managed && CopyOk(mode, o, log)
    case SettleOffer(o) => mode == Managed && CopyOk(mode, o, log)
    case Repair(o) => CopyOk(mode, o, log) && (mode == Loop ==> o.status == Filling || o.status == Failed)
    case FilledRepair(_) | TryComplete(_, _) => false
    case CounterLoaded(o) => CopyOk(mode, o, log) && IsLoopFillPendingCounterAccept(mode, o)
    case Verify(o, purpose) => VerifyOk(mode, o, purpose, log)
    case VerifyScan(o, purpose) =>
      VerifyOk(mode, o, purpose, log) && EarlyVerdict(mode, o).None? && !CounterPending(log, o.counterOffer.value)
    case Proof(o, purpose) => ReissueOk(mode, o, log) && (purpose == FirstCheck || purpose == Recheck)
    case Cooling(_) | Reload(_) | ReissueReady(_) | ReissueReserved(_) => ReissueOk(mode, pc.o, log)
    case ReissueSubmit(o) =>
      CopyOk(mode, o, log) && IsLoopFillPendingCounterAccept(mode, o) && Dead(log, o.counterOffer.value)
  }

  ghost predicate Inv(mode: WalletMode, s: State) {
    && LogOk(s.log)
    && CopyOk(mode, s.row, s.log)
    && (forall w | w in s.pcs :: PcOk(mode, s.pcs[w], s.row, s.log))
  }

  // ----- The log grows and facts about it stay -----

  ghost predicate Extends(log: Log, log': Log) {
    && |log| <= |log'| && log'[..|log|] == log
    && (forall u :: u in log ==> u in log')
    && (forall c :: Dead(log, c) ==> Dead(log', c))
    && (forall k :: Committed(log, k) ==> Committed(log', k))
  }

  lemma AppendExtends(log: Log, u: Update)
    requires u.CounterAccepted? ==> CounterPending(log, u.offer)
    ensures Extends(log, log + [u])
  {
    forall c | Dead(log, c) ensures Dead(log + [u], c) {}
    CommandsBefore(log, u);
  }

  lemma CopyStays(mode: WalletMode, o: Row, log: Log, log': Log)
    requires CopyOk(mode, o, log) && Extends(log, log')
    ensures CopyOk(mode, o, log')
  {
    assert forall i | 0 <= i < |log| :: log'[i] == log[i] by {
      assert forall i | 0 <= i < |log| :: log'[..|log|][i] == log[i];
    }
  }

  lemma UpdatesStay(log: Log, log': Log)
    requires Extends(log, log')
    ensures |log| <= |log'| && forall i | 0 <= i < |log| :: log'[i] == log[i]
  {
    assert forall i | 0 <= i < |log| :: log'[..|log|][i] == log[i];
  }

  lemma CounterPcStays(mode: WalletMode, pc: Pc, row: Row, log: Log, row': Row, log': Log)
    requires PcOk(mode, pc, row, log) && Extends(log, log') && CounterPoint(pc) && !pc.TryComplete?
    ensures PcOk(mode, pc, row', log')
  {
    UpdatesStay(log, log');
    CopyStays(mode, pc.o, log, log');
    hide CopyOk, AcceptStatus;
  }

  lemma FillPcStays(mode: WalletMode, pc: Pc, row: Row, log: Log, row': Row, log': Log)
    requires PcOk(mode, pc, row, log) && Extends(log, log') && FillPoint(pc)
    ensures PcOk(mode, pc, row', log')
  {
    if !pc.FillReserved? && !pc.FillInFlight? {
      CopyStays(mode, pc.o, log, log');
      assert Fillable(pc.o, log) ==> Fillable(pc.o, log');
    }
    hide CopyOk, Fillable;
  }

  /** Another worker's step leaves every fact a worker holds in place. */
  lemma PcStays(mode: WalletMode, pc: Pc, row: Row, log: Log, row': Row, log': Log)
    requires PcOk(mode, pc, row, log) && Extends(log, log')
    requires mode == Loop && row.status == Filled ==> row'.status == Filled
    ensures PcOk(mode, pc, row', log')
  {
    if CounterPoint(pc) && !pc.TryComplete? {
      hide PcOk, Extends;
      CounterPcStays(mode, pc, row, log, row', log');
    } else if FillPoint(pc) {
      hide PcOk, Extends;
      FillPcStays(mode, pc, row, log, row', log');
    } else {
      UpdatesStay(log, log');
      match pc {
        case Write(o, _) => if CopyOk(mode, o, log) { CopyStays(mode, o, log, log'); }
        case Expiring(o) => CopyStays(mode, o, log, log');
        case SettleReady(o) => CopyStays(mode, o, log, log');
        case SettleOffer(o) => CopyStays(mode, o, log, log');
        case Repair(o) => CopyStays(mode, o, log, log');
        case _ =>
      }
      hide CopyOk;
    }
  }

  /** What the stepping worker `w` itself has to establish. */
  ghost predicate LocalOk(mode: WalletMode, s: State, s': State, w: nat) {
    && w in s'.pcs && s'.pcs == s.pcs[w := s'.pcs[w]]
    && CopyOk(mode, s'.row, s'.log)
    && PcOk(mode, s'.pcs[w], s'.row, s'.log)
    && (mode == Loop && s.row.status == Filled ==> s'.row.status == Filled)
  }

  lemma SettleLocal(mode: WalletMode, s: State, s': State, w: nat)
    requires Inv(mode, s) && s'.log == s.log && LocalOk(mode, s, s', w)
    ensures Inv(mode, s')
  {
    hide NumbersUnique, NumbersChained, SupersededDead, AcceptsOk, SellLegsOk;
    ExtendsSelf(s.log);
    Settle(mode, s, s', w, s'.pcs[w]);
  }

  /** A step by worker `w` keeps the invariant if its own part does. */
  lemma Settle(mode: WalletMode, s: State, s': State, w: nat, pc: Pc)
    requires Inv(mode, s)
    requires s'.pcs == s.pcs[w := pc]
    requires Extends(s.log, s'.log) && LogOk(s'.log)
    requires CopyOk(mode, s'.row, s'.log)
    requires PcOk(mode, pc, s'.row, s'.log)
    requires mode == Loop && s.row.status == Filled ==> s'.row.status == Filled
    ensures Inv(mode, s')
  {
    hide NumbersUnique, NumbersChained, SupersededDead, AcceptsOk, SellLegsOk;
    forall v | v in s'.pcs ensures PcOk(mode, s'.pcs[v], s'.row, s'.log) {
      if v != w { PcStays(mode, s.pcs[v], s.row, s.log, s'.row, s'.log); }
    }
  }

  lemma SettleEnvironment(mode: WalletMode, s: State, s': State)
    requires Inv(mode, s)
    requires s'.pcs == s.pcs && s'.row == s.row
    requires Extends(s.log, s'.log) && LogOk(s'.log)
    ensures Inv(mode, s')
  {
    hide NumbersUnique, NumbersChained, SupersededDead, AcceptsOk, SellLegsOk;
    CopyStays(mode, s.row, s.log, s'.log);
    forall v | v in s'.pcs ensures PcOk(mode, s'.pcs[v], s'.row, s'.log) {
      PcStays(mode, s.pcs[v], s.row, s.log, s'.row, s'.log);
    }
  }

  /** A step that only moves worker `w`. */
  lemma JustMoves(mode: WalletMode, s: State, w: nat, pc: Pc)
    requires Inv(mode, s) && PcOk(mode, pc, s.row, s.log)
    ensures Inv(mode, Move(s, w, pc))
  {
    hide NumbersUnique, NumbersChained, SupersededDead, AcceptsOk, SellLegsOk, CopyOk, PcOk;
    ExtendsSelf(s.log);
    hide Extends;
    Settle(mode, s, Move(s, w, pc), w, pc);
  }

  /** A step that writes the row. */
  lemma Wrote(mode: WalletMode, s: State, o: Row, w: nat, pc: Pc)
    requires Inv(mode, s) && CopyOk(mode, o, s.log) && PcOk(mode, pc, o, s.log)
    requires mode == Loop && s.row.status == Filled ==> o.status == Filled
    ensures Inv(mode, Move(s.(row := o), w, pc))
  {
    hide NumbersUnique, NumbersChained, SupersededDead, AcceptsOk, SellLegsOk, CopyOk, PcOk;
    ExtendsSelf(s.log);
    hide Extends;
    Settle(mode, s, Move(s.(row := o), w, pc), w, pc);
  }

  /** A step that appends to the ledger. */
  lemma Logged(mode: WalletMode, s: State, log': Log, w: nat, pc: Pc)
    requires Inv(mode, s) && Extends(s.log, log') && LogOk(log') && PcOk(mode, pc, s.row, log')
    ensures Inv(mode, Move(s.(log := log'), w, pc))
  {
    hide NumbersUnique, NumbersChained, SupersededDead, AcceptsOk, SellLegsOk, CopyOk, PcOk, Extends;
    CopyStays(mode, s.row, s.log, log');
    Settle(mode, s, Move(s.(log := log'), w, pc), w, pc);
  }

  /** What worker `w` knows. */
  lemma Known(mode: WalletMode, s: State, w: nat)
    requires Inv(mode, s) && w in s.pcs
    ensures PcOk(mode, s.pcs[w], s.row, s.log) && LogOk(s.log) && CopyOk(mode, s.row, s.log)
  {
    hide LogOk, CopyOk, PcOk;
  }

  // ----- Appending each kind of update -----

  lemma CommandsBefore(log: Log, u: Update)
    ensures forall i: nat, k: nat :: CommandAt(log, i, k) ==> CommandAt(log + [u], i, k)
    ensures forall i: nat, k: nat :: i < |log| && CommandAt(log + [u], i, k) ==> CommandAt(log, i, k)
    ensures forall k: nat :: Committed(log, k) ==> Committed(log + [u], k)
  {
    forall k: nat | Committed(log, k) ensures Committed(log + [u], k) {
      var i :| 0 <= i < |log| && CommandAt(log, i, k);
      assert CommandAt(log + [u], i, k);
    }
  }

  lemma AppendKeepsAccepts(log: Log, u: Update)
    requires AcceptsOk(log)
    requires u.CounterAccepted? || u.CounterClosed? ==> CounterPending(log, u.offer)
    ensures AcceptsOk(log + [u])
  {
    var log' := log + [u];
    forall c | CounterAccepted(c) in log' ensures IsOffer(log', c) && CounterClosed(c) !in log' {
      if u != CounterAccepted(c) { assert CounterAccepted(c) in log; }
    }
    forall c | CounterClosed(c) in log' ensures IsOffer(log', c) {
      if u != CounterClosed(c) { assert CounterClosed(c) in log; }
    }
    forall i, j | 0 <= i < j < |log'| && log'[i].CounterAccepted? ensures log'[i] != log'[j] {
      assert log[i] in log;
    }
  }

  lemma AppendKeepsSellLegs(log: Log, u: Update)
    requires SellLegsOk(log)
    requires u.UserOfferClosed? || u.Fill? ==> UserOfferPending(log, u.offer)
    ensures SellLegsOk(log + [u])
  {
    var log' := log + [u];
    forall i | 0 <= i < |log'| && log'[i].Fill?
      ensures log'[i].offer < |log'| && log'[log'[i].offer].UserOffer? && UserOfferClosed(log'[i].offer) !in log' {
      if i < |log| {
        assert log[i].Fill? && log[i] in log;
        match log[i].outcome { case Direct => case Offered => }
      }
    }
  }

  lemma AppendKeepsChain(log: Log, u: Update)
    requires NumbersChained(log)
    requires u.Reissue? ==> u.attempt > 0 && Committed(log, u.attempt - 1)
    ensures NumbersChained(log + [u])
  {
    CommandsBefore(log, u);
    var log' := log + [u];
    forall i: nat | i < |log'| ensures HasPredecessor(log', i) {
      if i < |log| { assert HasPredecessor(log, i); }
    }
  }

  lemma AppendPlain(log: Log, u: Update)
    requires LogOk(log)
    requires !IsCommand(u)
    requires u.CounterAccepted? || u.CounterClosed? ==> CounterPending(log, u.offer)
    requires u.UserOfferClosed? ==> UserOfferPending(log, u.offer)
    ensures Extends(log, log + [u]) && LogOk(log + [u])
  {
    AppendExtends(log, u);
    CommandsBefore(log, u);
    AppendKeepsAccepts(log, u);
    AppendKeepsSellLegs(log, u);
    AppendKeepsChain(log, u);
    var log' := log + [u];
    forall i, j, k, m | CommandAt(log', i, k) && CommandAt(log', j, m) && k < m ensures Dead(log', i) {
      assert CommandAt(log, i, k) && CommandAt(log, j, m);
    }
  }

  lemma AppendFill(log: Log, f: nat, outcome: Outcome)
    requires LogOk(log) && !Committed(log, 0) && UserOfferPending(log, f)
    ensures Extends(log, log + [Fill(f, outcome)]) && LogOk(log + [Fill(f, outcome)])
    ensures CommandAt(log + [Fill(f, outcome)], |log|, 0)
  {
    var u := Fill(f, outcome);
    AppendExtends(log, u);
    CommandsBefore(log, u);
    AppendKeepsAccepts(log, u);
    AppendKeepsSellLegs(log, u);
    AppendKeepsChain(log, u);
    forall i: nat, k: nat | CommandAt(log, i, k) ensures false {
      NumbersBelow(log, i, k, 0);
    }
  }

  /** If command number k committed, every smaller number committed. */
  lemma {:induction false} NumbersBelow(log: Log, i: nat, k: nat, m: nat)
    requires NumbersChained(log) && CommandAt(log, i, k) && m <= k
    ensures Committed(log, m)
    decreases k
  {
    if m < k {
      assert HasPredecessor(log, i);
      var j :| 0 <= j < |log| && CommandAt(log, j, k - 1);
      NumbersBelow(log, j, k - 1, m);
    }
  }

  lemma AppendReissue(log: Log, c: nat, k: nat, outcome: Outcome)
    requires LogOk(log) && CommandAt(log, c, k) && Dead(log, c) && !Committed(log, k + 1)
    ensures Extends(log, log + [Reissue(k + 1, outcome)]) && LogOk(log + [Reissue(k + 1, outcome)])
    ensures CommandAt(log + [Reissue(k + 1, outcome)], |log|, k + 1)
  {
    var u := Reissue(k + 1, outcome);
    AppendExtends(log, u);
    CommandsBefore(log, u);
    AppendKeepsAccepts(log, u);
    AppendKeepsSellLegs(log, u);
    AppendKeepsChain(log, u);
    forall i: nat, m: nat | CommandAt(log, i, m) ensures m <= k {
      if m > k { NumbersBelow(log, i, m, k + 1); }
    }
    AppendTop(log, u, k + 1);
  }

  /** The newest number supersedes every earlier command, all of which are dead. */
  lemma AppendTop(log: Log, u: Update, n: nat)
    requires NumbersUnique(log) && SupersededDead(log) && Extends(log, log + [u])
    requires u.Reissue? && u.attempt == n && n > 0
    requires forall i: nat, m: nat :: CommandAt(log, i, m) ==> m < n
    requires forall i: nat :: CommandAt(log, i, n - 1) ==> Dead(log, i)
    requires Committed(log, n - 1)
    ensures NumbersUnique(log + [u]) && SupersededDead(log + [u])
  {
    CommandsBefore(log, u);
    var log' := log + [u];
    forall i, j, m, q | CommandAt(log', i, m) && CommandAt(log', j, q) && m < q ensures Dead(log', i) {
      assert CommandAt(log, i, m);
      var c :| 0 <= c < |log| && CommandAt(log, c, n - 1);
    }
  }

  // ----- Every step keeps the invariant -----

  lemma ExtendsSelf(log: Log)
    ensures Extends(log, log)
  {
    assert log[..|log|] == log;
  }

  lemma EnvironmentKeeps(mode: WalletMode, s: State, l: Label)
    requires Inv(mode, s) && Step(mode, s, l).Some?
    requires !l.Start? && !l.Go? && !l.Crash?
    ensures Inv(mode, Step(mode, s, l).value)
  {
    hide NumbersUnique, NumbersChained, SupersededDead, AcceptsOk, SellLegsOk;
    var s' := Step(mode, s, l).value;
    ExtendsSelf(s.log);
    if !l.Tick? { AppendPlain(s.log, s'.log[|s.log|]); }
    SettleEnvironment(mode, s, s');
  }

  lemma StartKeeps(mode: WalletMode, s: State, w: nat, call: Call)
    requires Inv(mode, s)
    ensures PcOk(mode, StartPc(mode, s.row, s.log, call), s.row, s.log)
  {
  }

  /** Applying the committed fill gives a copy that names the offer of its own attempt. */
  lemma ApplyFillOk(mode: WalletMode, o: Row, log: Log, u: nat)
    requires CopyOk(mode, o, log) && CommandAt(log, u, 0)
    requires mode == Loop ==> Fillable(o, log)
    ensures CopyOk(mode, ApplyFill(mode, o, log, u), log)
  {
  }

  lemma RejectKeeps(s: State, o: Row)
    requires LogOk(s.log)
    ensures Extends(s.log, RejectUserLeg(s, o).log) && LogOk(RejectUserLeg(s, o).log)
  {
    ExtendsSelf(s.log);
    if RejectUserLeg(s, o) != s { AppendPlain(s.log, UserOfferClosed(o.userLeg.value)); }
  }

  lemma WriteKeeps(mode: WalletMode, s: State, w: nat, o: Row, expected: Status)
    requires Inv(mode, s) && PcOf(s, w) == Write(o, expected)
    ensures Inv(mode, Move(PutIfStatus(s, o, expected), w, Idle))
  {
    hide NumbersUnique, NumbersChained, SupersededDead, AcceptsOk, SellLegsOk;
    SettleLocal(mode, s, Move(PutIfStatus(s, o, expected), w, Idle), w);
  }

  lemma ConfirmKeeps(mode: WalletMode, s: State, w: nat, f: nat, ch: Choice)
    requires Inv(mode, s) && PcOf(s, w) == Confirming(f)
    ensures Inv(mode, AtConfirming(s, w, f, ch))
  {
    hide NumbersUnique, NumbersChained, SupersededDead, AcceptsOk, SellLegsOk;
    var s' := AtConfirming(s, w, f, ch);
    ExtendsSelf(s.log);
    if s'.log != s.log {
      AppendPlain(s.log, UserOfferClosed(f));
      CopyStays(mode, s.row, s.log, s'.log);
    }
    Settle(mode, s, s', w, Idle);
  }

  lemma ExpirePc(mode: WalletMode, s: State, w: nat, o: Row, ch: Choice, log': Log)
    requires PcOk(mode, Expiring(o), s.row, s.log) && Extends(s.log, log') && log' == AtExpiring(s, w, o, ch).log
    ensures PcOk(mode, AtExpiring(s, w, o, ch).pcs[w], s.row, log')
  {
    CopyStays(mode, o, s.log, log');
    assert Fillable(o, s.log) ==> Fillable(o, log');
    hide RejectUserLeg, Delivers, Dead, Committed;
  }

  lemma ExpireKeeps(mode: WalletMode, s: State, w: nat, o: Row, ch: Choice)
    requires Inv(mode, s) && PcOf(s, w) == Expiring(o)
    ensures Inv(mode, AtExpiring(s, w, o, ch))
  {
    Known(mode, s, w);
    ExtendsSelf(s.log);
    RejectKeeps(s, o);
    var s' := AtExpiring(s, w, o, ch);
    hide Inv, LogOk, CopyOk, PcOk, Extends, UserOfferPending;
    ExpirePc(mode, s, w, o, ch, s'.log);
    Logged(mode, s, s'.log, w, s'.pcs[w]);
  }

  lemma RepairKeeps(mode: WalletMode, s: State, w: nat, o: Row, ch: Choice)
    requires Inv(mode, s) && PcOf(s, w) == Repair(o) && AtRepair(mode, s, w, o, ch).Some?
    ensures Inv(mode, AtRepair(mode, s, w, o, ch).value)
  {
    hide NumbersUnique, NumbersChained, SupersededDead, AcceptsOk, SellLegsOk;
    if ch.Found? { ApplyFillOk(mode, o, s.log, ch.u); }
    SettleLocal(mode, s, AtRepair(mode, s, w, o, ch).value, w);
  }

  lemma SettleReserveKeeps(mode: WalletMode, s: State, w: nat, from: Status)
    requires Inv(mode, s) && PcOf(s, w) == SettleReserve(from)
    ensures Inv(mode, AtSettleReserve(s, w, from))
  {
    hide NumbersUnique, NumbersChained, SupersededDead, AcceptsOk, SellLegsOk;
    SettleLocal(mode, s, AtSettleReserve(s, w, from), w);
  }

  lemma SettleReadyPc(mode: WalletMode, s: State, w: nat, o: Row, ch: Choice)
    requires PcOk(mode, SettleReady(o), s.row, s.log) && CopyOk(mode, s.row, s.log)
    requires AtSettleReady(s, w, o, ch).Some? && Extends(s.log, AtSettleReady(s, w, o, ch).value.log)
    ensures var s' := AtSettleReady(s, w, o, ch).value;
      PcOk(mode, s'.pcs[w], s'.row, s'.log) && CopyOk(mode, s'.row, s'.log)
  {
    var s' := AtSettleReady(s, w, o, ch).value;
    CopyStays(mode, s.row, s.log, s'.log);
    CopyStays(mode, o, s.log, s'.log);
    hide Delivers, Dead, Committed, IsOffer, CommandAt, Extends;
  }

  lemma SettleReadyKeeps(mode: WalletMode, s: State, w: nat, o: Row, ch: Choice)
    requires Inv(mode, s) && PcOf(s, w) == SettleReady(o) && AtSettleReady(s, w, o, ch).Some?
    ensures Inv(mode, AtSettleReady(s, w, o, ch).value)
  {
    Known(mode, s, w);
    var s' := AtSettleReady(s, w, o, ch).value;
    ExtendsSelf(s.log);
    if ch.Commit? { AppendPlain(s.log, UserOffer); }
    hide LogOk, CopyOk, Extends;
    assert mode == Managed;
    SettleReadyPc(mode, s, w, o, ch);
    hide PcOk;
    Settle(mode, s, s', w, s'.pcs[w]);
  }

  lemma SettleOfferKeeps(mode: WalletMode, s: State, w: nat, o: Row)
    requires Inv(mode, s) && PcOf(s, w) == SettleOffer(o)
    ensures Inv(mode, AtSettleOffer(s, w, o))
  {
    hide NumbersUnique, NumbersChained, SupersededDead, AcceptsOk, SellLegsOk;
    SettleLocal(mode, s, AtSettleOffer(s, w, o), w);
  }

  /** Claiming `filling`: the row read again at line 746 passes line 741, or is settled at its
      first offer, or stops the worker. */
  lemma FillReservedKeeps(mode: WalletMode, s: State, w: nat, st: Status)
    requires Inv(mode, s) && PcOf(s, w) == FillReserved(st)
    requires IsLoopFillPendingCounterAccept(mode, s.row) ==> !Proceeds(s, w) || FirstAccepted(s.row, s.log)
    ensures Inv(mode, AtFillReserved(s, w, st))
  {
    hide NumbersUnique, NumbersChained, SupersededDead, AcceptsOk, SellLegsOk;
    SettleLocal(mode, s, AtFillReserved(s, w, st), w);
  }

  lemma FillCheckedKeeps(mode: WalletMode, s: State, w: nat, o: Row)
    requires Inv(mode, s) && PcOf(s, w) == FillChecked(o)
    ensures Inv(mode, AtFillChecked(s, w, o))
  {
    hide NumbersUnique, NumbersChained, SupersededDead, AcceptsOk, SellLegsOk;
    SettleLocal(mode, s, AtFillChecked(s, w, o), w);
  }

  lemma FillReadyKeeps(mode: WalletMode, s: State, w: nat, o: Row)
    requires Inv(mode, s) && PcOf(s, w) == FillReady(o)
    ensures Inv(mode, AtFillReady(s, w, o))
  {
    hide NumbersUnique, NumbersChained, SupersededDead, AcceptsOk, SellLegsOk;
    SettleLocal(mode, s, AtFillReady(s, w, o), w);
  }

  lemma FillOwnedKeeps(mode: WalletMode, s: State, w: nat, o: Row, ch: Choice)
    requires Inv(mode, s) && PcOf(s, w) == FillOwned(o) && AtFillOwned(s, w, o, ch).Some?
    ensures Inv(mode, AtFillOwned(s, w, o, ch).value)
  {
    hide NumbersUnique, NumbersChained, SupersededDead, AcceptsOk, SellLegsOk;
    if ch.Found? { ApplyFillOk(mode, o, s.log, ch.u); }
    SettleLocal(mode, s, AtFillOwned(s, w, o, ch).value, w);
  }

  /** After "submission in flight" the re-read copy may be `filled`; its write then loses. */
  lemma FillInFlightKeeps(mode: WalletMode, s: State, w: nat)
    requires Inv(mode, s) && PcOf(s, w) == FillInFlight
    ensures Inv(mode, AtFillInFlight(s, w))
  {
    hide NumbersUnique, NumbersChained, SupersededDead, AcceptsOk, SellLegsOk;
    SettleLocal(mode, s, AtFillInFlight(s, w), w);
  }

  lemma FillCommitKeeps(mode: WalletMode, s: State, w: nat, o: Row, outcome: Outcome)
    requires Inv(mode, s) && PcOf(s, w) == FillSubmit(o) && AtFillSubmit(mode, s, w, o, Commit(outcome)).Some?
    ensures Inv(mode, AtFillSubmit(mode, s, w, o, Commit(outcome)).value)
  {
    var s' := AtFillSubmit(mode, s, w, o, Commit(outcome)).value;
    hide NumbersUnique, NumbersChained, SupersededDead, AcceptsOk, SellLegsOk, CopyOk, ApplyFill, Extends;
    AppendFill(s.log, o.userLeg.value, outcome);
    CopyStays(mode, s.row, s.log, s'.log);
    CopyStays(mode, o, s.log, s'.log);
    FillCopyApplies(mode, o, s.log, s'.log, |s.log|);
    Settle(mode, s, s', w, s'.pcs[w]);
  }

  lemma FillCopyApplies(mode: WalletMode, o: Row, log: Log, log': Log, u: nat)
    requires FillOk(mode, o, log) && CopyOk(mode, o, log') && CommandAt(log', u, 0)
    ensures CopyOk(mode, ApplyFill(mode, o, log', u), log')
  {
    ApplyFillOk(mode, o, log', u);
  }

  lemma FillSubmitKeeps(mode: WalletMode, s: State, w: nat, o: Row, ch: Choice)
    requires Inv(mode, s) && PcOf(s, w) == FillSubmit(o) && AtFillSubmit(mode, s, w, o, ch).Some?
    ensures Inv(mode, AtFillSubmit(mode, s, w, o, ch).value)
  {
    if ch.Commit? {
      hide Inv, AtFillSubmit;
      FillCommitKeeps(mode, s, w, o, ch.outcome);
    } else {
      hide NumbersUnique, NumbersChained, SupersededDead, AcceptsOk, SellLegsOk, CopyOk;
      FillAnswerPc(mode, s, w, o, ch);
      hide PcOk, AtFillSubmit;
      JustMoves(mode, s, w, AtFillSubmit(mode, s, w, o, ch).value.pcs[w]);
    }
  }

  lemma FillAnswerPc(mode: WalletMode, s: State, w: nat, o: Row, ch: Choice)
    requires FillOk(mode, o, s.log) && !ch.Commit? && AtFillSubmit(mode, s, w, o, ch).Some?
    ensures PcOk(mode, AtFillSubmit(mode, s, w, o, ch).value.pcs[w], s.row, s.log)
    ensures AtFillSubmit(mode, s, w, o, ch).value == Move(s, w, AtFillSubmit(mode, s, w, o, ch).value.pcs[w])
  {
    if ch.Duplicate? { ApplyFillOk(mode, o, s.log, ch.u); }
  }

  lemma RecoverKeeps(mode: WalletMode, s: State, w: nat, o: Row, ch: Choice)
    requires Inv(mode, s) && PcOf(s, w) == Recover(o) && AtRecover(s, w, o, ch).Some?
    ensures Inv(mode, AtRecover(s, w, o, ch).value)
  {
    hide NumbersUnique, NumbersChained, SupersededDead, AcceptsOk, SellLegsOk;
    if ch.Found? { ApplyFillOk(mode, o, s.log, ch.u); }
    SettleLocal(mode, s, AtRecover(s, w, o, ch).value, w);
  }

  lemma RejectingPc(mode: WalletMode, s: State, w: nat, o: Row, ch: Choice, log': Log)
    requires PcOk(mode, Rejecting(o), s.row, s.log) && Extends(s.log, log') && log' == AtRejecting(mode, s, w, o, ch).log
    ensures PcOk(mode, AtRejecting(mode, s, w, o, ch).pcs[w], s.row, log')
  {
    CopyStays(mode, o, s.log, log');
    assert Fillable(o, s.log) ==> Fillable(o, log');
    hide RejectUserLeg, Delivers, Dead, Committed;
  }

  lemma RejectingKeeps(mode: WalletMode, s: State, w: nat, o: Row, ch: Choice)
    requires Inv(mode, s) && PcOf(s, w) == Rejecting(o)
    ensures Inv(mode, AtRejecting(mode, s, w, o, ch))
  {
    Known(mode, s, w);
    ExtendsSelf(s.log);
    RejectKeeps(s, o);
    var s' := AtRejecting(mode, s, w, o, ch);
    hide Inv, LogOk, CopyOk, PcOk, Extends, UserOfferPending;
    RejectingPc(mode, s, w, o, ch, s'.log);
    Logged(mode, s, s'.log, w, s'.pcs[w]);
  }

  // ----- The receipt check and the reissue -----

  /** The strict scan starts at the creation offset, before any acceptance of the offer. */
  lemma ScanComplete(log: Log, c: nat)
    requires AcceptsOk(log) && IsOffer(log, c)
    ensures CounterAccepted(c) in log[c + 1..] <==> CounterAccepted(c) in log
  {
    if CounterAccepted(c) in log {
      var i :| 0 <= i < |log| && log[i] == CounterAccepted(c);
      assert log[c + 1..][i - (c + 1)] == CounterAccepted(c);
    }
  }

  /** An offer of the order and a direct settlement cannot both exist. */
  lemma SettlementNotDirect(mode: WalletMode, o: Row, log: Log)
    requires LogOk(log) && CopyOk(mode, o, log) && o.counterOffer.Some?
    ensures !IsDirect(log, o.settlement.value)
  {
    assert CommandAt(log, o.settlement.value, 0);
    if o.attempt == 0 { assert o.settlement == o.counterOffer; }
  }

  /** Acting on a verdict keeps the facts: a receipt names a delivery, and "not received"
      reaches the reissue path only for a dead offer. */
  lemma VerdictOk(mode: WalletMode, o: Row, purpose: Purpose, v: Verdict, row: Row, log: Log)
    requires VerifyOk(mode, o, purpose, log)
    requires v.Received? ==> Delivers(log, v.update)
    requires v == NotReceived && (purpose == FirstCheck || purpose == Recheck) ==> ReissueOk(mode, o, log)
    ensures PcOk(mode, OnVerdict(mode, o, purpose, v), row, log)
  {
  }

  lemma CounterLoadedKeeps(mode: WalletMode, s: State, w: nat, o: Row)
    requires Inv(mode, s) && PcOf(s, w) == CounterLoaded(o) && AtCounterLoaded(s, w, o).Some?
    ensures Inv(mode, AtCounterLoaded(s, w, o).value)
  {
    hide NumbersUnique, NumbersChained, SupersededDead, AcceptsOk, SellLegsOk;
    SettleLocal(mode, s, AtCounterLoaded(s, w, o).value, w);
  }

  lemma VerifyKeeps(mode: WalletMode, s: State, w: nat, o: Row, purpose: Purpose)
    requires Inv(mode, s) && PcOf(s, w) == Verify(o, purpose)
    ensures Inv(mode, AtVerify(mode, s, w, o, purpose))
  {
    hide NumbersUnique, NumbersChained, SupersededDead, AcceptsOk, SellLegsOk;
    match EarlyVerdict(mode, o) {
      case Some(v) => VerdictOk(mode, o, purpose, v, s.row, s.log);
      case None =>
        if CounterPending(s.log, o.counterOffer.value) { VerdictOk(mode, o, purpose, StillPending, s.row, s.log); }
    }
    SettleLocal(mode, s, AtVerify(mode, s, w, o, purpose), w);
  }

  lemma ScanFound(mode: WalletMode, s: State, o: Row, purpose: Purpose, u: nat)
    requires PcOk(mode, VerifyScan(o, purpose), s.row, s.log) && u < |s.log| && s.log[u].CounterAccepted?
    ensures PcOk(mode, OnVerdict(mode, o, purpose, Received(u)), s.row, s.log)
  {
    VerdictOk(mode, o, purpose, Received(u), s.row, s.log);
  }

  lemma ScanAgain(mode: WalletMode, s: State, o: Row, purpose: Purpose)
    requires PcOk(mode, VerifyScan(o, purpose), s.row, s.log)
    ensures PcOk(mode, Verify(o, purpose), s.row, s.log) && o.counterOffer.Some? && IsOffer(s.log, o.counterOffer.value)
    ensures o.createdOffset.Some? ==> o.createdOffset.value == o.counterOffer.value + 1
  {
  }

  /** After the scan: a receipt that names the acceptance, or an offer that is dead. */
  lemma ScanNextPc(mode: WalletMode, s: State, w: nat, o: Row, purpose: Purpose, ch: Choice)
    requires LogOk(s.log) && PcOk(mode, VerifyScan(o, purpose), s.row, s.log)
    requires AtVerifyScan(mode, s, w, o, purpose, ch).Some?
    ensures PcOk(mode, AtVerifyScan(mode, s, w, o, purpose, ch).value.pcs[w], s.row, s.log)
  {
    ScanAgain(mode, s, o, purpose);
    ScanComplete(s.log, o.counterOffer.value);
    hide PcOk, LogOk, OnVerdict, IsOffer;
    if ch.Found? { ScanFound(mode, s, o, purpose, ch.u); }
    else if ch.Missed? { ScanMissed(mode, s, o, purpose); }
  }

  lemma ScanMissed(mode: WalletMode, s: State, o: Row, purpose: Purpose)
    requires LogOk(s.log) && PcOk(mode, VerifyScan(o, purpose), s.row, s.log)
    requires CounterAccepted(o.counterOffer.value) !in s.log
    ensures PcOk(mode, OnVerdict(mode, o, purpose, NotReceived), s.row, s.log)
  {
    hide NumbersUnique, NumbersChained, SupersededDead, AcceptsOk, SellLegsOk;
    VerdictOk(mode, o, purpose, NotReceived, s.row, s.log);
  }

  lemma VerifyScanKeeps(mode: WalletMode, s: State, w: nat, o: Row, purpose: Purpose, ch: Choice)
    requires Inv(mode, s) && PcOf(s, w) == VerifyScan(o, purpose)
    requires AtVerifyScan(mode, s, w, o, purpose, ch).Some?
    ensures Inv(mode, AtVerifyScan(mode, s, w, o, purpose, ch).value)
  {
    assert PcOk(mode, s.pcs[w], s.row, s.log) by { hide PcOk, LogOk, CopyOk; }
    ScanNextPc(mode, s, w, o, purpose, ch);
    hide NumbersUnique, NumbersChained, SupersededDead, AcceptsOk, SellLegsOk, CopyOk, PcOk;
    SettleLocal(mode, s, AtVerifyScan(mode, s, w, o, purpose, ch).value, w);
  }

  lemma ProofKeeps(mode: WalletMode, s: State, w: nat, o: Row, purpose: Purpose, ch: Choice)
    requires Inv(mode, s) && PcOf(s, w) == Proof(o, purpose)
    ensures Inv(mode, AtProof(s, w, o, purpose, ch))
  {
    hide NumbersUnique, NumbersChained, SupersededDead, AcceptsOk, SellLegsOk;
    SettlementNotDirect(mode, o, s.log);
    SettleLocal(mode, s, AtProof(s, w, o, purpose, ch), w);
  }

  lemma CoolingKeeps(mode: WalletMode, s: State, w: nat, o: Row)
    requires Inv(mode, s) && PcOf(s, w) == Cooling(o)
    ensures Inv(mode, AtCooling(s, w, o))
  {
    hide NumbersUnique, NumbersChained, SupersededDead, AcceptsOk, SellLegsOk;
    SettleLocal(mode, s, AtCooling(s, w, o), w);
  }

  lemma ReloadKeeps(mode: WalletMode, s: State, w: nat, o: Row)
    requires Inv(mode, s) && PcOf(s, w) == Reload(o)
    ensures Inv(mode, AtReload(s, w, o))
  {
    hide NumbersUnique, NumbersChained, SupersededDead, AcceptsOk, SellLegsOk;
    SettleLocal(mode, s, AtReload(s, w, o), w);
  }

  lemma ReissueReadyPc(mode: WalletMode, s: State, w: nat, o: Row)
    requires PcOk(mode, ReissueReady(o), s.row, s.log) && CopyOk(mode, s.row, s.log)
    ensures var s' := AtReissueReady(s, w, o);
      PcOk(mode, s'.pcs[w], s'.row, s.log) && (s.row.status == UserLocked ==> CopyOk(mode, s'.row, s.log))
  {
    hide Delivers, Dead, Committed, IsOffer, CommandAt;
  }

  lemma ReissueReadyKeeps(mode: WalletMode, s: State, w: nat, o: Row)
    requires Inv(mode, s) && PcOf(s, w) == ReissueReady(o)
    ensures Inv(mode, AtReissueReady(s, w, o))
  {
    Known(mode, s, w);
    ReissueReadyPc(mode, s, w, o);
    hide Inv, LogOk, CopyOk, PcOk;
    var s' := AtReissueReady(s, w, o);
    if s'.row != s.row { Wrote(mode, s, s'.row, w, s'.pcs[w]); } else { JustMoves(mode, s, w, s'.pcs[w]); }
  }

  lemma ReissueReservedKeeps(mode: WalletMode, s: State, w: nat, o: Row)
    requires Inv(mode, s) && PcOf(s, w) == ReissueReserved(o)
    ensures Inv(mode, AtReissueReserved(s, w, o))
  {
    hide NumbersUnique, NumbersChained, SupersededDead, AcceptsOk, SellLegsOk;
    SettleLocal(mode, s, AtReissueReserved(s, w, o), w);
  }

  /** Applying reissue number attempt+1 gives a copy that names that reissue. */
  lemma ApplyReissueOk(mode: WalletMode, o: Row, log: Log, u: nat)
    requires CopyOk(mode, o, log) && mode == Loop && o.status == UserLocked && o.settlement.Some?
    requires CommandAt(log, u, o.attempt + 1)
    ensures CopyOk(mode, ApplyReissue(o, log, u), log)
  {
  }

  lemma ReissueCommits(mode: WalletMode, s: State, w: nat, o: Row, outcome: Outcome)
    requires Inv(mode, s) && PcOf(s, w) == ReissueSubmit(o) && AtReissueSubmit(s, w, o, Commit(outcome)).Some?
    requires o.settlement.Some? && o.counterOffer.Some?
    ensures Inv(mode, AtReissueSubmit(s, w, o, Commit(outcome)).value)
  {
    Known(mode, s, w);
    var s' := AtReissueSubmit(s, w, o, Commit(outcome)).value;
    AppendReissue(s.log, o.counterOffer.value, o.attempt, outcome);
    CopyStays(mode, o, s.log, s'.log);
    ApplyReissueOk(mode, o, s'.log, |s.log|);
    hide Inv, LogOk, CopyOk, Extends, Committed, ApplyReissue;
    Logged(mode, s, s'.log, w, s'.pcs[w]);
  }

  lemma ReissueKeeps(mode: WalletMode, s: State, w: nat, o: Row, ch: Choice)
    requires Inv(mode, s) && PcOf(s, w) == ReissueSubmit(o) && AtReissueSubmit(s, w, o, ch).Some?
    ensures Inv(mode, AtReissueSubmit(s, w, o, ch).value)
  {
    Known(mode, s, w);
    if ch.Commit? && o.settlement.Some? && o.counterOffer.Some? {
      hide Inv, LogOk, CopyOk, PcOk, AtReissueSubmit;
      ReissueCommits(mode, s, w, o, ch.outcome);
    } else {
      if ch.Duplicate? && CommandAt(s.log, ch.u, o.attempt + 1) { ApplyReissueOk(mode, o, s.log, ch.u); }
      hide Inv, LogOk, CopyOk, Committed, ApplyReissue;
      JustMoves(mode, s, w, AtReissueSubmit(s, w, o, ch).value.pcs[w]);
    }
  }

  lemma WriteOfferKeeps(mode: WalletMode, s: State, w: nat, o: Row, prior: nat)
    requires Inv(mode, s) && PcOf(s, w) == WriteOffer(o, prior)
    ensures Inv(mode, AtWriteOffer(s, w, o, prior))
  {
    hide NumbersUnique, NumbersChained, SupersededDead, AcceptsOk, SellLegsOk;
    SettleLocal(mode, s, AtWriteOffer(s, w, o, prior), w);
  }

  lemma FillGoKeeps(mode: WalletMode, s: State, w: nat, ch: Choice)
    requires Inv(mode, s) && Careful(mode, true, s, Go(w, ch)) && StepGo(mode, s, w, ch).Some?
    requires FillPoint(PcOf(s, w))
    ensures Inv(mode, StepGo(mode, s, w, ch).value)
  {
    hide Inv, AtFillChecked, AtFillReserved, AtFillReady, AtFillOwned, AtFillSubmit, AtFillInFlight, AtRecover,
         AtRejecting;
    match PcOf(s, w)
    case FillChecked(o) => FillCheckedKeeps(mode, s, w, o);
    case FillReserved(st) => FillReservedKeeps(mode, s, w, st);
    case FillReady(o) => FillReadyKeeps(mode, s, w, o);
    case FillOwned(o) => FillOwnedKeeps(mode, s, w, o, ch);
    case FillSubmit(o) => FillSubmitKeeps(mode, s, w, o, ch);
    case FillInFlight => FillInFlightKeeps(mode, s, w);
    case Recover(o) => RecoverKeeps(mode, s, w, o, ch);
    case Rejecting(o) => RejectingKeeps(mode, s, w, o, ch);
  }

  lemma CounterGoKeeps(mode: WalletMode, s: State, w: nat, ch: Choice)
    requires Inv(mode, s) && StepGo(mode, s, w, ch).Some?
    requires CounterPoint(PcOf(s, w)) && !PcOf(s, w).TryComplete?
    ensures Inv(mode, StepGo(mode, s, w, ch).value)
  {
    hide AtCounterLoaded, AtVerify, AtVerifyScan, AtProof, AtCooling, AtReload, AtReissueReady,
         AtReissueReserved, AtReissueSubmit, AtWriteOffer, Inv;
    match PcOf(s, w)
    case CounterLoaded(o) => CounterLoadedKeeps(mode, s, w, o);
    case Verify(o, purpose) => VerifyKeeps(mode, s, w, o, purpose);
    case VerifyScan(o, purpose) => VerifyScanKeeps(mode, s, w, o, purpose, ch);
    case Proof(o, purpose) => ProofKeeps(mode, s, w, o, purpose, ch);
    case Cooling(o) => CoolingKeeps(mode, s, w, o);
    case Reload(o) => ReloadKeeps(mode, s, w, o);
    case ReissueReady(o) => ReissueReadyKeeps(mode, s, w, o);
    case ReissueReserved(o) => ReissueReservedKeeps(mode, s, w, o);
    case ReissueSubmit(o) => ReissueKeeps(mode, s, w, o, ch);
    case WriteOffer(o, prior) => WriteOfferKeeps(mode, s, w, o, prior);
  }

  lemma GoKeeps(mode: WalletMode, s: State, w: nat, ch: Choice)
    requires Inv(mode, s) && Careful(mode, true, s, Go(w, ch))
    requires StepGo(mode, s, w, ch).Some?
    ensures Inv(mode, StepGo(mode, s, w, ch).value)
  {
    hide AtConfirming, AtExpiring, AtSettleReserve, AtSettleReady, AtSettleOffer, AtRepair, AtFillSubmit,
         AtRecover, AtRejecting, AtVerify, AtVerifyScan, AtProof, AtReissueReserved, AtReissueSubmit,
         NumbersUnique, NumbersChained, SupersededDead, AcceptsOk, SellLegsOk;
    match PcOf(s, w)
    case Write(o, expected) => WriteKeeps(mode, s, w, o, expected);
    case Confirming(f) => ConfirmKeeps(mode, s, w, f, ch);
    case Expiring(o) => ExpireKeeps(mode, s, w, o, ch);
    case SettleReserve(from) => SettleReserveKeeps(mode, s, w, from);
    case SettleReload => SettleLocal(mode, s, AtSettleReload(s, w), w);
    case SettleReady(o) => SettleReadyKeeps(mode, s, w, o, ch);
    case SettleOffer(o) => SettleOfferKeeps(mode, s, w, o);
    case Repair(o) => RepairKeeps(mode, s, w, o, ch);
    case FillChecked(_) | FillReserved(_) | FillReady(_) | FillOwned(_) | FillSubmit(_) | FillInFlight
       | Recover(_) | Rejecting(_) => FillGoKeeps(mode, s, w, ch);
    case Idle | FilledRepair(_) | TryComplete(_, _) =>
    case _ => CounterGoKeeps(mode, s, w, ch);
  }

  lemma StepKeeps(mode: WalletMode, s: State, l: Label)
    requires Inv(mode, s) && Step(mode, s, l).Some? && Careful(mode, true, s, l)
    ensures Inv(mode, Step(mode, s, l).value)
  {
    hide StepGo, NumbersUnique, NumbersChained, SupersededDead, AcceptsOk, SellLegsOk;
    match l
    case Start(w, call) =>
      ExtendsSelf(s.log);
      StartKeeps(mode, s, w, call);
      Settle(mode, s, Step(mode, s, l).value, w, StartPc(mode, s.row, s.log, call));
    case Go(w, ch) => GoKeeps(mode, s, w, ch);
    case Crash(w) =>
      ExtendsSelf(s.log);
      Settle(mode, s, Step(mode, s, l).value, w, Idle);
    case _ => EnvironmentKeeps(mode, s, l);
  }

  lemma {:induction false} RunKeeps(mode: WalletMode, s: State, labels: seq<Label>)
    requires Inv(mode, s) && Clean(mode, true, s, labels) && Run(mode, s, labels).Some?
    ensures Inv(mode, Run(mode, s, labels).value)
    decreases labels
  {
    hide Inv;
    if labels != [] {
      StepKeeps(mode, s, labels[0]);
      RunKeeps(mode, Step(mode, s, labels[0]).value, labels[1..]);
    }
  }
}
