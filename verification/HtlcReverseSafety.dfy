/** What every step of a reverse order keeps, in every run: no assumption on overlapping calls
    or on the daemon, and none on the timelocks unless a clause names the ladder. */
module HtlcReverseSafety {
  import opened Wrappers
  import opened HtlcCommands
  import opened HtlcReverseMachine

  /** The ladder: the WBTC leg expires before the CBTC leg. */
  ghost predicate Ladder(cfg: Config) {
    cfg.solverTimelock < cfg.userTimelock
  }

  // ----- The ledgers -----

  /** No lock is live and nothing was claimed. */
  ghost predicate Spent(evm: seq<Event>) {
    evm == [] || evm == [Locked, Retaken]
  }

  /** Nothing was claimed and nothing can be any more. */
  ghost predicate NeverClaimable(cfg: Config, s: State) {
    Spent(s.evm) && s.now >= cfg.solverTimelock
  }

  /** One lock per order, claimed before solverTimelock or retaken after it. */
  ghost predicate EscrowOk(cfg: Config, s: State) {
    && (s.evm == [] || s.evm == [Locked] || s.evm == [Locked, Claimed]
        || (s.evm == [Locked, Retaken] && s.now >= cfg.solverTimelock))
    && (s.sending ==> s.evm == [])
  }

  /** Each update carries the command id its submitter computed. */
  predicate IdFits(cfg: Config, tx: Tx<Update>) {
    tx.id == match tx.what
             case CustodyAccepted => None
             case HtlcLocked => Some(LockId(cfg.order))
             case Claim => Some(ClaimId(cfg.order))
             case Refund => Some(RefundId(cfg.order, Late))
  }

  ghost predicate LogOk(cfg: Config, canton: Canton) {
    UniqueIds(canton) && forall i | 0 <= i < |canton| :: IdFits(cfg, canton[i])
  }

  /** The solver took the CBTC only from an HtlcLock, after the user's claim; a managed order is
      returned by the late call alone. */
  ghost predicate TakingOk(cfg: Config, s: State) {
    && (Has(s.canton, Claim) ==> Claimed in s.evm && !Has(s.canton, Refund) && !cfg.loop)
    && (Ladder(cfg) && !cfg.loop && (Has(s.canton, Refund) || s.row.status == Refunding) ==> NeverClaimable(cfg, s))
  }

  // ----- The row and its copies -----

  /** Statuses of an order without custody. */
  predicate Unsecured(st: Status) {
    st == Open || st == Accepted || st == MainLocking || st == Cancelled || st == Failed
  }

  /** The facts any copy of the row carries, however old. */
  ghost predicate CopyOk(cfg: Config, o: Row, s: State) {
    && (o.lockTx.Some? ==> IsEvent(s.evm, o.lockTx.value, Locked))
    && (o.evmTx.Some? ==> IsEvent(s.evm, o.evmTx.value, Claimed) || IsEvent(s.evm, o.evmTx.value, Retaken))
    && (o.custody.Some? ==> IsCustody(cfg, s.canton, o.custody.value))
    && (o.custody.None? ==> o.evmTx.None? && Unsecured(o.status))
    && (o.revealed ==> Claimed in s.evm && (o.status == CounterClaimed || o.status == MainClaimed))
    && (o.status == CounterLocked ==> s.evm != [])
    && (o.status == CounterClaimed || o.status == MainClaimed ==> Claimed in s.evm)
    && (o.status == MainClaimed ==> Settled(cfg, o, s.canton))
    && (o.status == Refunded ==> s.marked || RefundRecorded(o, s.canton))
  }

  /** The solver's side is recorded: the custody transfer, or its claim of the HtlcLock. */
  ghost predicate Settled(cfg: Config, o: Row, canton: Canton) {
    o.result.Some? && o.result.value.Committed?
    && IsUpdate(canton, o.result.value.u, if cfg.loop then CustodyAccepted else Claim)
  }

  ghost predicate RefundRecorded(o: Row, canton: Canton) {
    o.result.Some? && o.result.value.Committed? && IsUpdate(canton, o.result.value.u, Refund)
  }

  /** Statuses in which no WBTC of this order is at stake. */
  predicate QuietStatus(st: Status) {
    st == Open || st == Accepted || st == MainLocking || st == MainLocked || st == Refunding || st == Failed
    || st == Cancelled
  }

  /** The status changes a plain guarded write makes. */
  predicate WriteEdge(from: Status, to: Status) {
    from == to
    || (from == Open && (to == Accepted || to == Cancelled))
    || (from == Accepted && to == Cancelled)
    || (from == MainLocking && (to == MainLocked || to == Failed))
    || (from == MainLocked && (to == CounterLocking || to == CounterLocked))
    || (from == CounterLocking && to == CounterLocked)
    || (from == CounterLocked && (to == CounterClaimed || to == MainLocked || to == Failed))
    || (from == CounterClaimed && to == MainClaimed)
  }

  ghost predicate WriteOk(o: Row, expected: Status, s: State) {
    WriteEdge(expected, o.status)
    && (QuietStatus(o.status) && !QuietStatus(expected) ==> s.evm == [Locked, Retaken])
  }

  // ----- What a worker knows at each await -----

  ghost predicate LateOk(cfg: Config, s: State) {
    s.now >= cfg.userTimelock && (Ladder(cfg) ==> Spent(s.evm))
  }

  predicate EarlyTarget(st: Status) {
    st == MainLocked || st == Refunding
  }

  ghost predicate PcOk(cfg: Config, pc: Pc, s: State) {
    match pc
    case Idle | Reserving | ClaimReload => true
    case Write(o, expected) => CopyOk(cfg, o, s) && WriteOk(o, expected, s)
    case Confirming(o) => CopyOk(cfg, o, s) && o.status == MainLocking
    case LateLock(o) => CopyOk(cfg, o, s) && RefundEligible(o) && !o.revealed && s.now >= cfg.userTimelock
    case LateScan(o) =>
      CopyOk(cfg, o, s) && RefundEligible(o) && !o.revealed && s.now >= cfg.userTimelock
      && (Ladder(cfg) ==> !Live(s.evm))
    case EarlyLock(o) => CopyOk(cfg, o, s) && cfg.loop && EarlyTarget(o.status) && !o.revealed
    case RefundCas(o, e) =>
      CopyOk(cfg, o, s) && RefundEligible(o) && !o.revealed
      && (e == Late ==> LateOk(cfg, s)) && (e == Early ==> cfg.loop && EarlyTarget(o.status))
    case RefundSubmit(o, prev, e) =>
      CopyOk(cfg, o, s) && o.status == Refunding
      && CopyOk(cfg, o.(status := prev), s) && RefundEligible(o.(status := prev))
      && (e == Late ==> LateOk(cfg, s)) && (e == Early ==> cfg.loop && EarlyTarget(prev))
    case RefundWrite(o, e) =>
      CopyOk(cfg, o, s) && (if o.status == Refunded then RefundRecorded(o, s.canton) else RefundEligible(o))
      && (e == Late ==> LateOk(cfg, s)) && (e == Early ==> cfg.loop && (o.status == Refunded || EarlyTarget(o.status)))
    case ClaimScan(o) => CopyOk(cfg, o, s) && (o.status == CounterClaimed || o.status == CounterLocked)
    case ClaimReveal(o, expected) =>
      CopyOk(cfg, o, s) && o.status == CounterClaimed && (expected == CounterClaimed || expected == CounterLocked)
    case ClaimSubmit(o) => CopyOk(cfg, o, s) && o.status == CounterClaimed
    case RecordScan(o) => CopyOk(cfg, o, s) && o.status == CounterLocked
    case LockCheck(o) => CopyOk(cfg, o, s) && (o.status == CounterLocking || o.status == MainLocked)
    case Phantom(o) => CopyOk(cfg, o, s) && o.status == CounterLocked
    case PhantomScan(o) => CopyOk(cfg, o, s) && o.status == CounterLocked && !Live(s.evm)
    case Retake(o) => CopyOk(cfg, o, s) && o.status == CounterLocked
    case RetakeWrite(o) => CopyOk(cfg, o, s) && o.status == CounterLocked && s.evm == [Locked, Retaken]
    case Mark(o) => CopyOk(cfg, o, s) && (o.status == MainLocked || o.status == CounterLocked)
    case Patch(o) => CopyOk(cfg, o, s) && o.status == MainClaimed
  }

  ghost predicate WorldOk(cfg: Config, s: State) {
    EscrowOk(cfg, s) && LogOk(cfg, s.canton) && TakingOk(cfg, s) && CopyOk(cfg, s.row, s)
    && (s.daemon.Aborting? ==> CopyOk(cfg, s.daemon.o, s) && s.daemon.o.status == CounterLocking)
  }

  ghost predicate Inv(cfg: Config, s: State) {
    WorldOk(cfg, s) && forall w | w in s.pcs :: PcOk(cfg, s.pcs[w], s)
  }

  // ----- What the log says about ids -----

  /** Two updates with one fixed id are one. */
  lemma OneOfAKind(cfg: Config, canton: Canton, u: nat, v: nat, x: Update)
    requires LogOk(cfg, canton) && IsUpdate(canton, u, x) && IsUpdate(canton, v, x) && x != CustodyAccepted
    ensures u == v
  {
    hide RefundId, ClaimId, LockId;
    assert IdFits(cfg, canton[u]) && IdFits(cfg, canton[v]);
  }

  /** What was committed under a refund id is the return, whichever call computed the id. */
  lemma RefundFound(cfg: Config, canton: Canton, u: nat, e: Entry)
    requires LogOk(cfg, canton)
    ensures CommittedAs(canton, u, RefundId(cfg.order, e)) <==> IsUpdate(canton, u, Refund)
  {
    IdsTellApart(cfg.order, cfg.order, e, Late);
    hide RefundId, ClaimId, LockId;
    if u < |canton| { assert IdFits(cfg, canton[u]); }
  }

  lemma RefundUnused(cfg: Config, canton: Canton, e: Entry)
    requires LogOk(cfg, canton)
    ensures Unused(canton, RefundId(cfg.order, e)) <==> !Has(canton, Refund)
  {
    hide LogOk, RefundId;
    forall u: nat | u < |canton|
      ensures canton[u].id == Some(RefundId(cfg.order, e)) <==> canton[u].what == Refund
    {
      RefundFound(cfg, canton, u, e);
    }
  }

  lemma ClaimFound(cfg: Config, canton: Canton, u: nat)
    requires LogOk(cfg, canton) && CommittedAs(canton, u, ClaimId(cfg.order))
    ensures IsUpdate(canton, u, Claim)
  {
    IdsTellApart(cfg.order, cfg.order, Late, Late);
    hide RefundId, ClaimId, LockId;
    assert IdFits(cfg, canton[u]);
  }

  lemma CustodyFound(cfg: Config, canton: Canton, u: nat)
    requires LogOk(cfg, canton) && FindsCustody(cfg, canton, u)
    ensures IsCustody(cfg, canton, u)
  {
    IdsTellApart(cfg.order, cfg.order, Late, Late);
    hide RefundId, ClaimId, LockId;
    assert IdFits(cfg, canton[u]);
  }

  lemma LogExtends(cfg: Config, canton: Canton, tx: Tx<Update>)
    requires LogOk(cfg, canton) && IdFits(cfg, tx) && Submit(canton, tx) == Some(canton + [tx])
    ensures LogOk(cfg, canton + [tx])
  {
    hide IdFits;
    SubmitKeepsUnique(canton, tx);
  }

  // ----- Facts that stay -----

  /** What any step guarantees to a worker that is not taking it. */
  ghost predicate Later(cfg: Config, s: State, s': State) {
    && s.canton <= s'.canton && s.evm <= s'.evm && s.now <= s'.now && (s.marked ==> s'.marked)
    && (NeverClaimable(cfg, s) ==> s'.evm == s.evm)
    && (|s.evm| == 2 ==> s'.evm == s.evm)
    && (s.now >= cfg.solverTimelock && !Live(s.evm) ==> !Live(s'.evm))
  }

  lemma CopyStays(cfg: Config, o: Row, s: State, s': State)
    requires CopyOk(cfg, o, s) && s.canton <= s'.canton && s.evm <= s'.evm && (s.marked ==> s'.marked)
    ensures CopyOk(cfg, o, s')
  {
  }

  lemma PcStays(cfg: Config, pc: Pc, s: State, s': State)
    requires EscrowOk(cfg, s) && PcOk(cfg, pc, s) && Later(cfg, s, s')
    ensures PcOk(cfg, pc, s')
  {
    match pc
    case Idle | Reserving | ClaimReload =>
    case RefundSubmit(o, prev, e) =>
      CopyStays(cfg, o, s, s');
      CopyStays(cfg, o.(status := prev), s, s');
      hide CopyOk;
    case PhantomScan(o) =>
      CopyStays(cfg, o, s, s');
      assert |s.evm| == 2;
    case _ =>
      hide CopyOk, IsEvent;
      CopyStays(cfg, pc.o, s, s');
  }

  /** A step by worker `w` keeps the invariant if its own part does. */
  lemma Settle(cfg: Config, s: State, s': State, w: nat, pc: Pc)
    requires Inv(cfg, s) && WorldOk(cfg, s') && Later(cfg, s, s')
    requires s'.pcs == s.pcs[w := pc] && PcOk(cfg, pc, s')
    ensures Inv(cfg, s')
  {
    hide CopyOk, PcOk, Later, EscrowOk, LogOk, TakingOk;
    forall v | v in s'.pcs ensures PcOk(cfg, s'.pcs[v], s') {
      if v != w { PcStays(cfg, s.pcs[v], s, s'); }
    }
  }

  lemma SettleWorld(cfg: Config, s: State, s': State)
    requires Inv(cfg, s) && WorldOk(cfg, s') && Later(cfg, s, s') && s'.pcs == s.pcs
    ensures Inv(cfg, s')
  {
    hide CopyOk, PcOk, Later, EscrowOk, LogOk, TakingOk;
    forall v | v in s'.pcs ensures PcOk(cfg, s'.pcs[v], s') {
      PcStays(cfg, s.pcs[v], s, s');
    }
  }

  /** What a worker knows does not depend on where the workers are. */
  lemma PcIgnoresPcs(cfg: Config, pc: Pc, s: State, s': State)
    requires PcOk(cfg, pc, s) && s' == s.(pcs := s'.pcs)
    ensures PcOk(cfg, pc, s')
  {
    hide IsEvent, IsUpdate, IsCustody, Live, Spent;
  }

  lemma WorldIgnoresPcs(cfg: Config, s: State, s': State)
    requires WorldOk(cfg, s) && s' == s.(pcs := s'.pcs)
    ensures WorldOk(cfg, s')
  {
    hide IsEvent, IsUpdate, IsCustody, LogOk, Has;
  }

  lemma SplitWorld(cfg: Config, s: State)
    requires Inv(cfg, s)
    ensures EscrowOk(cfg, s) && LogOk(cfg, s.canton) && TakingOk(cfg, s) && CopyOk(cfg, s.row, s)
  {
  }

  /** A step that only moves worker `w`. */
  lemma JustMoves(cfg: Config, s: State, w: nat, pc: Pc)
    requires Inv(cfg, s) && PcOk(cfg, pc, s)
    ensures Inv(cfg, Move(s, w, pc))
  {
    var s' := Move(s, w, pc);
    assert Later(cfg, s, s') by { hide PcOk, WorldOk; }
    hide PcOk, WorldOk, Later;
    PcIgnoresPcs(cfg, pc, s, s');
    WorldIgnoresPcs(cfg, s, s');
    Settle(cfg, s, s', w, pc);
  }

  lemma StartOk(cfg: Config, s: State, w: nat, call: Call)
    requires Inv(cfg, s)
    ensures PcOk(cfg, StartPc(cfg, s.row, s.now, call), s)
  {
    SplitWorld(cfg, s);
    hide Inv, LogOk, TakingOk, EscrowOk, IsEvent, IsUpdate, IsCustody;
  }

  // ----- Steps that write the row -----

  /** A row write by `w` that keeps the row's own facts. */
  lemma RowWritten(cfg: Config, s: State, o: Row, w: nat, pc: Pc)
    requires Inv(cfg, s) && CopyOk(cfg, o, s) && PcOk(cfg, pc, s.(row := o))
    requires o.status == Refunding && Ladder(cfg) && !cfg.loop ==> s.row.status == Refunding || NeverClaimable(cfg, s)
    ensures Inv(cfg, Move(s.(row := o), w, pc))
  {
    var s' := Move(s.(row := o), w, pc);
    RowWrittenWorld(cfg, s, o);
    assert Later(cfg, s, s') by { hide PcOk, WorldOk; }
    hide PcOk, WorldOk, CopyOk, Later;
    PcIgnoresPcs(cfg, pc, s.(row := o), s');
    WorldIgnoresPcs(cfg, s.(row := o), s');
    Settle(cfg, s, s', w, pc);
  }

  lemma RowWrittenWorld(cfg: Config, s: State, o: Row)
    requires WorldOk(cfg, s) && CopyOk(cfg, o, s)
    requires o.status == Refunding && Ladder(cfg) && !cfg.loop ==> s.row.status == Refunding || NeverClaimable(cfg, s)
    ensures WorldOk(cfg, s.(row := o))
  {
    hide IsEvent, IsUpdate, IsCustody, LogOk, Has;
  }

  lemma WriteKeeps(cfg: Config, s: State, w: nat, o: Row, expected: Status)
    requires Inv(cfg, s) && PcOf(s, w) == Write(o, expected)
    ensures Inv(cfg, Move(PutIfStatus(s, o, expected), w, Idle))
  {
    hide CopyOk, IsEvent, IsUpdate, IsCustody;
    if s.row.status == expected { RowWritten(cfg, s, o, w, Idle); } else { JustMoves(cfg, s, w, Idle); }
  }

  lemma ReservingKeeps(cfg: Config, s: State, w: nat)
    requires Inv(cfg, s) && PcOf(s, w) == Reserving && s.row.status == Accepted
    ensures Inv(cfg, Move(s.(row := s.row.(status := MainLocking)), w, Idle))
  {
    RowWritten(cfg, s, s.row.(status := MainLocking), w, Idle);
  }

  lemma RefundCasKeeps(cfg: Config, s: State, w: nat, o: Row, e: Entry)
    requires Inv(cfg, s) && PcOf(s, w) == RefundCas(o, e)
    ensures Inv(cfg, AtRefundCas(s, w, o, e))
  {
    hide IsEvent, IsUpdate, IsCustody, EscrowOk;
    var owned := o.(status := Refunding);
    if s.row.status == o.status {
      assert owned.(status := o.status) == o;
      RowWritten(cfg, s, owned, w, RefundSubmit(owned, o.status, e));
    } else {
      JustMoves(cfg, s, w, Idle);
    }
  }

  lemma RefundWriteKeeps(cfg: Config, s: State, w: nat, o: Row, e: Entry)
    requires Inv(cfg, s) && PcOf(s, w) == RefundWrite(o, e)
    ensures Inv(cfg, Move(PutIfStatus(s, o, Refunding), w, Idle))
  {
    hide CopyOk, IsEvent, IsUpdate, IsCustody, EscrowOk;
    if s.row.status == Refunding { RowWritten(cfg, s, o, w, Idle); } else { JustMoves(cfg, s, w, Idle); }
  }

  lemma ClaimRevealKeeps(cfg: Config, s: State, w: nat, o: Row, expected: Status)
    requires Inv(cfg, s) && PcOf(s, w) == ClaimReveal(o, expected)
    ensures Inv(cfg, AtClaimReveal(s, w, o, expected))
  {
    hide IsEvent, IsUpdate, IsCustody;
    if s.row.status == expected { RowWritten(cfg, s, o, w, ClaimSubmit(o)); } else { JustMoves(cfg, s, w, ClaimReload); }
  }

  lemma RetakeWriteKeeps(cfg: Config, s: State, w: nat, o: Row)
    requires Inv(cfg, s) && PcOf(s, w) == RetakeWrite(o)
    ensures Inv(cfg, AtRetakeWrite(cfg, s, w, o))
  {
    if s.row.status != CounterLocked {
      JustMoves(cfg, s, w, Idle);
    } else {
      var next := if s.now >= cfg.userTimelock then Idle else Write(o.(status := Failed), CounterLocked);
      RowWritten(cfg, s, o, w, next);
    }
  }

  lemma MarkKeeps(cfg: Config, s: State, w: nat, o: Row)
    requires Inv(cfg, s) && PcOf(s, w) == Mark(o)
    ensures Inv(cfg, AtMark(s, w, o))
  {
    if s.row.status == o.status {
      var marked := s.(marked := true);
      CopyStays(cfg, o, s, marked);
      assert Inv(cfg, marked) by { SettleWorld(cfg, s, marked); }
      RowWritten(cfg, marked, o.(status := Refunded), w, Idle);
    } else {
      JustMoves(cfg, s, w, Idle);
    }
  }

  // ----- Steps that commit on the Canton ledger -----

  lemma CommitKeeps(cfg: Config, s: State, tx: Tx<Update>, w: nat, pc: Pc)
    requires Inv(cfg, s) && PcOk(cfg, pc, s.(canton := s.canton + [tx]))
    requires IdFits(cfg, tx) && Submit(s.canton, tx) == Some(s.canton + [tx])
    requires tx.what == Claim ==> Claimed in s.evm && !Has(s.canton, Refund) && !cfg.loop
    requires tx.what == Refund ==> !Has(s.canton, Claim) && (Ladder(cfg) && !cfg.loop ==> NeverClaimable(cfg, s))
    ensures Inv(cfg, Move(s.(canton := s.canton + [tx]), w, pc))
  {
    var s' := Move(s.(canton := s.canton + [tx]), w, pc);
    CommittedWorld(cfg, s, tx);
    assert Later(cfg, s, s') by { hide PcOk, WorldOk, Submit, IdFits; }
    hide PcOk, WorldOk, CopyOk, Later, Submit, IdFits, Has;
    PcIgnoresPcs(cfg, pc, s.(canton := s.canton + [tx]), s');
    WorldIgnoresPcs(cfg, s.(canton := s.canton + [tx]), s');
    Settle(cfg, s, s', w, pc);
  }

  lemma CommittedWorld(cfg: Config, s: State, tx: Tx<Update>)
    requires WorldOk(cfg, s)
    requires IdFits(cfg, tx) && Submit(s.canton, tx) == Some(s.canton + [tx])
    requires tx.what == Claim ==> Claimed in s.evm && !Has(s.canton, Refund) && !cfg.loop
    requires tx.what == Refund ==> !Has(s.canton, Claim) && (Ladder(cfg) && !cfg.loop ==> NeverClaimable(cfg, s))
    ensures WorldOk(cfg, s.(canton := s.canton + [tx]))
  {
    var s' := s.(canton := s.canton + [tx]);
    CopyStays(cfg, s.row, s, s');
    if s.daemon.Aborting? { CopyStays(cfg, s.daemon.o, s, s'); }
    LogExtends(cfg, s.canton, tx);
    HasMore(s.canton, tx, Claim);
    HasMore(s.canton, tx, Refund);
    hide CopyOk, IsEvent, IsUpdate, IsCustody, LogOk, Has, Submit, IdFits, Spent;
  }

  lemma ConfirmingPc(cfg: Config, s: State, w: nat, o: Row, ch: Choice)
    requires LogOk(cfg, s.canton) && PcOk(cfg, Confirming(o), s) && AtConfirming(cfg, s, w, o, ch).Some?
    ensures var s' := AtConfirming(cfg, s, w, o, ch).value; PcOk(cfg, s'.pcs[w], s.(canton := s'.canton))
  {
    if ch.Found? && FindsCustody(cfg, s.canton, ch.i) { CustodyFound(cfg, s.canton, ch.i); }
    hide LogOk, FindsCustody, Submit, LockId, IsEvent;
    CopyStays(cfg, o, s, AtConfirming(cfg, s, w, o, ch).value);
  }

  lemma ConfirmingKeeps(cfg: Config, s: State, w: nat, o: Row, ch: Choice)
    requires Inv(cfg, s) && PcOf(s, w) == Confirming(o) && AtConfirming(cfg, s, w, o, ch).Some?
    ensures Inv(cfg, AtConfirming(cfg, s, w, o, ch).value)
  {
    assert PcOk(cfg, s.pcs[w], s) by { hide WorldOk, PcOk; }
    SplitWorld(cfg, s);
    ConfirmingPc(cfg, s, w, o, ch);
    hide WorldOk, PcOk, CopyOk, LogOk, TakingOk, EscrowOk, Has, LockId, Inv;
    var pc := AtConfirming(cfg, s, w, o, ch).value.pcs[w];
    if ch.Commit? {
      CommitKeeps(cfg, s, CustodyTx(cfg), w, pc);
    } else {
      JustMoves(cfg, s, w, pc);
    }
  }

  /** At every submission of the late call no WBTC of the order was or can ever be claimed. */
  lemma LateReady(cfg: Config, s: State, w: nat, o: Row, prev: Status)
    requires Ladder(cfg) && Inv(cfg, s) && PcOf(s, w) == RefundSubmit(o, prev, Late)
    ensures NeverClaimable(cfg, s)
  {
    hide CopyOk, WorldOk;
    assert PcOk(cfg, s.pcs[w], s);
  }

  /** A return can only commit if the solver has not taken the CBTC. */
  lemma ReturnReady(cfg: Config, s: State, w: nat, o: Row, prev: Status, e: Entry)
    requires Inv(cfg, s) && PcOf(s, w) == RefundSubmit(o, prev, e) && CanRefund(cfg, s.canton, e)
    ensures !Has(s.canton, Claim) && !Has(s.canton, Refund)
    ensures Ladder(cfg) && !cfg.loop ==> NeverClaimable(cfg, s)
  {
    assert PcOk(cfg, s.pcs[w], s) by { hide WorldOk, PcOk; }
    SplitWorld(cfg, s);
    RefundUnused(cfg, s.canton, e);
    hide CopyOk, WorldOk, RefundId, LogOk;
  }

  lemma RefundDoneOk(cfg: Config, s: State, canton: Canton, o: Row, prev: Status, e: Entry, u: nat)
    requires PcOk(cfg, RefundSubmit(o, prev, e), s) && s.canton <= canton && IsUpdate(canton, u, Refund)
    ensures PcOk(cfg, RefundWrite(o.(status := Refunded, result := Some(Committed(u))), e), s.(canton := canton))
  {
    CopyStays(cfg, o, s, s.(canton := canton));
    hide IsEvent, Spent;
  }

  lemma RefundBackOk(cfg: Config, s: State, o: Row, prev: Status, e: Entry)
    requires PcOk(cfg, RefundSubmit(o, prev, e), s)
    ensures PcOk(cfg, RefundWrite(o.(status := prev), e), s) && PcOk(cfg, Idle, s)
  {
    hide CopyOk;
  }

  lemma RefundSubmitPc(cfg: Config, s: State, w: nat, o: Row, prev: Status, e: Entry, ch: Choice)
    requires LogOk(cfg, s.canton) && PcOk(cfg, RefundSubmit(o, prev, e), s)
    requires AtRefundSubmit(cfg, s, w, o, prev, e, ch).Some?
    ensures var s' := AtRefundSubmit(cfg, s, w, o, prev, e, ch).value; PcOk(cfg, s'.pcs[w], s.(canton := s'.canton))
  {
    hide PcOk, CopyOk, LogOk, RefundId, CanRefund, Unused;
    RefundBackOk(cfg, s, o, prev, e);
    assert s.(canton := s.canton) == s;
    if o.custody.Some? {
      if ch.Commit? {
        RefundDoneOk(cfg, s, s.canton + [Tx(Some(RefundId(cfg.order, e)), Refund)], o, prev, e, |s.canton|);
      } else if ch.Found? || ch.Duplicate? {
        RefundFound(cfg, s.canton, ch.i, e);
        RefundDoneOk(cfg, s, s.canton, o, prev, e, ch.i);
      }
    }
  }

  lemma RefundCommitKeeps(cfg: Config, s: State, w: nat, o: Row, prev: Status, e: Entry, pc: Pc)
    requires Inv(cfg, s) && PcOf(s, w) == RefundSubmit(o, prev, e) && CanRefund(cfg, s.canton, e)
    requires PcOk(cfg, pc, s.(canton := s.canton + [Tx(Some(RefundId(cfg.order, e)), Refund)]))
    ensures Inv(cfg, Move(s.(canton := s.canton + [Tx(Some(RefundId(cfg.order, e)), Refund)]), w, pc))
  {
    ReturnReady(cfg, s, w, o, prev, e);
    IdsTellApart(cfg.order, cfg.order, e, Late);
    hide Inv, PcOk, NeverClaimable, RefundId, ClaimId, LockId, LockActive, Has;
    CommitKeeps(cfg, s, Tx(Some(RefundId(cfg.order, e)), Refund), w, pc);
  }

  lemma RefundSubmitKeeps(cfg: Config, s: State, w: nat, o: Row, prev: Status, e: Entry, ch: Choice)
    requires Inv(cfg, s) && PcOf(s, w) == RefundSubmit(o, prev, e)
    requires AtRefundSubmit(cfg, s, w, o, prev, e, ch).Some?
    ensures Inv(cfg, AtRefundSubmit(cfg, s, w, o, prev, e, ch).value)
  {
    assert PcOk(cfg, s.pcs[w], s) by { hide WorldOk, PcOk; }
    assert LogOk(cfg, s.canton) by { SplitWorld(cfg, s); hide LogOk, Inv; }
    RefundSubmitPc(cfg, s, w, o, prev, e, ch);
    hide Inv, PcOk, LogOk, CanRefund, RefundId, CommittedAs, Unused;
    var pc := AtRefundSubmit(cfg, s, w, o, prev, e, ch).value.pcs[w];
    if o.custody.Some? && ch.Commit? {
      RefundCommitKeeps(cfg, s, w, o, prev, e, pc);
    } else {
      assert s.(canton := s.canton) == s;
      JustMoves(cfg, s, w, pc);
    }
  }

  lemma ClaimDoneOk(cfg: Config, s: State, canton: Canton, o: Row, u: nat)
    requires PcOk(cfg, ClaimSubmit(o), s) && s.canton <= canton
    requires IsUpdate(canton, u, if cfg.loop then CustodyAccepted else Claim)
    ensures PcOk(cfg, Write(o.(status := MainClaimed, revealed := true, result := Some(Committed(u))), o.status),
                 s.(canton := canton))
  {
    CopyStays(cfg, o, s, s.(canton := canton));
    hide IsEvent;
  }

  lemma ClaimSubmitPc(cfg: Config, s: State, w: nat, o: Row, ch: Choice)
    requires LogOk(cfg, s.canton) && PcOk(cfg, ClaimSubmit(o), s) && AtClaimSubmit(cfg, s, w, o, ch).Some?
    ensures var s' := AtClaimSubmit(cfg, s, w, o, ch).value; PcOk(cfg, s'.pcs[w], s.(canton := s'.canton))
    ensures Claimed in s.evm
  {
    IdleOk(cfg, s);
    assert Claimed in s.evm && (o.custody.Some? ==> IsCustody(cfg, s.canton, o.custody.value));
    hide PcOk, CopyOk, LogOk, ClaimId, CanClaim;
    assert s.(canton := s.canton) == s;
    if o.custody.Some? {
      if cfg.loop { ClaimDoneOk(cfg, s, s.canton, o, o.custody.value); }
      else if ch.Commit? { ClaimDoneOk(cfg, s, s.canton + [Tx(Some(ClaimId(cfg.order)), Claim)], o, |s.canton|); }
      else if ch.Found? {
        ClaimFound(cfg, s.canton, ch.i);
        ClaimDoneOk(cfg, s, s.canton, o, ch.i);
      }
    }
  }

  lemma IdleOk(cfg: Config, s: State)
    ensures PcOk(cfg, Idle, s)
  {
  }

  lemma ClaimSubmitKeeps(cfg: Config, s: State, w: nat, o: Row, ch: Choice)
    requires Inv(cfg, s) && PcOf(s, w) == ClaimSubmit(o) && AtClaimSubmit(cfg, s, w, o, ch).Some?
    ensures Inv(cfg, AtClaimSubmit(cfg, s, w, o, ch).value)
  {
    assert PcOk(cfg, s.pcs[w], s) by { hide WorldOk, PcOk; }
    SplitWorld(cfg, s);
    ClaimSubmitPc(cfg, s, w, o, ch);
    hide Inv, PcOk, CopyOk, LogOk, TakingOk, EscrowOk, Has, ClaimId;
    var pc := AtClaimSubmit(cfg, s, w, o, ch).value.pcs[w];
    if o.custody.Some? && !cfg.loop && ch.Commit? {
      CommitKeeps(cfg, s, Tx(Some(ClaimId(cfg.order)), Claim), w, pc);
    } else {
      JustMoves(cfg, s, w, pc);
    }
  }

  // ----- Steps that only read -----

  /** After userTimelock an empty escrow and an empty Claimed scan mean nothing was claimed. */
  lemma LateScanKeeps(cfg: Config, s: State, w: nat, o: Row)
    requires Inv(cfg, s) && PcOf(s, w) == LateScan(o)
    ensures Inv(cfg, AtLateScan(s, w, o))
  {
    if s.evm == [Locked, Claimed] { assert s.evm[1].Claimed?; }
    JustMoves(cfg, s, w, if ClaimSeen(s.evm, o) then Idle else RefundCas(o, Late));
  }

  /** A cleared lock without a claim was retaken. */
  lemma PhantomScanPc(cfg: Config, s: State, w: nat, o: Row, ch: Choice)
    requires EscrowOk(cfg, s) && PcOk(cfg, PhantomScan(o), s)
    ensures PcOk(cfg, AtPhantomScan(s, w, o, ch).pcs[w], s)
  {
    if s.evm == [Locked, Claimed] { assert s.evm[1].Claimed?; }
  }

  lemma PhantomScanKeeps(cfg: Config, s: State, w: nat, o: Row, ch: Choice)
    requires Inv(cfg, s) && PcOf(s, w) == PhantomScan(o)
    ensures Inv(cfg, AtPhantomScan(s, w, o, ch))
  {
    PhantomScanPc(cfg, s, w, o, ch);
    hide PcOk, WorldOk;
    JustMoves(cfg, s, w, AtPhantomScan(s, w, o, ch).pcs[w]);
  }

  lemma RetakeKeeps(cfg: Config, s: State, w: nat, o: Row, ch: Choice)
    requires Inv(cfg, s) && PcOf(s, w) == Retake(o) && AtRetake(s, w, o, ch).Some?
    ensures Inv(cfg, AtRetake(s, w, o, ch).value)
  {
    JustMoves(cfg, s, w, AtRetake(s, w, o, ch).value.pcs[w]);
  }

  lemma ClaimScanPc(cfg: Config, s: State, w: nat, o: Row, ch: Choice)
    requires PcOk(cfg, ClaimScan(o), s) && AtClaimScan(s, w, o, ch).Some?
    ensures PcOk(cfg, AtClaimScan(s, w, o, ch).value.pcs[w], s)
  {
  }

  lemma ClaimScanKeeps(cfg: Config, s: State, w: nat, o: Row, ch: Choice)
    requires Inv(cfg, s) && PcOf(s, w) == ClaimScan(o) && AtClaimScan(s, w, o, ch).Some?
    ensures Inv(cfg, AtClaimScan(s, w, o, ch).value)
  {
    assert PcOk(cfg, s.pcs[w], s) by { hide WorldOk, PcOk; }
    ClaimScanPc(cfg, s, w, o, ch);
    hide PcOk, WorldOk;
    JustMoves(cfg, s, w, AtClaimScan(s, w, o, ch).value.pcs[w]);
  }

  lemma RecordScanPc(cfg: Config, s: State, w: nat, o: Row, ch: Choice)
    requires PcOk(cfg, RecordScan(o), s) && AtRecordScan(s, w, o, ch).Some?
    ensures PcOk(cfg, AtRecordScan(s, w, o, ch).value.pcs[w], s)
  {
  }

  lemma RecordScanKeeps(cfg: Config, s: State, w: nat, o: Row, ch: Choice)
    requires Inv(cfg, s) && PcOf(s, w) == RecordScan(o) && AtRecordScan(s, w, o, ch).Some?
    ensures Inv(cfg, AtRecordScan(s, w, o, ch).value)
  {
    assert PcOk(cfg, s.pcs[w], s) by { hide WorldOk, PcOk; }
    RecordScanPc(cfg, s, w, o, ch);
    hide PcOk, WorldOk;
    JustMoves(cfg, s, w, AtRecordScan(s, w, o, ch).value.pcs[w]);
  }

  lemma LockCheckPc(cfg: Config, s: State, w: nat, o: Row, ch: Choice)
    requires PcOk(cfg, LockCheck(o), s) && AtLockCheck(s, w, o, ch).Some?
    ensures PcOk(cfg, AtLockCheck(s, w, o, ch).value.pcs[w], s)
  {
  }

  lemma LockCheckKeeps(cfg: Config, s: State, w: nat, o: Row, ch: Choice)
    requires Inv(cfg, s) && PcOf(s, w) == LockCheck(o) && AtLockCheck(s, w, o, ch).Some?
    ensures Inv(cfg, AtLockCheck(s, w, o, ch).value)
  {
    assert PcOk(cfg, s.pcs[w], s) by { hide WorldOk, PcOk; }
    LockCheckPc(cfg, s, w, o, ch);
    hide PcOk, WorldOk;
    JustMoves(cfg, s, w, AtLockCheck(s, w, o, ch).value.pcs[w]);
  }

  lemma PatchKeeps(cfg: Config, s: State, w: nat, o: Row, ch: Choice)
    requires Inv(cfg, s) && PcOf(s, w) == Patch(o) && AtPatch(s, w, o, ch).Some?
    ensures Inv(cfg, AtPatch(s, w, o, ch).value)
  {
    JustMoves(cfg, s, w, AtPatch(s, w, o, ch).value.pcs[w]);
  }

  lemma LocksReadKeeps(cfg: Config, s: State, w: nat, ch: Choice)
    requires Inv(cfg, s) && StepGo(cfg, s, w, ch).Some?
    requires PcOf(s, w).LateLock? || PcOf(s, w).EarlyLock? || PcOf(s, w).Phantom? || PcOf(s, w).ClaimReload?
    ensures Inv(cfg, StepGo(cfg, s, w, ch).value)
  {
    hide CopyOk;
    JustMoves(cfg, s, w, StepGo(cfg, s, w, ch).value.pcs[w]);
  }

  lemma GoKeeps(cfg: Config, s: State, w: nat, ch: Choice)
    requires Inv(cfg, s) && StepGo(cfg, s, w, ch).Some?
    ensures Inv(cfg, StepGo(cfg, s, w, ch).value)
  {
    hide Inv, AtConfirming, AtLateLock, AtLateScan, AtEarlyLock, AtRefundCas, AtRefundSubmit, AtClaimScan,
         AtClaimReveal, AtClaimReload, AtClaimSubmit, AtRecordScan, AtLockCheck, AtPhantom, AtPhantomScan,
         AtRetake, AtRetakeWrite, AtMark, AtPatch, Ladder;
    match PcOf(s, w)
    case Idle =>
    case Write(o, expected) => WriteKeeps(cfg, s, w, o, expected);
    case Reserving => if s.row.status == Accepted { ReservingKeeps(cfg, s, w); } else { JustMoves(cfg, s, w, Idle); }
    case Confirming(o) => ConfirmingKeeps(cfg, s, w, o, ch);
    case LateScan(o) => LateScanKeeps(cfg, s, w, o);
    case RefundCas(o, e) => RefundCasKeeps(cfg, s, w, o, e);
    case RefundSubmit(o, prev, e) => RefundSubmitKeeps(cfg, s, w, o, prev, e, ch);
    case RefundWrite(o, e) => RefundWriteKeeps(cfg, s, w, o, e);
    case ClaimScan(o) => ClaimScanKeeps(cfg, s, w, o, ch);
    case ClaimReveal(o, expected) => ClaimRevealKeeps(cfg, s, w, o, expected);
    case ClaimSubmit(o) => ClaimSubmitKeeps(cfg, s, w, o, ch);
    case RecordScan(o) => RecordScanKeeps(cfg, s, w, o, ch);
    case LockCheck(o) => LockCheckKeeps(cfg, s, w, o, ch);
    case PhantomScan(o) => PhantomScanKeeps(cfg, s, w, o, ch);
    case Retake(o) => RetakeKeeps(cfg, s, w, o, ch);
    case RetakeWrite(o) => RetakeWriteKeeps(cfg, s, w, o);
    case Mark(o) => MarkKeeps(cfg, s, w, o);
    case Patch(o) => PatchKeeps(cfg, s, w, o, ch);
    case LateLock(_) | EarlyLock(_) | Phantom(_) | ClaimReload => LocksReadKeeps(cfg, s, w, ch);
  }

  // ----- The daemon, the escrow, and whole runs -----

  lemma WorldStays(cfg: Config, s: State, l: Label)
    requires WorldOk(cfg, s) && StepWorld(cfg, s, l).Some?
    ensures WorldOk(cfg, StepWorld(cfg, s, l).value)
  {
    hide IsEvent, IsUpdate, IsCustody, CopyOk, LogOk, Has, Ladder;
    var s' := StepWorld(cfg, s, l).value;
    CopyStays(cfg, s.row, s, s');
    if l == Begin { CopyNamed(cfg, s, s', s.row, CounterLocking); }
    if l == AbortWrite { CopyNamed(cfg, s, s', s.daemon.o, MainLocked); }
    if s'.daemon.Aborting? { CopyStays(cfg, s'.daemon.o, s, s'); }
  }

  lemma CopyNamed(cfg: Config, s: State, s': State, o: Row, st: Status)
    requires CopyOk(cfg, o, s) && s'.canton == s.canton && s'.evm == s.evm && s'.marked == s.marked
    requires o.status == MainLocked || o.status == CounterLocking
    requires st == CounterLocking || st == MainLocked
    ensures CopyOk(cfg, o.(status := st), s')
  {
  }

  lemma WorldLater(cfg: Config, s: State, l: Label)
    requires EscrowOk(cfg, s) && StepWorld(cfg, s, l).Some?
    ensures Later(cfg, s, StepWorld(cfg, s, l).value)
  {
  }

  lemma WorldKeeps(cfg: Config, s: State, l: Label)
    requires Inv(cfg, s) && StepWorld(cfg, s, l).Some?
    ensures Inv(cfg, StepWorld(cfg, s, l).value)
  {
    var s' := StepWorld(cfg, s, l).value;
    WorldStays(cfg, s, l);
    SplitWorld(cfg, s);
    WorldLater(cfg, s, l);
    assert s'.pcs == s.pcs;
    hide Inv, StepWorld, Later, EscrowOk, LogOk, TakingOk, CopyOk;
    SettleWorld(cfg, s, s');
  }

  lemma StepKeeps(cfg: Config, s: State, l: Label)
    requires Inv(cfg, s) && Step(cfg, s, l).Some?
    ensures Inv(cfg, Step(cfg, s, l).value)
  {
    hide StepGo, StepWorld, StartPc, Inv;
    match l
    case Start(w, call) =>
      StartOk(cfg, s, w, call);
      hide PcOk;
      JustMoves(cfg, s, w, StartPc(cfg, s.row, s.now, call));
    case Go(w, ch) => GoKeeps(cfg, s, w, ch);
    case Crash(w) =>
      IdleOk(cfg, s);
      hide PcOk;
      JustMoves(cfg, s, w, Idle);
    case _ => WorldKeeps(cfg, s, l);
  }

  lemma {:induction false} RunKeeps(cfg: Config, s: State, labels: seq<Label>)
    requires Inv(cfg, s) && Run(cfg, s, labels).Some?
    ensures Inv(cfg, Run(cfg, s, labels).value)
    decreases labels
  {
    hide Inv;
    if labels != [] {
      StepKeeps(cfg, s, labels[0]);
      RunKeeps(cfg, Step(cfg, s, labels[0]).value, labels[1..]);
    }
  }
}
