/** What every step of a forward Loop order keeps, and what follows for every run. */
module HtlcForwardSafety {
  import opened Wrappers
  import opened HtlcCommands
  import opened HtlcForwardMachine

  /** Each update carries the command id its submitter computed. */
  predicate IdFits(order: string, tx: Tx<Update>) {
    tx.id == if tx.what.Delivery? then Some(DeliveryId(order)) else None
  }

  ghost predicate LogOk(order: string, log: Canton) {
    && UniqueIds(log) && (forall i | 0 <= i < |log| :: IdFits(order, log[i]))
    && (forall i, j | 0 <= i < j < |log| && log[i].what.Accepted? :: log[i].what != log[j].what)
    && (forall i | 0 <= i < |log| && log[i].what.Accepted? :: IsOffer(log, log[i].what.offer))
  }

  /** The facts any copy of the row carries, however old. */
  ghost predicate CopyOk(o: Row, log: Canton) {
    && (o.transfer.Some? ==> IsDelivery(log, o.transfer.value))
    && (o.offer.Some? ==> IsOffer(log, o.offer.value))
    && (o.claim.Some? ==> Delivers(log, o.claim.value))
    && (o.status == MainClaimed ==> o.transfer.Some? && o.claim.Some?)
    && (o.evmTx.Some? ==> o.status == MainClaimed || o.status == Failed || o.status == Refunded)
  }

  ghost predicate EvidenceOk(u: nat, offer: Option<nat>, proven: bool, log: Canton) {
    IsDelivery(log, u) && (offer.Some? ==> IsOffer(log, offer.value)) && (proven ==> IsDirect(log, u))
  }

  ghost predicate BackOk(back: Option<Row>, log: Canton) {
    back.Some? ==> CopyOk(back.value, log)
  }

  predicate ForwardEdge(from: Status, to: Status) {
    from == to || (from == MainLocked && (to == CounterClaimed || to == Refunded))
    || (from == CounterClaimed && (to == MainClaimed || to == Failed)) || (from == Failed && to == Refunded)
  }

  ghost predicate PcOk(pc: Pc, log: Canton) {
    match pc
    case Idle | RevealReload | DuplicateReload | AcceptReload(_) => true
    case Write(o, expected) => CopyOk(o, log) && ForwardEdge(expected, o.status)
    case RevealWrite(o) => CopyOk(o, log) && o.status == CounterClaimed
    case Deliver(o) => CopyOk(o, log) && RevealSettled(o)
    case Prove(u, fallback) => EvidenceOk(u, fallback, false, log)
    case Retry(o) => CopyOk(o, log)
    case Persist(u, offer, proven, _, back) => EvidenceOk(u, offer, proven, log) && BackOk(back, log)
    case PersistWrite(o, u, offer, proven, _, back) =>
      CopyOk(o, log) && EvidenceOk(u, offer, proven, log) && BackOk(back, log)
    case Reconcile(o, _) => CopyOk(o, log)
    case OfferWrite(o, c, _) => CopyOk(o, log) && IsOffer(log, c)
    case OfferReload(c, _) => IsOffer(log, c)
    case AcceptScan(o, c, _) => CopyOk(o, log) && IsOffer(log, c)
    case AcceptWrite(o, _) => CopyOk(o, log)
    case RecordProof(o) => CopyOk(o, log) && o.status == CounterClaimed
    case MainClaimProof(o) => CopyOk(o, log) && o.status == CounterClaimed && o.transfer.Some? && o.claim.Some?
    case RetakeProof(o) => CopyOk(o, log) && o.status != MainClaimed && o.status != Refunded
    case Patch(o) => CopyOk(o, log) && o.status == MainClaimed
  }

  ghost predicate WorldOk(s: State) {
    && LogOk(s.order, s.log) && CopyOk(s.row, s.log)
    && (s.knows || Claimed in s.evm ==> UserHolds(s.log))
  }

  ghost predicate Inv(s: State) {
    WorldOk(s) && forall w | w in s.pcs :: PcOk(s.pcs[w], s.log)
  }

  lemma CopyStays(o: Row, log: Canton, log': Canton)
    requires CopyOk(o, log) && log <= log'
    ensures CopyOk(o, log')
  {
  }

  lemma PcStays(pc: Pc, log: Canton, log': Canton)
    requires PcOk(pc, log) && log <= log'
    ensures PcOk(pc, log')
  {
  }

  lemma Settle(s: State, s': State, w: nat, pc: Pc)
    requires Inv(s) && WorldOk(s') && s.log <= s'.log && s'.pcs == s.pcs[w := pc] && PcOk(pc, s'.log)
    ensures Inv(s')
  {
    hide WorldOk, PcOk;
    forall v | v in s'.pcs ensures PcOk(s'.pcs[v], s'.log) {
      if v != w { PcStays(s.pcs[v], s.log, s'.log); }
    }
  }

  lemma SettleWorld(s: State, s': State)
    requires Inv(s) && WorldOk(s') && s.log <= s'.log && s'.pcs == s.pcs
    ensures Inv(s')
  {
    hide WorldOk, PcOk;
    forall v | v in s'.pcs ensures PcOk(s'.pcs[v], s'.log) { PcStays(s.pcs[v], s.log, s'.log); }
  }

  /** Only the delivery of this order is committed under its delivery id. */
  lemma DeliveryFound(order: string, log: Canton, u: nat)
    requires LogOk(order, log)
    ensures CommittedAs(log, u, DeliveryId(order)) <==> IsDelivery(log, u)
  {
    hide DeliveryId, IsOffer;
    if u < |log| { assert IdFits(order, log[u]); }
  }

  /** Two deliveries would share one command id, so they are one. */
  lemma OneDelivery(order: string, log: Canton, u: nat, v: nat)
    requires LogOk(order, log) && IsDelivery(log, u) && IsDelivery(log, v)
    ensures u == v
  {
    hide DeliveryId, IsOffer;
    assert IdFits(order, log[u]) && IdFits(order, log[v]);
  }

  lemma LogExtends(order: string, log: Canton, tx: Tx<Update>)
    requires LogOk(order, log) && IdFits(order, tx) && Submit(log, tx) == Some(log + [tx])
    requires !tx.what.Delivery? ==> IsPending(log, tx.what.offer)
    ensures LogOk(order, log + [tx])
  {
    SubmitKeepsUnique(log, tx);
    hide IdFits, UniqueIds, Submit;
  }

  lemma HoldsStays(log: Canton, log': Canton)
    requires UserHolds(log) && log <= log'
    ensures UserHolds(log')
  {
    var u :| 0 <= u < |log| && Delivers(log, u);
    assert Delivers(log', u);
  }

  /** Appending an update keeps the log well formed and every delivery in it. */
  lemma Appended(s: State, tx: Tx<Update>, s': State)
    requires WorldOk(s) && s' == s.(log := s.log + [tx], pcs := s'.pcs)
    requires IdFits(s.order, tx) && Submit(s.log, tx) == Some(s.log + [tx])
    requires !tx.what.Delivery? ==> IsPending(s.log, tx.what.offer)
    ensures WorldOk(s')
  {
    CopyStays(s.row, s.log, s'.log);
    LogExtends(s.order, s.log, tx);
    if UserHolds(s.log) { HoldsStays(s.log, s'.log); }
    hide LogOk, CopyOk, UserHolds;
  }

  lemma EvidenceFits(o: Row, u: nat, offer: Option<nat>, proven: bool, log: Canton)
    requires CopyOk(o, log) && EvidenceOk(u, offer, proven, log) && RevealSettled(o)
    ensures CopyOk(WithEvidence(o, u, offer, proven), log)
  {
  }

  lemma GoesOnOk(retry: bool, o: Row, log: Canton)
    requires CopyOk(o, log)
    ensures PcOk(GoesOn(retry, o), log)
  {
    hide CopyOk;
  }

  lemma ReconcilePc(s: State, w: nat, o: Row, retry: bool, ch: Choice)
    requires CopyOk(o, s.log) && AtReconcile(s, w, o, retry, ch).Some?
    ensures PcOk(AtReconcile(s, w, o, retry, ch).value.pcs[w], s.log)
  {
    GoesOnOk(retry, o, s.log);
    hide GoesOn;
  }

  lemma RetryPc(s: State, w: nat, o: Row, ch: Choice)
    requires CopyOk(o, s.log) && AtRetry(s, w, o, ch).Some?
    ensures PcOk(AtRetry(s, w, o, ch).value.pcs[w], s.log)
  {
  }

  /** A step that only moves worker `w`. */
  lemma JustMoves(s: State, w: nat, pc: Pc)
    requires Inv(s) && PcOk(pc, s.log)
    ensures Inv(Move(s, w, pc))
  {
    hide LogOk, CopyOk, PcOk, UserHolds;
    Settle(s, Move(s, w, pc), w, pc);
  }

  lemma ReconcileKeeps(s: State, w: nat, o: Row, retry: bool, ch: Choice)
    requires Inv(s) && PcOf(s, w) == Reconcile(o, retry) && AtReconcile(s, w, o, retry, ch).Some?
    ensures Inv(AtReconcile(s, w, o, retry, ch).value)
  {
    assert PcOk(s.pcs[w], s.log);
    ReconcilePc(s, w, o, retry, ch);
    hide Inv, PcOk, GoesOn, IsPending, IsDirect, IsOffer;
    JustMoves(s, w, AtReconcile(s, w, o, retry, ch).value.pcs[w]);
  }

  lemma RetryKeeps(s: State, w: nat, o: Row, ch: Choice)
    requires Inv(s) && PcOf(s, w) == Retry(o) && AtRetry(s, w, o, ch).Some?
    ensures Inv(AtRetry(s, w, o, ch).value)
  {
    assert PcOk(s.pcs[w], s.log);
    RetryPc(s, w, o, ch);
    hide Inv, PcOk, IsPending, IsDirect, IsOffer;
    JustMoves(s, w, AtRetry(s, w, o, ch).value.pcs[w]);
  }

  lemma PersistPc(s: State, w: nat, u: nat, offer: Option<nat>, proven: bool, left: nat, back: Option<Row>)
    requires CopyOk(s.row, s.log) && EvidenceOk(u, offer, proven, s.log) && BackOk(back, s.log)
    ensures PcOk(AtPersist(s, w, u, offer, proven, left, back).pcs[w], s.log)
  {
    if RevealSettled(s.row) { EvidenceFits(s.row, u, offer, proven, s.log); }
    GoesOnOk(back.Some?, s.row, s.log);
    if back.Some? { GoesOnOk(true, back.value, s.log); }
    hide CopyOk, EvidenceOk, WithEvidence, GoesOn;
  }

  lemma PersistKeeps(s: State, w: nat, u: nat, offer: Option<nat>, proven: bool, left: nat, back: Option<Row>)
    requires Inv(s) && PcOf(s, w) == Persist(u, offer, proven, left, back)
    ensures Inv(AtPersist(s, w, u, offer, proven, left, back))
  {
    assert PcOk(s.pcs[w], s.log);
    PersistPc(s, w, u, offer, proven, left, back);
    hide Inv, PcOk, GoesOn, GoesBack, WithEvidence;
    JustMoves(s, w, AtPersist(s, w, u, offer, proven, left, back).pcs[w]);
  }

  lemma AcceptReloadKeeps(s: State, w: nat, retry: bool)
    requires Inv(s) && PcOf(s, w) == AcceptReload(retry)
    ensures Inv(Move(s, w, GoesOn(retry, s.row)))
  {
    GoesOnOk(retry, s.row, s.log);
    hide PcOk, GoesOn, LogOk, CopyOk;
    JustMoves(s, w, GoesOn(retry, s.row));
  }

  lemma ReadKeeps(s: State, w: nat, ch: Choice)
    requires Inv(s) && StepGo(s, w, ch).Some?
    requires PcOf(s, w).RevealReload? || PcOf(s, w).Prove? || PcOf(s, w).OfferReload?
    ensures Inv(StepGo(s, w, ch).value)
  {
    hide LogOk;
    Settle(s, StepGo(s, w, ch).value, w, StepGo(s, w, ch).value.pcs[w]);
  }

  lemma ProofKeeps(s: State, w: nat, ch: Choice)
    requires Inv(s) && StepGo(s, w, ch).Some?
    requires var pc := PcOf(s, w);
      pc.AcceptScan? || pc.RecordProof? || pc.MainClaimProof? || pc.RetakeProof? || pc.Patch?
    ensures Inv(StepGo(s, w, ch).value)
  {
    hide LogOk;
    Settle(s, StepGo(s, w, ch).value, w, StepGo(s, w, ch).value.pcs[w]);
  }

  lemma WriteKeeps(s: State, w: nat, ch: Choice)
    requires Inv(s) && StepGo(s, w, ch).Some?
    requires var pc := PcOf(s, w); pc.Write? || pc.RevealWrite? || pc.PersistWrite? || pc.OfferWrite? || pc.AcceptWrite?
    ensures Inv(StepGo(s, w, ch).value)
  {
    hide LogOk;
    Settle(s, StepGo(s, w, ch).value, w, StepGo(s, w, ch).value.pcs[w]);
  }

  lemma DeliverKeeps(s: State, w: nat, o: Row, ch: Choice)
    requires Inv(s) && PcOf(s, w) == Deliver(o) && AtDeliver(s, w, o, ch).Some?
    ensures Inv(AtDeliver(s, w, o, ch).value)
  {
    var s' := AtDeliver(s, w, o, ch).value;
    hide LogOk, UserHolds, DeliveryId, Unused;
    if s'.log != s.log { Appended(s, DeliveryTx(s.order, ch.direct), s'); }
    hide WorldOk;
    Settle(s, s', w, s'.pcs[w]);
  }

  lemma DuplicateKeeps(s: State, w: nat, ch: Choice)
    requires Inv(s) && PcOf(s, w).DuplicateReload? && AtDuplicateReload(s, w, ch).Some?
    ensures Inv(AtDuplicateReload(s, w, ch).value)
  {
    var s' := AtDuplicateReload(s, w, ch).value;
    if ch.Found? { DeliveryFound(s.order, s.log, ch.i); }
    hide LogOk, UserHolds, DeliveryId, CommittedAs;
    Settle(s, s', w, s'.pcs[w]);
  }

  lemma GoKeeps(s: State, w: nat, ch: Choice)
    requires Inv(s) && StepGo(s, w, ch).Some?
    ensures Inv(StepGo(s, w, ch).value)
  {
    hide Inv, AtDeliver, AtDuplicateReload, AtPersist, AtReconcile, AtRetry;
    match PcOf(s, w)
    case Idle =>
    case Write(_, _) | RevealWrite(_) | PersistWrite(_, _, _, _, _, _) | OfferWrite(_, _, _) | AcceptWrite(_, _) =>
      WriteKeeps(s, w, ch);
    case Deliver(o) => DeliverKeeps(s, w, o, ch);
    case DuplicateReload => DuplicateKeeps(s, w, ch);
    case AcceptReload(retry) => AcceptReloadKeeps(s, w, retry);
    case AcceptScan(_, _, _) | RecordProof(_) | MainClaimProof(_) | RetakeProof(_) | Patch(_) => ProofKeeps(s, w, ch);
    case Persist(u, offer, proven, left, back) => PersistKeeps(s, w, u, offer, proven, left, back);
    case Reconcile(o, retry) => ReconcileKeeps(s, w, o, retry, ch);
    case Retry(o) => RetryKeeps(s, w, o, ch);
    case _ => ReadKeeps(s, w, ch);
  }

  lemma StartKeeps(s: State, w: nat, call: Call)
    requires Inv(s)
    ensures Inv(Move(s, w, StartPc(s.row, call)))
  {
    hide LogOk;
    Settle(s, Move(s, w, StartPc(s.row, call)), w, StartPc(s.row, call));
  }

  lemma RowGate(o: Row, log: Canton)
    requires CopyOk(o, log) && CanExposePreimage(o)
    ensures UserHolds(log)
  {
    assert Delivers(log, o.claim.value);
  }

  lemma StepKeeps(s: State, l: Label)
    requires Inv(s) && Step(s, l).Some?
    ensures Inv(Step(s, l).value)
  {
    hide StepGo, StartPc, LogOk, CopyOk, PcOk, UserHolds;
    var s' := Step(s, l).value;
    match l
    case Start(w, call) => StartKeeps(s, w, call);
    case Go(w, ch) => GoKeeps(s, w, ch);
    case Crash(w) => Settle(s, s', w, Idle) by { assert PcOk(Idle, s.log) by { IdleOk(s.log); } }
    case UserAccepts(c) =>
      Appended(s, Tx(None, Accepted(c)), s');
      SettleWorld(s, s');
    case OfferCloses(c) =>
      Appended(s, Tx(None, OfferClosed(c)), s');
      SettleWorld(s, s');
    case GetPreimage =>
      RowGate(s.row, s.log);
      SettleWorld(s, s');
    case SolverClaims => SettleWorld(s, s');
    case UserRetakes => SettleWorld(s, s');
  }

  lemma IdleOk(log: Canton)
    ensures PcOk(Idle, log)
  {
  }

  lemma {:induction false} RunKeeps(s: State, labels: seq<Label>)
    requires Inv(s) && Run(s, labels).Some?
    ensures Inv(Run(s, labels).value)
    decreases labels
  {
    hide Inv, Step;
    if labels != [] {
      StepKeeps(s, labels[0]);
      RunKeeps(Step(s, labels[0]).value, labels[1..]);
    }
  }

  // ----- Every run -----

  lemma ReachedFacts(order: string, labels: seq<Label>)
    requires Run(Init(order), labels).Some?
    ensures var s := Run(Init(order), labels).value; Inv(s) && s.order == order
  {
    hide Run;
    RunKeeps(Init(order), labels);
    OrderStays(Init(order), labels);
  }

  lemma {:induction false} OrderStays(s: State, labels: seq<Label>)
    requires Run(s, labels).Some?
    ensures Run(s, labels).value.order == s.order
    decreases labels
  {
    hide Step;
    if labels != [] {
      StepFramed(s, labels[0]);
      OrderStays(Step(s, labels[0]).value, labels[1..]);
    }
  }

  /** The CBTC reaches the user at most once: every delivery is submitted under one command id,
      and only the offer of that delivery can be accepted. */
  lemma UserReceivesAtMostOnce(order: string, labels: seq<Label>, u: nat, v: nat)
    requires Run(Init(order), labels).Some?
    requires Delivers(Run(Init(order), labels).value.log, u) && Delivers(Run(Init(order), labels).value.log, v)
    ensures u == v
  {
    hide Run;
    ReachedFacts(order, labels);
    var log := Run(Init(order), labels).value.log;
    var du := if IsDirect(log, u) then u else log[u].what.offer;
    var dv := if IsDirect(log, v) then v else log[v].what.offer;
    OneDelivery(order, log, du, dv);
  }

  /** The delivery transfer commits at most once, and under the order's delivery id. */
  lemma DeliveryCommitsOnce(order: string, labels: seq<Label>, u: nat, v: nat)
    requires Run(Init(order), labels).Some?
    requires IsDelivery(Run(Init(order), labels).value.log, u) && IsDelivery(Run(Init(order), labels).value.log, v)
    ensures u == v && CommittedAs(Run(Init(order), labels).value.log, u, DeliveryId(order))
  {
    hide Run, DeliveryId;
    ReachedFacts(order, labels);
    OneDelivery(order, Run(Init(order), labels).value.log, u, v);
    DeliveryFound(order, Run(Init(order), labels).value.log, u);
  }

  /** A claim reference on the row is the direct delivery, or the acceptance of this order's
      offer; `main_claimed` always carries one. */
  lemma ClaimIsProof(order: string, labels: seq<Label>)
    requires Run(Init(order), labels).Some?
    ensures var s := Run(Init(order), labels).value;
      && (s.row.claim.Some? ==> Delivers(s.log, s.row.claim.value))
      && (s.row.status == MainClaimed ==> s.row.transfer.Some? && s.row.claim.Some?)
  {
    hide Run;
    ReachedFacts(order, labels);
  }

  /** In every run the gate in front of the preimage opens only when the user holds the CBTC. */
  lemma GateMeansDelivered(order: string, labels: seq<Label>)
    requires Run(Init(order), labels).Some? && Step(Run(Init(order), labels).value, GetPreimage).Some?
    ensures UserHolds(Run(Init(order), labels).value.log)
  {
    hide Run;
    ReachedFacts(order, labels);
    RowGate(Run(Init(order), labels).value.row, Run(Init(order), labels).value.log);
  }

  /** The solver took the WBTC only if the user holds the CBTC. */
  lemma SolverClaimMeansDelivered(order: string, labels: seq<Label>)
    requires Run(Init(order), labels).Some? && Claimed in Run(Init(order), labels).value.evm
    ensures UserHolds(Run(Init(order), labels).value.log)
  {
    hide Run;
    ReachedFacts(order, labels);
  }

  /** Every status change, by whatever stale copy, is an edge; `main_claimed` and `refunded`
      have none leaving them. */
  lemma StatusFollowsForwardEdges(order: string, labels: seq<Label>, l: Label)
    requires Run(Init(order), labels).Some? && Step(Run(Init(order), labels).value, l).Some?
    ensures ForwardEdge(Run(Init(order), labels).value.row.status,
                        Step(Run(Init(order), labels).value, l).value.row.status)
  {
    ReachedFacts(order, labels);
    var s := Run(Init(order), labels).value;
    hide Run, WorldOk;
    if l.Go? && l.w in s.pcs {
      assert PcOk(s.pcs[l.w], s.log);
      GoEdge(s, l.w, l.choice);
    } else {
      hide StepGo;
    }
  }

  lemma GoEdge(s: State, w: nat, ch: Choice)
    requires StepGo(s, w, ch).Some? && PcOk(PcOf(s, w), s.log)
    ensures ForwardEdge(s.row.status, StepGo(s, w, ch).value.row.status)
  {
    hide CopyOk, EvidenceOk, BackOk;
    if DeliveryPoint(PcOf(s, w)) {
      hide RevealSettled, IsDirect, IsOffer, IsPending, WithEvidence, GoesOn, GoesBack, DeliveryTx, Unused, CommittedAs,
           Submit, AtReconcile, AtOfferWrite, AtAcceptScan, AtAcceptWrite, AtRecordProof, AtMainClaimProof,
           AtRetakeProof, AtPatch;
    } else {
      hide RevealSettled, IsDirect, IsOffer, IsPending, IsUpdate, IsEvent, GoesOn, AtRevealWrite, AtDeliver,
           AtDuplicateReload, AtProve, AtPersist, AtPersistWrite, AtRetry;
    }
  }
}
