/** What the two ledgers of a forward order show in every run: an offer ends once, the escrow is
    moved by its owners alone, and a settled row names the event that settled it. */
module HtlcForwardSettlement {
  import opened Wrappers
  import opened HtlcCommands
  import opened HtlcForwardMachine
  import opened HtlcForwardSafety
  import opened HtlcForwardProgress

  // ----- The offer and the escrow -----

  /** The offer an update ends. */
  function Ends(x: Update): Option<nat> {
    match x
    case Accepted(c) => Some(c)
    case OfferClosed(c) => Some(c)
    case _ => None
  }

  ghost predicate EndOnce(log: Canton) {
    forall i, j | 0 <= i < j < |log| && Ends(log[i].what).Some? :: Ends(log[i].what) != Ends(log[j].what)
  }

  lemma StepEndsOnce(s: State, l: Label)
    requires EndOnce(s.log) && Step(s, l).Some?
    ensures EndOnce(Step(s, l).value.log)
  {
    var s' := Step(s, l).value;
    if l.Go? {
      GoAddsDelivery(s, l.w, l.choice);
    } else if l.UserAccepts? || l.OfferCloses? {
      assert IsPending(s.log, l.c);
      forall i | 0 <= i < |s.log| ensures Ends(s.log[i].what) != Some(l.c) {
        assert !IsUpdate(s.log, i, Accepted(l.c)) && !IsUpdate(s.log, i, OfferClosed(l.c));
      }
    }
  }

  lemma GoAddsDelivery(s: State, w: nat, ch: Choice)
    requires StepGo(s, w, ch).Some?
    ensures var log := StepGo(s, w, ch).value.log;
      log == s.log || (|log| == |s.log| + 1 && log[..|s.log|] == s.log && log[|s.log|].what.Delivery?)
  {
    if SubmitsNothing(PcOf(s, w)) {
      hide StepGo, SubmitsNothing, DeliveryPoint, ReconcilePoint;
      if DeliveryPoint(PcOf(s, w)) { DeliverySubmitsNothing(s, w, ch); }
      else if ReconcilePoint(PcOf(s, w)) { ReconcileSubmitsNothing(s, w, ch); }
      else { OtherSubmitsNothing(s, w, ch); }
    } else {
      hide RevealSettled, IsDirect, DeliveryId, Unused, CommittedAs;
    }
  }

  lemma {:induction false} RunEndsOnce(s: State, labels: seq<Label>)
    requires EndOnce(s.log) && Run(s, labels).Some?
    ensures EndOnce(Run(s, labels).value.log)
    decreases labels
  {
    hide Step;
    if labels != [] {
      StepEndsOnce(s, labels[0]);
      RunEndsOnce(Step(s, labels[0]).value, labels[1..]);
    }
  }

  /** In every run an offer ends once: it is accepted or closed, never both and never twice. */
  lemma OfferEndsOnce(order: string, labels: seq<Label>, i: nat, j: nat, c: nat)
    requires Run(Init(order), labels).Some?
    ensures var log := Run(Init(order), labels).value.log;
      i < |log| && j < |log| && log[i].what in {Accepted(c), OfferClosed(c)} && log[j].what in {Accepted(c), OfferClosed(c)}
      ==> i == j
  {
    hide Run;
    RunEndsOnce(Init(order), labels);
  }

  /** No call writes the escrow: the solver's claim and the user's retake spend a live lock, and the claim
      needs the preimage. */
  lemma EscrowMoves(s: State, l: Label)
    requires Step(s, l).Some?
    ensures var s' := Step(s, l).value;
      || s'.evm == s.evm
      || (s'.evm == s.evm + [Claimed] && s.knows && s.evm != [] && s.evm[|s.evm| - 1] == Locked)
      || (s'.evm == s.evm + [Retaken] && s.evm != [] && s.evm[|s.evm| - 1] == Locked)
  {
    hide StepGo, StartPc;
    if l.Go? { GoFrames(s, l.w, l.choice); }
  }

  // ----- The event a settled row names -----

  /** The row names the escrow event that its status stands for. */
  predicate Named(o: Row, evm: seq<Event>) {
    && (o.evmTx.Some? ==> IsEvent(evm, o.evmTx.value, if o.status == MainClaimed then Claimed else Retaken))
    && (o.status == MainClaimed ==> o.evmTx.Some?)
  }

  predicate BackNamed(back: Option<Row>, evm: seq<Event>) {
    back.Some? ==> Named(back.value, evm)
  }

  predicate PcNamed(pc: Pc, evm: seq<Event>) {
    match pc
    case Idle | RevealReload | DuplicateReload | AcceptReload(_) | Prove(_, _) | OfferReload(_, _) => true
    case Write(o, _) => Named(o, evm)
    case RevealWrite(o) => Named(o, evm)
    case Deliver(o) => Named(o, evm)
    case Retry(o) => Named(o, evm)
    case Persist(_, _, _, _, back) => BackNamed(back, evm)
    case PersistWrite(o, _, _, _, _, back) => Named(o, evm) && BackNamed(back, evm)
    case Reconcile(o, _) => Named(o, evm)
    case OfferWrite(o, _, _) => Named(o, evm)
    case AcceptScan(o, _, _) => Named(o, evm)
    case AcceptWrite(o, _) => Named(o, evm)
    case RecordProof(o) => Named(o, evm)
    case MainClaimProof(o) => Named(o, evm)
    case RetakeProof(o) => Named(o, evm)
    case Patch(o) => Named(o, evm)
  }

  lemma PersistNames(s: State, w: nat, ch: Choice)
    requires StepGo(s, w, ch).Some? && (PcOf(s, w).Persist? || PcOf(s, w).PersistWrite?)
    requires Named(s.row, s.evm) && PcNamed(PcOf(s, w), s.evm)
    ensures var t := StepGo(s, w, ch).value; Named(t.row, s.evm) && PcNamed(PcOf(t, w), s.evm)
  {
    hide IsEvent, AtRevealWrite, AtDeliver, AtDuplicateReload, AtProve, AtRetry, AtReconcile, AtOfferWrite, AtAcceptScan,
         AtAcceptWrite, AtRecordProof, AtMainClaimProof, AtRetakeProof, AtPatch;
  }

  lemma DeliveryNames(s: State, w: nat, ch: Choice)
    requires StepGo(s, w, ch).Some? && DeliveryPoint(PcOf(s, w)) && !PcOf(s, w).Persist? && !PcOf(s, w).PersistWrite?
    requires Named(s.row, s.evm) && PcNamed(PcOf(s, w), s.evm)
    ensures var t := StepGo(s, w, ch).value; Named(t.row, s.evm) && PcNamed(PcOf(t, w), s.evm)
  {
    hide RevealSettled, IsDirect, IsOffer, IsPending, DeliveryTx, DeliveryId, Unused, CommittedAs, IsEvent, Submit,
         AtReconcile, AtOfferWrite, AtAcceptScan, AtAcceptWrite, AtRecordProof, AtMainClaimProof, AtRetakeProof, AtPatch,
         AtPersist, AtPersistWrite;
  }

  lemma LookNames(s: State, w: nat, ch: Choice)
    requires StepGo(s, w, ch).Some? && PcOf(s, w).Reconcile? && Named(s.row, s.evm) && PcNamed(PcOf(s, w), s.evm)
    ensures var t := StepGo(s, w, ch).value; Named(t.row, s.evm) && PcNamed(PcOf(t, w), s.evm)
  {
    hide IsDirect, IsOffer, IsPending, IsEvent, AtOfferWrite, AtAcceptScan, AtAcceptWrite, AtRevealWrite, AtDeliver,
         AtDuplicateReload, AtProve, AtPersist, AtPersistWrite, AtRetry, AtRecordProof, AtMainClaimProof, AtRetakeProof,
         AtPatch;
  }

  lemma ReconcileNames(s: State, w: nat, ch: Choice)
    requires StepGo(s, w, ch).Some? && ReconcilePoint(PcOf(s, w)) && !PcOf(s, w).Reconcile?
    requires Named(s.row, s.evm) && PcNamed(PcOf(s, w), s.evm)
    ensures var t := StepGo(s, w, ch).value; Named(t.row, s.evm) && PcNamed(PcOf(t, w), s.evm)
  {
    hide IsUpdate, IsEvent, AtReconcile, AtRevealWrite, AtDeliver, AtDuplicateReload, AtProve, AtPersist,
         AtPersistWrite, AtRetry, AtRecordProof, AtMainClaimProof, AtRetakeProof, AtPatch;
  }

  lemma OtherNames(s: State, w: nat, ch: Choice)
    requires StepGo(s, w, ch).Some? && !DeliveryPoint(PcOf(s, w)) && !ReconcilePoint(PcOf(s, w))
    requires PcOk(PcOf(s, w), s.log) && Named(s.row, s.evm) && PcNamed(PcOf(s, w), s.evm)
    ensures var t := StepGo(s, w, ch).value; Named(t.row, s.evm) && PcNamed(PcOf(t, w), s.evm)
  {
    hide RevealSettled, IsDirect, IsOffer, IsUpdate, CopyOk, AtRevealWrite, AtDeliver, AtDuplicateReload, AtProve,
         AtPersist, AtPersistWrite, AtRetry, AtReconcile, AtOfferWrite, AtAcceptScan, AtAcceptWrite;
  }

  lemma GoNames(s: State, w: nat, ch: Choice)
    requires StepGo(s, w, ch).Some? && PcOk(PcOf(s, w), s.log) && Named(s.row, s.evm) && PcNamed(PcOf(s, w), s.evm)
    ensures var t := StepGo(s, w, ch).value; Named(t.row, s.evm) && PcNamed(PcOf(t, w), s.evm)
  {
    hide StepGo, Named, PcNamed, PcOk, DeliveryPoint, ReconcilePoint;
    if PcOf(s, w).Persist? || PcOf(s, w).PersistWrite? { PersistNames(s, w, ch); }
    else if DeliveryPoint(PcOf(s, w)) { DeliveryNames(s, w, ch); }
    else if PcOf(s, w).Reconcile? { LookNames(s, w, ch); }
    else if ReconcilePoint(PcOf(s, w)) { ReconcileNames(s, w, ch); }
    else { OtherNames(s, w, ch); }
  }

  lemma StartNames(s: State, call: Call)
    requires CopyOk(s.row, s.log) && Named(s.row, s.evm)
    ensures PcNamed(StartPc(s.row, call), s.evm)
  {
  }

  ghost predicate AllNamed(s: State) {
    Named(s.row, s.evm) && forall w | w in s.pcs :: PcNamed(s.pcs[w], s.evm)
  }

  lemma NamedStays(pc: Pc, o: Row, evm: seq<Event>, evm': seq<Event>)
    requires evm <= evm'
    ensures PcNamed(pc, evm) ==> PcNamed(pc, evm')
    ensures Named(o, evm) ==> Named(o, evm')
  {
  }

  lemma StepNames(s: State, l: Label)
    requires Inv(s) && AllNamed(s) && Step(s, l).Some?
    ensures AllNamed(Step(s, l).value)
  {
    var s' := Step(s, l).value;
    StepFramed(s, l);
    NamedStays(Idle, s.row, s.evm, s'.evm);
    if l.Go? {
      assert l.w in s.pcs;
      GoNames(s, l.w, l.choice);
      GoFrames(s, l.w, l.choice);
    }
    if l.Start? { StartNames(s, l.call); }
    hide StepGo, StartPc, Named, PcNamed, PcOk, WorldOk;
    forall w | w in s'.pcs ensures PcNamed(s'.pcs[w], s'.evm) {
      if w in s.pcs { NamedStays(s.pcs[w], s.row, s.evm, s'.evm); }
      if (l.Start? || l.Crash?) && w == l.w { IdleNamed(s'.evm); }
    }
  }

  lemma IdleNamed(evm: seq<Event>)
    ensures PcNamed(Idle, evm)
  {
  }

  lemma {:induction false} RunNames(s: State, labels: seq<Label>)
    requires Inv(s) && AllNamed(s) && Run(s, labels).Some?
    ensures AllNamed(Run(s, labels).value)
    decreases labels
  {
    hide Step, Inv, AllNamed;
    if labels != [] {
      StepNames(s, labels[0]);
      StepKeeps(s, labels[0]);
      RunNames(Step(s, labels[0]).value, labels[1..]);
    }
  }

  /** In every run a `main_claimed` row names a Claimed event, and a failed or refunded one that names an
      event names a Retaken one; no other row names any. */
  lemma SettlementIsReal(order: string, labels: seq<Label>)
    requires Run(Init(order), labels).Some?
    ensures var s := Run(Init(order), labels).value; var o := s.row;
      && (o.status == MainClaimed ==> o.evmTx.Some?)
      && (o.evmTx.Some? ==>
            && o.status in {MainClaimed, Failed, Refunded} && o.evmTx.value < |s.evm|
            && s.evm[o.evmTx.value] == (if o.status == MainClaimed then Claimed else Retaken))
  {
    hide Run;
    ReachedFacts(order, labels);
    StartsOk(order);
    RunNames(Init(order), labels);
  }

  lemma StartsOk(order: string)
    ensures Inv(Init(order)) && AllNamed(Init(order))
  {
  }

  // ----- The other parties -----

  /** What users and ledgers may do, for any state: the other parties are not held back. */
  lemma OthersMayMove(s: State, c: nat)
    ensures IsOffer(s.log, c) && (forall i | 0 <= i < |s.log| :: Ends(s.log[i].what) != Some(c)) ==>
              Step(s, UserAccepts(c)) == Some(s.(log := s.log + [Tx(None, Accepted(c))]))
              && Step(s, OfferCloses(c)) == Some(s.(log := s.log + [Tx(None, OfferClosed(c))]))
    ensures s.evm != [] && s.evm[|s.evm| - 1] == Locked ==>
              Step(s, UserRetakes) == Some(s.(evm := s.evm + [Retaken]))
              && (s.knows ==> Step(s, SolverClaims) == Some(s.(evm := s.evm + [Claimed])))
  {
  }

  /** The user's retake before any reveal ends the order `refunded`. */
  lemma OrderReturns(order: string) returns (t: State)
    ensures CanGet(Init(order), t) && t.row.status == Refunded && t.evm == [Locked, Retaken] && t.log == []
  {
    var s := Init(order);
    assert CanGet(s, s) by { assert Run(s, []) == Some(s); }
    hide CanGet, Alone, StepGo, StartPc;
    OthersMayMove(s, 0);
    t := GetsStep(s, s, UserRetakes);
    var s' := t;
    t := RetakeRecorded(s', 0, 1);
    GetsAlone(s, s', 0, RecordMainRetake, t);
  }
}
