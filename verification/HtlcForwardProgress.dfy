/** What one call of a forward Loop order achieves when nothing else moves, and when the gate in
    front of the preimage opens. */
module HtlcForwardProgress {
  import opened Wrappers
  import opened HtlcCommands
  import opened HtlcForwardMachine
  import opened HtlcForwardSafety

  // ----- One worker alone -----

  function Goes(w: nat, choices: seq<Choice>): seq<Label> {
    seq(|choices|, i requires 0 <= i < |choices| => Go(w, choices[i]))
  }

  /** Worker `w` runs `call` from `s` to `t`, and nobody else moves. */
  ghost predicate Alone(s: State, w: nat, call: Call, t: State) {
    exists choices: seq<Choice> :: Run(s, [Start(w, call)] + Goes(w, choices)) == Some(t)
  }

  lemma Begins(s: State, w: nat, call: Call) returns (t: State)
    requires PcOf(s, w).Idle?
    ensures t == Move(s, w, StartPc(s.row, call)) && Alone(s, w, call, t)
  {
    hide StartPc, StepGo;
    t := Move(s, w, StartPc(s.row, call));
    RunOne(s, Start(w, call));
    assert [Start(w, call)] + Goes(w, []) == [Start(w, call)];
  }

  lemma Continues(s: State, w: nat, call: Call, t: State, ch: Choice) returns (t': State)
    requires Alone(s, w, call, t) && StepGo(t, w, ch).Some?
    ensures t' == StepGo(t, w, ch).value && Alone(s, w, call, t')
  {
    hide StepGo, Run;
    var choices :| Run(s, [Start(w, call)] + Goes(w, choices)) == Some(t);
    t' := StepGo(t, w, ch).value;
    RunOne(t, Go(w, ch));
    RunAppend(s, [Start(w, call)] + Goes(w, choices), [Go(w, ch)]);
    assert [Start(w, call)] + Goes(w, choices + [ch]) == [Start(w, call)] + Goes(w, choices) + [Go(w, ch)];
  }

  /** The worker goes from `x` at `pc` to `x'` at `pc'`. */
  lemma Advance(s: State, w: nat, call: Call, x: State, pc: Pc, ch: Choice, x': State, pc': Pc)
    requires Alone(s, w, call, Move(x, w, pc)) && x.pcs == x'.pcs
    requires StepGo(Move(x, w, pc), w, ch) == Some(Move(x'.(pcs := x'.pcs[w := pc]), w, pc'))
    ensures Alone(s, w, call, Move(x', w, pc'))
  {
    hide StepGo, Alone;
    var t := Continues(s, w, call, Move(x, w, pc), ch);
    assert x'.pcs[w := pc][w := pc'] == x'.pcs[w := pc'];
  }

  // ----- Where a call does nothing -----

  /** The rows a call acts on. */
  predicate Acts(o: Row, call: Call) {
    match call
    case ClaimCounter => o.status == MainLocked || o.status == CounterClaimed || o.status == MainClaimed
    case ReconcileDelivery =>
      (o.status == CounterClaimed || o.status == MainClaimed) && o.transfer.Some? && o.claim.None?
    case RecordCounterClaimed => o.status == CounterClaimed && o.transfer.Some? && o.claim.None?
    case RecordMainClaim => o.status == CounterClaimed && o.revealed && o.transfer.Some? && o.claim.Some?
    case ReconcileMainClaim =>
      o.status == CounterClaimed && (o.evmTx.Some? || (o.revealed && o.transfer.Some? && o.claim.Some?))
    case RecordMainRetake => o.status != MainClaimed && o.status != Refunded
    case MarkRefunded => o.status == MainLocked
    case PatchProof => o.status == MainClaimed
    case Rewrite => true
  }

  lemma IdleStays(s: State, w: nat, choices: seq<Choice>)
    requires PcOf(s, w).Idle?
    ensures Run(s, Goes(w, choices)) == if choices == [] then Some(s) else None
  {
    if choices != [] { assert Goes(w, choices)[0] == Go(w, choices[0]); }
  }

  /** On any other row the call ends at once: row, ledgers and gate stay as they are. */
  lemma NothingElsewhere(s: State, w: nat, call: Call, t: State)
    requires Alone(s, w, call, t)
    ensures Acts(s.row, call) || t == Move(s, w, Idle)
  {
    var choices :| Run(s, [Start(w, call)] + Goes(w, choices)) == Some(t);
    assert ([Start(w, call)] + Goes(w, choices))[1..] == Goes(w, choices);
    if !Acts(s.row, call) {
      assert StartPc(s.row, call) == Idle;
      hide StartPc, StepGo;
      assert Run(s, [Start(w, call)] + Goes(w, choices)) == Run(Move(s, w, Idle), Goes(w, choices));
      hide Run;
      IdleStays(Move(s, w, Idle), w, choices);
    }
  }

  // ----- The gate -----

  /** The solver gets the preimage exactly when the row is revealed and names the delivery and the
      proof of it: a pending offer on the row neither opens nor closes the gate. */
  lemma GateOpensIff(s: State)
    ensures Step(s, GetPreimage).Some?
            <==> (s.row.status == CounterClaimed || s.row.status == MainClaimed) && s.row.revealed
                 && s.row.transfer.Some? && s.row.claim.Some?
    ensures Step(s, GetPreimage).Some? ==> Step(s, GetPreimage).value == s.(knows := true)
  {
  }

  // ----- Reveal and delivery -----

  /** The row a reveal leaves. */
  function Revealed(o: Row): Row {
    if o.status == MainLocked then o.(revealed := true, status := CounterClaimed) else o
  }

  /** An order that is not settled, or settled without naming a delivery, is brought to the submission. */
  lemma ToDeliver(s: State, w: nat) returns (t: State)
    requires PcOf(s, w).Idle? && s.row.transfer.None?
    requires s.row.status == MainLocked || s.row.status == CounterClaimed || s.row.status == MainClaimed
    ensures Alone(s, w, ClaimCounter, t) && t == Move(s.(row := Revealed(s.row)), w, Deliver(Revealed(s.row)))
  {
    hide Alone, AtDeliver, AtDuplicateReload, AtProve, AtPersist, AtPersistWrite, AtReconcile, AtRetry, AtAcceptScan,
         AtRecordProof, AtMainClaimProof, AtRetakeProof, AtPatch;
    t := Begins(s, w, ClaimCounter);
    if s.row.status == MainLocked { t := Continues(s, w, ClaimCounter, t, Proceed); }
    assert t.pcs == s.pcs[w := Deliver(Revealed(s.row))];
  }

  /** The evidence of a direct delivery, or of one that left an offer. */
  function Evident(o: Row, u: nat, direct: bool): Row {
    if direct then o.(transfer := Some(u), claim := Some(u), offer := None)
    else o.(transfer := Some(u), offer := Some(u))
  }

  /** New evidence completes what the row has and replaces nothing; a proof takes the offer away. */
  lemma Merges(s: State, w: nat, call: Call, x: State, u: nat, offer: Option<nat>, proven: bool, back: Option<Row>, o: Row)
    requires Alone(s, w, call, Move(x, w, Persist(u, offer, proven, PERSIST_ATTEMPTS, back)))
    requires (x.row.status == CounterClaimed || x.row.status == MainClaimed) && x.row.transfer in {None, Some(u)}
    requires offer == None || x.row.offer in {None, offer}
    requires o == x.row.(transfer := Some(u), claim := if proven && x.row.claim == None then Some(u) else x.row.claim,
                         offer := if proven then None else if offer == None then x.row.offer else offer)
    ensures Alone(s, w, call, Move(x.(row := o), w, Idle))
  {
    hide StepGo, Alone;
    var pc, pc' := Persist(u, offer, proven, PERSIST_ATTEMPTS, back), PersistWrite(o, u, offer, proven, PERSIST_ATTEMPTS, back);
    AtPersisting(Move(x, w, pc), w, Proceed);
    Advance(s, w, call, x, pc, Proceed, x, pc');
    AtPersisting(Move(x, w, pc'), w, Proceed);
    Advance(s, w, call, x, pc', Proceed, x.(row := o), Idle);
  }

  lemma AtPersisting(s: State, w: nat, ch: Choice)
    ensures PcOf(s, w).Persist? ==>
              var pc := PcOf(s, w);
              StepGo(s, w, ch) == Some(AtPersist(s, w, pc.u, pc.offer, pc.proven, pc.left, pc.back))
    ensures PcOf(s, w).PersistWrite? ==>
              var pc := PcOf(s, w);
              StepGo(s, w, ch) == Some(AtPersistWrite(s, w, pc.o, pc.u, pc.offer, pc.proven, pc.left, pc.back))
  {
  }

  /** From the proof on: the visible update decides, and the row keeps it. */
  lemma Proves(s: State, w: nat, x: State, u: nat, fallback: Option<nat>)
    requires Alone(s, w, ClaimCounter, Move(x, w, Prove(u, fallback))) && IsDelivery(x.log, u)
    requires RevealSettled(x.row) && x.row.transfer.None? && x.row.claim.None? && x.row.offer.None?
    ensures Alone(s, w, ClaimCounter, Move(x.(row := Evident(x.row, u, x.log[u].what.direct)), w, Idle))
  {
    var direct := x.log[u].what.direct;
    var offer := if direct then None else Some(u);
    AtProving(Move(x, w, Prove(u, fallback)), w, u, fallback);
    hide StepGo, Alone;
    Advance(s, w, ClaimCounter, x, Prove(u, fallback), Visible, x, Persist(u, offer, direct, PERSIST_ATTEMPTS, None));
    Merges(s, w, ClaimCounter, x, u, offer, direct, None, Evident(x.row, u, direct));
  }

  lemma AtProving(s: State, w: nat, u: nat, fallback: Option<nat>)
    requires PcOf(s, w) == Prove(u, fallback) && IsDelivery(s.log, u)
    ensures var direct := s.log[u].what.direct;
      StepGo(s, w, Visible)
      == Some(Move(s, w, Persist(u, if direct then None else Some(u), direct, PERSIST_ATTEMPTS, None)))
  {
  }

  /** claimCounter delivers: one transfer under the delivery id, and the row names it. If the user
      was paid directly the gate is open; otherwise the offer waits on the row. */
  lemma ClaimCounterDelivers(s: State, w: nat, direct: bool, shown: bool) returns (t: State)
    requires PcOf(s, w).Idle? && s.row.transfer.None? && s.row.claim.None? && s.row.offer.None?
    requires s.row.status == MainLocked || s.row.status == CounterClaimed || s.row.status == MainClaimed
    requires Unused(s.log, DeliveryId(s.order))
    ensures Alone(s, w, ClaimCounter, t)
    ensures t == Move(s.(row := Evident(Revealed(s.row), |s.log|, direct),
                         log := s.log + [Tx(Some(DeliveryId(s.order)), Delivery(direct))]), w, Idle)
    ensures direct && Revealed(s.row).revealed ==> Step(t, GetPreimage).Some?
  {
    t := ToDeliver(s, w);
    var u := |s.log|;
    var x := s.(row := Revealed(s.row), log := s.log + [DeliveryTx(s.order, direct)]);
    hide Alone, DeliveryId, Unused, StepGo;
    AtCommit(t, w, Revealed(s.row), direct, shown);
    t := Continues(s, w, ClaimCounter, t, Commit(direct, shown));
    var fallback := if shown && !direct then Some(u) else None;
    assert t == Move(x, w, Prove(u, fallback));
    Proves(s, w, x, u, fallback);
    t := Move(x.(row := Evident(x.row, u, direct)), w, Idle);
    GateOpensIff(t);
  }

  lemma AtCommit(t: State, w: nat, o: Row, direct: bool, shown: bool)
    requires PcOf(t, w) == Deliver(o) && o.transfer.None? && Unused(t.log, DeliveryId(t.order))
    ensures StepGo(t, w, Commit(direct, shown))
            == Some(Move(t.(log := t.log + [DeliveryTx(t.order, direct)]), w,
                         Prove(|t.log|, if shown && !direct then Some(|t.log|) else None)))
  {
  }

  /** A delivery that committed without being recorded is found by its id and recorded; nothing is
      submitted again. */
  lemma ClaimCounterRecovers(s: State, w: nat, u: nat) returns (t: State)
    requires PcOf(s, w).Idle? && s.row.transfer.None? && s.row.claim.None? && s.row.offer.None?
    requires s.row.status == MainLocked || s.row.status == CounterClaimed || s.row.status == MainClaimed
    requires LogOk(s.order, s.log) && IsDelivery(s.log, u)
    ensures Alone(s, w, ClaimCounter, t)
    ensures t == Move(s.(row := Evident(Revealed(s.row), u, s.log[u].what.direct)), w, Idle)
  {
    t := ToDeliver(s, w);
    DeliveryFound(s.order, s.log, u);
    var x := s.(row := Revealed(s.row));
    hide Alone, DeliveryId, LogOk, StepGo;
    AtDuplicate(t, w, Revealed(s.row), u);
    t := Continues(s, w, ClaimCounter, t, Duplicate);
    AtFindCommitted(t, w, u);
    t := Continues(s, w, ClaimCounter, t, Found(u));
    assert t == Move(x, w, Prove(u, None));
    Proves(s, w, x, u, None);
    t := Move(x.(row := Evident(x.row, u, s.log[u].what.direct)), w, Idle);
  }

  lemma AtDuplicate(t: State, w: nat, o: Row, u: nat)
    requires PcOf(t, w) == Deliver(o) && o.transfer.None? && CommittedAs(t.log, u, DeliveryId(t.order))
    ensures StepGo(t, w, Duplicate) == Some(Move(t, w, DuplicateReload))
  {
  }

  lemma AtFindCommitted(t: State, w: nat, u: nat)
    requires PcOf(t, w) == DuplicateReload && t.row.transfer.None? && CommittedAs(t.log, u, DeliveryId(t.order))
    ensures StepGo(t, w, Found(u)) == Some(Move(t, w, Prove(u, None)))
  {
  }

  // ----- The proof that comes later -----

  /** The offer of the delivery, whether the row names it already or not, was accepted by update `a`. */
  lemma ReconcileAccepted(s: State, w: nat, a: nat) returns (t: State)
    requires PcOf(s, w).Idle? && (s.row.status == CounterClaimed || s.row.status == MainClaimed)
    requires s.row.transfer.Some? && s.row.claim.None? && IsOffer(s.log, s.row.transfer.value)
    requires s.row.offer.None? || s.row.offer == s.row.transfer
    requires IsUpdate(s.log, a, Accepted(s.row.transfer.value))
    ensures Alone(s, w, ReconcileDelivery, t)
    ensures t == Move(s.(row := s.row.(offer := s.row.transfer, claim := Some(a))), w, Idle)
  {
    hide Alone, AtDeliver, AtDuplicateReload, AtProve, AtPersist, AtPersistWrite, AtRetry, AtRecordProof, AtMainClaimProof,
         AtRetakeProof, AtPatch;
    t := Begins(s, w, ReconcileDelivery);
    t := Continues(s, w, ReconcileDelivery, t, Visible);
    if s.row.offer.None? { t := Continues(s, w, ReconcileDelivery, t, Proceed); }
    assert PcOf(t, w) == AcceptScan(s.row.(offer := s.row.transfer), s.row.transfer.value, false);
    t := FollowsAccept(s, w, t, s.row.(offer := s.row.transfer), s.row.transfer.value, a);
  }

  lemma FollowsAccept(s: State, w: nat, t: State, o: Row, c: nat, a: nat) returns (t': State)
    requires Alone(s, w, ReconcileDelivery, t) && PcOf(t, w) == AcceptScan(o, c, false) && t.row.status == o.status
    requires t == s.(row := t.row, pcs := t.pcs) && t.pcs[w := Idle] == s.pcs[w := Idle]
    requires IsUpdate(s.log, a, Accepted(c))
    ensures Alone(s, w, ReconcileDelivery, t')
    ensures t' == Move(s.(row := o.(offer := Some(c), claim := Some(a))), w, Idle)
  {
    hide Alone, AtDeliver, AtDuplicateReload, AtProve, AtPersist, AtPersistWrite, AtRetry, AtRecordProof, AtMainClaimProof,
         AtRetakeProof, AtPatch, AtReconcile;
    t' := Continues(s, w, ReconcileDelivery, t, Found(a));
    t' := Continues(s, w, ReconcileDelivery, t', Proceed);
  }

  /** recordCounterClaimed with a direct delivery, or with the update that accepted the offer. */
  lemma ClaimIsRecorded(s: State, w: nat, a: nat) returns (t: State)
    requires PcOf(s, w).Idle? && s.row.status == CounterClaimed && s.row.transfer.Some? && s.row.claim.None?
    requires (IsDirect(s.log, s.row.transfer.value) && a == s.row.transfer.value)
             || (!IsDirect(s.log, s.row.transfer.value) && s.row.offer.Some?
                 && IsUpdate(s.log, a, Accepted(s.row.offer.value)))
    ensures Alone(s, w, RecordCounterClaimed, t)
    ensures t == Move(s.(row := s.row.(claim := Some(a),
                                       offer := if IsDirect(s.log, s.row.transfer.value) then None else s.row.offer)),
                      w, Idle)
  {
    hide Alone, AtDeliver, AtDuplicateReload, AtProve, AtPersist, AtPersistWrite, AtRetry, AtAcceptScan, AtMainClaimProof,
         AtRetakeProof, AtPatch, AtReconcile;
    var direct := IsDirect(s.log, s.row.transfer.value);
    t := Begins(s, w, RecordCounterClaimed);
    t := Continues(s, w, RecordCounterClaimed, t, if direct then Visible else Found(a));
    t := Continues(s, w, RecordCounterClaimed, t, Proceed);
    assert t.pcs == s.pcs[w := Idle];
  }

  // ----- Asking again -----

  /** What follows the load of the row. */
  lemma AfterLoad(s: State, w: nat, call: Call, t: State) returns (choices: seq<Choice>)
    requires Alone(s, w, call, t)
    ensures PcOf(s, w).Idle? && Run(Move(s, w, StartPc(s.row, call)), Goes(w, choices)) == Some(t)
  {
    choices :| Run(s, [Start(w, call)] + Goes(w, choices)) == Some(t);
    assert ([Start(w, call)] + Goes(w, choices))[1..] == Goes(w, choices);
    hide StartPc, StepGo;
  }

  lemma GoesOnward(s: State, w: nat, choices: seq<Choice>)
    requires choices != []
    ensures Run(s, Goes(w, choices)) == match StepGo(s, w, choices[0])
                                        case None => None
                                        case Some(s') => Run(s', Goes(w, choices[1..]))
  {
    hide StepGo;
    assert Goes(w, choices)[0] == Go(w, choices[0]) && Goes(w, choices)[1..] == Goes(w, choices[1..]);
  }

  /** Not on the way to a submission. */
  predicate SubmitsNothing(pc: Pc) {
    !pc.RevealWrite? && !pc.RevealReload? && (pc.Deliver? ==> pc.o.transfer.Some?)
  }

  lemma DeliverySubmitsNothing(s: State, w: nat, ch: Choice)
    requires SubmitsNothing(PcOf(s, w)) && StepGo(s, w, ch).Some? && DeliveryPoint(PcOf(s, w))
    ensures var t := StepGo(s, w, ch).value; SubmitsNothing(PcOf(t, w)) && t.log == s.log
  {
    hide RevealSettled, IsDirect, IsOffer, IsDelivery, IsPending, WithEvidence, DeliveryId, Unused, CommittedAs, AtReconcile,
         AtOfferWrite, AtAcceptScan, AtAcceptWrite, AtRecordProof, AtMainClaimProof, AtRetakeProof, AtPatch;
  }

  lemma ReconcileSubmitsNothing(s: State, w: nat, ch: Choice)
    requires StepGo(s, w, ch).Some? && ReconcilePoint(PcOf(s, w))
    ensures var t := StepGo(s, w, ch).value; SubmitsNothing(PcOf(t, w)) && t.log == s.log
  {
    hide IsDirect, IsOffer, IsPending, IsUpdate, AtRevealWrite, AtDeliver, AtDuplicateReload, AtProve, AtPersist,
         AtPersistWrite, AtRetry, AtRecordProof, AtMainClaimProof, AtRetakeProof, AtPatch;
  }

  lemma OtherSubmitsNothing(s: State, w: nat, ch: Choice)
    requires StepGo(s, w, ch).Some? && !DeliveryPoint(PcOf(s, w)) && !ReconcilePoint(PcOf(s, w))
    ensures var t := StepGo(s, w, ch).value; SubmitsNothing(PcOf(t, w)) && t.log == s.log
  {
    hide RevealSettled, IsDirect, IsEvent, IsUpdate, AtRevealWrite, AtDeliver, AtDuplicateReload, AtProve, AtPersist,
         AtPersistWrite, AtRetry, AtReconcile, AtOfferWrite, AtAcceptScan, AtAcceptWrite;
  }

  lemma {:induction false} GoesSubmitNothing(s: State, w: nat, choices: seq<Choice>)
    requires SubmitsNothing(PcOf(s, w)) && Run(s, Goes(w, choices)).Some?
    ensures Run(s, Goes(w, choices)).value.log == s.log
    decreases |choices|
  {
    if choices != [] {
      GoesOnward(s, w, choices);
      hide StepGo, SubmitsNothing, Run, DeliveryPoint, ReconcilePoint;
      if DeliveryPoint(PcOf(s, w)) { DeliverySubmitsNothing(s, w, choices[0]); }
      else if ReconcilePoint(PcOf(s, w)) { ReconcileSubmitsNothing(s, w, choices[0]); }
      else { OtherSubmitsNothing(s, w, choices[0]); }
      GoesSubmitNothing(StepGo(s, w, choices[0]).value, w, choices[1..]);
    }
  }

  /** An order that names its delivery is never submitted again, and one that names the proof as well is
      left alone. */
  lemma AskedAgain(s: State, w: nat, t: State)
    requires Alone(s, w, ClaimCounter, t) && s.row.transfer.Some? && s.row.status != MainLocked
    ensures t.log == s.log
    ensures s.row.claim.Some? ==> t.row == s.row
  {
    hide Alone, Run;
    var choices := AfterLoad(s, w, ClaimCounter, t);
    var s1 := Move(s, w, StartPc(s.row, ClaimCounter));
    GoesSubmitNothing(s1, w, choices);
    if s.row.claim.Some? {
      if PcOf(s1, w).Idle? || choices == [] {
        if choices == [] { NoGoes(s1, w); } else { IdleStays(s1, w, choices); }
      } else {
        GoesOnward(s1, w, choices);
        IdleStays(Move(s1, w, Idle), w, choices[1..]);
      }
    }
  }

  lemma NoGoes(s: State, w: nat)
    ensures Run(s, Goes(w, [])) == Some(s)
  {
  }

  /** Both calls look at the delivery that the row names. */
  lemma ToReconcile(s: State, w: nat, call: Call) returns (t: State)
    requires PcOf(s, w).Idle? && (s.row.status == CounterClaimed || s.row.status == MainClaimed)
    requires s.row.transfer.Some? && s.row.claim.None? && (call == ClaimCounter || call == ReconcileDelivery)
    ensures Alone(s, w, call, t) && t == Move(s, w, Reconcile(s.row, call == ClaimCounter))
  {
    hide Alone, AtDuplicateReload, AtProve, AtRetry, AtPersist, AtPersistWrite, AtRecordProof, AtMainClaimProof,
         AtRetakeProof, AtPatch, AtReconcile, AtAcceptScan;
    t := Begins(s, w, call);
    if call == ClaimCounter { t := Continues(s, w, call, t, Proceed); }
    assert t.pcs == s.pcs[w := PcOf(t, w)];
  }

  lemma AtLook(s: State, w: nat, o: Row, retry: bool, ch: Choice)
    requires PcOf(s, w) == Reconcile(o, retry)
    ensures StepGo(s, w, ch) == AtReconcile(s, w, o, retry, ch)
  {
  }

  /** A direct delivery that is visible now is proven, asked by either call. */
  lemma AskedAgainProves(s: State, w: nat, call: Call) returns (t: State)
    requires PcOf(s, w).Idle? && (s.row.status == CounterClaimed || s.row.status == MainClaimed)
    requires s.row.transfer.Some? && s.row.claim.None? && IsDirect(s.log, s.row.transfer.value)
    requires call == ClaimCounter || call == ReconcileDelivery
    ensures Alone(s, w, call, t)
    ensures t == Move(s.(row := s.row.(claim := s.row.transfer, offer := None)), w, Idle)
  {
    var u, retry := s.row.transfer.value, call == ClaimCounter;
    t := ToReconcile(s, w, call);
    AtLook(t, w, s.row, retry, Visible);
    hide StepGo, Alone, IsDirect;
    var back := if retry then Some(s.row) else None;
    Advance(s, w, call, s, Reconcile(s.row, retry), Visible, s, Persist(u, None, true, PERSIST_ATTEMPTS, back));
    t := Move(s.(row := s.row.(claim := s.row.transfer, offer := None)), w, Idle);
    Merges(s, w, call, s, u, None, true, back, t.row);
  }

  /** An update that left an offer, or a pending offer with the order's memo, is put on the row. */
  lemma OfferRemembered(s: State, w: nat, call: Call, c: nat, visible: bool) returns (t: State)
    requires PcOf(s, w).Idle? && (s.row.status == CounterClaimed || s.row.status == MainClaimed)
    requires s.row.transfer.Some? && s.row.claim.None? && s.row.offer.None?
    requires if visible then IsOffer(s.log, c) && s.row.transfer == Some(c) else IsPending(s.log, c)
    requires call == ClaimCounter || call == ReconcileDelivery
    ensures Alone(s, w, call, t) && t == Move(s.(row := s.row.(offer := Some(c))), w, Idle)
  {
    var o, retry, ch := s.row.(offer := Some(c)), call == ClaimCounter, if visible then Visible else Found(c);
    t := ToReconcile(s, w, call);
    LooksAtOffer(t, w, s.row, retry, c, visible);
    hide StepGo, Alone, IsPending, IsOffer;
    Advance(s, w, call, s, Reconcile(s.row, retry), ch, s, OfferWrite(o, c, retry));
    AtOffering(Move(s, w, OfferWrite(o, c, retry)), w, o, c, retry);
    Advance(s, w, call, s, OfferWrite(o, c, retry), Proceed, s.(row := o), AcceptScan(o, c, retry));
    AtGiveUp(Move(s.(row := o), w, AcceptScan(o, c, retry)), w, o, c, retry);
    Advance(s, w, call, s.(row := o), AcceptScan(o, c, retry), Give, s.(row := o), Idle);
    t := Move(s.(row := o), w, Idle);
  }

  lemma LooksAtOffer(s: State, w: nat, o: Row, retry: bool, c: nat, visible: bool)
    requires PcOf(s, w) == Reconcile(o, retry) && o.transfer.Some? && o.offer.None?
    requires if visible then IsOffer(s.log, c) && o.transfer == Some(c) else IsPending(s.log, c)
    ensures StepGo(s, w, if visible then Visible else Found(c)) == Some(Move(s, w, OfferWrite(o.(offer := Some(c)), c, retry)))
  {
    hide IsPending;
  }

  lemma AtOffering(s: State, w: nat, o: Row, c: nat, retry: bool)
    requires PcOf(s, w) == OfferWrite(o, c, retry)
    ensures StepGo(s, w, Proceed) == Some(AtOfferWrite(s, w, o, c, retry))
  {
  }

  lemma AtGiveUp(s: State, w: nat, o: Row, c: nat, retry: bool)
    requires PcOf(s, w) == AcceptScan(o, c, retry) && o.offer.Some?
    ensures StepGo(s, w, Give) == Some(Move(s, w, Idle))
  {
  }

  /** When the first look shows nothing, claimCounter takes a second one, and only claimCounter does. */
  lemma SecondLook(s: State, w: nat, call: Call) returns (t: State)
    requires PcOf(s, w).Idle? && (s.row.status == CounterClaimed || s.row.status == MainClaimed)
    requires s.row.transfer.Some? && s.row.claim.None? && s.row.offer.None?
    requires call == ClaimCounter || call == ReconcileDelivery
    ensures Alone(s, w, call, t) && t == Move(s, w, if call == ClaimCounter then Retry(s.row) else Idle)
  {
    t := ToReconcile(s, w, call);
    AtLook(t, w, s.row, call == ClaimCounter, Give);
    hide StepGo, Alone;
    t := Continues(s, w, call, t, Give);
    assert t.pcs == s.pcs[w := PcOf(t, w)];
  }

  /** The second look finds the delivery that the first did not. */
  lemma SecondLookProves(s: State, w: nat) returns (t: State)
    requires PcOf(s, w).Idle? && (s.row.status == CounterClaimed || s.row.status == MainClaimed)
    requires s.row.transfer.Some? && s.row.claim.None? && s.row.offer.None?
    ensures Alone(s, w, ClaimCounter, t)
    ensures t == Move(s.(row := if IsDirect(s.log, s.row.transfer.value) then s.row.(claim := s.row.transfer)
                                else s.row.(offer := s.row.transfer)), w, Idle)
  {
    var u := s.row.transfer.value;
    var direct := IsDirect(s.log, u);
    t := SecondLook(s, w, ClaimCounter);
    AtRetrying(t, w, s.row, Visible);
    hide StepGo, Alone, IsDirect;
    var offer := if direct then None else Some(u);
    Advance(s, w, ClaimCounter, s, Retry(s.row), Visible, s, Persist(u, offer, direct, PERSIST_ATTEMPTS, None));
    t := Move(s.(row := if direct then s.row.(claim := Some(u)) else s.row.(offer := Some(u))), w, Idle);
    Merges(s, w, ClaimCounter, s, u, offer, direct, None, t.row);
  }

  /** Or a pending offer with the order's memo. */
  lemma SecondLookFinds(s: State, w: nat, c: nat) returns (t: State)
    requires PcOf(s, w).Idle? && (s.row.status == CounterClaimed || s.row.status == MainClaimed)
    requires s.row.transfer.Some? && s.row.claim.None? && s.row.offer.None? && IsPending(s.log, c)
    ensures Alone(s, w, ClaimCounter, t) && t == Move(s.(row := s.row.(offer := Some(c))), w, Idle)
  {
    var o := s.row.(offer := Some(c));
    t := SecondLook(s, w, ClaimCounter);
    AtRetrying(t, w, s.row, Found(c));
    hide StepGo, Alone, IsPending;
    Advance(s, w, ClaimCounter, s, Retry(s.row), Found(c), s, Write(o, o.status));
    AtWriting(Move(s, w, Write(o, o.status)), w, o, o.status);
    Advance(s, w, ClaimCounter, s, Write(o, o.status), Proceed, s.(row := o), Idle);
    t := Move(s.(row := o), w, Idle);
  }

  lemma AtRetrying(s: State, w: nat, o: Row, ch: Choice)
    requires PcOf(s, w) == Retry(o)
    ensures StepGo(s, w, ch) == AtRetry(s, w, o, ch)
  {
  }

  lemma AtWriting(s: State, w: nat, o: Row, expected: Status)
    requires PcOf(s, w) == Write(o, expected)
    ensures StepGo(s, w, Proceed) == Some(Move(PutIfStatus(s, o, expected), w, Idle))
  {
  }

  // ----- What is kept when evidence is written -----

  /** On any other row, or when no attempt is left, nothing is written; a lost write leaves one attempt
      less. */
  lemma EvidenceRefused(s: State, w: nat, ch: Choice)
    requires match PcOf(s, w)
             case Persist(u, offer, _, left, _) =>
               left == 0 || !Acts(s.row, ClaimCounter) || s.row.status == MainLocked
               || s.row.transfer !in {None, Some(u)} || (offer != None && s.row.offer !in {None, offer})
             case PersistWrite(o, _, _, _, left, _) => s.row.status != o.status && left > 0
             case _ => false
    ensures StepGo(s, w, ch).Some? && StepGo(s, w, ch).value.row == s.row
    ensures var pc, pc' := PcOf(s, w), PcOf(StepGo(s, w, ch).value, w);
      if pc.Persist? then pc'.Idle? || pc'.Retry?
      else pc' == Persist(pc.u, pc.offer, pc.proven, pc.left - 1, pc.back)
  {
    AtPersisting(s, w, ch);
    hide StepGo;
  }

  // ----- The solver's claim and the user's retake -----

  /** recordMainClaim, and the daemon's reconcile of it: behind an open gate a Claimed event completes
      the order. */
  lemma MainClaimRecorded(s: State, w: nat, call: Call, j: nat) returns (t: State)
    requires PcOf(s, w).Idle? && s.row.status == CounterClaimed && IsEvent(s.evm, j, Claimed)
    requires call == RecordMainClaim || (call == ReconcileMainClaim && s.row.evmTx.None?)
    requires s.row.revealed && s.row.transfer.Some? && s.row.claim.Some?
    ensures Alone(s, w, call, t)
    ensures t == Move(s.(row := s.row.(status := MainClaimed, evmTx := Some(j))), w, Idle)
  {
    hide Alone, AtDeliver, AtDuplicateReload, AtProve, AtPersist, AtPersistWrite, AtRetry, AtAcceptScan, AtRecordProof,
         AtRetakeProof, AtPatch, AtReconcile;
    t := Begins(s, w, call);
    t := Continues(s, w, call, t, Found(j));
    t := Continues(s, w, call, t, Proceed);
    assert t.pcs == s.pcs[w := Idle];
  }

  /** A claim that is on the row already only needs its status. */
  lemma MainClaimFinished(s: State, w: nat) returns (t: State)
    requires PcOf(s, w).Idle? && s.row.status == CounterClaimed && s.row.evmTx.Some?
    ensures Alone(s, w, ReconcileMainClaim, t) && t == Move(s.(row := s.row.(status := MainClaimed)), w, Idle)
  {
    hide Alone;
    t := Begins(s, w, ReconcileMainClaim);
    t := Continues(s, w, ReconcileMainClaim, t, Proceed);
    assert t.pcs == s.pcs[w := Idle];
  }

  /** The user's retake: after the reveal the order has failed, otherwise it is refunded. */
  lemma RetakeRecorded(s: State, w: nat, j: nat) returns (t: State)
    requires PcOf(s, w).Idle? && s.row.status != MainClaimed && s.row.status != Refunded && IsEvent(s.evm, j, Retaken)
    ensures Alone(s, w, RecordMainRetake, t)
    ensures t == Move(s.(row := s.row.(status := if s.row.status == CounterClaimed then Failed else Refunded,
                                       evmTx := Some(j))), w, Idle)
  {
    hide Alone, AtDeliver, AtDuplicateReload, AtProve, AtPersist, AtPersistWrite, AtRetry, AtAcceptScan, AtRecordProof,
         AtMainClaimProof, AtPatch, AtReconcile;
    t := Begins(s, w, RecordMainRetake);
    t := Continues(s, w, RecordMainRetake, t, Found(j));
    t := Continues(s, w, RecordMainRetake, t, Proceed);
    assert t.pcs == s.pcs[w := Idle];
  }

  lemma MarkMarks(s: State, w: nat) returns (t: State)
    requires PcOf(s, w).Idle? && s.row.status == MainLocked
    ensures Alone(s, w, MarkRefunded, t) && t == Move(s.(row := s.row.(status := Refunded)), w, Idle)
  {
    hide Alone;
    t := Begins(s, w, MarkRefunded);
    t := Continues(s, w, MarkRefunded, t, Proceed);
    assert t.pcs == s.pcs[w := Idle];
  }

  lemma ProofPatched(s: State, w: nat, j: nat) returns (t: State)
    requires PcOf(s, w).Idle? && s.row.status == MainClaimed && IsEvent(s.evm, j, Claimed)
    ensures Alone(s, w, PatchProof, t) && t == Move(s.(row := s.row.(evmTx := Some(j))), w, Idle)
  {
    hide Alone;
    t := Begins(s, w, PatchProof);
    t := Continues(s, w, PatchProof, t, Found(j));
    t := Continues(s, w, PatchProof, t, Proceed);
    assert t.pcs == s.pcs[w := Idle];
  }

  // ----- Whole orders -----

  ghost predicate CanGet(s: State, t: State) {
    exists labels: seq<Label> :: Run(s, labels) == Some(t)
  }

  lemma GetsAlone(from: State, s: State, w: nat, call: Call, t: State)
    requires CanGet(from, s) && Alone(s, w, call, t)
    ensures CanGet(from, t)
  {
    hide Run;
    var before :| Run(from, before) == Some(s);
    var choices :| Run(s, [Start(w, call)] + Goes(w, choices)) == Some(t);
    RunAppend(from, before, [Start(w, call)] + Goes(w, choices));
  }

  lemma GetsStep(from: State, s: State, l: Label) returns (t: State)
    requires CanGet(from, s) && Step(s, l).Some?
    ensures t == Step(s, l).value && CanGet(from, t)
  {
    hide Run, Step;
    var before :| Run(from, before) == Some(s);
    RunAppend(from, before, [l]);
    RunOne(s, l);
    t := Step(s, l).value;
  }

  /** From the user's lock to both legs exchanged, whichever way the CBTC reaches the user. */
  lemma OrderCompletes(order: string, direct: bool) returns (t: State)
    ensures CanGet(Init(order), t) && t.row.status == MainClaimed && Claimed in t.evm && UserHolds(t.log)
  {
    var s := Init(order);
    assert CanGet(s, s) by { assert Run(s, []) == Some(s); }
    hide CanGet, Alone, DeliveryId, StepGo, StartPc;
    t := ClaimCounterDelivers(s, 0, direct, true);
    GetsAlone(Init(order), s, 0, ClaimCounter, t);
    if !direct {
      t := GetsStep(Init(order), t, UserAccepts(0));
      s := t;
      t := ReconcileAccepted(s, 0, 1);
      GetsAlone(Init(order), s, 0, ReconcileDelivery, t);
    }
    assert Delivers(t.log, t.row.claim.value);
    t := SolverFinishes(order, t);
  }

  lemma SolverFinishes(order: string, s: State) returns (t: State)
    requires CanGet(Init(order), s) && PcOf(s, 0).Idle? && s.row.status == CounterClaimed && s.row.revealed
    requires s.row.transfer.Some? && s.row.claim.Some? && s.evm == [Locked]
    ensures CanGet(Init(order), t) && t.row.status == MainClaimed && Claimed in t.evm && t.log == s.log
  {
    GateOpensIff(s);
    hide CanGet, Alone, StepGo, StartPc;
    t := GetsStep(Init(order), s, GetPreimage);
    t := GetsStep(Init(order), t, SolverClaims);
    var s' := t;
    assert s'.evm[1] == Claimed;
    t := MainClaimRecorded(s', 0, RecordMainClaim, 1);
    GetsAlone(Init(order), s', 0, RecordMainClaim, t);
  }
}
