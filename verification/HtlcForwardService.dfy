/** The forward Loop half of the HTLC service as the source writes it: reveal, deliver, keep
    the evidence, complete. Every await lets all other calls, the user and the chain go on;
    `trace` is the run so far. */
module HtlcForwardService {
  import opened Wrappers
  import opened HtlcCommands
  import opened HtlcForwardMachine
  import opened HtlcForwardSafety

  predicate LeavesAlone(w: nat, l: Label) {
    (l.Start? || l.Go? || l.Crash?) ==> l.w != w
  }

  lemma {:induction false} OtherSteps(s: State, w: nat, batch: seq<Label>)
    requires Run(s, batch).Some? && forall l | l in batch :: LeavesAlone(w, l)
    ensures PcOf(Run(s, batch).value, w) == PcOf(s, w)
    ensures s.log <= Run(s, batch).value.log && s.evm <= Run(s, batch).value.evm
    decreases batch
  {
    hide Step;
    if batch != [] {
      assert LeavesAlone(w, batch[0]) by { assert batch[0] in batch; }
      StepFramed(s, batch[0]);
      OtherSteps(Step(s, batch[0]).value, w, batch[1..]);
    }
  }

  datatype ClaimError = UnexpectedStatus | LostRace | DeliveryFailed | NotPersisted

  class Service {
    const order: string
    var row: Row
    var log: Canton
    var evm: seq<Event>
    var knows: bool
    var pcs: map<nat, Pc>
    ghost var trace: seq<Label>

    function View(): State
      reads this
    {
      State(order, row, log, evm, knows, pcs)
    }

    ghost predicate Valid()
      reads this
    {
      Run(Init(order), trace) == Some(View())
    }

    function At(w: nat): Pc
      reads this
    {
      if w in pcs then pcs[w] else Idle
    }

    constructor (order: string)
      ensures Valid() && this.order == order && View() == Init(order)
    {
      this.order := order;
      row, log, evm, knows, pcs, trace := NewRow, [], [Locked], false, map[], [];
    }

    lemma Facts()
      requires Valid()
      ensures Inv(View())
    {
      RunKeeps(Init(order), trace);
    }

    ghost method Took(l: Label, before: State)
      requires Run(Init(order), trace) == Some(before) && Step(before, l) == Some(View())
      modifies this`trace
      ensures Valid() && trace == old(trace) + [l]
    {
      hide Step;
      RunAppend(Init(order), trace, [l]);
      RunOne(before, l);
      trace := trace + [l];
    }

    /** Any number of steps of everyone but worker `w`. */
    method Interfere(w: nat)
      requires Valid()
      modifies this
      ensures Valid() && At(w) == old(At(w)) && old(trace) <= trace && old(log) <= log && old(evm) <= evm
    {
      hide Run;
      var batch: seq<Label> := *;
      if Run(View(), batch).Some? && forall b | b in batch :: LeavesAlone(w, b) {
        var s := Run(View(), batch).value;
        OtherSteps(View(), w, batch);
        OrderStays(View(), batch);
        RunAppend(Init(order), trace, batch);
        row, log, evm, knows, pcs := s.row, s.log, s.evm, s.knows, s.pcs;
        trace := trace + batch;
      }
    }

    // ----- Database and ledger -----

    method Must(w: nat, call: Call) returns (o: Row)
      requires Valid() && At(w).Idle?
      modifies this
      ensures Valid() && old(trace) <= trace && o == row && At(w) == StartPc(o, call)
    {
      hide StepGo, StartPc, Run;
      Interfere(w);
      ghost var before := View();
      o := row;
      pcs := pcs[w := StartPc(row, call)];
      Took(Start(w, call), before);
    }

    method PutIfStatus(w: nat, o: Row, expected: Status) returns (won: bool)
      requires Valid() && At(w) == Write(o, expected)
      modifies this
      ensures Valid() && old(trace) <= trace && At(w).Idle? && (won ==> row == o) && old(evm) <= evm
    {
      hide Run;
      Interfere(w);
      ghost var before := View();
      won := row.status == expected;
      if won { row := o; }
      pcs := pcs[w := Idle];
      Took(Go(w, Proceed), before);
    }

    // ----- persistLoopCounterDeliveryEvidence (lines 2012-2063) -----

    /** One attempt of the persisting loop: a fresh row, or the reason to give up. */
    method MustForEvidence(w: nat, u: nat, offer: Option<nat>, proven: bool, left: nat, back: Option<Row>)
      returns (o: Option<Row>)
      requires Valid() && At(w) == Persist(u, offer, proven, left, back) && left > 0
      modifies this
      ensures Valid() && old(trace) <= trace && old(log) <= log
      ensures o.Some? ==> RevealSettled(o.value) && (o.value.transfer.Some? ==> o.value.transfer.value == u)
      ensures At(w) == if o.None? then GoesBack(back)
                       else PersistWrite(WithEvidence(o.value, u, offer, proven), u, offer, proven, left, back)
    {
      hide Run, WithEvidence, GoesBack;
      Interfere(w);
      ghost var before := View();
      var recorded := row;
      if !RevealSettled(recorded) || (recorded.transfer.Some? && recorded.transfer.value != u)
         || (offer.Some? && recorded.offer.Some? && recorded.offer != offer) {
        o := None;
      } else {
        o := Some(recorded);
      }
      pcs := pcs[w := if o.None? then GoesBack(back)
                      else PersistWrite(WithEvidence(recorded, u, offer, proven), u, offer, proven, left, back)];
      Took(Go(w, Proceed), before);
    }

    method PutEvidence(w: nat, o: Row, u: nat, offer: Option<nat>, proven: bool, left: nat, back: Option<Row>)
      returns (won: bool)
      requires Valid() && At(w) == PersistWrite(o, u, offer, proven, left, back) && left > 0
      modifies this
      ensures Valid() && old(trace) <= trace && old(log) <= log && (won ==> row == o)
      ensures At(w) == if won then Idle else Persist(u, offer, proven, left - 1, back)
    {
      hide Run;
      Interfere(w);
      ghost var before := View();
      won := row.status == o.status;
      if won { row := o; }
      pcs := pcs[w := if won then Idle else Persist(u, offer, proven, left - 1, back)];
      Took(Go(w, Proceed), before);
    }

    /** After the last attempt a row that names the update is good enough. */
    method FinalLook(w: nat, u: nat, offer: Option<nat>, proven: bool, back: Option<Row>) returns (r: Option<Row>)
      requires Valid() && At(w) == Persist(u, offer, proven, 0, back)
      modifies this
      ensures Valid() && old(trace) <= trace && old(log) <= log
      ensures r.Some? ==> r.value == row && row.transfer == Some(u)
      ensures At(w) == if r.Some? then GoesOn(back.Some?, r.value) else GoesBack(back)
    {
      hide Run, GoesOn, GoesBack;
      Interfere(w);
      ghost var before := View();
      if row.transfer == Some(u) { r := Some(row); } else { r := None; }
      pcs := pcs[w := if r.Some? then GoesOn(back.Some?, row) else GoesBack(back)];
      Took(Go(w, Proceed), before);
    }

    /** Writes at most three times; the row it returns is the stored one and names a delivery of
        this order. `lost` counts the writes another call got in the way of. */
    method PersistEvidence(w: nat, u: nat, offer: Option<nat>, proven: bool, back: Option<Row>)
      returns (r: Option<Row>, lost: nat)
      requires Valid() && At(w) == Persist(u, offer, proven, PERSIST_ATTEMPTS, back) && (back.Some? ==> proven)
      modifies this
      ensures Valid() && old(trace) <= trace && old(log) <= log && lost <= PERSIST_ATTEMPTS
      ensures r.Some? ==> r.value == row && row.transfer == Some(u) && IsDelivery(log, u)
      ensures r.Some? && row.claim.Some? ==> Delivers(log, row.claim.value)
      ensures r.Some? && proven && lost < PERSIST_ATTEMPTS ==> row.claim.Some?
      ensures At(w) == if r.Some? then GoesOn(back.Some?, r.value) else GoesBack(back)
    {
      hide Run, IsDelivery, Delivers, GoesBack;
      lost := 0;
      while lost < PERSIST_ATTEMPTS
        invariant 0 <= lost <= PERSIST_ATTEMPTS && Valid() && old(trace) <= trace && old(log) <= log
        invariant At(w) == Persist(u, offer, proven, PERSIST_ATTEMPTS - lost, back)
      {
        var recorded := MustForEvidence(w, u, offer, proven, PERSIST_ATTEMPTS - lost, back);
        if recorded.None? { return None, lost; }
        var o := recorded.value;
        var status := o.status;
        o := o.(transfer := if o.transfer.Some? then o.transfer else Some(u));
        if proven {
          o := o.(claim := if o.claim.Some? then o.claim else Some(u));
          o := o.(offer := None);
        } else if offer.Some? {
          o := o.(offer := if o.offer.Some? then o.offer else offer);
        }
        assert o == WithEvidence(recorded.value, u, offer, proven) && o.status == status;
        var won := PutEvidence(w, o, u, offer, proven, PERSIST_ATTEMPTS - lost, back);
        if won {
          SavedFacts(o);
          return Some(o), lost;
        }
        lost := lost + 1;
      }
      r := FinalLook(w, u, offer, proven, back);
      SavedFacts(row);
    }

    lemma SavedFacts(o: Row)
      requires Valid() && row == o
      ensures o.transfer.Some? ==> IsDelivery(log, o.transfer.value)
      ensures o.claim.Some? ==> Delivers(log, o.claim.value)
    {
      hide Run, PcOk;
      Facts();
    }

    // ----- reconcileLoopForwardCounterDelivery (lines 867-950) -----

    /** recoverLoopCounterDeliveryEvidence and the search for an offer: proven, an offer to follow,
        or neither. `stored`: the offer is not on the row yet. */
    method RecoverEvidence(w: nat, o: Row, retry: bool) returns (proven: bool, offer: Option<nat>, stored: bool)
      requires Valid() && At(w) == Reconcile(o, retry) && o.transfer.Some?
      modifies this
      ensures Valid() && old(trace) <= trace
      ensures stored ==> o.offer.Some? && offer == o.offer
      ensures At(w) ==
              if proven then
                Persist(o.transfer.value, None, true, PERSIST_ATTEMPTS, if retry then Some(o) else None)
              else if offer.None? then GoesOn(retry, o)
              else if stored then AcceptScan(o, offer.value, retry)
              else OfferWrite(o.(offer := offer), offer.value, retry)
    {
      hide Run, GoesOn, IsPending, IsDirect, IsOffer;
      Interfere(w);
      ghost var before := View();
      var ch: Choice := *;
      proven, offer, stored := false, None, false;
      if ch == Visible && IsDirect(log, o.transfer.value) {
        proven := true;
      } else if o.offer.Some? {
        offer, stored := o.offer, true;
      } else if ch == Visible && IsOffer(log, o.transfer.value) {
        offer := o.transfer;
      } else if ch.Found? && IsPending(log, ch.i) {
        offer := Some(ch.i);
      } else {
        ch := Give;
      }
      pcs := pcs[w :=
        if proven then Persist(o.transfer.value, None, true, PERSIST_ATTEMPTS, if retry then Some(o) else None)
        else if offer.None? then GoesOn(retry, o)
        else if stored then AcceptScan(o, offer.value, retry)
        else OfferWrite(o.(offer := offer), offer.value, retry)];
      Took(Go(w, ch), before);
    }

    /** Put the offer on the row; on a lost write go on with the row as it is. */
    method KeepOffer(w: nat, o: Row, c: nat, retry: bool) returns (o': Row)
      requires Valid() && At(w) == OfferWrite(o, c, retry)
      modifies this
      ensures Valid() && old(trace) <= trace && At(w) == AcceptScan(o', c, retry)
    {
      hide Run;
      Interfere(w);
      ghost var before := View();
      var won := row.status == o.status;
      if won { row := o; }
      pcs := pcs[w := if won then AcceptScan(o, c, retry) else OfferReload(c, retry)];
      Took(Go(w, Proceed), before);
      if won { return o; }
      o' := MustForOffer(w, c, retry);
    }

    method MustForOffer(w: nat, c: nat, retry: bool) returns (o': Row)
      requires Valid() && At(w) == OfferReload(c, retry)
      modifies this
      ensures Valid() && old(trace) <= trace && At(w) == AcceptScan(o', c, retry)
    {
      hide Run;
      Interfere(w);
      ghost var before := View();
      o' := row;
      pcs := pcs[w := AcceptScan(row, c, retry)];
      Took(Go(w, Proceed), before);
    }

    /** fetchTransactionTreeForOfferAccept: the update that accepted the offer, if it is seen. */
    method FindAccept(w: nat, o: Row, c: nat, retry: bool) returns (a: Option<nat>)
      requires Valid() && At(w) == AcceptScan(o, c, retry)
      modifies this
      ensures Valid() && old(trace) <= trace && old(log) <= log && (a.Some? ==> IsUpdate(log, a.value, Accepted(c)))
      ensures At(w) == if a.Some? then AcceptWrite(o.(offer := Some(c), claim := a), retry) else GoesOn(retry, o)
    {
      hide Run, GoesOn;
      Interfere(w);
      ghost var before := View();
      var ch: Choice := *;
      if ch.Found? && IsUpdate(log, ch.i, Accepted(c)) { a := Some(ch.i); } else { a, ch := None, Give; }
      pcs := pcs[w := if a.Some? then AcceptWrite(o.(offer := Some(c), claim := a), retry) else GoesOn(retry, o)];
      Took(Go(w, ch), before);
    }

    method PutAccept(w: nat, o: Row, retry: bool) returns (o': Row)
      requires Valid() && At(w) == AcceptWrite(o, retry) && o.claim.Some?
      modifies this
      ensures Valid() && old(trace) <= trace && o' == row && At(w) == GoesOn(retry, o')
    {
      hide Run;
      Interfere(w);
      ghost var before := View();
      var won := row.status == o.status;
      if won { row := o; }
      pcs := pcs[w := if won then Idle else AcceptReload(retry)];
      Took(Go(w, Proceed), before);
      if won { return o; }
      o' := MustAfterAccept(w, retry);
    }

    method MustAfterAccept(w: nat, retry: bool) returns (o': Row)
      requires Valid() && At(w) == AcceptReload(retry)
      modifies this
      ensures Valid() && old(trace) <= trace && o' == row && At(w) == GoesOn(retry, o')
    {
      hide Run, GoesOn;
      Interfere(w);
      ghost var before := View();
      o' := row;
      pcs := pcs[w := GoesOn(retry, row)];
      Took(Go(w, Proceed), before);
    }

    /** The row it returns carries a claim reference only if that reference delivers. */
    method ReconcileLoopForwardCounterDelivery(w: nat, o: Row, retry: bool) returns (r: Row)
      requires Valid() && At(w) == Reconcile(o, retry) && o.transfer.Some? && o.claim.None?
      modifies this
      ensures Valid() && old(trace) <= trace && At(w) == GoesOn(retry, r)
      ensures r.claim.Some? ==> Delivers(log, r.claim.value)
    {
      hide Run, IsDelivery, Delivers, IsUpdate;
      var proven, offer, stored := RecoverEvidence(w, o, retry);
      if proven {
        var back := if retry then Some(o) else None;
        var saved, _ := PersistEvidence(w, o.transfer.value, None, true, back);
        if saved.Some? { return saved.value; }
        return o;
      }
      if offer.None? { return o; }
      r := FollowOffer(w, o, offer.value, stored, retry);
    }

    method FollowOffer(w: nat, o: Row, c: nat, stored: bool, retry: bool) returns (r: Row)
      requires Valid() && o.claim.None?
      requires At(w) == if stored then AcceptScan(o, c, retry) else OfferWrite(o.(offer := Some(c)), c, retry)
      modifies this
      ensures Valid() && old(trace) <= trace && At(w) == GoesOn(retry, r)
      ensures r.claim.Some? ==> Delivers(log, r.claim.value)
    {
      hide Run, GoesOn, IsDelivery, Delivers, IsUpdate;
      r := o;
      if !stored { r := KeepOffer(w, o.(offer := Some(c)), c, retry); }
      ScanFacts(w, r, c, retry);
      ghost var had := log;
      var a := FindAccept(w, r, c, retry);
      if a.None? {
        if r.claim.Some? { StillDelivers(had, r.claim.value); }
        return r;
      }
      r := r.(offer := Some(c));
      r := r.(claim := a);
      r := PutAccept(w, r, retry);
      SavedFacts(r);
    }

    lemma ScanFacts(w: nat, o: Row, c: nat, retry: bool)
      requires Valid() && At(w) == AcceptScan(o, c, retry)
      ensures o.claim.Some? ==> Delivers(log, o.claim.value)
    {
      hide Run, WorldOk;
      Facts();
      assert PcOk(pcs[w], log);
    }

    lemma StillDelivers(had: Canton, u: nat)
      requires had <= log && Delivers(had, u)
      ensures Delivers(log, u)
    {
    }

    // ----- claimCounter (lines 1768-2007) -----

    /** The reveal is durable before any delivery; losing the write is fine when another call
        settled the reveal. */
    method Reveal(w: nat, o: Row) returns (ready: Option<Row>)
      requires Valid() && At(w) == RevealWrite(o)
      modifies this
      ensures Valid() && old(trace) <= trace && At(w) == if ready.Some? then Deliver(ready.value) else Idle
    {
      hide Run;
      Interfere(w);
      ghost var before := View();
      var won := row.status == MainLocked;
      if won { row := o; }
      pcs := pcs[w := if won then Deliver(o) else RevealReload];
      Took(Go(w, Proceed), before);
      if won { return Some(o); }
      ready := MustRevealSettled(w);
    }

    method MustRevealSettled(w: nat) returns (ready: Option<Row>)
      requires Valid() && At(w) == RevealReload
      modifies this
      ensures Valid() && old(trace) <= trace && At(w) == if ready.Some? then Deliver(ready.value) else Idle
    {
      hide Run;
      Interfere(w);
      ghost var before := View();
      ready := if RevealSettled(row) then Some(row) else None;
      pcs := pcs[w := if RevealSettled(row) then Deliver(row) else Idle];
      Took(Go(w, Proceed), before);
    }

    /** createTransfer under the order's delivery id. */
    method SubmitDelivery(w: nat, o: Row) returns (u: Option<nat>, fallback: Option<nat>, duplicate: bool)
      requires Valid() && At(w) == Deliver(o) && o.transfer.None?
      modifies this
      ensures Valid() && old(trace) <= trace
      ensures u.Some? ==> IsDelivery(log, u.value) && !duplicate
      ensures At(w) == if u.Some? then Prove(u.value, fallback) else if duplicate then DuplicateReload else Idle
    {
      hide Run, DeliveryId, Unused;
      Interfere(w);
      ghost var before := View();
      var ch: Choice := *;
      u, fallback, duplicate := None, None, false;
      if ch.Commit? && Submit(log, DeliveryTx(order, ch.direct)).Some? {
        u := Some(|log|);
        fallback := if ch.shown && !ch.direct then u else None;
        log := log + [DeliveryTx(order, ch.direct)];
      } else if ch.Duplicate? && !Unused(log, DeliveryId(order)) {
        duplicate := true;
      } else {
        ch := Fail;
      }
      pcs := pcs[w := if u.Some? then Prove(u.value, fallback) else if duplicate then DuplicateReload else Idle];
      Took(Go(w, ch), before);
    }

    /** After a duplicate: the row may name the delivery, otherwise the command id finds it. */
    method FindCommitted(w: nat) returns (u: Option<nat>, fallback: Option<nat>)
      requires Valid() && At(w) == DuplicateReload
      modifies this
      ensures Valid() && old(trace) <= trace && At(w) == if u.Some? then Prove(u.value, fallback) else Idle
    {
      hide Run, DeliveryId;
      Interfere(w);
      ghost var before := View();
      var ch: Choice := *;
      u, fallback := None, None;
      if row.transfer.Some? {
        u, fallback := row.transfer, row.offer;
      } else if ch.Found? && CommittedAs(log, ch.i, DeliveryId(order)) {
        u := Some(ch.i);
      } else {
        ch := Give;
      }
      pcs := pcs[w := if u.Some? then Prove(u.value, fallback) else Idle];
      Took(Go(w, ch), before);
    }

    /** waitForLoopCounterDeliveryEvidence: what the update's tree shows, if it is visible. */
    method WaitForEvidence(w: nat, u: nat, fallback: Option<nat>) returns (offer: Option<nat>, proven: bool)
      requires Valid() && At(w) == Prove(u, fallback)
      modifies this
      ensures Valid() && old(trace) <= trace && At(w) == Persist(u, offer, proven, PERSIST_ATTEMPTS, None)
      ensures proven ==> IsDirect(log, u)
    {
      hide Run;
      Interfere(w);
      ghost var before := View();
      var visible: bool := *;
      if !visible || u >= |log| { offer, proven := fallback, false; }
      else if IsDirect(log, u) { offer, proven := None, true; }
      else { offer, proven := Some(u), false; }
      pcs := pcs[w := Persist(u, offer, proven, PERSIST_ATTEMPTS, None)];
      Took(Go(w, if visible then Visible else Give), before);
    }

    /** Reveal and deliver. `Ok(true)` is answered only when the CBTC reached the user; `Ok(false)`
        means it is on its way as an offer, or its proof is still to come. */
    method ClaimCounter(w: nat) returns (r: Result<bool, ClaimError>)
      requires Valid() && At(w).Idle?
      modifies this
      ensures Valid() && old(trace) <= trace && At(w).Idle?
      ensures r.Ok? && r.value ==> UserHolds(log)
    {
      hide Run, RevealSettled, IsDelivery, Delivers, UserHolds;
      var o := Must(w, Call.ClaimCounter);
      if o.status == MainLocked {
        o := o.(revealed := true);
        o := o.(status := CounterClaimed);
        var ready := Reveal(w, o);
        if ready.None? { return Err(LostRace); }
        o := ready.value;
      } else if !RevealSettled(o) {
        return Err(UnexpectedStatus);
      }
      if o.transfer.None? { r := DeliverAndPersist(w, o); } else { r := ContinueDelivery(w, o); }
    }

    lemma HoldsBy(u: nat)
      requires Delivers(log, u)
      ensures UserHolds(log)
    {
    }

    /** The first submission, or the recovery of one that committed without being recorded. */
    method DeliverAndPersist(w: nat, o: Row) returns (r: Result<bool, ClaimError>)
      requires Valid() && At(w) == Deliver(o) && o.transfer.None?
      modifies this
      ensures Valid() && old(trace) <= trace && At(w).Idle?
      ensures r.Ok? && r.value ==> UserHolds(log)
    {
      hide Run, IsDelivery, UserHolds;
      var u, fallback, duplicate := SubmitDelivery(w, o);
      if u.None? {
        if !duplicate { return Err(DeliveryFailed); }
        u, fallback := FindCommitted(w);
        if u.None? { return Err(DeliveryFailed); }
      }
      var offer, proven := WaitForEvidence(w, u.value, fallback);
      r := Persisted(w, u.value, offer, proven);
    }

    method Persisted(w: nat, u: nat, offer: Option<nat>, proven: bool) returns (r: Result<bool, ClaimError>)
      requires Valid() && At(w) == Persist(u, offer, proven, PERSIST_ATTEMPTS, None)
      modifies this
      ensures Valid() && old(trace) <= trace && At(w).Idle?
      ensures r.Ok? && r.value ==> UserHolds(log)
    {
      hide Run, IsDelivery, UserHolds;
      EvidenceFacts(w, u, offer, proven);
      ghost var had := log;
      var saved, _ := PersistEvidence(w, u, offer, proven, None);
      if saved.None? { return Err(NotPersisted); }
      if proven {
        assert IsDirect(had, u) && had <= log;
        HoldsBy(u);
      }
      r := Ok(proven);
    }

    /** The row already names a delivery (lines 1957-2003): repair it, and failing that look for
        the offer once more. */
    method ContinueDelivery(w: nat, o: Row) returns (r: Result<bool, ClaimError>)
      requires Valid() && At(w) == Deliver(o) && o.transfer.Some?
      modifies this
      ensures Valid() && old(trace) <= trace && At(w).Idle?
      ensures r.Ok? && r.value ==> UserHolds(log)
    {
      hide Run, IsDelivery, Delivers, UserHolds;
      ghost var before := View();
      pcs := pcs[w := if o.claim.None? then Reconcile(o, true) else Idle];
      Took(Go(w, Proceed), before);
      if o.claim.Some? { return Ok(false); }
      var o' := ReconcileLoopForwardCounterDelivery(w, o, true);
      if o'.claim.Some? {
        HoldsBy(o'.claim.value);
        return Ok(true);
      }
      if o'.offer.Some? { return Ok(false); }
      r := LookAgain(w, o');
    }

    /** A missing offer is never taken as proof of delivery. */
    method LookAgain(w: nat, o: Row) returns (r: Result<bool, ClaimError>)
      requires Valid() && At(w) == Retry(o)
      modifies this
      ensures Valid() && old(trace) <= trace && At(w).Idle?
      ensures r.Ok? && r.value ==> UserHolds(log)
    {
      hide Run, IsDelivery, Delivers, UserHolds, IsPending, IsDirect;
      Interfere(w);
      ghost var before := View();
      var ch: Choice := *;
      if ch.Found? && IsPending(log, ch.i) {
        var o' := o.(offer := Some(ch.i));
        pcs := pcs[w := Write(o', o.status)];
        Took(Go(w, ch), before);
        var won := PutIfStatus(w, o', o.status);
        return if won then Ok(false) else Err(LostRace);
      }
      if ch != Visible || o.transfer.None? {
        pcs := pcs[w := Idle];
        Took(Go(w, Give), before);
        return Ok(false);
      }
      var u, proven := o.transfer.value, IsDirect(log, o.transfer.value);
      var offer := if proven then None else Some(u);
      pcs := pcs[w := Persist(u, offer, proven, PERSIST_ATTEMPTS, None)];
      Took(Go(w, Visible), before);
      r := Persisted(w, u, offer, proven);
    }

    lemma EvidenceFacts(w: nat, u: nat, offer: Option<nat>, proven: bool)
      requires Valid() && At(w) == Persist(u, offer, proven, PERSIST_ATTEMPTS, None)
      ensures proven ==> IsDirect(log, u)
    {
      hide Run, WorldOk;
      Facts();
      assert PcOk(pcs[w], log);
    }

    // ----- recordMainClaim (lines 3137-3162) -----

    /** The solver's WBTC claim is recorded only behind the delivery gate. */
    method RecordMainClaim(w: nat, j: nat) returns (r: Result<Row, ClaimError>)
      requires Valid() && At(w).Idle?
      modifies this
      ensures Valid() && old(trace) <= trace && At(w).Idle?
      ensures r.Ok? ==> row == r.value && row.status == MainClaimed && row.claim.Some? && Delivers(log, row.claim.value)
      ensures r.Ok? ==> row.evmTx == Some(j) && IsEvent(evm, j, Claimed)
    {
      hide Run, Delivers;
      var o := Must(w, Call.RecordMainClaim);
      if o.status != CounterClaimed { return Err(UnexpectedStatus); }
      if !CanExposePreimage(o) { return Err(UnexpectedStatus); }
      var found := VerifyClaimTx(w, o, j);
      if !found { return Err(NotPersisted); }
      o := o.(status := MainClaimed);
      o := o.(evmTx := Some(j));
      var won := PutIfStatus(w, o, CounterClaimed);
      if !won { return Err(LostRace); }
      SavedFacts(o);
      r := Ok(o);
    }

    method VerifyClaimTx(w: nat, o: Row, j: nat) returns (found: bool)
      requires Valid() && At(w) == MainClaimProof(o)
      modifies this
      ensures Valid() && old(trace) <= trace && (found ==> IsEvent(evm, j, Claimed))
      ensures At(w) == if found then Write(o.(status := MainClaimed, evmTx := Some(j)), CounterClaimed) else Idle
    {
      hide Run;
      Interfere(w);
      ghost var before := View();
      found := IsEvent(evm, j, Claimed);
      pcs := pcs[w := if found then Write(o.(status := MainClaimed, evmTx := Some(j)), CounterClaimed) else Idle];
      Took(Go(w, if found then Found(j) else Give), before);
    }
  }
}
