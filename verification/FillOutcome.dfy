/** What a committed fill transaction did with the counter leg
    (canton-swap-leg-verify-logic.ts). The event map is a sequence in the order in which the
    loops happen to visit it. */
module FillOutcome {
  import opened Strings
  import opened Wrappers
  import opened AmountUnits

  datatype Instrument = Instrument(admin: string, id: string)

  /** Transfer fields; a missing string is empty. */
  datatype Fields = Fields(
    sender: string, receiver: string, amount: string, inst: Option<Instrument>, memo: string, description: string)

  /** A balance change of a party; None when it is not a string. */
  datatype Change = Change(party: string, delta: Option<string>)

  datatype Event =
    | Created(contractId: string, templateId: string, owner: string, amount: string, inst: Option<Instrument>,
              transfer: Option<Fields>)
    | Exercised(choice: string, arg: Option<Fields>, nested: Option<Fields>, receiverHolding: bool,
                changes: seq<Change>)

  datatype Leg = Leg(
    senderParty: string, receiverParty: string, amount: string, decimals: nat, inst: Instrument,
    expectedMemo: Option<string>)

  datatype Outcome = Delivered | PendingAccept(offerCid: string) | DirectNotDelivered | NotFound

  // ----- Matchers -----

  predicate Includes(s: string, part: string) {
    exists i | 0 <= i <= |s| :: StartsWith(s[i..], part)
  }

  predicate StartsWith(s: string, part: string) {
    |part| <= |s| && s[..|part|] == part
  }

  predicate IsHoldingTemplate(t: string) {
    Includes(t, "Utility.Registry.Holding") || Includes(t, "Splice.Amulet") || Includes(t, "HoldingV1:Holding")
  }

  predicate IsInstructionTemplate(t: string) {
    Includes(t, "TransferInstruction") || Includes(t, "TransferOffer")
  }

  /** The ledger amount is floored to the asset's scale, the expected one must fit it. */
  predicate AmountsEqual(expected: string, actual: string, decimals: nat) {
    ToBaseUnits(expected, decimals).Ok? && ToBaseUnitsFloor(actual, decimals) == ToBaseUnits(expected, decimals)
  }

  predicate MatchesInstrument(inst: Instrument, target: Instrument) {
    inst.id != "" && inst.id == target.id && (target.id == "Amulet" || inst.admin == target.admin)
  }

  predicate IsOrderBoundMemo(memo: string) {
    StartsWith(memo, "oranj.c2c.v1.") || StartsWith(memo, "oranj.htlc.fwd.v1.") || StartsWith(memo, "oranj.htlc.rev.v1.")
  }

  predicate MemoMatches(memo: string, expected: Option<string>) {
    expected.None? || expected.value == "" || memo == expected.value
    || (!IsOrderBoundMemo(memo) && (memo == "" || memo == "OranjSwap"))
  }

  predicate FieldsMatch(t: Fields, leg: Leg) {
    && t.sender == leg.senderParty && t.receiver == leg.receiverParty
    && AmountsEqual(leg.amount, t.amount, leg.decimals)
    && (t.inst.None? || MatchesInstrument(t.inst.value, leg.inst))
    && MemoMatches(t.memo, leg.expectedMemo)
  }

  /** A pending offer of the counter leg. */
  predicate IsCounterOffer(e: Event, leg: Leg) {
    && e.Created? && e.contractId != "" && e.templateId != "" && IsInstructionTemplate(e.templateId)
    && e.transfer.Some? && e.transfer.value.sender == leg.senderParty && e.transfer.value.receiver == leg.receiverParty
    && AmountsEqual(leg.amount, e.transfer.value.amount, leg.decimals)
    && (e.transfer.value.inst.Some? && e.transfer.value.inst.value.id != "" ==>
          MatchesInstrument(e.transfer.value.inst.value, leg.inst))
    && MemoMatches(e.transfer.value.memo, leg.expectedMemo)
  }

  /** A holding of the counter asset created for the user. */
  predicate IsReceiverHolding(e: Event, leg: Leg) {
    && e.Created? && e.contractId != "" && e.templateId != "" && IsHoldingTemplate(e.templateId)
    && e.owner == leg.receiverParty && e.amount != "" && AmountsEqual(leg.amount, e.amount, leg.decimals)
    && (e.inst.Some? && e.inst.value.id != "" ==> e.inst.value.id == leg.inst.id)
    && (e.inst.Some? && e.inst.value.admin != "" ==> MatchesInstrument(e.inst.value, leg.inst))
  }

  predicate Signed(delta: Option<string>, leg: Leg, negative: bool) {
    delta.Some?
    && var trimmed := Trim(delta.value);
       StartsWith(trimmed, "-") == negative
       && AmountsEqual(leg.amount, if negative then trimmed[1..] else trimmed, leg.decimals)
  }

  predicate Debits(changes: seq<Change>, leg: Leg) {
    exists i | 0 <= i < |changes| :: changes[i].party == leg.senderParty && Signed(changes[i].delta, leg, true)
  }

  predicate Credits(changes: seq<Change>, leg: Leg) {
    exists i | 0 <= i < |changes| :: changes[i].party == leg.receiverParty && Signed(changes[i].delta, leg, false)
  }

  /** An exercise that moved the amount from the expected sender to the user. */
  predicate BindsSender(e: Event, leg: Leg) {
    e.Exercised? && e.choice != ""
    && var transfer := if e.nested.Some? then e.nested else e.arg;
       var fits := transfer.Some? && FieldsMatch(transfer.value, leg);
       || (e.choice == "TransferRule_DirectTransfer" && fits && e.receiverHolding)
       || (e.choice == "TransferFactory_Transfer" && fits)
       || (Includes(e.choice, "Transfer") && !Includes(e.choice, "Accept") && !Includes(e.choice, "Reject")
           && !Includes(e.choice, "Factory") && !Includes(e.choice, "Rule") && fits)
       || (e.choice == "TransferPreapproval_SendV2" && e.arg.Some? && e.arg.value.sender == leg.senderParty
           && AmountsEqual(leg.amount, e.arg.value.amount, leg.decimals)
           && Debits(e.changes, leg) && Credits(e.changes, leg))
  }

  /** Amulet: balances of sender and receiver moved, whatever the amounts. */
  predicate AmuletMoved(e: Event, leg: Leg) {
    && e.Exercised? && e.choice == "TransferPreapproval_SendV2" && e.arg.Some?
    && e.arg.value.sender == leg.senderParty && AmountsEqual(leg.amount, e.arg.value.amount, leg.decimals)
    && (leg.expectedMemo.None? || leg.expectedMemo.value == "" || e.arg.value.description == leg.expectedMemo.value
        || MemoMatches(e.arg.value.memo, leg.expectedMemo))
    && (exists i | 0 <= i < |e.changes| :: e.changes[i].party == leg.senderParty && IsNegative(e.changes[i].delta))
    && (exists i | 0 <= i < |e.changes| :: e.changes[i].party == leg.receiverParty && IsCredit(e.changes[i].delta))
  }

  predicate IsNegative(delta: Option<string>) {
    delta.Some? && StartsWith(Trim(delta.value), "-")
  }

  predicate IsCredit(delta: Option<string>) {
    delta.Some? && Trim(delta.value) != "" && !StartsWith(Trim(delta.value), "-")
  }

  // ----- What a transaction tree proves -----

  ghost predicate ProvesDelivery(events: seq<Event>, leg: Leg) {
    (leg.inst.id == "Amulet" && exists e :: e in events && AmuletMoved(e, leg))
    || ((exists e :: e in events && IsReceiverHolding(e, leg)) && (exists e :: e in events && BindsSender(e, leg)))
  }

  /** The last event that is a pending offer of the counter leg. */
  function LastOffer(events: seq<Event>, leg: Leg): Option<string> {
    if events == [] then None
    else if IsCounterOffer(events[|events| - 1], leg) then Some(events[|events| - 1].contractId)
    else LastOffer(events[..|events| - 1], leg)
  }

  ghost function OutcomeOf(events: seq<Event>, leg: Leg, kind: string): Outcome {
    if ProvesDelivery(events, leg) then Delivered
    else
      match LastOffer(events, leg)
      case Some(cid) => PendingAccept(cid)
      case None => if IsDirectKind(kind) then DirectNotDelivered else NotFound
  }

  // ----- The loops -----

  /** The three loops that look for one event and stop at it. */
  method AmuletDirectDelivery(events: seq<Event>, leg: Leg) returns (r: bool)
    ensures r <==> exists e :: e in events && AmuletMoved(e, leg)
  {
    hide AmuletMoved;
    for i := 0 to |events|
      invariant forall k | 0 <= k < i :: !AmuletMoved(events[k], leg)
    {
      if AmuletMoved(events[i], leg) { return true; }
    }
    r := false;
  }

  method DirectSettlementBindsSender(events: seq<Event>, leg: Leg) returns (r: bool)
    ensures r <==> exists e :: e in events && BindsSender(e, leg)
  {
    hide BindsSender;
    for i := 0 to |events|
      invariant forall k | 0 <= k < i :: !BindsSender(events[k], leg)
    {
      if BindsSender(events[i], leg) { return true; }
    }
    r := false;
  }

  method CounterLegDelivered(events: seq<Event>, leg: Leg) returns (r: bool)
    ensures r <==> ProvesDelivery(events, leg)
  {
    hide AmuletMoved, BindsSender, IsReceiverHolding;
    if leg.inst.id == "Amulet" {
      var moved := AmuletDirectDelivery(events, leg);
      if moved { return true; }
    }
    var receiverHoldingProven := false;
    for i := 0 to |events|
      invariant !receiverHoldingProven ==> forall k | 0 <= k < i :: !IsReceiverHolding(events[k], leg)
      invariant receiverHoldingProven ==> exists e :: e in events && IsReceiverHolding(e, leg)
    {
      if IsReceiverHolding(events[i], leg) {
        receiverHoldingProven := true;
        break;
      }
    }
    if !receiverHoldingProven { return false; }
    r := DirectSettlementBindsSender(events, leg);
  }

  /** The hits in visiting order; the last one is taken. */
  method ExtractCounterOfferCid(events: seq<Event>, leg: Leg) returns (cid: Option<string>)
    ensures cid == LastOffer(events, leg)
  {
    hide IsCounterOffer;
    var hits: seq<string> := [];
    for i := 0 to |events|
      invariant LastOffer(events[..i], leg) == if |hits| > 0 then Some(hits[|hits| - 1]) else None
    {
      assert events[..i + 1][..i] == events[..i];
      if IsCounterOffer(events[i], leg) {
        OfferIsCreated(events[i], leg);
        hits := hits + [events[i].contractId];
      }
    }
    assert events[..|events|] == events;
    cid := if |hits| > 0 then Some(hits[|hits| - 1]) else None;
  }

  lemma OfferIsCreated(e: Event, leg: Leg)
    requires IsCounterOffer(e, leg)
    ensures e.Created?
  {
  }

  predicate IsDirectKind(kind: string) {
    var k := Lower(kind);
    k == "direct" || k == "self" || Includes(k, "direct")
  }

  /** buildLoopFillResultFromEvents */
  method BuildLoopFillResult(events: seq<Event>, leg: Leg, kind: string) returns (r: Outcome)
    ensures r == OutcomeOf(events, leg, kind)
  {
    hide IsCounterOffer, ProvesDelivery, LastOffer, IsDirectKind;
    var delivered := CounterLegDelivered(events, leg);
    if delivered { return Delivered; }
    var cid := ExtractCounterOfferCid(events, leg);
    if cid.Some? { return PendingAccept(cid.value); }
    r := if IsDirectKind(kind) then DirectNotDelivered else NotFound;
  }

  // ----- The order of the event map does not matter -----

  lemma {:induction false} LastOfferIsOffer(events: seq<Event>, leg: Leg)
    ensures LastOffer(events, leg).Some? <==> exists e :: e in events && IsCounterOffer(e, leg)
    ensures LastOffer(events, leg).Some? ==>
              exists e :: e in events && IsCounterOffer(e, leg) && e.contractId == LastOffer(events, leg).value
    decreases events
  {
    hide IsCounterOffer;
    if events != [] {
      var front, last := events[..|events| - 1], events[|events| - 1];
      assert events == front + [last];
      LastOfferIsOffer(front, leg);
      if IsCounterOffer(last, leg) { assert last in events; }
    }
  }

  lemma SameMembers(events: seq<Event>, events': seq<Event>)
    requires multiset(events) == multiset(events')
    ensures forall e :: e in events <==> e in events'
  {
    assert forall e :: e in events <==> e in multiset(events);
    assert forall e :: e in events' <==> e in multiset(events');
  }

  /** Only one offer of the counter leg is in the tree, however often. */
  ghost predicate OfferUnique(events: seq<Event>, leg: Leg) {
    forall e, e' :: e in events && e' in events && IsCounterOffer(e, leg) && IsCounterOffer(e', leg)
      ==> e.contractId == e'.contractId
  }

  /** Two visiting orders of one tree agree on delivered, pending and both failures; and on the
      offer itself when only one offer matches. */
  lemma OutcomeIgnoresOrder(events: seq<Event>, events': seq<Event>, leg: Leg, kind: string)
    requires multiset(events) == multiset(events')
    ensures var r := OutcomeOf(events, leg, kind); var r' := OutcomeOf(events', leg, kind);
      && (r.PendingAccept? <==> r'.PendingAccept?)
      && (!r.PendingAccept? ==> r == r')
      && (OfferUnique(events, leg) ==> r == r')
  {
    hide IsCounterOffer, BindsSender, IsReceiverHolding, AmuletMoved, IsDirectKind, LastOffer;
    SameMembers(events, events');
    LastOfferIsOffer(events, leg);
    LastOfferIsOffer(events', leg);
  }

  /** A delivery stays a delivery whatever other events, offers included, the tree holds. */
  lemma DeliveryWinsOverArtifacts(events: seq<Event>, more: seq<Event>, leg: Leg, kind: string)
    requires ProvesDelivery(events, leg) && forall e :: e in events ==> e in more
    ensures OutcomeOf(more, leg, kind) == Delivered
  {
    hide IsCounterOffer, BindsSender, IsReceiverHolding, AmuletMoved, IsDirectKind, LastOffer;
  }

  /** "Delivered" is never concluded from offers: the tree holds an exercise that moved the
      amount, and a holding of the user or an Amulet balance change in the user's favour. */
  lemma DeliveredHasProof(events: seq<Event>, leg: Leg, kind: string)
    requires OutcomeOf(events, leg, kind) == Delivered
    ensures exists e :: e in events && (BindsSender(e, leg) || AmuletMoved(e, leg))
    ensures exists e :: e in events && (IsReceiverHolding(e, leg) || (leg.inst.id == "Amulet" && AmuletMoved(e, leg)))
  {
    hide IsCounterOffer, BindsSender, IsReceiverHolding, AmuletMoved, IsDirectKind, LastOffer;
  }

  /** The same events, visited in an order that ends with event `i`. */
  function MoveToEnd(events: seq<Event>, i: nat): (r: seq<Event>)
    requires i < |events|
    ensures multiset(r) == multiset(events)
  {
    assert events == events[..i] + [events[i]] + events[i + 1..];
    events[..i] + events[i + 1..] + [events[i]]
  }

  /** An offer visited last is the one that is named. */
  lemma LastVisitedIsNamed(events: seq<Event>, i: nat, leg: Leg, kind: string)
    requires i < |events| && IsCounterOffer(events[i], leg) && !ProvesDelivery(events, leg)
    ensures OutcomeOf(MoveToEnd(events, i), leg, kind) == PendingAccept(events[i].contractId)
  {
    hide IsCounterOffer, BindsSender, IsReceiverHolding, AmuletMoved, IsDirectKind;
    SameMembers(MoveToEnd(events, i), events);
  }

  lemma TwoOffers(events: seq<Event>, leg: Leg) returns (i: nat, j: nat)
    requires !OfferUnique(events, leg)
    ensures i < |events| && j < |events| && IsCounterOffer(events[i], leg) && IsCounterOffer(events[j], leg)
    ensures events[i].Created? && events[j].Created? && events[i].contractId != events[j].contractId
  {
    var e, e' :| e in events && e' in events && IsCounterOffer(e, leg) && IsCounterOffer(e', leg)
                 && e.contractId != e'.contractId;
    i :| 0 <= i < |events| && events[i] == e;
    j :| 0 <= j < |events| && events[j] == e';
    hide IsCounterOffer;
  }

  /** Exactly when the outcome does not depend on the visiting order: a delivery is proven, or the
      tree does not hold two different offers. */
  lemma OrderFreeIff(events: seq<Event>, leg: Leg, kind: string)
    ensures (forall events' :: multiset(events') == multiset(events)
                               ==> OutcomeOf(events', leg, kind) == OutcomeOf(events, leg, kind))
            <==> ProvesDelivery(events, leg) || OfferUnique(events, leg)
  {
    hide IsCounterOffer, BindsSender, IsReceiverHolding, AmuletMoved, IsDirectKind, LastOffer, ProvesDelivery, OutcomeOf;
    if ProvesDelivery(events, leg) || OfferUnique(events, leg) {
      forall events' | multiset(events') == multiset(events)
        ensures OutcomeOf(events', leg, kind) == OutcomeOf(events, leg, kind)
      {
        OutcomeIgnoresOrder(events, events', leg, kind);
        if ProvesDelivery(events, leg) { DeliveryWinsOverArtifacts(events, events, leg, kind); }
      }
    } else {
      var i, j := TwoOffers(events, leg);
      LastVisitedIsNamed(events, i, leg, kind);
      LastVisitedIsNamed(events, j, leg, kind);
      assert OutcomeOf(MoveToEnd(events, i), leg, kind) != OutcomeOf(MoveToEnd(events, j), leg, kind);
    }
  }
}
