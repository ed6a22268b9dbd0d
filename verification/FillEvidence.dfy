/** Which events count as evidence, said about the transactions that the Canton transfer paths leave
    behind: amounts as exact numbers, names as texts around a known word. */
module FillEvidence {
  import opened Strings
  import opened Wrappers
  import opened AmountUnits
  import opened FillOutcome

  // ----- Texts -----

  /** The word occurs somewhere in the text. */
  lemma IncludesIff(s: string, part: string)
    ensures Includes(s, part) <==> exists a, b :: s == a + part + b
  {
    if Includes(s, part) {
      var i :| 0 <= i <= |s| && StartsWith(s[i..], part);
      assert s == s[..i] + part + s[i + |part|..];
    }
    if a, b :| s == a + part + b {
      assert s[|a|..] == part + b;
    }
  }

  /** A word with a letter the text does not have. */
  lemma NoLetter(s: string, part: string, c: char)
    requires c in part && c !in s
    ensures !Includes(s, part)
  {
    hide StartsWith;
    IncludesIff(s, part);
  }

  lemma Around(a: string, part: string, b: string)
    ensures Includes(a + part + b, part)
  {
    IncludesIff(a + part + b, part);
  }

  lemma Templates(t: string)
    ensures IsHoldingTemplate(t)
            <==> exists a, b :: t == a + "Utility.Registry.Holding" + b || t == a + "Splice.Amulet" + b
                                || t == a + "HoldingV1:Holding" + b
    ensures IsInstructionTemplate(t) <==> exists a, b :: t == a + "TransferInstruction" + b || t == a + "TransferOffer" + b
  {
    hide Includes;
    IncludesIff(t, "Utility.Registry.Holding");
    IncludesIff(t, "Splice.Amulet");
    IncludesIff(t, "HoldingV1:Holding");
    IncludesIff(t, "TransferInstruction");
    IncludesIff(t, "TransferOffer");
  }

  // ----- Amounts, instruments, memos -----

  /** The text denotes exactly `units` base units. */
  ghost predicate Denotes(text: string, units: nat, decimals: nat) {
    IsDecimal(Trim(text)) && units * Pow10(|Fraction(Trim(text))|) == Scaled(text) * Pow10(decimals)
  }

  /** The text denotes at least `units` base units and less than one more. */
  ghost predicate Covers(text: string, units: nat, decimals: nat) {
    && IsDecimal(Trim(text))
    && units * Pow10(|Fraction(Trim(text))|) <= Scaled(text) * Pow10(decimals)
    && Scaled(text) * Pow10(decimals) < (units + 1) * Pow10(|Fraction(Trim(text))|)
  }

  lemma AtMost(u: int, v: int, p: int)
    requires p > 0 && u * p < (v + 1) * p
    ensures u <= v
  {
  }

  lemma ParsesTo(text: string, units: nat, decimals: nat)
    requires Denotes(text, units, decimals) && |Fraction(Trim(text))| <= decimals
    ensures ToBaseUnits(text, decimals) == Ok(units)
  {
    hide Trim, IsDecimal, Whole, Fraction, Scaled, Pow10, ToBaseUnits, ToBaseUnitsFloor;
    ParsersAgree(text, decimals);
    FitParses(text, decimals);
    FloorIsFloor(text, decimals);
    var r, p := ToBaseUnits(text, decimals).value, Pow10(|Fraction(Trim(text))|);
    AtMost(r, units, p) by { assert units * p < (units + 1) * p; }
    AtMost(units, r, p);
  }

  lemma FloorsTo(text: string, units: nat, decimals: nat)
    ensures ToBaseUnitsFloor(text, decimals) == Ok(units) <==> Covers(text, units, decimals)
  {
    hide Trim, IsDecimal, Whole, Fraction, Scaled, Pow10, ToBaseUnits, ToBaseUnitsFloor;
    ParsersAgree(text, decimals);
    if !IsDecimal(Trim(text)) {
      BadNeverParses(text, decimals);
    } else {
      FloorIsFloor(text, decimals);
      var r, p := ToBaseUnitsFloor(text, decimals).value, Pow10(|Fraction(Trim(text))|);
      if Covers(text, units, decimals) {
        AtMost(r, units, p);
        AtMost(units, r, p);
      }
    }
  }

  /** A ledger amount equals the `units` of the order exactly when it rounds down to them. */
  lemma AmountsEqualIff(expected: string, actual: string, units: nat, decimals: nat)
    requires Denotes(expected, units, decimals) && |Fraction(Trim(expected))| <= decimals
    ensures AmountsEqual(expected, actual, decimals) <==> Covers(actual, units, decimals)
  {
    hide Denotes, Covers, ToBaseUnits, ToBaseUnitsFloor;
    ParsesTo(expected, units, decimals);
    FloorsTo(actual, units, decimals);
  }

  lemma FitParses(text: string, decimals: nat)
    requires IsDecimal(Trim(text)) && |Fraction(Trim(text))| <= decimals
    ensures ToBaseUnits(text, decimals).Ok?
  {
  }

  lemma BadNeverParses(text: string, decimals: nat)
    requires !IsDecimal(Trim(text))
    ensures ToBaseUnits(text, decimals).Err? && ToBaseUnitsFloor(text, decimals).Err?
  {
  }

  /** Only Amulet is the same whatever its registry. */
  lemma InstrumentMatchesIff(inst: Instrument, target: Instrument)
    ensures MatchesInstrument(inst, target)
            <==> inst.id != "" && (inst == target || (inst.id == "Amulet" && target.id == "Amulet"))
  {
  }

  /** An order with a memo takes its own memo, the old fixed one, or none. */
  lemma MemoMatchesIff(memo: string, expected: Option<string>)
    ensures MemoMatches(memo, expected)
            <==> expected in {None, Some(""), Some(memo)} || memo in {"", "OranjSwap"}
  {
    assert "OranjSwap"[5] == 'S';
  }

  // ----- A leg, in numbers -----

  /** What the order promises, read from the leg: `units` of the asset. */
  ghost predicate Promises(leg: Leg, units: nat) {
    Denotes(leg.amount, units, leg.decimals) && |Fraction(Trim(leg.amount))| <= leg.decimals
  }

  /** The same asset as the leg's: an Amulet is one whatever registry it names. */
  ghost predicate SameAsset(inst: Instrument, leg: Leg) {
    inst.id != "" && (inst == leg.inst || (inst.id == "Amulet" && leg.inst.id == "Amulet"))
  }

  /** A memo of this order, the old fixed one, or none. */
  ghost predicate NotForeign(memo: string, leg: Leg) {
    leg.expectedMemo in {None, Some(""), Some(memo)} || memo in {"", "OranjSwap"}
  }

  /** The transfer pays the leg. */
  ghost predicate Pays(t: Fields, units: nat, leg: Leg) {
    && [t.sender, t.receiver] == [leg.senderParty, leg.receiverParty]
    && Covers(t.amount, units, leg.decimals) && NotForeign(t.memo, leg)
    && (t.inst == None || SameAsset(t.inst.value, leg))
  }

  lemma FieldsMatchIff(t: Fields, units: nat, leg: Leg)
    requires Promises(leg, units)
    ensures FieldsMatch(t, leg) <==> Pays(t, units, leg)
  {
    hide AmountsEqual, MatchesInstrument, MemoMatches, Denotes, Covers;
    AmountsEqualIff(leg.amount, t.amount, units, leg.decimals);
    if t.inst.Some? { InstrumentMatchesIff(t.inst.value, leg.inst); }
    MemoMatchesIff(t.memo, leg.expectedMemo);
  }

  // ----- Holdings -----

  /** A created holding pays the leg: the word of one of the three templates in its name, the user
      as owner, the amount, and no id or registry of another asset. */
  lemma HoldingIff(cid: string, a: string, word: string, b: string, owner: string, amount: string,
                   inst: Option<Instrument>, units: nat, leg: Leg)
    requires Promises(leg, units)
    requires word in {"Utility.Registry.Holding", "Splice.Amulet", "HoldingV1:Holding"}
    ensures IsReceiverHolding(Created(cid, a + word + b, owner, amount, inst, None), leg)
            <==> && cid != "" && owner == leg.receiverParty && Covers(amount, units, leg.decimals)
                 && (inst == None || inst.value in {Instrument("", ""), Instrument("", leg.inst.id)}
                     || SameAsset(inst.value, leg))
  {
    hide AmountsEqual, MatchesInstrument, Denotes, Covers, Includes;
    Around(a, word, b);
    Empty(units, leg.decimals);
    AmountsEqualIff(leg.amount, amount, units, leg.decimals);
    if inst.Some? { InstrumentMatchesIff(inst.value, leg.inst); }
  }

  lemma Empty(units: nat, decimals: nat)
    ensures !Covers("", units, decimals)
  {
  }

  // ----- Exercises -----

  lemma SendName()
    ensures "TransferPreapproval_SendV2" == "" + "Transfer" + "Preapproval_SendV2"
  {
  }

  lemma SendLetters()
    ensures var n := "TransferPreapproval_SendV2"; 'A' !in n && 'R' !in n && 'F' !in n
  {
  }

  lemma FactoryName()
    ensures "TransferFactory_Transfer" == "Transfer" + "Factory" + "_Transfer"
    ensures "TransferFactory_Transfer" == "" + "Transfer" + "Factory_Transfer"
  {
  }

  lemma FactoryLetters()
    ensures var n := "TransferFactory_Transfer"; 'A' !in n && 'R' !in n
  {
  }

  lemma RuleName()
    ensures "TransferRule_DirectTransfer" == "Transfer" + "Rule" + "_DirectTransfer"
    ensures "TransferRule_DirectTransfer" == "" + "Transfer" + "Rule_DirectTransfer"
  {
  }

  lemma RuleLetters()
    ensures var n := "TransferRule_DirectTransfer"; 'A' !in n && 'j' !in n
  {
  }

  /** The three names the loop knows, by the words it looks for. */
  lemma KnownNames()
    ensures var n := "TransferPreapproval_SendV2";
      Includes(n, "Transfer") && !Includes(n, "Accept") && !Includes(n, "Reject") && !Includes(n, "Factory") && !Includes(n, "Rule")
    ensures var n := "TransferFactory_Transfer"; Includes(n, "Factory") && !Includes(n, "Accept") && !Includes(n, "Reject")
    ensures var n := "TransferRule_DirectTransfer"; Includes(n, "Rule") && !Includes(n, "Accept") && !Includes(n, "Reject")
  {
    hide Includes;
    SendName();
    FactoryName();
    RuleName();
    SendLetters();
    FactoryLetters();
    RuleLetters();
    Around("", "Transfer", "Preapproval_SendV2");
    Around("Transfer", "Factory", "_Transfer");
    Around("Transfer", "Rule", "_DirectTransfer");
    NoLetter("TransferPreapproval_SendV2", "Accept", 'A');
    NoLetter("TransferPreapproval_SendV2", "Reject", 'R');
    NoLetter("TransferPreapproval_SendV2", "Factory", 'F');
    NoLetter("TransferPreapproval_SendV2", "Rule", 'R');
    NoLetter("TransferFactory_Transfer", "Accept", 'A');
    NoLetter("TransferFactory_Transfer", "Reject", 'R');
    NoLetter("TransferRule_DirectTransfer", "Accept", 'A');
    NoLetter("TransferRule_DirectTransfer", "Reject", 'j');
  }

  /** The balance of the leg's sender went down by the amount. */
  ghost predicate WentDown(changes: seq<Change>, units: nat, leg: Leg) {
    exists d, x :: Change(leg.senderParty, Some(d)) in changes && Trim(d) == "-" + x && Covers(x, units, leg.decimals)
  }

  /** The balance of the leg's receiver went up by the amount. */
  ghost predicate WentUp(changes: seq<Change>, units: nat, leg: Leg) {
    exists d :: Change(leg.receiverParty, Some(d)) in changes && Covers(d, units, leg.decimals)
  }

  lemma {:induction false} TrimTwice(s: string)
    ensures Trim(Trim(s)) == Trim(s)
    decreases s
  {
    if s != "" && IsSpace(s[0]) { TrimTwice(s[1..]); }
    else if s != "" && IsSpace(s[|s| - 1]) { TrimTwice(s[..|s| - 1]); }
  }

  lemma CoversTrimmed(d: string, units: nat, decimals: nat)
    ensures Covers(Trim(d), units, decimals) <==> Covers(d, units, decimals)
    ensures Covers(d, units, decimals) ==> !StartsWith(Trim(d), "-")
  {
    hide Pow10, Value;
    TrimTwice(d);
  }

  lemma SignedIff(d: string, units: nat, leg: Leg)
    requires Promises(leg, units)
    ensures Signed(Some(d), leg, false) <==> Covers(d, units, leg.decimals)
    ensures Signed(Some(d), leg, true) <==> exists x :: Trim(d) == "-" + x && Covers(x, units, leg.decimals)
  {
    hide AmountsEqual, Covers, Denotes, Trim;
    CoversTrimmed(d, units, leg.decimals);
    AmountsEqualIff(leg.amount, Trim(d), units, leg.decimals);
    if Trim(d) != "" {
      AmountsEqualIff(leg.amount, Trim(d)[1..], units, leg.decimals);
      if StartsWith(Trim(d), "-") { assert Trim(d) == "-" + Trim(d)[1..]; }
    }
    forall x | Trim(d) == "-" + x ensures x == Trim(d)[1..] { }
  }

  lemma ChangesIff(changes: seq<Change>, units: nat, leg: Leg)
    requires Promises(leg, units)
    ensures Debits(changes, leg) <==> WentDown(changes, units, leg)
    ensures Credits(changes, leg) <==> WentUp(changes, units, leg)
  {
    hide Promises, Signed, Covers, Trim;
    Unsigned(leg, false);
    Unsigned(leg, true);
    forall d: string
      ensures Signed(Some(d), leg, false) <==> Covers(d, units, leg.decimals)
      ensures Signed(Some(d), leg, true) <==> exists x :: Trim(d) == "-" + x && Covers(x, units, leg.decimals)
    {
      SignedIff(d, units, leg);
    }
    if WentDown(changes, units, leg) {
      var d, x :| Change(leg.senderParty, Some(d)) in changes && Trim(d) == "-" + x && Covers(x, units, leg.decimals);
      var i :| 0 <= i < |changes| && changes[i] == Change(leg.senderParty, Some(d));
      assert Signed(changes[i].delta, leg, true);
    }
    if i :| 0 <= i < |changes| && changes[i].party == leg.senderParty && Signed(changes[i].delta, leg, true) {
      assert Change(leg.senderParty, Some(changes[i].delta.value)) in changes;
    }
    if WentUp(changes, units, leg) {
      var d :| Change(leg.receiverParty, Some(d)) in changes && Covers(d, units, leg.decimals);
      var i :| 0 <= i < |changes| && changes[i] == Change(leg.receiverParty, Some(d));
      assert Signed(changes[i].delta, leg, false);
    }
    if i :| 0 <= i < |changes| && changes[i].party == leg.receiverParty && Signed(changes[i].delta, leg, false) {
      assert Change(leg.receiverParty, Some(changes[i].delta.value)) in changes;
    }
  }

  lemma Unsigned(leg: Leg, negative: bool)
    ensures !Signed(None, leg, negative)
  {
  }

  /** A transfer named outright binds the sender exactly when it pays the leg; the direct rule must
      also name the holding it made. */
  lemma NamedTransfersBindIff(arg: Option<Fields>, nested: Option<Fields>, holding: bool, changes: seq<Change>,
                              units: nat, leg: Leg)
    requires Promises(leg, units)
    ensures var pays := match nested { case Some(t) => Pays(t, units, leg) case None => arg.Some? && Pays(arg.value, units, leg) };
      && (BindsSender(Exercised("TransferFactory_Transfer", arg, nested, holding, changes), leg) <==> pays)
      && (BindsSender(Exercised("TransferRule_DirectTransfer", arg, nested, holding, changes), leg) <==> pays && holding)
  {
    hide Includes, FieldsMatch, Pays, Debits, Credits, Promises, AmountsEqual;
    KnownNames();
    if arg.Some? { FieldsMatchIff(arg.value, units, leg); }
    if nested.Some? { FieldsMatchIff(nested.value, units, leg); }
  }

  /** Any other choice about a transfer does, unless it decides on one or belongs to a rule or a factory. */
  lemma OtherTransfersBindIff(a: string, b: string, t: Fields, holding: bool, changes: seq<Change>, units: nat, leg: Leg)
    requires Promises(leg, units)
    ensures var choice := a + "Transfer" + b;
      choice !in {"TransferFactory_Transfer", "TransferRule_DirectTransfer", "TransferPreapproval_SendV2"} ==>
        (BindsSender(Exercised(choice, Some(t), None, holding, changes), leg)
         <==> Pays(t, units, leg)
              && !exists x, y, word :: word in {"Accept", "Reject", "Factory", "Rule"} && choice == x + word + y)
  {
    hide Includes, FieldsMatch, Pays, Debits, Credits, Promises, AmountsEqual;
    var choice := a + "Transfer" + b;
    Around(a, "Transfer", b);
    FieldsMatchIff(t, units, leg);
    IncludesIff(choice, "Accept");
    IncludesIff(choice, "Reject");
    IncludesIff(choice, "Factory");
    IncludesIff(choice, "Rule");
  }

  /** A preapproved sending binds its sender by its fields or by both balances. */
  lemma SendingBindsIff(arg: Fields, holding: bool, changes: seq<Change>, units: nat, leg: Leg)
    requires Promises(leg, units)
    ensures BindsSender(Exercised("TransferPreapproval_SendV2", Some(arg), None, holding, changes), leg)
            <==> || Pays(arg, units, leg)
                 || (&& arg.sender == leg.senderParty && Covers(arg.amount, units, leg.decimals)
                     && WentDown(changes, units, leg) && WentUp(changes, units, leg))
  {
    hide Includes, FieldsMatch, Pays, Debits, Credits, AmountsEqual, Covers, Denotes, WentDown, WentUp;
    KnownNames();
    FieldsMatchIff(arg, units, leg);
    AmountsEqualIff(leg.amount, arg.amount, units, leg.decimals);
    ChangesIff(changes, units, leg);
  }

  /** Without the word, or without a transfer, nothing is bound. */
  lemma NothingBinds(choice: string, arg: Option<Fields>, nested: Option<Fields>, holding: bool, changes: seq<Change>,
                     leg: Leg)
    requires (forall a, b :: choice != a + "Transfer" + b) || (arg == None && nested == None)
    ensures !BindsSender(Exercised(choice, arg, nested, holding, changes), leg)
  {
    hide Includes, FieldsMatch, Debits, Credits, AmountsEqual;
    SendName();
    FactoryName();
    RuleName();
    IncludesIff(choice, "Transfer");
  }

  lemma LossIff(changes: seq<Change>, leg: Leg)
    ensures (exists i | 0 <= i < |changes| :: changes[i].party == leg.senderParty && IsNegative(changes[i].delta))
            <==> exists d, x :: Change(leg.senderParty, Some(d)) in changes && Trim(d) == "-" + x
  {
    hide Trim;
    if i :| 0 <= i < |changes| && changes[i].party == leg.senderParty && IsNegative(changes[i].delta) {
      var d := changes[i].delta.value;
      assert Change(leg.senderParty, Some(d)) in changes && Trim(d) == "-" + Trim(d)[1..];
    }
  }

  lemma GainIff(changes: seq<Change>, leg: Leg)
    ensures (exists i | 0 <= i < |changes| :: changes[i].party == leg.receiverParty && IsCredit(changes[i].delta))
            <==> exists d :: Change(leg.receiverParty, Some(d)) in changes && Trim(d) != "" && Trim(d)[0] != '-'
  {
    hide Trim;
    if i :| 0 <= i < |changes| && changes[i].party == leg.receiverParty && IsCredit(changes[i].delta) {
      assert Change(leg.receiverParty, Some(changes[i].delta.value)) in changes;
    }
  }

  /** An Amulet sending moves the leg: the sender lost and the receiver gained something, and the
      description or the memo is not another order's. */
  lemma AmuletMovedIff(choice: string, arg: Fields, nested: Option<Fields>, holding: bool, changes: seq<Change>,
                       units: nat, leg: Leg)
    requires Promises(leg, units)
    ensures AmuletMoved(Exercised(choice, Some(arg), nested, holding, changes), leg)
            <==> && choice == "TransferPreapproval_SendV2"
                 && arg.sender == leg.senderParty && Covers(arg.amount, units, leg.decimals)
                 && (leg.expectedMemo == Some(arg.description) || NotForeign(arg.memo, leg))
                 && (exists d, x :: Change(leg.senderParty, Some(d)) in changes && Trim(d) == "-" + x)
                 && (exists d :: Change(leg.receiverParty, Some(d)) in changes && Trim(d) != "" && Trim(d)[0] != '-')
  {
    hide MemoMatches, AmountsEqual, Covers, Denotes, Trim, IsNegative, IsCredit;
    AmountsEqualIff(leg.amount, arg.amount, units, leg.decimals);
    MemoMatchesIff(arg.memo, leg.expectedMemo);
    LossIff(changes, leg);
    GainIff(changes, leg);
  }

  // ----- Offers -----

  /** A created transfer instruction or offer is the pending counter leg exactly when it pays it; an
      instrument without an id is not compared. */
  lemma OfferIff(cid: string, a: string, word: string, b: string, owner: string, amount: string,
                 inst: Option<Instrument>, transfer: Option<Fields>, units: nat, leg: Leg)
    requires Promises(leg, units) && word in {"TransferInstruction", "TransferOffer"}
    ensures IsCounterOffer(Created(cid, a + word + b, owner, amount, inst, transfer), leg)
            <==> && cid != "" && transfer.Some?
                 && var t := transfer.value;
                    Pays(if t.inst.Some? && t.inst.value.id == "" then t.(inst := None) else t, units, leg)
  {
    hide AmountsEqual, MatchesInstrument, MemoMatches, Covers, Denotes, Includes;
    Around(a, word, b);
    if transfer.Some? {
      var t := transfer.value;
      AmountsEqualIff(leg.amount, t.amount, units, leg.decimals);
      MemoMatchesIff(t.memo, leg.expectedMemo);
      if t.inst.Some? { InstrumentMatchesIff(t.inst.value, leg.inst); }
    }
  }

  /** Events under other names are neither offers nor holdings. */
  lemma OtherCreations(e: Event, leg: Leg)
    requires e.Created?
    ensures IsCounterOffer(e, leg)
            ==> exists a, b :: e.templateId == a + "TransferInstruction" + b || e.templateId == a + "TransferOffer" + b
    ensures IsReceiverHolding(e, leg)
            ==> exists a, b :: e.templateId == a + "Utility.Registry.Holding" + b
                               || e.templateId == a + "Splice.Amulet" + b || e.templateId == a + "HoldingV1:Holding" + b
  {
    Templates(e.templateId);
  }

  // ----- Whole transactions -----

  /** Without any event of the leg the failure is told by the kind of the transfer. */
  lemma FailureIff(leg: Leg, kind: string)
    ensures OutcomeOf([], leg, kind)
            == if Lower(kind) == "self" || exists a, b :: Lower(kind) == a + "direct" + b then DirectNotDelivered
               else NotFound
  {
    hide Includes;
    IncludesIff(Lower(kind), "direct");
    if Lower(kind) == "direct" { assert Lower(kind) == "" + "direct" + ""; }
  }

  /** An exercise that moves no Amulet balance, and a created contract that is no transfer. */
  lemma TwoEvents(e: Event, c: Event, leg: Leg, kind: string)
    requires e.Exercised? && !AmuletMoved(e, leg) && c.Created? && c.transfer == None
    ensures OutcomeOf([e, c], leg, kind)
            == if BindsSender(e, leg) && IsReceiverHolding(c, leg) then Delivered else OutcomeOf([], leg, kind)
  {
    NotEvidence(e, c, leg);
    hide IsReceiverHolding, BindsSender, Includes, IsCounterOffer, AmuletMoved, IsDirectKind;
    assert e in [e, c] && c in [e, c];
    assert [e, c][..1] == [e] && [e][..0] == [];
    assert LastOffer([e], leg) == LastOffer([], leg) && LastOffer([e, c], leg) == LastOffer([e], leg);
    assert ProvesDelivery([e, c], leg) <==> BindsSender(e, leg) && IsReceiverHolding(c, leg);
  }

  lemma NotEvidence(e: Event, c: Event, leg: Leg)
    requires e.Exercised? && c.Created? && c.transfer == None
    ensures !IsReceiverHolding(e, leg) && !IsCounterOffer(e, leg)
    ensures !BindsSender(c, leg) && !AmuletMoved(c, leg) && !IsCounterOffer(c, leg)
  {
  }

  /** A direct transfer of the registry: the exercise and the holding it created. */
  lemma DirectTransferOutcome(t: Fields, changes: seq<Change>, cid: string, a: string, b: string, owner: string,
                              amount: string, units: nat, leg: Leg, kind: string)
    requires Promises(leg, units) && leg.inst.id != ""
    ensures var events := [Exercised("TransferRule_DirectTransfer", Some(t), None, true, changes),
                           Created(cid, a + "Utility.Registry.Holding" + b, owner, amount, Some(leg.inst), None)];
      OutcomeOf(events, leg, kind)
      == if Pays(t, units, leg) && cid != "" && owner == leg.receiverParty && Covers(amount, units, leg.decimals)
         then Delivered else OutcomeOf([], leg, kind)
  {
    hide Promises, Pays, Covers, IsReceiverHolding, BindsSender, Includes, OutcomeOf;
    var e := Exercised("TransferRule_DirectTransfer", Some(t), None, true, changes);
    var c := Created(cid, a + "Utility.Registry.Holding" + b, owner, amount, Some(leg.inst), None);
    NamedTransfersBindIff(Some(t), None, true, changes, units, leg);
    HoldingIff(cid, a, "Utility.Registry.Holding", b, owner, amount, Some(leg.inst), units, leg);
    TwoEvents(e, c, leg, kind);
  }

  /** A preapproved Amulet sending needs no holding in the tree. */
  lemma AmuletSendingOutcome(arg: Fields, nested: Option<Fields>, holding: bool, changes: seq<Change>, units: nat,
                             leg: Leg, kind: string)
    requires Promises(leg, units)
    ensures var events := [Exercised("TransferPreapproval_SendV2", Some(arg), nested, holding, changes)];
      OutcomeOf(events, leg, kind)
      == if && leg.inst.id == "Amulet" && arg.sender == leg.senderParty && Covers(arg.amount, units, leg.decimals)
            && (leg.expectedMemo == Some(arg.description) || NotForeign(arg.memo, leg))
            && (exists d, x :: Change(leg.senderParty, Some(d)) in changes && Trim(d) == "-" + x)
            && (exists d :: Change(leg.receiverParty, Some(d)) in changes && Trim(d) != "" && Trim(d)[0] != '-')
         then Delivered else OutcomeOf([], leg, kind)
  {
    hide Promises, Covers, Includes, AmuletMoved, BindsSender, IsDirectKind, Trim, NotForeign;
    var e := Exercised("TransferPreapproval_SendV2", Some(arg), nested, holding, changes);
    AmuletMovedIff("TransferPreapproval_SendV2", arg, nested, holding, changes, units, leg);
    assert e in [e] && [e][..0] == [];
  }

  /** A single created transfer offer: pending under its own id exactly when it pays the leg. */
  lemma OfferOutcome(cid: string, a: string, b: string, t: Fields, units: nat, leg: Leg, kind: string)
    requires Promises(leg, units)
    ensures var events := [Created(cid, a + "TransferOffer" + b, "", "", None, Some(t))];
      OutcomeOf(events, leg, kind)
      == if cid != "" && Pays(if t.inst.Some? && t.inst.value.id == "" then t.(inst := None) else t, units, leg)
         then PendingAccept(cid) else OutcomeOf([], leg, kind)
  {
    hide Promises, Covers, Includes, AmuletMoved, BindsSender, IsDirectKind, Pays, IsCounterOffer;
    var c := Created(cid, a + "TransferOffer" + b, "", "", None, Some(t));
    OfferIff(cid, a, "TransferOffer", b, "", "", None, Some(t), units, leg);
    NeverMoves(c, leg);
    assert c in [c] && [c][..0] == [];
  }

  lemma NeverMoves(c: Event, leg: Leg)
    requires c.Created?
    ensures !BindsSender(c, leg) && !AmuletMoved(c, leg)
  {
  }

  /** An order whose own amount is no decimal number, or has too many places, is never filled. */
  lemma BadAmountNeverFills(events: seq<Event>, leg: Leg, kind: string)
    requires !IsDecimal(Trim(leg.amount)) || |Fraction(Trim(leg.amount))| > leg.decimals
    ensures OutcomeOf(events, leg, kind) == OutcomeOf([], leg, kind)
  {
    forall actual: string ensures !AmountsEqual(leg.amount, actual, leg.decimals) {
      ParsersAgree(leg.amount, leg.decimals);
      if !IsDecimal(Trim(leg.amount)) { BadNeverParses(leg.amount, leg.decimals); }
    }
    hide AmountsEqual, MatchesInstrument, MemoMatches, Includes, IsHoldingTemplate, IsInstructionTemplate, LastOffer;
    forall e ensures !IsCounterOffer(e, leg) && !IsReceiverHolding(e, leg) && !AmuletMoved(e, leg) { }
    LastOfferIsOffer(events, leg);
    LastOfferIsOffer([], leg);
  }
}
