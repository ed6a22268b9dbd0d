/** The order store as its callers use it: createOrder, and the load, edit and guarded write that
    every other method consists of. Between two awaits all other workers do what the machine
    allows; `trace` is the run so far. */
module OrderStore {
  import opened OrderCreation
  import opened OrderRaces
  import opened Wrappers

  predicate LeavesAlone(w: nat, l: Label) {
    !l.Reserve? ==> l.w != w
  }

  lemma {:induction false} OtherSteps(s: State, w: nat, batch: seq<Label>)
    requires Run(s, batch).Some? && forall l | l in batch :: LeavesAlone(w, l)
    ensures PcOf(Run(s, batch).value, w) == PcOf(s, w)
    decreases batch
  {
    if batch != [] {
      assert LeavesAlone(w, batch[0]) by { assert batch[0] in batch; }
      OtherStep(s, w, batch[0]);
      hide Step;
      OtherSteps(Step(s, batch[0]).value, w, batch[1..]);
    }
  }

  lemma OtherStep(s: State, w: nat, l: Label)
    requires LeavesAlone(w, l) && Step(s, l).Some?
    ensures PcOf(Step(s, l).value, w) == PcOf(s, w)
  {
  }

  class Store {
    var rows: Table
    var pcs: map<nat, Pc>
    var outcomes: seq<Outcome>   // what the callers were told
    ghost var trace: seq<Label>

    function View(): State
      reads this
    {
      State(rows, pcs, outcomes)
    }

    ghost predicate Valid()
      reads this
    {
      Run(Init, trace) == Some(View())
    }

    function At(w: nat): Pc
      reads this
    {
      if w in pcs then pcs[w] else Idle
    }

    constructor ()
      ensures Valid() && View() == Init
    {
      rows, pcs, outcomes, trace := map[], map[], [], [];
    }

    lemma Facts()
      requires Valid()
      ensures Inv(View())
    {
      RunKeeps(Init, trace);
    }

    lemma RowFacts(id: Id)
      requires Valid() && id in rows
      ensures rows[id].id == id && WellFormed(rows[id].terms)
    {
      hide Run;
      Facts();
    }

    ghost method Took(l: Label, before: State)
      requires Run(Init, trace) == Some(before) && Step(before, l) == Some(View())
      modifies this`trace
      ensures Valid() && trace == old(trace) + [l]
    {
      hide Step;
      RunAppend(Init, trace, [l]);
      RunOne(before, l);
      trace := trace + [l];
    }

    /** Any number of steps of everyone but worker `w`. */
    method Interfere(w: nat)
      requires Valid()
      modifies this
      ensures Valid() && At(w) == old(At(w)) && KeepsTerms(old(rows), rows)
    {
      hide Run, Inv;
      var batch: seq<Label> := *;
      if Run(View(), batch).Some? && forall b | b in batch :: LeavesAlone(w, b) {
        var s := Run(View(), batch).value;
        OtherSteps(View(), w, batch);
        RunAppend(Init, trace, batch);
        Facts();
        RunKeeps(View(), batch);
        rows, pcs, outcomes := s.rows, s.pcs, s.outcomes;
        trace := trace + batch;
      }
    }

    // ----- createOrder (lines 386-411) -----

    method Get(w: nat, id: Id, asked: Terms) returns (existing: Option<Row>)
      requires Valid() && At(w) == Getting(id, asked)
      modifies this
      ensures Valid() && KeepsTerms(old(rows), rows)
      ensures existing == if id in rows then Some(rows[id]) else None
      ensures At(w) == if existing.Some? then Idle else Inserting(Row(id, asked, OPEN, 0))
    {
      hide Run;
      Interfere(w);
      ghost var before := View();
      existing := if id in rows then Some(rows[id]) else None;
      if existing.Some? { outcomes := outcomes + [Resolved(existing.value, asked)]; }
      pcs := pcs[w := if existing.Some? then Idle else Inserting(Row(id, asked, OPEN, 0))];
      Took(Label.Get(w), before);
    }

    /** insert: false is a unique-key violation. */
    method Insert(w: nat, o: Row) returns (inserted: bool)
      requires Valid() && At(w) == Inserting(o)
      modifies this
      ensures Valid() && KeepsTerms(old(rows), rows) && o.id in rows && (inserted ==> rows[o.id] == o)
      ensures inserted ==> o.id !in old(rows)
      ensures At(w) == if inserted then Idle else ReGetting(o.id, o.terms)
    {
      hide Run;
      Interfere(w);
      ghost var before := View();
      inserted := o.id !in rows;
      if inserted {
        rows := rows[o.id := o];
        outcomes := outcomes + [Created(o.terms, o)];
      }
      pcs := pcs[w := if inserted then Idle else ReGetting(o.id, o.terms)];
      Took(Label.Insert(w), before);
    }

    method ReGet(w: nat, id: Id, asked: Terms) returns (winner: Row)
      requires Valid() && At(w) == ReGetting(id, asked) && id in rows
      modifies this
      ensures Valid() && KeepsTerms(old(rows), rows) && At(w).Idle? && id in rows && winner == rows[id]
    {
      hide Run;
      Interfere(w);
      ghost var before := View();
      winner := rows[id];
      outcomes := outcomes + [Resolved(winner, asked)];
      pcs := pcs[w := Idle];
      Took(Label.ReGet(w), before);
    }

    /** Success and failure both speak about the stored row, however many creations race. */
    method CreateOrder(w: nat, id: Id, incoming: Terms) returns (r: Result<Row, CreateError>)
      requires Valid() && At(w).Idle? && WellFormed(incoming)
      modifies this
      ensures Valid() && KeepsTerms(old(rows), rows) && At(w).Idle?
      ensures r.Ok? ==> id in rows && rows[id].terms == r.value.terms && SameTerms(r.value.terms, incoming)
      ensures id in old(rows) ==> (r.Ok? <==> SameTerms(old(rows)[id].terms, incoming))
      ensures r.Err? ==> id in rows && !SameTerms(rows[id].terms, incoming)
    {
      hide Run;
      SameTermsIsEquivalence(incoming, incoming, incoming);
      hide SameTerms;
      ghost var before := View();
      pcs := pcs[w := Getting(id, incoming)];
      Took(Create(w, id, incoming), before);
      var existing := Get(w, id, incoming);
      if existing.Some? { RowFacts(id); }
      var first := ResolveCreateOrder(existing, id, incoming);
      if first.Err? { return Err(first.error); }
      if !first.value.isNew { return Ok(first.value.order); }
      var inserted := Insert(w, first.value.order);
      if inserted { return Ok(first.value.order); }
      var winner := ReGet(w, id, incoming);
      RowFacts(id);
      var second := ResolveCreateOrder(Some(winner), id, incoming);
      r := if second.Ok? then Ok(second.value.order) else Err(second.error);
    }

    // ----- Every other method -----

    method Must(w: nat, id: Id) returns (o: Option<Row>)
      requires Valid() && At(w).Idle?
      modifies this
      ensures Valid() && KeepsTerms(old(rows), rows) && (o.Some? ==> id in rows && o.value == rows[id])
      ensures At(w) == if o.Some? then Holding(o.value) else Idle
    {
      hide Run;
      Interfere(w);
      ghost var before := View();
      if id !in rows { return None; }
      o := Some(rows[id]);
      pcs := pcs[w := Holding(rows[id])];
      Took(Load(w, id), before);
    }

    /** putIfStatus: the whole copy `o` over the row, if the status is as expected. */
    method PutIfStatus(w: nat, o: Row, expected: nat) returns (won: bool)
      requires Valid() && At(w) == Holding(o)
      modifies this
      ensures Valid() && KeepsTerms(old(rows), rows) && At(w) == Holding(o) && (won ==> o.id in rows && rows[o.id] == o)
    {
      hide Run;
      Interfere(w);
      ghost var before := View();
      won := o.id in rows && rows[o.id].status == expected;
      CopyFacts(w, o);
      if won { rows := rows[o.id := o]; }
      Took(Label.PutIfStatus(w, expected), before);
    }

    /** A copy, however old, has the terms of the row it would overwrite. */
    lemma CopyFacts(w: nat, o: Row)
      requires Valid() && At(w) == Holding(o)
      ensures Agrees(rows, o)
    {
      hide Run;
      Facts();
      assert PcOk(rows, pcs[w]);
    }

    /** Read, change what may change, write the whole row back. */
    method ReadModifyWrite(w: nat, id: Id, status: nat, progress: nat) returns (won: bool)
      requires Valid() && At(w).Idle?
      modifies this
      ensures Valid() && KeepsTerms(old(rows), rows)
      ensures won ==> id in rows && rows[id].status == status && rows[id].progress == progress
    {
      hide Run;
      var o := Must(w, id);
      if o.None? { return false; }
      RowFacts(id);
      var copy := o.value;
      var expected := copy.status;
      ghost var before := View();
      copy := copy.(status := status);
      copy := copy.(progress := progress);
      pcs := pcs[w := Holding(copy)];
      Took(Edit(w, status, progress), before);
      won := PutIfStatus(w, copy, expected);
    }
  }
}
