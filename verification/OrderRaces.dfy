/** Orders in the database while any number of workers create, read, edit and write them.

    `createOrder` reads the id, inserts when it is free, and on a unique-key violation reads the
    winner. Every other method writes back the whole of a copy it read at some time, under a
    status guard and nothing else. A worker may stop for good at any await. */
module OrderRaces {
  import opened OrderCreation
  import opened Wrappers

  type Table = map<Id, Row>

  datatype Pc =
    | Idle
    | Getting(id: Id, asked: Terms)
    | Inserting(o: Row)
    | ReGetting(id: Id, asked: Terms)
    | Holding(o: Row)

  /** How a call of createOrder ended. */
  datatype Outcome = Created(asked: Terms, got: Row) | Refused(asked: Terms, id: Id)

  datatype Label =
    | Create(w: nat, id: Id, asked: Terms)
    | Get(w: nat)                                          // the read at the start of createOrder
    | Insert(w: nat)
    | ReGet(w: nat)                                        // after a unique-key violation
    | Load(w: nat, id: Id)                                 // any other method
    | Edit(w: nat, status: nat, progress: nat)             // of the worker's own copy
    | PutIfStatus(w: nat, expected: nat)
    | Reserve(id: Id, status: nat, progress: nat)          // a stored procedure changes the row in place
    | Crash(w: nat)

  datatype State = State(rows: Table, pcs: map<nat, Pc>, outcomes: seq<Outcome>)

  const Init := State(map[], map[], [])

  function PcOf(s: State, w: nat): Pc {
    if w in s.pcs then s.pcs[w] else Idle
  }

  function Move(s: State, w: nat, pc: Pc): State {
    s.(pcs := s.pcs[w := pc])
  }

  function Ends(s: State, w: nat, r: Outcome): State {
    Move(s.(outcomes := s.outcomes + [r]), w, Idle)
  }

  /** What resolveCreateOrder makes of an existing row. */
  function Resolved(existing: Row, asked: Terms): Outcome {
    if SameTerms(existing.terms, asked) then Created(asked, existing) else Refused(asked, existing.id)
  }

  function AtGet(s: State, w: nat, id: Id, asked: Terms): State {
    if id in s.rows then Ends(s, w, Resolved(s.rows[id], asked))
    else Move(s, w, Inserting(Row(id, asked, OPEN, 0)))
  }

  function AtInsert(s: State, w: nat, o: Row): State {
    if o.id in s.rows then Move(s, w, ReGetting(o.id, o.terms))
    else Ends(s.(rows := s.rows[o.id := o]), w, Created(o.terms, o))
  }

  /** The winner is there: rows are never removed. */
  function AtReGet(s: State, w: nat, id: Id, asked: Terms): State {
    if id in s.rows then Ends(s, w, Resolved(s.rows[id], asked))
    else Ends(s, w, Created(asked, Row(id, asked, OPEN, 0)))
  }

  function AtPut(s: State, o: Row, expected: nat): State {
    if o.id in s.rows && s.rows[o.id].status == expected then s.(rows := s.rows[o.id := o]) else s
  }

  function Step(s: State, l: Label): Option<State> {
    match l
    case Create(w, id, asked) =>
      if PcOf(s, w).Idle? && WellFormed(asked) then Some(Move(s, w, Getting(id, asked))) else None
    case Get(w) => if PcOf(s, w).Getting? then Some(AtGet(s, w, PcOf(s, w).id, PcOf(s, w).asked)) else None
    case Insert(w) => if PcOf(s, w).Inserting? then Some(AtInsert(s, w, PcOf(s, w).o)) else None
    case ReGet(w) => if PcOf(s, w).ReGetting? then Some(AtReGet(s, w, PcOf(s, w).id, PcOf(s, w).asked)) else None
    case Load(w, id) => if PcOf(s, w).Idle? && id in s.rows then Some(Move(s, w, Holding(s.rows[id]))) else None
    case Edit(w, status, progress) =>
      if PcOf(s, w).Holding?
      then Some(Move(s, w, Holding(PcOf(s, w).o.(status := status, progress := progress)))) else None
    case PutIfStatus(w, expected) => if PcOf(s, w).Holding? then Some(AtPut(s, PcOf(s, w).o, expected)) else None
    case Reserve(id, status, progress) =>
      if id in s.rows
      then Some(s.(rows := s.rows[id := s.rows[id].(status := status, progress := progress)])) else None
    case Crash(w) => Some(Move(s, w, Idle))
  }

  function Run(s: State, labels: seq<Label>): Option<State>
    decreases labels
  {
    if labels == [] then Some(s)
    else
      match Step(s, labels[0])
      case None => None
      case Some(s') => Run(s', labels[1..])
  }

  lemma {:induction false} RunAppend(s: State, a: seq<Label>, b: seq<Label>)
    requires Run(s, a).Some?
    ensures Run(s, a + b) == Run(Run(s, a).value, b)
    decreases a
  {
    hide Step;
    if a == [] {
      assert [] + b == b;
    } else {
      assert (a + b)[1..] == a[1..] + b;
      RunAppend(Step(s, a[0]).value, a[1..], b);
    }
  }

  lemma RunOne(s: State, l: Label)
    requires Step(s, l).Some?
    ensures Run(s, [l]) == Step(s, l)
  {
    hide Step;
    assert Run(Step(s, l).value, [l][1..]) == Step(s, l);
  }

  // ----- What every step keeps -----

  /** The row that is stored under the id of `o` has its terms. */
  ghost predicate Agrees(rows: Table, o: Row) {
    o.id in rows && rows[o.id].terms == o.terms
  }

  ghost predicate PcOk(rows: Table, pc: Pc) {
    match pc
    case Idle => true
    case Getting(_, asked) => WellFormed(asked)
    case Inserting(o) => WellFormed(o.terms)
    case ReGetting(id, asked) => id in rows && WellFormed(asked)
    case Holding(o) => Agrees(rows, o)
  }

  ghost predicate OutcomeOk(rows: Table, r: Outcome) {
    match r
    case Created(asked, got) => Agrees(rows, got) && SameTerms(got.terms, asked)
    case Refused(asked, id) => id in rows && !SameTerms(rows[id].terms, asked)
  }

  ghost predicate TableOk(rows: Table) {
    forall id | id in rows :: rows[id].id == id && WellFormed(rows[id].terms)
  }

  ghost predicate Inv(s: State) {
    && TableOk(s.rows)
    && (forall w | w in s.pcs :: PcOk(s.rows, s.pcs[w]))
    && (forall i | 0 <= i < |s.outcomes| :: OutcomeOk(s.rows, s.outcomes[i]))
  }

  /** A row is never removed and never changes its terms. */
  ghost predicate KeepsTerms(before: Table, after: Table) {
    forall id | id in before :: id in after && after[id].terms == before[id].terms
  }

  lemma KeepsTermsComposes(a: Table, b: Table, c: Table)
    requires KeepsTerms(a, b) && KeepsTerms(b, c)
    ensures KeepsTerms(a, c)
  {
    forall id | id in a ensures id in c && c[id].terms == a[id].terms { assert id in b; }
  }

  lemma PcStays(rows: Table, rows': Table, pc: Pc)
    requires PcOk(rows, pc) && KeepsTerms(rows, rows')
    ensures PcOk(rows', pc)
  {
  }

  lemma OutcomeStays(rows: Table, rows': Table, r: Outcome)
    requires OutcomeOk(rows, r) && KeepsTerms(rows, rows')
    ensures OutcomeOk(rows', r)
  {
  }

  lemma ResolvedOk(rows: Table, id: Id, asked: Terms)
    requires TableOk(rows) && id in rows
    ensures OutcomeOk(rows, Resolved(rows[id], asked))
  {
  }

  /** The terms a worker asked for are its own: the comparison is an equivalence. */
  lemma CreatedOk(rows: Table, o: Row)
    requires o.id in rows && rows[o.id] == o
    ensures OutcomeOk(rows, Created(o.terms, o))
  {
    SameTermsIsEquivalence(o.terms, o.terms, o.terms);
  }

  lemma Settle(s: State, s': State, w: nat, pc: Pc)
    requires Inv(s) && TableOk(s'.rows) && KeepsTerms(s.rows, s'.rows)
    requires s'.pcs == s.pcs[w := pc] && PcOk(s'.rows, pc)
    requires s'.outcomes == s.outcomes
             || (|s'.outcomes| == |s.outcomes| + 1 && s'.outcomes[..|s.outcomes|] == s.outcomes
                 && OutcomeOk(s'.rows, s'.outcomes[|s.outcomes|]))
    ensures Inv(s')
  {
    hide TableOk, PcOk, OutcomeOk, KeepsTerms;
    forall v | v in s'.pcs ensures PcOk(s'.rows, s'.pcs[v]) {
      if v != w { PcStays(s.rows, s'.rows, s.pcs[v]); }
    }
    forall i | 0 <= i < |s'.outcomes| ensures OutcomeOk(s'.rows, s'.outcomes[i]) {
      if i < |s.outcomes| {
        assert s'.outcomes[i] == s.outcomes[i];
        OutcomeStays(s.rows, s'.rows, s.outcomes[i]);
      }
    }
  }

  lemma CreateKeeps(s: State, l: Label)
    requires Inv(s) && Step(s, l).Some? && (l.Create? || l.Get? || l.Insert? || l.ReGet?)
    ensures Inv(Step(s, l).value) && KeepsTerms(s.rows, Step(s, l).value.rows)
  {
    var s' := Step(s, l).value;
    if l.Get? && PcOf(s, l.w).id in s.rows { ResolvedOk(s.rows, PcOf(s, l.w).id, PcOf(s, l.w).asked); }
    if l.ReGet? { ResolvedOk(s.rows, PcOf(s, l.w).id, PcOf(s, l.w).asked); }
    if l.Insert? && PcOf(s, l.w).o.id !in s.rows { CreatedOk(s'.rows, PcOf(s, l.w).o); }
    hide SameTerms;
    Settle(s, s', l.w, s'.pcs[l.w]);
  }

  lemma StepKeeps(s: State, l: Label)
    requires Inv(s) && Step(s, l).Some?
    ensures Inv(Step(s, l).value) && KeepsTerms(s.rows, Step(s, l).value.rows)
  {
    hide SameTerms, OutcomeOk;
    var s' := Step(s, l).value;
    match l
    case Create(_, _, _) | Get(_) | Insert(_) | ReGet(_) => CreateKeeps(s, l);
    case Load(w, _) => Settle(s, s', w, s'.pcs[w]);
    case Edit(w, _, _) => Settle(s, s', w, s'.pcs[w]);
    case Crash(w) => Settle(s, s', w, Idle);
    case PutIfStatus(w, _) =>
      assert s.pcs[w := s.pcs[w]] == s.pcs;
      Settle(s, s', w, s.pcs[w]);
    case Reserve(_, _, _) =>
      forall v | v in s.pcs ensures PcOk(s'.rows, s.pcs[v]) { PcStays(s.rows, s'.rows, s.pcs[v]); }
      forall i | 0 <= i < |s.outcomes| ensures OutcomeOk(s'.rows, s.outcomes[i]) {
        OutcomeStays(s.rows, s'.rows, s.outcomes[i]);
      }
  }

  lemma {:induction false} RunKeeps(s: State, labels: seq<Label>)
    requires Inv(s) && Run(s, labels).Some?
    ensures Inv(Run(s, labels).value) && KeepsTerms(s.rows, Run(s, labels).value.rows)
    decreases labels
  {
    hide Inv, Step;
    if labels == [] {
    } else {
      var s' := Step(s, labels[0]).value;
      StepKeeps(s, labels[0]);
      RunKeeps(s', labels[1..]);
      KeepsTermsComposes(s.rows, s'.rows, Run(s, labels).value.rows);
    }
  }

  // ----- Every run -----

  /** In every run the stored row and every copy any worker holds of one id agree on the terms,
      and what the row says it says for ever. */
  lemma CopiesAgreeForever(labels: seq<Label>, more: seq<Label>, w: nat)
    requires Run(Init, labels).Some? && Run(Run(Init, labels).value, more).Some?
    requires PcOf(Run(Init, labels).value, w).Holding?
    ensures var o := PcOf(Run(Init, labels).value, w).o;
      Agrees(Run(Init, labels).value.rows, o) && Agrees(Run(Run(Init, labels).value, more).value.rows, o)
  {
    hide Run;
    RunKeeps(Init, labels);
    var s := Run(Init, labels).value;
    assert PcOk(s.rows, s.pcs[w]);
    hide Inv;
    RunKeeps(s, more);
  }

  /** Stored terms never change, whatever stale copies are written back. */
  lemma TermsAreForever(labels: seq<Label>, more: seq<Label>, id: Id)
    requires Run(Init, labels).Some? && Run(Run(Init, labels).value, more).Some? && id in Run(Init, labels).value.rows
    ensures id in Run(Run(Init, labels).value, more).value.rows
    ensures Run(Run(Init, labels).value, more).value.rows[id].terms == Run(Init, labels).value.rows[id].terms
  {
    hide Run;
    RunKeeps(Init, labels);
    hide Inv;
    RunKeeps(Run(Init, labels).value, more);
  }

  /** All calls of createOrder that succeeded with one id were given the same terms and asked for
      them, however they raced; those that were refused asked for others. */
  lemma CreatorsAgree(labels: seq<Label>, i: nat, j: nat)
    requires Run(Init, labels).Some?
    requires i < |Run(Init, labels).value.outcomes| && j < |Run(Init, labels).value.outcomes|
    requires Run(Init, labels).value.outcomes[i].Created?
    ensures var r, q := Run(Init, labels).value.outcomes[i], Run(Init, labels).value.outcomes[j];
      && Agrees(Run(Init, labels).value.rows, r.got) && SameTerms(r.got.terms, r.asked)
      && (q.Created? && q.got.id == r.got.id ==> q.got.terms == r.got.terms && SameTerms(r.asked, q.asked))
      && (q.Refused? && q.id == r.got.id ==> !SameTerms(r.asked, q.asked))
  {
    hide Run;
    RunKeeps(Init, labels);
    var s := Run(Init, labels).value;
    var r, q := s.outcomes[i], s.outcomes[j];
    assert OutcomeOk(s.rows, r) && OutcomeOk(s.rows, q);
    SameTermsIsEquivalence(r.got.terms, r.asked, q.asked);
    SameTermsIsEquivalence(r.asked, r.got.terms, q.asked);
    hide Inv, SameTerms;
  }
}
