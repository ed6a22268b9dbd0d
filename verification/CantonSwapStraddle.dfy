/** What the row read again at canton-swap-service.ts:746 is allowed to be.

    Line 741 turns away an order whose counter offer waits for the user; line 746 reads the
    row again after the reservation and does not ask again. `CantonSwapTheorems` proves that the
    counter leg is paid at most once while the re-read row is harmless. Here: every other re-read
    row has a continuation, careful from then on, in which the leg is paid twice. */
module CantonSwapStraddle {
  import opened Wrappers
  import opened CantonSwapLedger
  import opened CantonSwapMachine
  import opened CantonSwapSafety
  import opened CantonSwapFrozen
  import opened CantonSwapTheorems

  /** Careful steps lead from `s` to `t`. */
  ghost predicate CanReach(s: State, t: State) {
    exists labels: seq<Label> :: Run(Loop, s, labels) == Some(t) && Clean(Loop, false, s, labels)
  }

  /** Some careful continuation delivers the counter leg twice. */
  ghost predicate CanPayTwice(s: State) {
    exists t: State, u: nat, v: nat :: CanReach(s, t) && Delivers(t.log, u) && Delivers(t.log, v) && u != v
  }

  lemma Stays(s: State)
    ensures CanReach(s, s)
  {
    assert Run(Loop, s, []) == Some(s) && Clean(Loop, false, s, []);
  }

  lemma Next(from: State, s: State, l: Label) returns (t: State)
    requires CanReach(from, s) && Step(Loop, s, l).Some? && !Straddles(Loop, s, l)
    ensures t == Step(Loop, s, l).value && CanReach(from, t)
  {
    hide Step, Straddles, Proceeds, FirstAccepted, HasDirect;
    var labels :| Run(Loop, from, labels) == Some(s) && Clean(Loop, false, from, labels);
    RunAppend(Loop, false, from, labels, [l]);
    RunOne(Loop, false, s, l);
    t := Step(Loop, s, l).value;
  }

  /** Nothing happens for `n` seconds. */
  lemma {:induction false} Wait(from: State, s: State, n: nat)
    requires CanReach(from, s)
    ensures CanReach(from, s.(now := s.now + n))
    decreases n
  {
    if n == 0 {
      assert s.(now := s.now + 0) == s;
    } else {
      hide CanReach;
      var t := Next(from, s, Tick);
      Wait(from, t, n - 1);
      assert t.(now := t.now + (n - 1)) == s.(now := s.now + n);
    }
  }

  /** Worker `w` goes from `pc` to `pc'` without touching anything else. */
  lemma Advance(from: State, s: State, w: nat, pc: Pc, ch: Choice, pc': Pc)
    requires CanReach(from, Move(s, w, pc)) && !pc.FillReserved?
    requires StepGo(Loop, Move(s, w, pc), w, ch) == Some(Move(Move(s, w, pc), w, pc'))
    ensures CanReach(from, Move(s, w, pc'))
  {
    hide StepGo, CanReach;
    var t := Next(from, Move(s, w, pc), Go(w, ch));
    assert t == Move(s, w, pc');
  }

  // ----- One worker of the reconcile -----

  /** A copy whose offer is gone and was never accepted, of an order that was not paid directly. */
  ghost predicate Cleared(o: Row, log: Log) {
    && o.settlement.Some? && o.counterOffer.Some? && o.receipt.None? && o.floatReserved
    && o.createdOffset.Some? && o.createdOffset.value <= |log|
    && !CounterPending(log, o.counterOffer.value) && CounterAccepted(o.counterOffer.value) !in log
    && !IsDirect(log, o.settlement.value)
  }

  /** The receipt check of such a copy says "not received". */
  lemma NotReceivedYet(from: State, s: State, w: nat, o: Row, purpose: Purpose)
    requires Cleared(o, s.log) && CanReach(from, Move(s, w, Verify(o, purpose)))
    requires (purpose == FirstCheck && o.status == UserLocked) || purpose == Recheck
    ensures CanReach(from, Move(s, w, Proof(o, purpose)))
  {
    hide CounterPending, IsDirect, CanReach;
    if o.status == UserLocked {
      Advance(from, s, w, Verify(o, purpose), Proceed, VerifyScan(o, purpose));
      Advance(from, s, w, VerifyScan(o, purpose), Missed, Proof(o, purpose));
    } else {
      Advance(from, s, w, Verify(o, purpose), Proceed, Proof(o, purpose));
    }
  }

  lemma ToProof(from: State, s: State, w: nat, o: Row, purpose: Purpose)
    requires Cleared(o, s.log) && CanReach(from, Move(s, w, Verify(o, purpose)))
    requires (purpose == FirstCheck && o.status == UserLocked) || purpose == Recheck
    ensures CanReach(from, Move(s, w, AfterProof(o, purpose)))
  {
    NotReceivedYet(from, s, w, o, purpose);
    hide CounterPending, IsDirect, CanReach, AfterProof;
    Advance(from, s, w, Proof(o, purpose), Proceed, AfterProof(o, purpose));
  }

  lemma ToCooling(from: State, s: State, w: nat)
    requires s.row.status == UserLocked && Cleared(s.row, s.log) && PcOf(s, w) == Idle && CanReach(from, s)
    ensures CanReach(from, Move(s, w, Cooling(s.row)))
  {
    hide CounterPending, IsDirect, CanReach;
    var t := Next(from, s, Start(w, ReconcileCounter));
    assert t == Move(s, w, CounterLoaded(s.row));
    Advance(from, s, w, CounterLoaded(s.row), Proceed, Verify(s.row, FirstCheck));
    ToProof(from, s, w, s.row, FirstCheck);
  }

  /** The first pass records when the offer was found cleared. */
  lemma RecordCleared(from: State, s: State, w: nat) returns (t: State)
    requires s.row.status == UserLocked && Cleared(s.row, s.log) && PcOf(s, w) == Idle && CanReach(from, s)
    requires s.row.clearedAt.None?
    ensures t == Move(s.(row := s.row.(clearedAt := Some(s.now))), w, Idle) && CanReach(from, t)
  {
    ToCooling(from, s, w);
    hide CounterPending, IsDirect, CanReach;
    var o' := s.row.(clearedAt := Some(s.now));
    Advance(from, s, w, Cooling(s.row), Proceed, Write(o', UserLocked));
    t := Next(from, Move(s, w, Write(o', UserLocked)), Go(w, Proceed));
    assert t == Move(s.(row := o'), w, Idle);
  }

  /** When an order whose offer is gone can be reissued: 90 seconds after the stamp, which is set
      now if the row has none. */
  function ReissueTime(o: Row, now: nat): nat {
    var since := if o.clearedAt.Some? then o.clearedAt.value else now;
    if now < since + 90 then since + 90 else now
  }

  /** The cooldown of the row has elapsed. */
  lemma CoolsDown(from: State, s: State, w: nat) returns (t: State)
    requires s.row.status == UserLocked && Cleared(s.row, s.log) && PcOf(s, w) == Idle && CanReach(from, s)
    ensures CanReach(from, t) && t.log == s.log && t.pcs == s.pcs[w := Idle]
    ensures t.row == s.row.(clearedAt := t.row.clearedAt) && CounterReissueCooldownElapsed(t.row.clearedAt, t.now)
    ensures t.now == ReissueTime(s.row, s.now)
  {
    hide CanReach, Cleared;
    if s.row.clearedAt.None? { t := RecordCleared(from, s, w); } else { t := Next(from, s, Crash(w)); }
    var n := ReissueTime(s.row, s.now) - s.now;
    Wait(from, t, n);
    t := t.(now := t.now + n);
  }

  /** A second pass, up to the moment it reads the row again. */
  lemma ToReload(from: State, s: State, w: nat)
    requires s.row.status == UserLocked && Cleared(s.row, s.log) && PcOf(s, w) == Idle && CanReach(from, s)
    requires CounterReissueCooldownElapsed(s.row.clearedAt, s.now)
    ensures CanReach(from, Move(s, w, Reload(s.row)))
  {
    ToCooling(from, s, w);
    hide CanReach, Cleared;
    Advance(from, s, w, Cooling(s.row), Proceed, Reload(s.row));
  }

  /** From there on it acts on the row as it finds it, whatever its status is. */
  lemma FromReload(from: State, s: State, w: nat, o: Row)
    requires CanReach(from, Move(s, w, Reload(o))) && Cleared(s.row, s.log)
    requires s.row.counterOffer == o.counterOffer && s.row.attempt == o.attempt
    ensures CanReach(from, Move(s, w, ReissueSubmit(s.row)))
  {
    assert s.row.floatReserved;
    hide CanReach, Cleared;
    Advance(from, s, w, Reload(o), Proceed, Verify(s.row, Recheck));
    ToProof(from, s, w, s.row, Recheck);
    Advance(from, s, w, ReissueReady(s.row), Proceed, ReissueSubmit(s.row));
  }

  /** Submit the next number: it commits, or its duplicate is found. */
  lemma Submits(from: State, s: State, w: nat, o: Row, u: nat) returns (t: State)
    requires CanReach(from, Move(s, w, ReissueSubmit(o))) && o.settlement.Some? && o.counterOffer.Some?
    requires CommandAt(s.log, u, o.attempt + 1) || (u == |s.log| && !Committed(s.log, o.attempt + 1))
    ensures CanReach(from, t)
    ensures t.log == if u < |s.log| then s.log else s.log + [Reissue(o.attempt + 1, Offered)]
    ensures CommandAt(t.log, u, o.attempt + 1)
    ensures t == Move(s.(log := t.log), w, WriteOffer(ApplyReissue(o, t.log, u), o.counterOffer.value))
  {
    hide CanReach, Committed, ApplyReissue;
    t := Next(from, Move(s, w, ReissueSubmit(o)), Go(w, if u < |s.log| then Duplicate(u) else Commit(Offered)));
    assert t.pcs == s.pcs[w := t.pcs[w]];
  }

  lemma WritesOffer(from: State, s: State, w: nat, o: Row, c: nat) returns (t: State)
    requires CanReach(from, s) && PcOf(s, w) == WriteOffer(o, c)
    requires s.row.status == UserLocked && s.row.counterOffer == Some(c)
    ensures CanReach(from, t) && t == Move(s.(row := o), w, Idle)
  {
    hide CanReach;
    t := Next(from, s, Go(w, Proceed));
  }

  lemma Frees(from: State, s: State, w: nat) returns (t: State)
    requires CanReach(from, s)
    ensures CanReach(from, t) && t == Move(s, w, Idle)
  {
    hide CanReach;
    t := Next(from, s, Crash(w));
  }

  /** Applying the committed fill to a re-read row names the offer of the row's own attempt
      exactly when the order was never reissued. */
  lemma RepairNamesOwnOfferIff(o: Row, log: Log, u: nat)
    requires CommandAt(log, u, 0) && log[u].outcome.Offered?
    ensures var o' := ApplyFill(Loop, o, log, u);
      o'.counterOffer == Some(u) && (CommandAt(log, u, o'.attempt) <==> o.attempt == 0)
  {
  }

  // ----- Levels -----

  /** A copy at attempt `j` that names the offer of number `j`, made by update `c`. */
  ghost predicate Level(log: Log, o: Row, j: nat, c: nat) {
    && o.attempt == j && o.counterOffer == Some(c) && CommandAt(log, c, j) && IsOffer(log, c)
    && o.createdOffset == Some(c + 1) && o.receipt.None? && o.floatReserved
    && o.settlement.Some? && CommandAt(log, o.settlement.value, 0) && !IsDirect(log, o.settlement.value)
  }

  lemma DeadLevel(log: Log, o: Row, j: nat, c: nat)
    requires Level(log, o, j, c) && Dead(log, c)
    ensures Cleared(o, log)
  {
  }

  lemma NextLevel(log: Log, o: Row, j: nat, c: nat, u: nat)
    requires Level(log, o, j, c) && CommandAt(log, u, j + 1) && IsOffer(log, u)
    ensures Level(log, ApplyReissue(o, log, u), j + 1, u) && ApplyReissue(o, log, u).status == o.status
  {
  }

  lemma LevelStays(log: Log, log': Log, o: Row, j: nat, c: nat)
    requires Level(log, o, j, c) && log <= log'
    ensures Level(log', o, j, c)
  {
  }

  /** An undisturbed reconcile reissues an offer that is gone and records it, as soon as 90 seconds
      have passed since the stamp and no sooner (`CantonSwapCooldown.ReissueWaits`). */
  lemma WaitAndReissue(from: State, s: State, w: nat) returns (t: State)
    requires s.row.status == UserLocked && Cleared(s.row, s.log) && PcOf(s, w) == Idle && CanReach(from, s)
    requires !Committed(s.log, s.row.attempt + 1)
    ensures CanReach(from, t) && t.log == s.log + [Reissue(s.row.attempt + 1, Offered)]
    ensures t.row == s.row.(attempt := s.row.attempt + 1, counterOffer := Some(|s.log|),
                            createdOffset := Some(|s.log| + 1), receipt := None, clearedAt := None)
    ensures t.pcs == s.pcs[w := Idle] && t.now == ReissueTime(s.row, s.now)
  {
    assert s.row.settlement.Some? && s.row.counterOffer.Some?;
    t := CoolsDown(from, s, w);
    assert Cleared(t.row, t.log);
    hide CanReach, Cleared, Committed, CounterReissueCooldownElapsed;
    var o := t.row;
    ToReload(from, t, w);
    FromReload(from, t, w, o);
    ghost var t1 := Submits(from, t, w, o, |t.log|);
    t := WritesOffer(from, t1, w, ApplyReissue(o, t1.log, |s.log|), o.counterOffer.value);
  }

  // ----- Workers posted on the way up -----

  /** Worker w + 3 + i waits to read the row again, with a copy that names the offer of number i. */
  ghost predicate Posted(s: State, w: nat, i: nat) {
    var pc := PcOf(s, w + 3 + i);
    pc.Reload? && pc.o.attempt == i && pc.o.counterOffer.Some? && CommandAt(s.log, pc.o.counterOffer.value, i)
  }

  /** The filler `w` holds the re-read row `x`, and the numbers below `j` have their workers. */
  ghost predicate Armed(s: State, w: nat, x: Row, j: nat) {
    PcOf(s, w) == FillReady(x) && x.status == UserLocked
    && forall i: nat | x.attempt <= i < j :: Posted(s, w, i)
  }

  /** The row waits for a dead offer of number `j`; update `u` is, or will be, number j + 1. */
  ghost predicate CanRise(s: State, w: nat, x: Row, j: nat, c: nat, u: nat) {
    && LogOk(s.log) && !HasDirect(s.log) && Armed(s, w, x, j) && x.attempt <= j
    && s.row.status == UserLocked && Level(s.log, s.row, j, c) && Dead(s.log, c)
    && (CommandAt(s.log, u, j + 1) || (u == |s.log| && !Committed(s.log, j + 1)))
  }

  function Risen(log: Log, j: nat, u: nat): Log {
    if u < |log| then log else log + [Reissue(j + 1, Offered)]
  }

  lemma RisenOk(log: Log, c: nat, j: nat, u: nat)
    requires LogOk(log) && !HasDirect(log) && CommandAt(log, c, j) && Dead(log, c)
    requires CommandAt(log, u, j + 1) || (u == |log| && !Committed(log, j + 1))
    ensures LogOk(Risen(log, j, u)) && !HasDirect(Risen(log, j, u)) && log <= Risen(log, j, u)
    ensures CommandAt(Risen(log, j, u), u, j + 1) && IsOffer(Risen(log, j, u), u)
    ensures u == |log| ==> !Dead(Risen(log, j, u), u)
  {
    if u < |log| {
      assert !IsDirect(log, u);
    } else {
      AppendReissue(log, c, j, Offered);
      var log' := Risen(log, j, u);
      forall i: nat | i < |log'| ensures !IsDirect(log', i) {
        if i < |log| { assert !IsDirect(log, i); }
      }
      assert CounterClosed(u) in log ==> IsOffer(log, u);
    }
  }

  lemma RiseSteps(from: State, s: State, w: nat, j: nat, c: nat, u: nat) returns (t: State, read: Row)
    requires CanReach(from, s) && s.row.status == UserLocked && Level(s.log, s.row, j, c) && Dead(s.log, c)
    requires CommandAt(s.log, u, j + 1) || (u == |s.log| && !Committed(s.log, j + 1))
    requires !HasDirect(s.log)
    ensures CanReach(from, t) && t.log == Risen(s.log, j, u) && Level(s.log, read, j, c)
    ensures t.row.status == UserLocked && Level(t.log, t.row, j + 1, u)
    ensures t.pcs == s.pcs[w + 1 := Idle][w + 3 + j := Reload(read)][w + 1 := Idle]
  {
    hide CanReach, HasDirect, Level, Dead, Committed, CounterReissueCooldownElapsed, Risen, CommandAt;
    t := CoolsAt(from, s, w + 1, j, c);
    read := t.row;
    t := PostsAt(from, t, w + 3 + j, j, c);
    t := RecordsNext(from, t, w + 1, j, c, u);
  }

  /** One level up: a worker is posted at number j, and number j + 1 is recorded. */
  lemma Rise(from: State, s: State, w: nat, x: Row, j: nat, c: nat, u: nat) returns (t: State)
    requires CanReach(from, s) && CanRise(s, w, x, j, c, u)
    ensures CanReach(from, t) && t.log == Risen(s.log, j, u)
    ensures Armed(t, w, x, j + 1) && t.row.status == UserLocked && Level(t.log, t.row, j + 1, u)
  {
    hide CanReach, LogOk, HasDirect, Level, Dead, Committed, Risen, CommandAt, Armed;
    var read: Row;
    t, read := RiseSteps(from, s, w, j, c, u);
    RisenOk(s.log, c, j, u) by { LevelNames(s.log, s.row, j, c); }
    ArmedUp(s, read, t, w, x, j, c);
  }

  lemma LevelNames(log: Log, o: Row, j: nat, c: nat)
    requires Level(log, o, j, c)
    ensures o.attempt == j && o.counterOffer == Some(c) && CommandAt(log, c, j)
  {
  }

  lemma CoolsAt(from: State, s: State, h: nat, j: nat, c: nat) returns (t: State)
    requires CanReach(from, s) && s.row.status == UserLocked && Level(s.log, s.row, j, c) && Dead(s.log, c)
    ensures CanReach(from, t) && t.log == s.log && t.pcs == s.pcs[h := Idle]
    ensures t.row.status == UserLocked && Level(t.log, t.row, j, c)
    ensures CounterReissueCooldownElapsed(t.row.clearedAt, t.now)
  {
    DeadLevel(s.log, s.row, j, c);
    hide CanReach, Cleared, CounterReissueCooldownElapsed;
    t := Frees(from, s, h);
    t := CoolsDown(from, t, h);
  }

  lemma PostsAt(from: State, s: State, y: nat, j: nat, c: nat) returns (t: State)
    requires CanReach(from, s) && s.row.status == UserLocked && Level(s.log, s.row, j, c) && Dead(s.log, c)
    requires CounterReissueCooldownElapsed(s.row.clearedAt, s.now)
    ensures CanReach(from, t) && t == Move(s, y, Reload(s.row))
  {
    DeadLevel(s.log, s.row, j, c);
    hide CanReach, Cleared, CounterReissueCooldownElapsed;
    t := Frees(from, s, y);
    ToReload(from, t, y);
    t := Move(t, y, Reload(t.row));
    assert t.pcs == s.pcs[y := Reload(s.row)];
  }

  lemma PassesCooldown(from: State, s: State, h: nat)
    requires CanReach(from, s) && s.row.status == UserLocked && Cleared(s.row, s.log) && PcOf(s, h) == Idle
    requires CounterReissueCooldownElapsed(s.row.clearedAt, s.now)
    ensures CanReach(from, Move(s, h, ReissueSubmit(s.row)))
  {
    hide CanReach, Cleared, CounterReissueCooldownElapsed;
    ToReload(from, s, h);
    FromReload(from, s, h, s.row);
  }

  lemma RecordsNext(from: State, s: State, h: nat, j: nat, c: nat, u: nat) returns (t: State)
    requires CanReach(from, s) && s.row.status == UserLocked && Level(s.log, s.row, j, c) && Dead(s.log, c)
    requires PcOf(s, h) == Idle && CounterReissueCooldownElapsed(s.row.clearedAt, s.now) && !HasDirect(s.log)
    requires CommandAt(s.log, u, j + 1) || (u == |s.log| && !Committed(s.log, j + 1))
    ensures CanReach(from, t) && t.log == Risen(s.log, j, u) && t.pcs == s.pcs[h := Idle]
    ensures t.row.status == UserLocked && Level(t.log, t.row, j + 1, u)
  {
    DeadLevel(s.log, s.row, j, c);
    LevelShape(s.log, s.row, j, c);
    var o := s.row;
    assert u < |s.log| ==> !IsDirect(s.log, u);
    hide CanReach, Cleared, CounterReissueCooldownElapsed, Committed, HasDirect, Level, Dead;
    PassesCooldown(from, s, h);
    t := Submits(from, s, h, o, u);
    var log' := t.log;
    LevelStays(s.log, log', o, j, c);
    NextLevel(log', o, j, c, u);
    hide CommandAt, ApplyReissue;
    t := WritesOffer(from, t, h, ApplyReissue(o, log', u), c);
    assert t.pcs == s.pcs[h := Idle];
  }

  lemma ArmedUp(s: State, read: Row, t: State, w: nat, x: Row, j: nat, c: nat)
    requires Armed(s, w, x, j) && s.log <= t.log && Level(s.log, read, j, c)
    requires t.pcs == s.pcs[w + 1 := Idle][w + 3 + j := Reload(read)][w + 1 := Idle]
    ensures Armed(t, w, x, j + 1)
  {
    forall i: nat | x.attempt <= i < j + 1 ensures Posted(t, w, i) {
      if i < j { assert Posted(s, w, i); }
    }
  }

  // ----- Up to the newest number -----

  ghost predicate Highest(log: Log, n: nat) {
    Committed(log, n) && forall i: nat, m: nat :: CommandAt(log, i, m) ==> m <= n
  }

  lemma {:induction false} HighestExists(log: Log, upto: nat) returns (n: nat)
    requires LogOk(log) && Committed(log, 0) && upto <= |log|
    ensures Committed(log, n) && forall i: nat, m: nat :: i < upto && CommandAt(log, i, m) ==> m <= n
    decreases upto
  {
    hide LogOk;
    n := 0;
    if upto > 0 {
      n := HighestExists(log, upto - 1);
      var u := upto - 1;
      if IsCommand(log[u]) && Number(log[u]) > n {
        assert CommandAt(log, u, Number(log[u]));
        n := Number(log[u]);
      }
    }
  }

  /** Level by level, with a worker posted at each, until the newest number is not dead. */
  lemma {:induction false} Ascend(from: State, s: State, w: nat, x: Row, j: nat, c: nat, n: nat)
    returns (t: State, top: nat, d: nat)
    requires CanReach(from, s) && LogOk(s.log) && !HasDirect(s.log) && Armed(s, w, x, j) && x.attempt <= j <= n
    requires s.row.status == UserLocked && Level(s.log, s.row, j, c) && Dead(s.log, c) && Highest(s.log, n)
    ensures CanReach(from, t) && LogOk(t.log) && !HasDirect(t.log) && Armed(t, w, x, top) && top > x.attempt
    ensures t.row.status == UserLocked && Level(t.log, t.row, top, d) && !Dead(t.log, d) && s.log <= t.log
    decreases n - j
  {
    var u := NextNumber(s.log, j, n);
    LevelNames(s.log, s.row, j, c);
    RisenOk(s.log, c, j, u);
    assert u == |s.log| ==> j == n by { if j < n { assert u < |s.log|; } }
    hide CanReach, LogOk, HasDirect, Level, Armed, Committed, Highest;
    t := Rise(from, s, w, x, j, c, u);
    top, d := j + 1, u;
    if Dead(t.log, u) {
      t, top, d := Ascend(from, t, w, x, j + 1, u, n);
    }
  }

  lemma NextNumber(log: Log, j: nat, n: nat) returns (u: nat)
    requires LogOk(log) && Highest(log, n) && j <= n
    ensures CommandAt(log, u, j + 1) || (u == |log| && !Committed(log, j + 1) && j == n)
  {
    if j < n {
      var i: nat :| i < |log| && CommandAt(log, i, n);
      NumbersBelow(log, i, n, j + 1);
      u :| 0 <= u < |log| && CommandAt(log, u, j + 1);
    } else {
      u := |log|;
      hide LogOk;
    }
  }

  // ----- A filling row climbs again -----

  /** A filler that finds the row `filling` may put it back to `userlocked`. */
  lemma Restores(from: State, s: State, z: nat) returns (t: State)
    requires CanReach(from, s) && s.row.status == Filling && s.row.settlement.Some?
    ensures CanReach(from, t) && t == Move(s.(row := s.row.(status := UserLocked)), z, Idle)
  {
    hide CanReach;
    var o := s.row;
    t := Frees(from, s, z);
    t := Next(from, t, Start(z, FillLoop));
    assert t == Move(s, z, FillChecked(o));
    Advance(from, s, z, FillChecked(o), Proceed, FillReady(o));
    Advance(from, s, z, FillReady(o), Proceed, FillOwned(o));
    RestoresFrom(from, s, z, o);
    t := Next(from, Move(s, z, Write(o.(status := UserLocked), Filling)), Go(z, Proceed));
  }

  lemma RestoresFrom(from: State, s: State, z: nat, o: Row)
    requires CanReach(from, Move(s, z, FillOwned(o)))
    ensures CanReach(from, Move(s, z, Write(o.(status := UserLocked), Filling)))
  {
    hide CanReach, ApplyFill, CanFill;
    Advance(from, s, z, FillOwned(o), Missed, FillSubmit(o));
    Advance(from, s, z, FillSubmit(o), Retriable, Write(o.(status := UserLocked), Filling));
  }

  /** The posted worker acts on the `filling` row, and so writes a `filling` row one number up. */
  lemma ClimbsOne(from: State, s: State, w: nat, j: nat, c: nat, u: nat) returns (t: State)
    requires CanReach(from, s) && LogOk(s.log) && !HasDirect(s.log) && s.row.status == Filling
    requires Level(s.log, s.row, j, c) && Dead(s.log, c) && CommandAt(s.log, u, j + 1) && Posted(s, w, j)
    ensures CanReach(from, t) && t.log == s.log && t.row.status == Filling && Level(t.log, t.row, j + 1, u)
    ensures t.pcs == s.pcs[w + 3 + j := Idle][w + 2 := Idle][w + 3 + j := Idle]
  {
    var y := w + 3 + j;
    var o := PcOf(s, y).o;
    assert o.counterOffer == s.row.counterOffer && o.attempt == s.row.attempt;
    DeadLevel(s.log, s.row, j, c);
    assert !IsDirect(s.log, u);
    NextLevel(s.log, s.row, j, c, u);
    assert Move(s, y, Reload(o)) == s by { assert s.pcs[y := Reload(o)] == s.pcs; }
    var row := s.row;
    hide CanReach, Cleared, Level, LogOk, HasDirect, Dead, Posted;
    FromReload(from, s, y, o);
    t := Submits(from, s, y, row, u) by { LevelShape(s.log, row, j, c); }
    t := Restores(from, t, w + 2) by { LevelShape(s.log, row, j, c); }
    t := WritesOffer(from, t, y, ApplyReissue(row, s.log, u), c) by { LevelShape(s.log, row, j, c); }
    assert t.pcs == s.pcs[y := Idle][w + 2 := Idle][y := Idle];
  }

  lemma LevelShape(log: Log, o: Row, j: nat, c: nat)
    requires Level(log, o, j, c)
    ensures o.attempt == j && o.counterOffer == Some(c) && o.settlement.Some? && c < |log|
  {
  }

  lemma {:induction false} Climb(from: State, s: State, w: nat, j: nat, c: nat, top: nat, d: nat) returns (t: State)
    requires CanReach(from, s) && LogOk(s.log) && !HasDirect(s.log) && s.row.status == Filling
    requires Level(s.log, s.row, j, c) && j <= top && CommandAt(s.log, d, top)
    requires forall i: nat | j <= i < top :: Posted(s, w, i)
    ensures CanReach(from, t) && t.log == s.log && t.row.status == Filling && Level(t.log, t.row, top, d)
    decreases top - j
  {
    LevelNames(s.log, s.row, j, c);
    if j == top {
      t := s;
    } else {
      assert Dead(s.log, c);
      NumbersBelow(s.log, d, top, j + 1);
      var u: nat :| u < |s.log| && CommandAt(s.log, u, j + 1);
      assert Posted(s, w, j);
      hide CanReach, Level, LogOk, HasDirect, Dead;
      t := ClimbsOne(from, s, w, j, c, u);
      forall i: nat | j + 1 <= i < top ensures Posted(t, w, i) { assert Posted(s, w, i); }
      hide Posted;
      t := Climb(from, t, w, j + 1, u, top, d);
    }
  }

  // ----- The second payment -----

  /** Both offers reach the user. */
  lemma BothAccepted(from: State, s: State, d: nat, e: nat)
    requires CanReach(from, s) && AcceptsOk(s.log) && IsOffer(s.log, d) && !Dead(s.log, d)
    requires CounterPending(s.log, e) && d != e
    ensures CanPayTwice(from)
  {
    var t, u := s, 0;
    if CounterAccepted(d) in s.log {
      u :| 0 <= u < |s.log| && s.log[u] == CounterAccepted(d);
    } else {
      assert CounterPending(s.log, d);
      hide CanReach;
      u := |s.log|;
      t := Next(from, s, UserAccepts(d));
    }
    assert CounterPending(t.log, e);
    hide CanReach;
    var v := |t.log|;
    var t' := Next(from, t, UserAccepts(e));
    assert t'.log[u] == CounterAccepted(d) && t'.log[v] == CounterAccepted(e);
    assert Delivers(t'.log, u) && Delivers(t'.log, v);
  }

  /** The repair writes the first offer, which is dead, over a row at a later number. */
  lemma RepairGoesBack(from: State, s: State, z: nat, top: nat, d: nat) returns (t: State)
    requires CanReach(from, s) && LogOk(s.log) && s.row.status == Filling && Level(s.log, s.row, top, d) && top > 0
    ensures CanReach(from, t) && t.log == s.log && t.pcs == s.pcs[z := Idle]
    ensures t.row.status == UserLocked && t.row.attempt == top && Cleared(t.row, t.log)
  {
    var f := s.row.settlement.value;
    assert CommandAt(s.log, f, 0) && Dead(s.log, f);
    var o := s.row;
    hide CanReach, LogOk, Level, Cleared;
    BackCleared(o, s.log, f, top, d);
    hide Dead, ApplyFill;
    t := Repairs(from, s, z, o, f);
  }

  lemma Repairs(from: State, s: State, z: nat, o: Row, f: nat) returns (t: State)
    requires CanReach(from, s) && s.row == o && o.status == Filling && CommandAt(s.log, f, 0)
    ensures CanReach(from, t) && t == Move(s.(row := ApplyFill(Loop, o, s.log, f)), z, Idle)
  {
    hide CanReach, ApplyFill;
    t := Frees(from, s, z);
    t := Next(from, t, Start(z, RepairFromLedger));
    assert t == Move(s, z, Repair(o));
    t := Next(from, t, Go(z, Found(f)));
    t := Next(from, t, Go(z, Proceed));
    assert t.pcs == s.pcs[z := Idle];
  }

  lemma BackCleared(o: Row, log: Log, f: nat, top: nat, d: nat)
    requires Level(log, o, top, d) && o.settlement == Some(f) && CommandAt(log, f, 0) && Dead(log, f)
    ensures Cleared(ApplyFill(Loop, o, log, f), log)
    ensures ApplyFill(Loop, o, log, f).status == UserLocked && ApplyFill(Loop, o, log, f).attempt == top
  {
  }

  /** A `filling` row at a number whose offer is not dead: the next number is paid as well. */
  lemma PaysAgain(from: State, s: State, z: nat, top: nat, d: nat)
    requires CanReach(from, s) && LogOk(s.log) && s.row.status == Filling && Level(s.log, s.row, top, d) && top > 0
    requires !Dead(s.log, d)
    ensures CanPayTwice(from)
  {
    NextIsFree(s.log, s.row, top, d);
    var t := RepairGoesBack(from, s, z, top, d);
    hide CanReach, LogOk, Cleared, Level, Dead, Committed;
    t := WaitAndReissue(from, t, z);
    TwoOffers(s.log, s.row, top, d);
    BothAccepted(from, t, d, |s.log|);
  }

  lemma NextIsFree(log: Log, o: Row, top: nat, d: nat)
    requires LogOk(log) && Level(log, o, top, d) && !Dead(log, d)
    ensures !Committed(log, top + 1)
  {
  }

  lemma TwoOffers(log: Log, o: Row, top: nat, d: nat)
    requires LogOk(log) && Level(log, o, top, d) && !Dead(log, d)
    ensures var log' := log + [Reissue(top + 1, Offered)];
      AcceptsOk(log') && IsOffer(log', d) && !Dead(log', d) && CounterPending(log', |log|) && d != |log|
  {
    var u := Reissue(top + 1, Offered);
    AppendKeepsAccepts(log, u);
    assert CounterAccepted(|log|) in log ==> IsOffer(log, |log|);
    assert CounterClosed(|log|) in log ==> IsOffer(log, |log|);
  }

  // ----- Every harmful re-read -----

  /** The worker goes on with a copy that waits for its offer, and the leg is not settled for good:
      neither accepted at the first offer nor paid directly. */
  ghost predicate Harmful(s: State, w: nat) {
    PcOf(s, w).FillReserved? && Proceeds(s, w) && IsLoopFillPendingCounterAccept(Loop, s.row)
    && !FirstAccepted(s.row, s.log) && !HasDirect(s.log)
  }

  lemma RereadLevel(s: State)
    requires Inv(Loop, s) && IsLoopFillPendingCounterAccept(Loop, s.row) && s.row.floatReserved
    ensures Level(s.log, s.row, s.row.attempt, s.row.counterOffer.value)
  {
    SettlementNotDirect(Loop, s.row, s.log);
    hide LogOk;
  }

  /** The filler takes the row with its old copy, whatever the row shows by then. */
  lemma TakesRow(from: State, s: State, w: nat, x: Row) returns (t: State)
    requires CanReach(from, s) && PcOf(s, w) == FillReady(x) && x.status == UserLocked && s.row.status == UserLocked
    ensures CanReach(from, t) && t == Move(s.(row := x.(status := Filling)), w, FillOwned(x.(status := Filling)))
  {
    hide CanReach;
    t := Next(from, s, Go(w, Proceed));
  }

  lemma FillingLevel(log: Log, log': Log, x: Row, j: nat, c: nat)
    requires Level(log, x, j, c) && log <= log'
    ensures Level(log', x.(status := Filling), j, c)
  {
  }

  /** A copy whose offer is dead: post workers up to the newest number, take the row back, climb. */
  lemma DeadCopyPaysTwice(from: State, s: State, w: nat, x: Row, c: nat)
    requires CanReach(from, s) && LogOk(s.log) && !HasDirect(s.log) && PcOf(s, w) == FillReady(x) && s.row == x
    requires x.status == UserLocked && Level(s.log, x, x.attempt, c) && Dead(s.log, c)
    ensures CanPayTwice(from)
  {
    var f := x.settlement.value;
    var n := HighestExists(s.log, |s.log|) by { assert CommandAt(s.log, f, 0); }
    var k := x.attempt;
    assert Armed(s, w, x, k) && Highest(s.log, n) && k <= n;
    hide CanReach, CanPayTwice, LogOk, HasDirect, Level, Highest, Dead;
    var t, top, d := Ascend(from, s, w, x, k, c, n);
    LevelNames(t.log, t.row, top, d);
    ghost var high := t;
    t := TakesRow(from, t, w, x);
    FillingLevel(s.log, t.log, x, k, c);
    forall i: nat | k <= i < top ensures Posted(t, w, i) { assert Posted(high, w, i); }
    hide Posted;
    t := Climb(from, t, w, k, c, top, d);
    PaysAgain(from, t, w + 2, top, d);
  }

  /** A copy at a later number whose offer is not dead: take the row back and repair it. */
  lemma LiveCopyPaysTwice(from: State, s: State, w: nat, x: Row, c: nat)
    requires CanReach(from, s) && LogOk(s.log) && PcOf(s, w) == FillReady(x) && s.row == x && x.attempt > 0
    requires x.status == UserLocked && Level(s.log, x, x.attempt, c) && !Dead(s.log, c)
    ensures CanPayTwice(from)
  {
    hide CanReach, CanPayTwice, LogOk, Level, Dead;
    var t := TakesRow(from, s, w, x);
    FillingLevel(s.log, t.log, x, x.attempt, c);
    PaysAgain(from, t, w + 2, x.attempt, c);
  }

  lemma HarmfulPaysTwice(s: State, w: nat)
    requires Inv(Loop, s) && Harmful(s, w)
    ensures CanPayTwice(AtFillReserved(s, w, PcOf(s, w).status))
  {
    RereadLevel(s);
    var x, c := s.row, s.row.counterOffer.value;
    var s1 := AtFillReserved(s, w, PcOf(s, w).status);
    assert s1 == Move(s, w, FillReady(x));
    Stays(s1);
    hide CanReach, CanPayTwice, Level, CopyOk, PcOk, HasDirect;
    if Dead(s.log, c) {
      DeadCopyPaysTwice(s1, s1, w, x, c);
    } else if x.attempt > 0 {
      LiveCopyPaysTwice(s1, s1, w, x, c);
    } else {
      ClosesFirst(s1, w, x, c);
    }
  }

  /** A pending first offer may close. */
  lemma ClosesFirst(s: State, w: nat, x: Row, c: nat)
    requires CanReach(s, s) && LogOk(s.log) && !HasDirect(s.log) && PcOf(s, w) == FillReady(x) && s.row == x
    requires x.status == UserLocked && Level(s.log, x, x.attempt, c) && !Dead(s.log, c)
    requires CounterAccepted(c) !in s.log
    ensures CanPayTwice(s)
  {
    assert CounterPending(s.log, c);
    AppendPlain(s.log, CounterClosed(c));
    LevelStays(s.log, s.log + [CounterClosed(c)], x, x.attempt, c);
    NoDirectMore(s.log, CounterClosed(c));
    hide CanReach, CanPayTwice, Level, LogOk, HasDirect, Extends;
    var t := Next(s, s, CounterCloses(c));
    assert Dead(t.log, c) by { assert t.log[|s.log|] == CounterClosed(c); }
    DeadCopyPaysTwice(s, t, w, x, c);
  }

  lemma NoDirectMore(log: Log, u: Update)
    requires !HasDirect(log) && !IsCommand(u)
    ensures !HasDirect(log + [u])
  {
    var log' := log + [u];
    forall i: nat | i < |log'| ensures !IsDirect(log', i) {
      if i < |log| { assert !IsDirect(log, i); }
    }
  }

  // ----- The condition is exact -----

  lemma CarefulStepIsSafe(mode: WalletMode, s: State, l: Label)
    requires Secured(mode, s) && Step(mode, s, l).Some? && Careful(mode, false, s, l)
    ensures mode == Loop ==> !CanPayTwice(Step(mode, s, l).value)
  {
    hide Step, Careful, Secured;
    StepSecures(mode, s, l);
    if mode == Loop {
      var s1 := Step(mode, s, l).value;
      forall t: State, u: nat, v: nat | CanReach(s1, t) && Delivers(t.log, u) && Delivers(t.log, v) ensures u == v {
        var labels :| Run(Loop, s1, labels) == Some(t) && Clean(Loop, false, s1, labels);
        hide Run, Clean;
        RunSecures(Loop, s1, labels);
        SecuredLog(Loop, t);
        DeliveryUnique(t.log, u, v);
      }
    }
  }

  /** The condition is exact: after any careful past, a step opens a careful continuation in which
      the leg is paid twice if and only if it is a harmful re-read. */
  lemma CarefulIsExact(s: State, l: Label)
    requires CarefullyReachable(Loop, s) && Step(Loop, s, l).Some?
    ensures CanPayTwice(Step(Loop, s, l).value) <==> l.Go? && Harmful(s, l.w)
  {
    CarefullySecured(Loop, s);
    hide CarefullyReachable, CanPayTwice, Inv, Step, Frozen, LogOk, FirstAccepted, Proceeds;
    if Careful(Loop, false, s, l) {
      CarefulStepIsSafe(Loop, s, l);
    } else {
      InvOrDirect(s);
      FillReservedStep(Loop, s, l);
      HarmfulPaysTwice(s, l.w);
    }
  }

  lemma InvOrDirect(s: State)
    requires Secured(Loop, s)
    ensures Inv(Loop, s) || HasDirect(s.log)
  {
    hide LogOk, CopyOk, PcOk, CopyCold, PcCold;
  }

  // ----- Harmful re-reads are there to be taken -----

  /** The order after a fill attempt that did not go through: sell leg bound, no float. */
  const Unreserved := NewRow.(status := UserLocked, userLeg := Some(0))

  lemma Confirmed() returns (t: State)
    ensures CanReach(Init, t) && t == State(Unreserved.(floatReserved := true), [UserOffer], 0, map[0 := Idle])
  {
    Stays(Init);
    hide CanReach;
    t := Next(Init, Init, UserOffers);
    t := Next(Init, t, Start(0, ConfirmUserLeg(0)));
    t := Next(Init, t, Go(0, Proceed));
  }

  /** fillLoop takes a reserved order to the point where it submits. */
  lemma TakesOrder(s: State, w: nat, o: Row) returns (t: State)
    requires CanReach(Init, s) && s.row == o && o.status == UserLocked && PcOf(s, w) == FillReady(o)
    ensures CanReach(Init, t)
    ensures t == State(o.(status := Filling), s.log, s.now, s.pcs[w := FillSubmit(o.(status := Filling))])
  {
    hide CanReach, ApplyFill;
    t := TakesRow(Init, s, w, o);
    t := Next(Init, t, Go(w, Missed));
    assert t.pcs == s.pcs[w := FillSubmit(o.(status := Filling))];
  }

  /** The submission fails for good, and the sweep opens the order again. */
  lemma FailsAndReopens(s: State, w: nat, o: Row) returns (t: State)
    requires CanReach(Init, s) && s.row == o && o.status == Filling && o.userLeg.Some? && PcOf(s, w) == FillSubmit(o)
    ensures CanReach(Init, t)
    ensures t == State(o.(status := UserLocked, floatReserved := false), s.log, s.now, s.pcs[w := Idle])
  {
    hide CanReach;
    t := Fails(s, w, o);
    t := Reopens(t, w);
    assert t.pcs == s.pcs[w := Idle];
  }

  lemma Fails(s: State, w: nat, o: Row) returns (t: State)
    requires CanReach(Init, s) && s.row == o && o.status == Filling && PcOf(s, w) == FillSubmit(o)
    ensures CanReach(Init, t)
    ensures t == State(o.(status := Failed, floatReserved := false), s.log, s.now, s.pcs[w := Idle])
  {
    hide CanReach;
    t := Next(Init, s, Go(w, Terminal));
    t := Next(Init, t, Go(w, Give));
    t := Next(Init, t, Go(w, Proceed));
    assert t.pcs == s.pcs[w := Idle];
  }

  lemma Reopens(s: State, w: nat) returns (t: State)
    requires CanReach(Init, s) && s.row.status == Failed && s.row.userLeg.Some? && PcOf(s, w) == Idle
    ensures CanReach(Init, t) && t == s.(row := s.row.(status := UserLocked), pcs := s.pcs[w := Idle])
  {
    hide CanReach;
    t := Next(Init, s, Start(w, RepairFromLedger));
    t := Next(Init, t, Go(w, Missed));
    t := Next(Init, t, Go(w, Proceed));
    assert t.pcs == s.pcs[w := Idle];
  }

  lemma ToUnreserved() returns (t: State)
    ensures CanReach(Init, t) && t == State(Unreserved, [UserOffer], 0, map[0 := Idle])
  {
    t := Confirmed();
    hide CanReach;
    var o := t.row;
    t := Next(Init, t, Start(0, FillLoop));
    t := Next(Init, t, Go(0, Proceed));
    t := TakesOrder(t, 0, o);
    t := FailsAndReopens(t, 0, t.row);
    assert t.row == Unreserved;
  }

  lemma FillCommits(s: State, w: nat) returns (t: State)
    requires CanReach(Init, s) && s.log == [UserOffer] && s.row.status == Filling && s.row.userLeg == Some(0)
    requires PcOf(s, w) == FillSubmit(s.row)
    ensures CanReach(Init, t) && t.log == [UserOffer, Fill(0, Offered)] && t.pcs == s.pcs[w := Idle]
    ensures t.row == ApplyFill(Loop, s.row, t.log, 1)
  {
    hide CanReach;
    t := Next(Init, s, Go(w, Commit(Offered)));
    t := Next(Init, t, Go(w, Proceed));
    assert t.pcs == s.pcs[w := Idle];
  }

  /** Worker 1 reserves float for an order that worker 2 filled in the meantime. */
  lemma HarmfulRereadOccurs() returns (t: State)
    ensures CarefullyReachable(Loop, t) && Harmful(t, 1)
  {
    t := ToUnreserved();
    hide CanReach, ApplyFill;
    t := Next(Init, t, Start(1, FillLoop));
    t := Next(Init, t, Start(2, FillLoop));
    t := Next(Init, t, Go(2, Proceed));
    t := Next(Init, t, Go(2, Proceed));
    t := TakesOrder(t, 2, t.row);
    t := FillCommits(t, 2);
    t := ReservesLate(t);
  }

  lemma ReservesLate(s: State) returns (t: State)
    requires CanReach(Init, s) && PcOf(s, 1) == FillChecked(Unreserved) && s.log == [UserOffer, Fill(0, Offered)]
    requires s.row == ApplyFill(Loop, Unreserved.(status := Filling, floatReserved := true), s.log, 1)
    ensures CarefullyReachable(Loop, t) && Harmful(t, 1)
  {
    hide CanReach;
    t := Next(Init, s, Go(1, Proceed));
    assert CarefullyReachable(Loop, t) by { Reached(t); }
  }

  lemma Reached(t: State)
    requires CanReach(Init, t)
    ensures CarefullyReachable(Loop, t)
  {
  }
}
