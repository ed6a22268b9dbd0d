/** The status graph of a reverse order: every run, every stale copy, no assumption. */
module HtlcReverseEdges {
  import opened Wrappers
  import opened HtlcReverseMachine
  import HtlcReverseSafety
  import opened HtlcCommands

  predicate Refundable(st: Status) {
    st == MainLocked || st == CounterLocking || st == CounterLocked || st == CounterClaimed || st == Refunding
    || st == Failed
  }

  predicate Edge(from: Status, to: Status) {
    HtlcReverseSafety.WriteEdge(from, to)
    || (from == Accepted && to == MainLocking)
    || (from == CounterLocking && to == MainLocked)
    || (Refundable(from) && to == Refunding)
    || (from == Refunding && (to == Refunded || Refundable(to)))
    || ((from == MainLocked || from == CounterLocked) && to == Refunded)
  }

  predicate Terminal(st: Status) {
    st == MainClaimed || st == Refunded || st == Cancelled
  }

  /** What a worker's copy can turn the row into. */
  ghost predicate PcEdge(pc: Pc) {
    match pc
    case Write(o, expected) => HtlcReverseSafety.WriteEdge(expected, o.status)
    case Confirming(o) => o.status == MainLocking
    case LateLock(_) | LateScan(_) | EarlyLock(_) | RefundCas(_, _) => Refundable(pc.o.status)
    case RefundSubmit(_, prev, _) => Refundable(prev)
    case RefundWrite(o, _) => o.status == Refunded || Refundable(o.status)
    case ClaimScan(o) => o.status == CounterClaimed || o.status == CounterLocked
    case ClaimReveal(o, expected) =>
      o.status == CounterClaimed && (expected == CounterClaimed || expected == CounterLocked)
    case ClaimSubmit(o) => o.status == CounterClaimed
    case LockCheck(o) => o.status == CounterLocking || o.status == MainLocked
    case RecordScan(_) | Phantom(_) | PhantomScan(_) | Retake(_) | RetakeWrite(_) => pc.o.status == CounterLocked
    case Mark(o) => o.status == MainLocked || o.status == CounterLocked
    case Patch(o) => o.status == MainClaimed
    case _ => true
  }

  ghost predicate CopiesOk(s: State) {
    forall w | w in s.pcs :: PcEdge(s.pcs[w])
  }

  lemma StepEdge(cfg: Config, s: State, l: Label)
    requires CopiesOk(s) && Step(cfg, s, l).Some?
    ensures CopiesOk(Step(cfg, s, l).value)
    ensures s.row.status == Step(cfg, s, l).value.row.status || Edge(s.row.status, Step(cfg, s, l).value.row.status)
  {
    match l
    case Go(w, ch) => GoEdge(cfg, s, w, ch);
    case _ => hide StepGo;
  }

  lemma GoEdge(cfg: Config, s: State, w: nat, ch: Choice)
    requires CopiesOk(s) && StepGo(cfg, s, w, ch).Some?
    ensures CopiesOk(StepGo(cfg, s, w, ch).value)
    ensures s.row.status == StepGo(cfg, s, w, ch).value.row.status
            || Edge(s.row.status, StepGo(cfg, s, w, ch).value.row.status)
  {
    assert PcEdge(PcOf(s, w));
    StepFramed(cfg, s, Go(w, ch));
    if Writer(PcOf(s, w)) { WriterEdge(cfg, s, w, ch); }
    else if Submitter(PcOf(s, w)) { SubmitterEdge(cfg, s, w, ch); }
    else if LockReader(PcOf(s, w)) { LockReaderEdge(cfg, s, w, ch); }
    else { ScannerEdge(cfg, s, w, ch); }
    hide StepGo, PcEdge, Edge;
  }

  /** The step led worker `w` to a point its copy fits, along an edge. */
  ghost predicate StepOk(s: State, s': State, w: nat) {
    PcEdge(PcOf(s', w)) && (s'.row.status == s.row.status || Edge(s.row.status, s'.row.status))
  }

  lemma WriterEdge(cfg: Config, s: State, w: nat, ch: Choice)
    requires PcEdge(PcOf(s, w)) && StepGo(cfg, s, w, ch).Some? && Writer(PcOf(s, w))
    ensures StepOk(s, StepGo(cfg, s, w, ch).value, w)
  {
    hide ClaimSeen, Live, IsEvent, IsUpdate, IsCustody, CanRefund, CanClaim, AtConfirming, AtRefundSubmit,
         AtClaimSubmit, AtLateLock, AtLateScan, AtEarlyLock, AtPhantom, AtPhantomScan, AtClaimReload,
         AtClaimScan, AtRecordScan, AtLockCheck, AtRetake, AtPatch;
  }

  lemma ConfirmingEdge(cfg: Config, s: State, w: nat, o: Row, ch: Choice)
    requires PcEdge(Confirming(o)) && AtConfirming(cfg, s, w, o, ch).Some?
    ensures StepOk(s, AtConfirming(cfg, s, w, o, ch).value, w)
  {
  }

  lemma RefundSubmitEdge(cfg: Config, s: State, w: nat, o: Row, prev: Status, e: Entry, ch: Choice)
    requires PcEdge(RefundSubmit(o, prev, e)) && AtRefundSubmit(cfg, s, w, o, prev, e, ch).Some?
    ensures StepOk(s, AtRefundSubmit(cfg, s, w, o, prev, e, ch).value, w)
  {
  }

  lemma ClaimSubmitEdge(cfg: Config, s: State, w: nat, o: Row, ch: Choice)
    requires PcEdge(ClaimSubmit(o)) && AtClaimSubmit(cfg, s, w, o, ch).Some?
    ensures StepOk(s, AtClaimSubmit(cfg, s, w, o, ch).value, w)
  {
  }

  lemma SubmitterEdge(cfg: Config, s: State, w: nat, ch: Choice)
    requires PcEdge(PcOf(s, w)) && StepGo(cfg, s, w, ch).Some? && Submitter(PcOf(s, w))
    ensures StepOk(s, StepGo(cfg, s, w, ch).value, w)
  {
    hide AtConfirming, AtRefundSubmit, AtClaimSubmit, StepOk, PcEdge;
    match PcOf(s, w) {
      case Confirming(o) => ConfirmingEdge(cfg, s, w, o, ch);
      case RefundSubmit(o, prev, e) => RefundSubmitEdge(cfg, s, w, o, prev, e, ch);
      case ClaimSubmit(o) => ClaimSubmitEdge(cfg, s, w, o, ch);
    }
  }

  lemma LockReaderEdge(cfg: Config, s: State, w: nat, ch: Choice)
    requires PcEdge(PcOf(s, w)) && StepGo(cfg, s, w, ch).Some? && LockReader(PcOf(s, w))
    ensures StepOk(s, StepGo(cfg, s, w, ch).value, w)
  {
    hide ClaimSeen, Live, IsEvent, IsUpdate, IsCustody, CanRefund, CanClaim, AtRefundCas, AtClaimReveal,
         AtRetakeWrite, AtMark, AtConfirming, AtRefundSubmit, AtClaimSubmit, AtClaimScan, AtRecordScan,
         AtLockCheck, AtRetake, AtPatch;
  }

  lemma ScannerEdge(cfg: Config, s: State, w: nat, ch: Choice)
    requires PcEdge(PcOf(s, w)) && StepGo(cfg, s, w, ch).Some?
    requires !Writer(PcOf(s, w)) && !Submitter(PcOf(s, w)) && !LockReader(PcOf(s, w))
    ensures StepOk(s, StepGo(cfg, s, w, ch).value, w)
  {
    hide ClaimSeen, Live, IsEvent, IsUpdate, IsCustody, CanRefund, CanClaim, AtRefundCas, AtClaimReveal,
         AtRetakeWrite, AtMark, AtConfirming, AtRefundSubmit, AtClaimSubmit, AtLateLock, AtLateScan,
         AtEarlyLock, AtPhantom, AtPhantomScan, AtClaimReload;
  }

  /** In every run, however stale the copies: each status change is an edge of the graph. */
  lemma {:induction false} StatusFollowsEdges(cfg: Config, labels: seq<Label>, l: Label)
    requires Run(cfg, Init, labels).Some? && Step(cfg, Run(cfg, Init, labels).value, l).Some?
    ensures var s := Run(cfg, Init, labels).value; var s' := Step(cfg, s, l).value;
      s'.row.status == s.row.status || Edge(s.row.status, s'.row.status)
  {
    hide Step, Run;
    RunCopies(cfg, Init, labels);
    StepEdge(cfg, Run(cfg, Init, labels).value, l);
  }

  lemma {:induction false} RunCopies(cfg: Config, s: State, labels: seq<Label>)
    requires CopiesOk(s) && Run(cfg, s, labels).Some?
    ensures CopiesOk(Run(cfg, s, labels).value)
    ensures Terminal(s.row.status) ==> Run(cfg, s, labels).value.row.status == s.row.status
    decreases labels
  {
    hide Step, CopiesOk;
    if labels != [] {
      StepEdge(cfg, s, labels[0]);
      RunCopies(cfg, Step(cfg, s, labels[0]).value, labels[1..]);
    }
  }

  /** `main_claimed`, `refunded` and `cancelled` are for ever. */
  lemma TerminalIsAbsorbing(cfg: Config, labels: seq<Label>, more: seq<Label>)
    requires Run(cfg, Init, labels).Some? && Run(cfg, Run(cfg, Init, labels).value, more).Some?
    requires Terminal(Run(cfg, Init, labels).value.row.status)
    ensures Run(cfg, Run(cfg, Init, labels).value, more).value.row.status == Run(cfg, Init, labels).value.row.status
  {
    hide Step, Run;
    RunCopies(cfg, Init, labels);
    RunCopies(cfg, Run(cfg, Init, labels).value, more);
  }
}
