/** Finding a claim on the EVM chain: a binary search for the block to start from, and log
    queries in chunks small enough for public RPC nodes.

    `chain` is the timestamp of every block up to the tip; `claims` are the Claimed events of
    one hash on the escrow, oldest first. */
module EvmScan {
  import opened Wrappers

  datatype Claim = Claim(block: nat, tx: string)

  const CHUNK: nat := 1990

  ghost predicate NonDecreasing(chain: seq<nat>) {
    forall i, j | 0 <= i <= j < |chain| :: chain[i] <= chain[j]
  }

  ghost predicate ByBlock(claims: seq<Claim>) {
    forall i, j | 0 <= i <= j < |claims| :: claims[i].block <= claims[j].block
  }

  /** eth_getLogs over [from, to], in log order. */
  function GetLogs(claims: seq<Claim>, from: nat, to: int): seq<Claim> {
    if claims == [] then []
    else
      var rest := GetLogs(claims[1..], from, to);
      if from <= claims[0].block <= to then [claims[0]] + rest else rest
  }

  /** Block `b` is where a scan for events after `time` may start: everything after it is
      later than `time`, and it is not, unless it is block 0. */
  ghost predicate IsAnchor(chain: seq<nat>, time: nat, b: nat) {
    && b < |chain| && (chain[b] <= time || b == 0)
    && forall later | b < later < |chain| :: chain[later] > time
  }

  function ClampTime(seconds: int): nat {
    if seconds > 0 then seconds else 0
  }

  /** evmBlockAtOrBeforeUnixTime */
  method BlockAtOrBefore(chain: seq<nat>, timestampSeconds: int) returns (lo: nat)
    requires |chain| > 0 && NonDecreasing(chain)
    ensures IsAnchor(chain, ClampTime(timestampSeconds), lo)
  {
    lo := 0;
    var hi := |chain| - 1;
    var target := ClampTime(timestampSeconds);
    while lo < hi
      invariant 0 <= lo <= hi < |chain|
      invariant lo == 0 || chain[lo] <= target
      invariant forall b | hi < b < |chain| :: chain[b] > target
    {
      var mid := (lo + hi + 1) / 2;
      if chain[mid] <= target { lo := mid; } else { hi := mid - 1; }
    }
  }

  predicate Within(c: Claim, from: int, to: int) {
    from <= c.block <= to
  }

  /** The chunks the loop asks for, one after the other. */
  function Chunks(from: nat, tip: nat): seq<(nat, nat)>
    decreases if from <= tip then tip - from + 1 else 0
  {
    if from > tip then []
    else
      var to := if from + CHUNK - 1 > tip then tip else from + CHUNK - 1;
      [(from, to)] + Chunks(to + 1, tip)
  }

  lemma {:induction false} ChunksInside(from: nat, tip: nat)
    ensures forall c :: c in Chunks(from, tip) ==> from <= c.0 <= c.1 <= tip && c.1 < c.0 + CHUNK
    decreases if from <= tip then tip - from + 1 else 0
  {
    if from <= tip {
      var to := if from + CHUNK - 1 > tip then tip else from + CHUNK - 1;
      ChunksInside(to + 1, tip);
    }
  }

  lemma {:induction false} ChunksOrdered(from: nat, tip: nat, i: nat, j: nat)
    requires i < j < |Chunks(from, tip)|
    ensures Chunks(from, tip)[i].1 < Chunks(from, tip)[j].0
    decreases if from <= tip then tip - from + 1 else 0
  {
    var to := if from + CHUNK - 1 > tip then tip else from + CHUNK - 1;
    if i == 0 {
      ChunksInside(to + 1, tip);
      assert Chunks(from, tip)[j] == Chunks(to + 1, tip)[j - 1];
    } else {
      ChunksOrdered(to + 1, tip, i - 1, j - 1);
    }
  }

  lemma {:induction false} ChunkOf(from: nat, tip: nat, b: nat) returns (i: nat)
    requires from <= b <= tip
    ensures i < |Chunks(from, tip)| && InChunk(Chunks(from, tip)[i], b)
    decreases tip - from
  {
    var to := if from + CHUNK - 1 > tip then tip else from + CHUNK - 1;
    if b <= to {
      i := 0;
    } else {
      var k := ChunkOf(to + 1, tip, b);
      i := k + 1;
    }
  }

  /** Every block from `from` to the tip lies in exactly one chunk, and no other block does. */
  lemma ChunksCoverOnce(from: nat, tip: nat, b: nat)
    ensures from <= b <= tip <==> exists i | 0 <= i < |Chunks(from, tip)| :: InChunk(Chunks(from, tip)[i], b)
    ensures forall i, j | 0 <= i < |Chunks(from, tip)| && 0 <= j < |Chunks(from, tip)| ::
              InChunk(Chunks(from, tip)[i], b) && InChunk(Chunks(from, tip)[j], b) ==> i == j
  {
    hide Chunks;
    ChunksInside(from, tip);
    if from <= b <= tip { var i := ChunkOf(from, tip, b); }
    forall i, j | 0 <= i < |Chunks(from, tip)| && 0 <= j < |Chunks(from, tip)|
                  && InChunk(Chunks(from, tip)[i], b) && InChunk(Chunks(from, tip)[j], b)
      ensures i == j
    {
      if i < j { ChunksOrdered(from, tip, i, j); }
      if j < i { ChunksOrdered(from, tip, j, i); }
    }
  }

  predicate InChunk(chunk: (nat, nat), b: nat) {
    chunk.0 <= b <= chunk.1
  }

  lemma NewestOfTail(claims: seq<Claim>, from: nat, to: int, k: nat)
    requires claims != [] && IsNewest(claims[1..], from, to, k)
    ensures IsNewest(claims, from, to, k + 1)
  {
    forall j | k + 1 < j < |claims| ensures !Within(claims[j], from, to) { assert claims[j] == claims[1..][j - 1]; }
  }

  lemma NoneInTail(claims: seq<Claim>, from: nat, to: int)
    requires claims != [] && forall i | 0 <= i < |claims[1..]| :: !Within(claims[1..][i], from, to)
    ensures forall i | 0 < i < |claims| :: !Within(claims[i], from, to)
  {
    forall i | 0 < i < |claims| ensures !Within(claims[i], from, to) { assert claims[i] == claims[1..][i - 1]; }
  }

  /** The last log of a range is its newest claim. */
  lemma {:induction false} LogsAreClaims(claims: seq<Claim>, from: nat, to: int)
    ensures GetLogs(claims, from, to) == [] <==> forall i | 0 <= i < |claims| :: !Within(claims[i], from, to)
    ensures GetLogs(claims, from, to) != [] ==>
              exists k | 0 <= k < |claims| :: IsNewest(claims, from, to, k)
                && GetLogs(claims, from, to)[|GetLogs(claims, from, to)| - 1] == claims[k]
  {
    if claims != [] {
      var tail := claims[1..];
      LogsAreClaims(tail, from, to);
      var rest := GetLogs(tail, from, to);
      if rest != [] {
        var k :| 0 <= k < |tail| && IsNewest(tail, from, to, k) && rest[|rest| - 1] == tail[k];
        NewestOfTail(claims, from, to, k);
        assert claims[k + 1] == tail[k];
        assert Within(claims[k + 1], from, to);
      } else {
        NoneInTail(claims, from, to);
        if Within(claims[0], from, to) { assert IsNewest(claims, from, to, 0); }
      }
    }
  }

  /** The newest claim in a range of blocks. */
  ghost predicate IsNewest(claims: seq<Claim>, from: int, to: int, k: nat) {
    k < |claims| && Within(claims[k], from, to) && forall j | k < j < |claims| :: !Within(claims[j], from, to)
  }

  /** hasEvmClaimedForHashLock; `asked` are the ranges it queries: all of them unless it finds a
      claim, and then the last one has it. */
  method HasClaimed(claims: seq<Claim>, tip: nat, fromBlock: int) returns (r: bool, ghost asked: seq<(nat, nat)>)
    requires ByBlock(claims)
    ensures r <==> exists i | 0 <= i < |claims| :: Within(claims[i], fromBlock, tip)
    ensures asked <= Chunks(ClampTime(fromBlock), tip) && (!r ==> asked == Chunks(ClampTime(fromBlock), tip))
    ensures r ==> asked != [] && GetLogs(claims, asked[|asked| - 1].0, asked[|asked| - 1].1) != []
  {
    hide Chunks, GetLogs;
    var from := ClampTime(fromBlock);
    asked := [];
    while from <= tip
      invariant forall i | 0 <= i < |claims| :: !Within(claims[i], ClampTime(fromBlock), from - 1)
      invariant from >= ClampTime(fromBlock)
      invariant asked + Chunks(from, tip) == Chunks(ClampTime(fromBlock), tip)
      decreases tip + CHUNK - from
    {
      var to := if from + CHUNK - 1 > tip then tip else from + CHUNK - 1;
      LogsAreClaims(claims, from, to);
      NextChunk(from, tip);
      assert (asked + [(from, to)]) + Chunks(to + 1, tip) == asked + ([(from, to)] + Chunks(to + 1, tip));
      asked := asked + [(from, to)];
      var logs := GetLogs(claims, from, to);
      if |logs| > 0 { return true, asked; }
      from := to + 1;
    }
    assert asked + [] == asked && Chunks(from, tip) == [] by { NoChunk(from, tip); }
    r := false;
  }

  /** `tx` is the newest claim in the range, None if there is none. */
  ghost predicate FoundNewest(claims: seq<Claim>, from: int, to: int, tx: Option<string>) {
    && (tx.None? <==> forall i | 0 <= i < |claims| :: !Within(claims[i], from, to))
    && (tx.Some? ==> exists k | 0 <= k < |claims| :: IsNewest(claims, from, to, k) && tx.value == claims[k].tx)
  }

  /** findEvmClaimTxForHashLock; `asked` are the ranges it queries. */
  method FindClaim(claims: seq<Claim>, tip: nat, fromBlock: int)
    returns (lastTx: Option<string>, ghost asked: seq<(nat, nat)>)
    requires ByBlock(claims)
    ensures FoundNewest(claims, fromBlock, tip, lastTx)
    ensures asked == Chunks(ClampTime(fromBlock), tip)
  {
    hide FoundNewest, Chunks, GetLogs;
    var from := ClampTime(fromBlock);
    NothingYet(claims, from);
    lastTx, asked := None, [];
    while from <= tip
      invariant ClampTime(fromBlock) <= from && (from <= tip + 1 || from == ClampTime(fromBlock))
      invariant asked + Chunks(from, tip) == Chunks(ClampTime(fromBlock), tip)
      invariant FoundNewest(claims, ClampTime(fromBlock), from - 1, lastTx)
      decreases tip + CHUNK - from
    {
      var to := if from + CHUNK - 1 > tip then tip else from + CHUNK - 1;
      var logs := GetLogs(claims, from, to);
      FoundInChunk(claims, ClampTime(fromBlock), from, to, lastTx);
      NextChunk(from, tip);
      assert (asked + [(from, to)]) + Chunks(to + 1, tip) == asked + ([(from, to)] + Chunks(to + 1, tip));
      asked := asked + [(from, to)];
      if |logs| > 0 { lastTx := Some(logs[|logs| - 1].tx); }
      from := to + 1;
    }
    EmptyRange(claims, ClampTime(fromBlock), from, tip, lastTx);
    BlocksAreNat(claims, fromBlock, tip, lastTx);
    assert asked + [] == asked && Chunks(from, tip) == [] by { NoChunk(from, tip); }
  }

  lemma NextChunk(from: nat, tip: nat)
    requires from <= tip
    ensures var to := if from + CHUNK - 1 > tip then tip else from + CHUNK - 1;
      Chunks(from, tip) == [(from, to)] + Chunks(to + 1, tip)
  {
  }

  lemma NoChunk(from: nat, tip: nat)
    requires from > tip
    ensures Chunks(from, tip) == []
  {
  }

  /** Blocks are numbered from zero, so a start below zero is the start at zero. */
  lemma BlocksAreNat(claims: seq<Claim>, fromBlock: int, tip: nat, tx: Option<string>)
    requires FoundNewest(claims, ClampTime(fromBlock), tip, tx)
    ensures FoundNewest(claims, fromBlock, tip, tx)
  {
    assert forall i | 0 <= i < |claims| :: Within(claims[i], fromBlock, tip) <==> Within(claims[i], ClampTime(fromBlock), tip);
    assert forall k: nat :: IsNewest(claims, ClampTime(fromBlock), tip, k) ==> IsNewest(claims, fromBlock, tip, k);
  }

  lemma NothingYet(claims: seq<Claim>, from: nat)
    ensures FoundNewest(claims, from, from - 1, None)
  {
  }

  /** A start beyond the tip leaves the range empty. */
  lemma EmptyRange(claims: seq<Claim>, start: nat, from: nat, tip: nat, tx: Option<string>)
    requires FoundNewest(claims, start, from - 1, tx) && from > tip && (from == tip + 1 || from == start)
    ensures FoundNewest(claims, start, tip, tx)
  {
  }

  /** One more chunk: its newest claim, or the old one when it has none. */
  lemma FoundInChunk(claims: seq<Claim>, start: nat, from: nat, to: int, tx: Option<string>)
    requires ByBlock(claims) && start <= from && from - 1 <= to && FoundNewest(claims, start, from - 1, tx)
    ensures var logs := GetLogs(claims, from, to);
      FoundNewest(claims, start, to, if |logs| > 0 then Some(logs[|logs| - 1].tx) else tx)
  {
    LogsAreClaims(claims, from, to);
    WiderRange(claims, start, from, to);
  }

  /** Adding a chunk: the newest claim is the chunk's, or the old one when the chunk has none. */
  lemma WiderRange(claims: seq<Claim>, start: nat, from: nat, to: int)
    requires start <= from && from - 1 <= to
    ensures forall k: nat :: IsNewest(claims, from, to, k) && ByBlock(claims) ==> IsNewest(claims, start, to, k)
    ensures (forall i | 0 <= i < |claims| :: !Within(claims[i], from, to)) ==>
              forall k: nat :: IsNewest(claims, start, from - 1, k) ==> IsNewest(claims, start, to, k)
    ensures forall i | 0 <= i < |claims| ::
              Within(claims[i], start, to) <==> Within(claims[i], start, from - 1) || Within(claims[i], from, to)
  {
  }

  /** The composed check of assertEvmCounterNotClaimed without a recorded lock transaction:
      true exactly when a claim lies at or after the anchor block of the time. */
  method ClaimedSince(chain: seq<nat>, claims: seq<Claim>, seconds: int) returns (r: bool, ghost anchor: nat)
    requires |chain| > 0 && NonDecreasing(chain) && ByBlock(claims)
    ensures IsAnchor(chain, ClampTime(seconds), anchor)
    ensures r <==> exists i | 0 <= i < |claims| :: anchor <= claims[i].block < |chain|
    ensures (exists i | 0 <= i < |claims| :: claims[i].block < |chain| && chain[claims[i].block] > seconds
                                             && chain[claims[i].block] > 0) ==> r
  {
    var from := BlockAtOrBefore(chain, seconds);
    anchor := from;
    var claimed, _ := HasClaimed(claims, |chain| - 1, from);
    r := claimed;
    forall i | 0 <= i < |claims| && claims[i].block < |chain| && chain[claims[i].block] > ClampTime(seconds)
      ensures Within(claims[i], from, |chain| - 1)
    {
      LaterIsAfterAnchor(chain, ClampTime(seconds), from, claims[i].block);
    }
    assert forall i | 0 <= i < |claims| :: Within(claims[i], from, |chain| - 1) <==> from <= claims[i].block < |chain|;
  }

  lemma LaterIsAfterAnchor(chain: seq<nat>, time: nat, anchor: nat, b: nat)
    requires NonDecreasing(chain) && IsAnchor(chain, time, anchor) && b < |chain| && chain[b] > time
    ensures anchor <= b
  {
  }

  /** The anchor is the only block of its kind. */
  lemma AnchorUnique(chain: seq<nat>, time: nat, a: nat, b: nat)
    requires NonDecreasing(chain) && IsAnchor(chain, time, a) && IsAnchor(chain, time, b)
    ensures a == b
  {
  }
}
