/** The part of the Canton ledger one same-Canton swap order can see.

    The ledger is an append-only log. An update id is the index of the update, a
    contract id is the index of the update that created the contract, and the offset
    of update `i` is `i + 1` (offsets are positive, scans begin exclusively). */
module CantonSwapLedger {

  /** A vault transfer either reaches the user at once or leaves a pending offer. */
  datatype Outcome = Direct | Offered

  datatype Update =
    | UserOffer                              // the user's sell offer to the vault
    | UserOfferClosed(offer: nat)            // rejected, withdrawn or expired
    | Fill(offer: nat, outcome: Outcome)     // takes the sell offer and pays the counter leg
    | Reissue(attempt: nat, outcome: Outcome)
    | CounterAccepted(offer: nat)            // the user accepts a counter offer
    | CounterClosed(offer: nat)              // a counter offer left the pending list unaccepted

  type Log = seq<Update>

  /** The updates the vault itself submits to pay the counter leg. */
  predicate IsCommand(u: Update) {
    u.Fill? || u.Reissue?
  }

  /** Update `i` is the vault's command number `k`: the fill is 0, reissue k carries
      command id `canton-swap-counter-<order>-<k>`. */
  predicate CommandAt(log: Log, i: nat, k: nat) {
    i < |log| && if k == 0 then log[i].Fill? else log[i].Reissue? && log[i].attempt == k
  }

  /** Update `c` created a counter offer. */
  predicate IsOffer(log: Log, c: nat) {
    c < |log| && IsCommand(log[c]) && log[c].outcome.Offered?
  }

  predicate IsDirect(log: Log, i: nat) {
    i < |log| && IsCommand(log[i]) && log[i].outcome.Direct?
  }

  predicate CounterPending(log: Log, c: nat) {
    IsOffer(log, c) && CounterAccepted(c) !in log && CounterClosed(c) !in log
  }

  /** An offer that can never be accepted any more, and never was. */
  predicate Dead(log: Log, c: nat) {
    IsOffer(log, c) && CounterClosed(c) in log && CounterAccepted(c) !in log
  }

  predicate UserOfferPending(log: Log, f: nat) {
    f < |log| && log[f].UserOffer? && UserOfferClosed(f) !in log
    && Fill(f, Direct) !in log && Fill(f, Offered) !in log
  }

  predicate Committed(log: Log, k: nat) {
    exists i | 0 <= i < |log| :: CommandAt(log, i, k)
  }

  /** Update `u` put the counter asset into the user's hands. */
  predicate Delivers(log: Log, u: nat) {
    u < |log| && (IsDirect(log, u) || log[u].CounterAccepted?)
  }
}
