/** Command ids of an HTLC order and what the Canton ledger does with them.

    The ledger accepts a submission only if no committed update carries its command id.
    Nothing else stops a second transfer of the same funds, so every site that pays computes
    its id from the order alone. */
module HtlcCommands {
  import opened Wrappers

  /** A committed update and the command id it was submitted under, if it has a fixed one. */
  datatype Tx<U> = Tx(id: Option<string>, what: U)

  type Log<U> = seq<Tx<U>>

  predicate Unused<U>(log: Log<U>, id: string) {
    forall i | 0 <= i < |log| :: log[i].id != Some(id)
  }

  /** fetchTransactionTreeByCommandId: update `u` was committed under `id`. */
  predicate CommittedAs<U>(log: Log<U>, u: nat, id: string) {
    u < |log| && log[u].id == Some(id)
  }

  ghost predicate UniqueIds<U>(log: Log<U>) {
    forall i, j | 0 <= i < j < |log| && log[i].id.Some? :: log[i].id != log[j].id
  }

  predicate IsUpdate<U(==)>(log: Log<U>, u: nat, x: U) {
    u < |log| && log[u].what == x
  }

  predicate Has<U(==)>(log: Log<U>, x: U) {
    exists u | 0 <= u < |log| :: log[u].what == x
  }

  /** The ledger's answer to a submission. */
  function Submit<U>(log: Log<U>, tx: Tx<U>): Option<Log<U>> {
    if tx.id.Some? && !Unused(log, tx.id.value) then None else Some(log + [tx])
  }

  lemma SubmitKeepsUnique<U>(log: Log<U>, tx: Tx<U>)
    requires UniqueIds(log) && Submit(log, tx).Some?
    ensures UniqueIds(Submit(log, tx).value)
  {
  }

  lemma HasMore<U>(log: Log<U>, tx: Tx<U>, x: U)
    ensures Has(log + [tx], x) <==> Has(log, x) || tx.what == x
  {
    if Has(log, x) {
      var u :| 0 <= u < |log| && log[u].what == x;
      assert (log + [tx])[u].what == x;
    }
    assert (log + [tx])[|log|] == tx;
  }

  // ----- The ids -----

  datatype Entry = Late | Early

  /** The id each of the two refund calls writes down for itself: refundMainCanton (lines 2912,
      2938 and 2948) and earlyRefundLoopCustody (lines 3621 and 3625). */
  function RefundId(order: string, e: Entry): string {
    match e
    case Late => "htlc-refund-main-" + order
    case Early => "htlc-refund-main-" + order
  }

  function ClaimId(order: string): string {
    "htlc-claim-main-" + order
  }

  function LockId(order: string): string {
    "htlc-lock-main-" + order
  }

  function DeliveryId(order: string): string {
    "htlc-counter-deliver-" + order
  }

  /** Both refund calls use one id; claim and lock use others; a delivery or a refund of another
      order can not take them. */
  lemma IdsTellApart(order: string, other: string, e: Entry, e': Entry)
    ensures RefundId(order, e) == RefundId(other, e') <==> order == other
    ensures DeliveryId(order) == DeliveryId(other) <==> order == other
    ensures ClaimId(order) != RefundId(other, e) && LockId(order) != RefundId(other, e)
    ensures ClaimId(order) != LockId(other)
  {
    assert RefundId(order, e)[17..] == order && RefundId(other, e')[17..] == other;
    assert DeliveryId(order)[21..] == order && DeliveryId(other)[21..] == other;
    assert RefundId(other, e)[5] == 'r' && ClaimId(order)[5] == 'c' && LockId(order)[5] == 'l' && LockId(other)[5] == 'l';
  }
}
