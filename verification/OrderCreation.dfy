/** What a request to create an order means when the id is taken: `resolveCreateOrder`. */
module OrderCreation {
  import opened Strings
  import opened Wrappers

  /** An immutable field: strings are compared without ASCII case, the rest exactly. */
  datatype Value = Missing | Number(n: int) | Text(s: string)

  const IMMUTABLE_FIELDS: nat := 15

  datatype Terms = Terms(userParty: string, fields: seq<Value>)

  predicate WellFormed(t: Terms) {
    |t.fields| == IMMUTABLE_FIELDS
  }

  type Id = string

  /** `progress` stands for every other field that may change. */
  datatype Row = Row(id: Id, terms: Terms, status: nat, progress: nat)

  const OPEN: nat := 0

  datatype CreateError = OtherParty | DifferentField(k: nat)

  datatype Resolution = Resolution(order: Row, isNew: bool)

  function Normalize(v: Value): Value {
    if v.Text? then Text(Lower(v.s)) else v
  }

  predicate SameField(a: Terms, b: Terms, k: nat)
    requires k < |a.fields| && k < |b.fields|
  {
    Normalize(a.fields[k]) == Normalize(b.fields[k])
  }

  /** A request that the service takes for the same order. */
  predicate SameTerms(a: Terms, b: Terms) {
    a.userParty == b.userParty && |a.fields| == |b.fields| && forall k | 0 <= k < |a.fields| :: SameField(a, b, k)
  }

  lemma SameTermsIsEquivalence(a: Terms, b: Terms, c: Terms)
    ensures SameTerms(a, a) && (SameTerms(a, b) ==> SameTerms(b, a))
    ensures SameTerms(a, b) && SameTerms(b, c) ==> SameTerms(a, c)
  {
    if SameTerms(a, b) {
      forall k | 0 <= k < |b.fields| ensures SameField(b, a, k) { assert SameField(a, b, k); }
      if SameTerms(b, c) {
        forall k | 0 <= k < |a.fields| ensures SameField(a, c, k) { assert SameField(a, b, k) && SameField(b, c, k); }
      }
    }
  }

  /** resolveCreateOrder: the first differing field decides the error. */
  method ResolveCreateOrder(existing: Option<Row>, id: Id, incoming: Terms) returns (r: Result<Resolution, CreateError>)
    requires WellFormed(incoming) && (existing.Some? ==> WellFormed(existing.value.terms))
    ensures existing.None? ==> r == Ok(Resolution(Row(id, incoming, OPEN, 0), true))
    ensures existing.Some? ==> (r.Ok? <==> SameTerms(existing.value.terms, incoming))
    ensures existing.Some? && r.Ok? ==> r.value == Resolution(existing.value, false)
    ensures r.Err? && r.error.DifferentField? ==>
              && r.error.k < IMMUTABLE_FIELDS && !SameField(existing.value.terms, incoming, r.error.k)
              && forall j | 0 <= j < r.error.k :: SameField(existing.value.terms, incoming, j)
    ensures r == Err(OtherParty) ==> existing.value.terms.userParty != incoming.userParty
  {
    if existing.Some? {
      var current := existing.value.terms;
      if current.userParty != incoming.userParty { return Err(OtherParty); }
      for k := 0 to IMMUTABLE_FIELDS
        invariant forall j | 0 <= j < k :: SameField(current, incoming, j)
      {
        if Normalize(current.fields[k]) != Normalize(incoming.fields[k]) {
          assert !SameField(current, incoming, k);
          return Err(DifferentField(k));
        }
      }
      return Ok(Resolution(existing.value, false));
    }
    r := Ok(Resolution(Row(id, incoming, OPEN, 0), true));
  }
}
