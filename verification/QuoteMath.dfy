/** Quote arithmetic (htlc-quote-math.ts) and the two checks built on it (htlc-quote.ts). The
    price and the fee are parameters; `/` on bigint truncates towards zero. */
module QuoteMath {
  import opened Arithmetic
  import opened Wrappers

  datatype Direction = EvmToCanton | CantonToEvm

  datatype QuoteError = BadPrice | BadFee | BadAmount | TooGenerous | BelowFloor

  const SCALE: int := 100_000_000
  const BPS: int := 10_000
  const ORDER_AMOUNT_TOLERANCE_BPS: int := 30
  const HTLC_SETTLEMENT_SLIPPAGE_BPS: int := 50

  /** bigint division */
  function Div(a: int, b: int): int
    requires b > 0
  {
    if a >= 0 then a / b else -((-a) / b)
  }

  function QuoteGrossOutUnits(d: Direction, inUnits: int, price8: int): Result<int, QuoteError> {
    if price8 <= 0 then Err(BadPrice)
    else Ok(if d == CantonToEvm then Div(inUnits * SCALE, price8) else Div(inUnits * price8, SCALE))
  }

  function ApplyOutputFee(gross: int, feeBps: int): Result<int, QuoteError> {
    if feeBps < 0 || feeBps > BPS then Err(BadFee) else Ok(gross - Div(gross * feeBps, BPS))
  }

  function QuoteOutUnits(d: Direction, inUnits: int, price8: int, feeBps: int): Result<int, QuoteError> {
    match QuoteGrossOutUnits(d, inUnits, price8)
    case Err(e) => Err(e)
    case Ok(gross) => ApplyOutputFee(gross, feeBps)
  }

  // ----- Division -----

  lemma DivBounds(a: int, b: int)
    requires b > 0 && a >= 0
    ensures 0 <= Div(a, b) && Div(a, b) * b <= a < (Div(a, b) + 1) * b
  {
    var q, r := a / b, a % b;
    assert a == q * b + r;
    if q < 0 { MulLe(q, -1, b); }
  }

  /** Towards zero: the sign of the dividend changes only the sign of the quotient. */
  lemma DivTruncates(a: int, b: int)
    requires b > 0
    ensures Div(-a, b) == -Div(a, b)
  {
    DivOfZero(b);
  }

  lemma DivOfZero(b: int)
    requires b > 0
    ensures Div(0, b) == 0
  {
  }

  /** q is at most the quotient when q times the divisor fits. */
  lemma DivAtLeast(q: int, a: int, b: int)
    requires b > 0 && a >= 0 && q * b <= a
    ensures q <= Div(a, b)
  {
    DivBounds(a, b);
    if q > Div(a, b) { MulLe(Div(a, b) + 1, q, b); }
  }

  lemma DivMonotone(a: int, a': int, b: int)
    requires b > 0 && a <= a'
    ensures Div(a, b) <= Div(a', b)
  {
    if a >= 0 {
      DivBounds(a, b);
      DivAtLeast(Div(a, b), a', b);
    } else if a' >= 0 {
      DivBounds(a', b);
      DivBounds(-a, b);
    } else {
      DivBounds(-a', b);
      DivAtLeast(Div(-a', b), -a, b);
    }
  }

  // ----- The fee -----

  /** The fee never makes the output larger than the gross, or negative. */
  lemma FeeBounds(gross: int, feeBps: int)
    requires gross >= 0 && 0 <= feeBps <= BPS
    ensures 0 <= ApplyOutputFee(gross, feeBps).value <= gross
  {
    MulLe(feeBps, BPS, gross);
    MulLe(0, feeBps, gross);
    assert feeBps * gross == gross * feeBps && BPS * gross == gross * BPS;
    DivBounds(gross * feeBps, BPS);
  }

  lemma FeeMonotone(g: int, g': int, feeBps: int)
    requires g <= g' && 0 <= feeBps <= BPS
    ensures ApplyOutputFee(g, feeBps).value <= ApplyOutputFee(g', feeBps).value
  {
    var x, y := g * feeBps, g' * feeBps;
    MulLe(g, g', feeBps);
    MulLe(feeBps, BPS, g' - g);
    assert y - x == feeBps * (g' - g) by { assert g' * feeBps - g * feeBps == (g' - g) * feeBps; }
    TruncatedStep(x, y, g' - g);
  }

  /** Truncated quotients of numbers at most 10000*d apart are at most d apart. */
  lemma TruncatedStep(x: int, y: int, d: int)
    requires x <= y <= x + BPS * d && d >= 0
    ensures Div(y, BPS) - Div(x, BPS) <= d
  {
  }

  /** Output never falls when input grows, for every price and fee, negative inputs included. */
  lemma QuoteMonotone(d: Direction, inUnits: int, more: int, price8: int, feeBps: int)
    requires inUnits <= more && QuoteOutUnits(d, inUnits, price8, feeBps).Ok?
    ensures QuoteOutUnits(d, more, price8, feeBps).Ok?
    ensures QuoteOutUnits(d, inUnits, price8, feeBps).value <= QuoteOutUnits(d, more, price8, feeBps).value
  {
    MulLe(inUnits, more, SCALE);
    MulLe(inUnits, more, price8);
    hide Div;
    if d == CantonToEvm { DivMonotone(inUnits * SCALE, more * SCALE, price8); }
    else { DivMonotone(inUnits * price8, more * price8, SCALE); }
    FeeMonotone(QuoteGrossOutUnits(d, inUnits, price8).value, QuoteGrossOutUnits(d, more, price8).value, feeBps);
  }

  // ----- Exact rounding -----

  /** The gross output is the exact product or quotient rounded down. */
  lemma GrossIsFloor(d: Direction, inUnits: int, price8: int)
    requires price8 > 0 && inUnits >= 0
    ensures var g := QuoteGrossOutUnits(d, inUnits, price8).value;
      if d == CantonToEvm then g * price8 <= inUnits * SCALE < (g + 1) * price8
      else g * SCALE <= inUnits * price8 < (g + 1) * SCALE
  {
    MulLe(0, inUnits, SCALE);
    MulLe(0, inUnits, price8);
    DivBounds(inUnits * SCALE, price8);
    DivBounds(inUnits * price8, SCALE);
  }

  /** A quote is given exactly at a positive price and a fee of no more than the whole. */
  lemma QuotedIff(d: Direction, inUnits: int, price8: int, feeBps: int)
    ensures QuoteOutUnits(d, inUnits, price8, feeBps).Ok? <==> price8 > 0 && 0 <= feeBps <= 10000
  {
  }

  /** The fee is gross * feeBps / 10000 rounded down: never more than the rate, and less than
      one unit below it. */
  lemma FeeIsFloor(gross: int, feeBps: int)
    requires gross >= 0 && 0 <= feeBps <= BPS
    ensures var fee := gross - ApplyOutputFee(gross, feeBps).value;
      fee * BPS <= gross * feeBps < (fee + 1) * BPS
  {
    MulLe(0, gross, feeBps);
    DivBounds(gross * feeBps, BPS);
  }

  // ----- There and back -----

  lemma GrossBounds(d: Direction, inUnits: int, price8: int)
    requires price8 > 0 && inUnits >= 0
    ensures var g := QuoteGrossOutUnits(d, inUnits, price8).value;
      && g >= 0
      && (d == CantonToEvm ==> g * price8 <= inUnits * SCALE)
      && (d == EvmToCanton ==> g * SCALE <= inUnits * price8)
  {
    MulLe(0, inUnits, SCALE);
    MulLe(0, inUnits, price8);
    DivBounds(inUnits * SCALE, price8);
    DivBounds(inUnits * price8, SCALE);
  }

  function Opposite(d: Direction): Direction {
    if d == EvmToCanton then CantonToEvm else EvmToCanton
  }

  /** Swapping there and back at one price, with any two fees, never returns more than was
      put in. */
  lemma ThereAndBackNeverGains(d: Direction, inUnits: int, price8: int, fee1: int, fee2: int)
    requires inUnits >= 0 && price8 > 0 && 0 <= fee1 <= BPS && 0 <= fee2 <= BPS
    ensures var mid := QuoteOutUnits(d, inUnits, price8, fee1).value;
      0 <= QuoteOutUnits(Opposite(d), mid, price8, fee2).value <= inUnits
  {
    var g1 := QuoteGrossOutUnits(d, inUnits, price8).value;
    GrossBounds(d, inUnits, price8);
    FeeBounds(g1, fee1);
    var mid := ApplyOutputFee(g1, fee1).value;
    var g2 := QuoteGrossOutUnits(Opposite(d), mid, price8).value;
    GrossBounds(Opposite(d), mid, price8);
    FeeBounds(g2, fee2);
    hide Div, ApplyOutputFee;
    if d == EvmToCanton {
      MulLe(mid, g1, SCALE);
      NoMore(g2, inUnits, price8);
    } else {
      MulLe(mid, g1, price8);
      NoMore(g2, inUnits, SCALE);
    }
  }

  lemma NoMore(g: int, n: int, p: int)
    requires p > 0 && g * p <= n * p
    ensures g <= n
  {
    if g > n { MulLe(n + 1, g, p); }
  }

  // ----- Accepting an order, and settling it later -----

  /** assertOrderAmounts at the re-quoted output `quoted` */
  function AssertOrderAmounts(inUnits: int, claimedOut: int, quoted: int): Result<(), QuoteError> {
    if inUnits <= 0 || claimedOut <= 0 then Err(BadAmount)
    else if claimedOut > quoted + Div(quoted * ORDER_AMOUNT_TOLERANCE_BPS, BPS) then Err(TooGenerous)
    else Ok(())
  }

  /** assertHtlcSettlementQuoteFresh at the re-quoted output `quoted` */
  function AssertSettlementFresh(inUnits: int, promisedOut: int, minOutUnits: Option<int>, quoted: int)
    : Result<(), QuoteError>
  {
    if inUnits <= 0 || promisedOut <= 0 then Err(BadAmount)
    else
      var floor := promisedOut - Div(promisedOut * HTLC_SETTLEMENT_SLIPPAGE_BPS, BPS);
      var minOut := if minOutUnits.Some? then minOutUnits.value else floor;
      if quoted < minOut then Err(BelowFloor) else Ok(())
  }

  /** An order is accepted exactly when both amounts are positive and the output exceeds the
      quote by at most 30 parts in 10000. */
  lemma OrderAcceptedIff(inUnits: int, out: int, quoted: int)
    requires quoted >= 0
    ensures AssertOrderAmounts(inUnits, out, quoted).Ok?
            <==> inUnits > 0 && out > 0 && BPS * (out - quoted) <= ORDER_AMOUNT_TOLERANCE_BPS * quoted
  {
    DivBounds(quoted * ORDER_AMOUNT_TOLERANCE_BPS, BPS);
  }

  /** Without a floor of its own an order settles exactly when the quote is at least 9950 parts
      in 10000 of what was promised, and with one when the quote is not below it. */
  lemma SettlesIff(inUnits: int, out: int, quoted: int)
    ensures AssertSettlementFresh(inUnits, out, None, quoted).Ok?
            <==> inUnits > 0 && out > 0 && BPS * quoted >= (BPS - HTLC_SETTLEMENT_SLIPPAGE_BPS) * out
    ensures forall least :: AssertSettlementFresh(inUnits, out, Some(least), quoted).Ok?
                            <==> inUnits > 0 && out > 0 && quoted >= least
  {
    if out > 0 { DivBounds(out * HTLC_SETTLEMENT_SLIPPAGE_BPS, BPS); }
  }

  /** An order accepted at quote F still settles at every later quote that fell by at
      most two parts in a thousand. */
  lemma AcceptedOrderSettles(inUnits: int, out: int, quoted: int, later: int)
    requires AssertOrderAmounts(inUnits, out, quoted).Ok?
    requires 1000 * later >= 998 * quoted
    ensures AssertSettlementFresh(inUnits, out, None, later).Ok?
  {
  }

  /** The tolerance is close to the best possible: three parts in a thousand can be refused. */
  lemma WiderDropRefused()
    ensures AssertOrderAmounts(1, 1_003_000, 1_000_000).Ok? && 1000 * 997_984 >= 997 * 1_000_000
    ensures AssertSettlementFresh(1, 1_003_000, None, 997_984) == Err(BelowFloor)
  {
  }
}
