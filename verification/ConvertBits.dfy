/** convertBits: regroup a bit string held in groups of `fromBits` into groups of `toBits`.

    The accumulator is a 32-bit integer that is never masked: it is shifted left until its
    old bits fall off the top. Bit strings are read as numbers, most significant bit first. */
module ConvertBits {
  import opened Wrappers
  import opened Arithmetic

  const WORD: int := 0x1_0000_0000

  /** A JavaScript number used as a 32-bit integer. */
  type int32 = x: int | -0x8000_0000 <= x < 0x8000_0000

  // ----- 32-bit operators -----

  function ToInt32(x: int): int32 {
    var r := x % WORD;
    if r >= 0x8000_0000 then r - WORD else r
  }

  /** (acc << n) | v, for a v below 2^n */
  function ShiftIn(acc: int32, n: nat, v: int): int32 { ToInt32(acc * Pow2(n) + v) }

  /** (x >> n) & (2^w - 1); the shift keeps the sign */
  function Window(x: int32, n: nat, w: nat): int { Rem(Quot(x, Pow2(n)), Pow2(w)) }

  /** (x << n) & (2^w - 1) */
  function ShiftedLow(x: int32, n: nat, w: nat): int { Rem(ToInt32(x * Pow2(n)), Pow2(w)) }

  // ----- Digits and numbers -----

  predicate Digits(ds: seq<int>, w: nat) {
    forall i | 0 <= i < |ds| :: 0 <= ds[i] < Pow2(w)
  }

  /** The number whose digits in base 2^w are `ds`. */
  function Number(ds: seq<int>, w: nat): int {
    if ds == [] then 0 else Number(ds[..|ds| - 1], w) * Pow2(w) + ds[|ds| - 1]
  }

  function ToDigits(n: int, w: nat, len: nat): (ds: seq<int>)
    requires n >= 0
    ensures |ds| == len && Digits(ds, w)
    decreases len
  {
    hide Quot, Rem, Pow2;
    if len == 0 then [] else ToDigits(Quot(n, Pow2(w)), w, len - 1) + [Rem(n, Pow2(w))]
  }

  lemma NumberSnoc(ds: seq<int>, d: int, w: nat)
    ensures Number(ds + [d], w) == Number(ds, w) * Pow2(w) + d
  {
    assert (ds + [d])[..|ds|] == ds;
  }

  lemma {:induction false} DigitsUnique(ds: seq<int>, w: nat)
    requires Digits(ds, w)
    ensures Number(ds, w) >= 0 && ds == ToDigits(Number(ds, w), w, |ds|)
  {
    hide Quot, Rem;
    if ds != [] {
      var front, last := ds[..|ds| - 1], ds[|ds| - 1];
      DigitsUnique(front, w);
      MulLe(0, Number(front, w), Pow2(w));
      QuotRemUnique(Number(ds, w), Pow2(w), Number(front, w), last);
      assert ds == front + [last];
    }
  }

  lemma {:induction false} NumberBound(ds: seq<int>, w: nat)
    requires Digits(ds, w)
    ensures 0 <= Number(ds, w) < Pow2(w * |ds|)
  {
    hide Pow2;
    if ds == [] {
      assert Pow2(w * |ds|) > 0;
    } else {
      var front, last := ds[..|ds| - 1], ds[|ds| - 1];
      NumberBound(front, w);
      MulSucc(|front|, w);
      PowAdd(w * |front|, w);
      MulLe(Number(front, w) + 1, Pow2(w * |front|), Pow2(w));
      MulSucc(Number(front, w), Pow2(w));
      MulPos(Number(front, w), Pow2(w));
    }
  }

  lemma {:induction false} NumberOfDigits(n: int, w: nat, len: nat)
    requires 0 <= n < Pow2(w * len)
    ensures Number(ToDigits(n, w, len), w) == n
    decreases len
  {
    hide Quot, Rem, Pow2;
    if len == 0 {
      PowZero(w * len);
    } else {
      var p := Pow2(w);
      MulSucc(len - 1, w);
      PowAdd(w * (len - 1), w);
      QuotBelow(n, p, Pow2(w * (len - 1)));
      NumberOfDigits(Quot(n, p), w, len - 1);
      NumberSnoc(ToDigits(Quot(n, p), w, len - 1), Rem(n, p), w);
      QuotRem(n, p);
    }
  }

  lemma PowZero(n: nat)
    requires n == 0
    ensures Pow2(n) == 1
  {
  }

  lemma QuotBelow(n: int, p: int, q: int)
    requires p > 0 && 0 <= n < q * p
    ensures Quot(n, p) < q
  {
    QuotRem(n, p);
    if Quot(n, p) >= q { MulLe(q, Quot(n, p), p); }
  }

  // ----- What convertBits answers -----

  /** The zero bits that complete the last group. */
  function ToPad(total: nat, toBits: nat): nat
    requires toBits > 0
  {
    if total % toBits == 0 then 0 else toBits - total % toBits
  }

  /** The complete groups. */
  function Groups(total: nat, toBits: nat): nat
    requires toBits > 0
  {
    total / toBits
  }

  /** `n` with `zeros` zero bits behind it. */
  function Shifted(n: nat, zeros: nat): nat {
    MulPos(n, Pow2(zeros));
    n * Pow2(zeros)
  }

  /** Without padding the incomplete group must be shorter than an input group and zero; with
      padding it is filled with zeros. */
  function Regrouped(data: seq<int>, fromBits: nat, toBits: nat, pad: bool): Option<seq<int>>
    requires fromBits > 0 && toBits > 0
  {
    if !Digits(data, fromBits) then None
    else
      var total := fromBits * |data|;
      var left := total % toBits;
      NumberBound(data, fromBits);
      var n := Number(data, fromBits);
      if pad then
        Some(ToDigits(Shifted(n, ToPad(total, toBits)), toBits, Groups(total, toBits) + if left == 0 then 0 else 1))
      else if left >= fromBits || Rem(n, Pow2(left)) != 0 then None
      else Some(ToDigits(Quot(n, Pow2(left)), toBits, Groups(total, toBits)))
  }

  // ----- The accumulator -----

  /** The low `bits` bits of the accumulator are those of the number read so far. */
  predicate SameLow(acc: int, n: int, bits: nat) {
    Rem(acc, Pow2(bits)) == Rem(n, Pow2(bits))
  }

  /** Taking a number modulo 2^32 keeps its low bits. */
  lemma ToInt32KeepsLow(x: int, bits: nat)
    requires bits <= 32
    ensures SameLow(ToInt32(x), x, bits)
  {
    hide Quot, Rem, ToInt32, Pow2;
    var k := ToInt32Offset(x);
    WordIsPow2();
    PowAdd(32 - bits, bits);
    MulAssoc(k, Pow2(32 - bits), Pow2(bits));
    assert ToInt32(x) == x + (k * Pow2(32 - bits)) * Pow2(bits);
    SameRemainder(ToInt32(x), x, Pow2(bits));
  }

  lemma ToInt32Offset(x: int) returns (k: int)
    ensures ToInt32(x) == x + k * WORD
  {
    k := -(x / WORD) - if x % WORD >= 0x8000_0000 then 1 else 0;
  }

  lemma WordIsPow2()
    ensures Pow2(32) == WORD
  {
    assert Pow2(4) == 16;
    hide Pow2;
    PowAdd(16, 16);
    PowAdd(8, 8);
    PowAdd(4, 4);
  }

  /** Shifting a group in. */
  lemma ShiftInKeepsLow(acc: int32, n: int, bits: nat, f: nat, v: int)
    requires SameLow(acc, n, bits) && bits + f <= 32
    ensures SameLow(ShiftIn(acc, f, v), n * Pow2(f) + v, bits + f)
  {
    hide Quot, Rem, ToInt32, Pow2;
    SameRemainder(acc, n, Pow2(bits));
    var k :| acc == n + k * Pow2(bits);
    PowAdd(bits, f);
    MulAdd(n, k * Pow2(bits), Pow2(f));
    MulAssoc(k, Pow2(bits), Pow2(f));
    var wide := acc * Pow2(f) + v;
    assert wide == (n * Pow2(f) + v) + k * Pow2(bits + f);
    SameRemainder(wide, n * Pow2(f) + v, Pow2(bits + f));
    ToInt32KeepsLow(wide, bits + f);
  }

  /** The bits above the window do not move when a group comes in below them. */
  lemma ShiftInKeepsHigh(n: int, bits: nat, f: nat, v: int)
    requires 0 <= v < Pow2(f)
    ensures Quot(n * Pow2(f) + v, Pow2(bits + f)) == Quot(n, Pow2(bits))
  {
    hide Quot, Rem;
    PowAdd(f, bits);
    hide Pow2;
    QuotRemUnique(n * Pow2(f) + v, Pow2(f), n, v);
    QuotQuot(n * Pow2(f) + v, Pow2(f), Pow2(bits));
  }

  /** Cutting a group off: the window holds the next group of the number. */
  lemma WindowIsNext(acc: int32, n: int, bits: nat, w: nat)
    requires SameLow(acc, n, bits + w)
    ensures Window(acc, bits, w) == Rem(Quot(n, Pow2(bits)), Pow2(w)) && SameLow(acc, n, bits)
    ensures Quot(n, Pow2(bits)) == Quot(n, Pow2(bits + w)) * Pow2(w) + Window(acc, bits, w)
  {
    hide Quot, Rem;
    PowAdd(bits, w);
    hide Pow2;
    var p, q := Pow2(bits), Pow2(w);
    QuotQuot(acc, p, q);
    QuotQuot(n, p, q);
    QuotRemUnique(Rem(n, p * q), p, Rem(Quot(n, p), q), Rem(n, p));
    QuotRemUnique(Rem(acc, p * q), p, Rem(Quot(acc, p), q), Rem(acc, p));
    QuotRem(Quot(n, p), q);
  }

  /** The zero-filled last group: the low `bits` bits moved up to `w` bits. */
  lemma LastGroup(acc: int32, n: int, bits: nat, w: nat)
    requires SameLow(acc, n, bits) && bits <= w <= 32
    ensures ShiftedLow(acc, w - bits, w) == Rem(n, Pow2(bits)) * Pow2(w - bits)
    ensures n * Pow2(w - bits) == Quot(n, Pow2(bits)) * Pow2(w) + ShiftedLow(acc, w - bits, w)
    ensures ShiftedLow(acc, w - bits, w) == 0 <==> Rem(n, Pow2(bits)) == 0
  {
    var up := Pow2(w - bits);
    hide Quot, Rem, ToInt32;
    ToInt32KeepsLow(acc * up, w);
    PowAdd(bits, w - bits);
    hide Pow2;
    QuotRem(acc, Pow2(bits));
    QuotRem(n, Pow2(bits));
    var low := Rem(n, Pow2(bits));
    MulLe(low + 1, Pow2(bits), up);
    MulSucc(low, up);
    MulPos(low, up);
    Spread(acc, Quot(acc, Pow2(bits)), Pow2(bits), low, up);
    Spread(n, Quot(n, Pow2(bits)), Pow2(bits), low, up);
    QuotRemUnique(acc * up, Pow2(w), Quot(acc, Pow2(bits)), low * up);
    if low > 0 { MulLe(1, low, up); }
  }

  lemma Spread(n: int, q: int, p: int, r: int, up: int)
    requires n == q * p + r
    ensures n * up == q * (p * up) + r * up
  {
    assert (q * p + r) * up == q * (p * up) + r * up;
  }

  // ----- The loops -----

  /** A symbol is accepted when it is not negative and its shift leaves nothing. */
  lemma AcceptsDigit(v: int, f: nat)
    ensures v >= 0 && Quot(v, Pow2(f)) == 0 <==> 0 <= v < Pow2(f)
  {
    QuotRem(v, Pow2(f));
    hide Pow2;
    if 0 <= v < Pow2(f) { QuotRemUnique(v, Pow2(f), 0, v); }
  }

  /** The groups cut off so far, and what the accumulator still holds, are the number read. */
  ghost predicate Kept(acc: int32, n: int, bits: nat, out: seq<int>, toBits: nat) {
    Digits(out, toBits) && Number(out, toBits) == Quot(n, Pow2(bits)) && SameLow(acc, n, bits)
  }

  lemma KeptAtStart(toBits: nat)
    ensures Kept(0, 0, 0, [], toBits)
  {
    QuotRemUnique(0, Pow2(0), 0, 0);
  }

  lemma KeptShiftIn(acc: int32, n: int, bits: nat, out: seq<int>, toBits: nat, f: nat, v: int)
    requires Kept(acc, n, bits, out, toBits) && 0 <= v < Pow2(f) && bits + f <= 32
    ensures Kept(ShiftIn(acc, f, v), n * Pow2(f) + v, bits + f, out, toBits)
  {
    hide Pow2, Quot, Rem, ShiftIn, SameLow, Number;
    ShiftInKeepsLow(acc, n, bits, f, v);
    ShiftInKeepsHigh(n, bits, f, v);
  }

  lemma KeptCut(acc: int32, n: int, bits: nat, out: seq<int>, toBits: nat)
    requires Kept(acc, n, bits + toBits, out, toBits)
    ensures Kept(acc, n, bits, out + [Window(acc, bits, toBits)], toBits)
  {
    WindowIsNext(acc, n, bits, toBits);
    NumberSnoc(out, Window(acc, bits, toBits), toBits);
    hide Pow2, Quot, SameLow, Number;
  }

  lemma CutLength(bits: nat, toBits: nat, len: nat, total: int)
    requires toBits > 0 && total == toBits * len + bits && bits < toBits
    ensures total / toBits == len && total % toBits == bits
  {
    QuotRemUnique(total, toBits, len, bits);
  }

  method Convert(data: seq<int32>, fromBits: nat, toBits: nat, pad: bool) returns (r: Option<seq<int>>)
    requires 0 < fromBits && 0 < toBits && fromBits + toBits <= 31
    ensures r == Regrouped(data, fromBits, toBits, pad)
  {
    hide Pow2, Quot, Rem, Window, ShiftedLow, ShiftIn, SameLow, Kept, Number, ToDigits;
    var acc: int32, bits: nat, out: seq<int> := 0, 0, [];
    ghost var n := 0;
    KeptAtStart(toBits);
    NumberEmpty(fromBits);
    for i := 0 to |data|
      invariant bits < toBits && fromBits * i == toBits * |out| + bits
      invariant Digits(data[..i], fromBits) && n == Number(data[..i], fromBits)
      invariant Kept(acc, n, bits, out, toBits)
    {
      var value := data[i];
      AcceptsDigit(value, fromBits);
      if value < 0 || Quot(value, Pow2(fromBits)) != 0 { return None; }
      KeptShiftIn(acc, n, bits, out, toBits, fromBits, value);
      acc := ShiftIn(acc, fromBits, value);
      bits := bits + fromBits;
      n := n * Pow2(fromBits) + value;
      NumberSnoc(data[..i], value, fromBits);
      assert data[..i] + [value] == data[..i + 1];
      MulSucc(i, fromBits);
      while bits >= toBits
        invariant bits < toBits + fromBits && fromBits * (i + 1) == toBits * |out| + bits
        invariant Kept(acc, n, bits, out, toBits)
      {
        bits := bits - toBits;
        KeptCut(acc, n, bits, out, toBits);
        MulSucc(|out|, toBits);
        out := out + [Window(acc, bits, toBits)];
      }
    }
    assert data[..|data|] == data;
    CutLength(bits, toBits, |out|, fromBits * |data|);
    r := Finish(data, acc, bits, out, fromBits, toBits, pad);
  }

  lemma NumberEmpty(f: nat)
    ensures Number([], f) == 0
  {
  }

  /** The last group, after the loop. */
  method Finish(data: seq<int32>, acc: int32, bits: nat, out: seq<int>, fromBits: nat, toBits: nat, pad: bool)
    returns (r: Option<seq<int>>)
    requires 0 < fromBits && 0 < toBits && fromBits + toBits <= 31 && bits < toBits
    requires Digits(data, fromBits) && Kept(acc, Number(data, fromBits), bits, out, toBits)
    requires (fromBits * |data|) / toBits == |out| && (fromBits * |data|) % toBits == bits
    ensures r == Regrouped(data, fromBits, toBits, pad)
  {
    hide Pow2, Quot, Rem, ShiftedLow, SameLow, Number, ToDigits;
    ghost var n := Number(data, fromBits);
    LastGroup(acc, n, bits, toBits);
    DigitsUnique(out, toBits);
    if pad {
      r := Some(out);
      if bits > 0 {
        var last := ShiftedLow(acc, toBits - bits, toBits);
        NumberSnoc(out, last, toBits);
        LastIsDigit(acc, toBits - bits, toBits);
        DigitsUnique(out + [last], toBits);
        r := Some(out + [last]);
      } else {
        NoRemainder(n);
      }
    } else if bits >= fromBits || ShiftedLow(acc, toBits - bits, toBits) != 0 {
      r := None;
    } else {
      r := Some(out);
    }
  }

  lemma LastIsDigit(acc: int32, n: nat, w: nat)
    ensures 0 <= ShiftedLow(acc, n, w) < Pow2(w)
  {
  }

  lemma NoRemainder(n: int)
    ensures Quot(n, Pow2(0)) == n && n * Pow2(0) == n
  {
    QuotRemUnique(n, Pow2(0), n, 0);
  }

  // ----- Regrouping keeps the bit string -----

  /** Nothing but the completing zero bits comes or goes. */
  lemma RegroupingIsExact(data: seq<int>, f: nat, t: nat, pad: bool)
    requires 0 < f && 0 < t && Regrouped(data, f, t, pad).Some?
    ensures var out := Regrouped(data, f, t, pad).value;
      && Digits(out, t)
      && (pad ==> Number(out, t) == Number(data, f) * Pow2(ToPad(f * |data|, t))
                  && t * |out| == f * |data| + ToPad(f * |data|, t))
      && (!pad ==> Number(data, f) == Number(out, t) * Pow2((f * |data|) % t)
                   && t * |out| + (f * |data|) % t == f * |data|)
  {
    hide Quot, Rem, Pow2, Number;
    var n, total := Number(data, f), f * |data|;
    var left, groups := total % t, total / t;
    NumberBound(data, f);
    SplitTotal(total, t);
    if pad {
      var zeros := ToPad(total, t);
      var len := groups + if left == 0 then 0 else 1;
      MulSucc(groups, t);
      PowAdd(total, zeros);
      MulLe(n + 1, Pow2(total), Pow2(zeros));
      MulSucc(n, Pow2(zeros));
      MulPos(n, Pow2(zeros));
      NumberOfDigits(n * Pow2(zeros), t, len);
    } else {
      PowAdd(t * groups, left);
      QuotBelow(n, Pow2(left), Pow2(t * groups));
      NumberOfDigits(Quot(n, Pow2(left)), t, groups);
      QuotRem(n, Pow2(left));
    }
  }

  lemma SplitTotal(total: int, t: nat)
    requires t > 0 && total >= 0
    ensures total == t * (total / t) + total % t && total / t >= 0
  {
    Euclid(total, t);
  }

  /** n five-bit groups and m bytes with `left` bits over, left below 5. */
  lemma FiveAndEight(n: nat, m: nat, left: nat)
    requires 5 * n == 8 * m + left && left < 5
    ensures (5 * n) % 8 == left && (5 * n) / 8 == m && ToPad(8 * m, 5) == left
    ensures (8 * m) / 5 + (if (8 * m) % 5 == 0 then 0 else 1) == n
  {
  }

  /** Symbols accepted as bytes are recovered from the bytes by the padding direction. */
  lemma PaddingUndoesRegrouping(data: seq<int>)
    requires Regrouped(data, 5, 8, false).Some?
    ensures Regrouped(Regrouped(data, 5, 8, false).value, 8, 5, true) == Some(data)
  {
    hide Quot, Rem, Pow2, Number, ToDigits;
    RegroupingIsExact(data, 5, 8, false);
    var bytes := Regrouped(data, 5, 8, false).value;
    var left := (5 * |data|) % 8;
    FiveAndEight(|data|, |bytes|, left);
    hide ToPad;
    DigitsUnique(data, 5);
  }

  /** Every byte string survives the way to symbols and back. */
  lemma RegroupingUndoesPadding(bytes: seq<int>)
    requires Digits(bytes, 8)
    ensures Regrouped(bytes, 8, 5, true).Some?
    ensures Regrouped(Regrouped(bytes, 8, 5, true).value, 5, 8, false) == Some(bytes)
  {
    hide Quot, Rem, Pow2, Number, ToDigits;
    RegroupingIsExact(bytes, 8, 5, true);
    var data := Regrouped(bytes, 8, 5, true).value;
    var zeros := ToPad(8 * |bytes|, 5);
    FiveAndEight(|data|, |bytes|, zeros);
    hide ToPad;
    QuotRemUnique(Number(data, 5), Pow2(zeros), Number(bytes, 8), 0);
    DigitsUnique(bytes, 8);
  }

  /** No two accepted symbol strings, of whatever lengths, give the same bytes. */
  lemma FiveToEightInjective(a: seq<int>, b: seq<int>)
    requires Regrouped(a, 5, 8, false).Some? && Regrouped(a, 5, 8, false) == Regrouped(b, 5, 8, false)
    ensures a == b
  {
    hide Regrouped;
    PaddingUndoesRegrouping(a);
    PaddingUndoesRegrouping(b);
  }
}
