/** The bech32 and bech32m checksum (BIP-173 and BIP-350) as the address validator computes
    it, and what it detects. Symbols and register are 32-bit words; the register never uses
    more than 30 bits. */
module Bech32 {

  const GEN: seq<bv32> := [0x3b6a57b2, 0x26508e6d, 0x1ea119fa, 0x3d4233dd, 0x2a1462b3]

  // ----- One step of the register -----

  function Xor(a: bv32, b: bv32): bv32 { a ^ b }

  function Top(chk: bv32): bv32 { chk >> 25 }

  function Shifted(chk: bv32): bv32 { (chk & 0x1ffffff) << 5 }

  predicate Bit(top: bv32, i: nat)
    requires i < 5
  {
    (top >> i) & 1 == 1
  }

  /** The generators selected by the low `i` bits of `top`. */
  function Selected(top: bv32, i: nat): bv32
    requires i <= 5
  {
    if i == 0 then 0 else if Bit(top, i - 1) then Xor(Selected(top, i - 1), GEN[i - 1]) else Selected(top, i - 1)
  }

  function Step(chk: bv32, v: bv32): bv32 {
    Xor(Xor(Shifted(chk), v), Selected(Top(chk), 5))
  }

  function Register(chk: bv32, values: seq<bv32>): bv32
    decreases values
  {
    if values == [] then chk else Register(Step(chk, values[0]), values[1..])
  }

  lemma XorAssociates(a: bv32, b: bv32, c: bv32)
    ensures Xor(Xor(a, b), c) == Xor(a, Xor(b, c))
  {
  }

  lemma XorUnits(a: bv32, b: bv32)
    ensures Xor(a, 0) == a && Xor(0, a) == a && Xor(a, a) == 0
    ensures Xor(a, b) == Xor(b, a) && (Xor(a, b) == 0 <==> a == b)
  {
  }

  lemma XorLaws(a: bv32, b: bv32, c: bv32)
    ensures Xor(Xor(a, b), c) == Xor(a, Xor(b, c)) && Xor(a, 0) == a && Xor(0, a) == a
    ensures Xor(a, b) == Xor(b, a) && Xor(a, a) == 0 && (Xor(a, b) == 0 <==> a == b)
  {
    XorAssociates(a, b, c);
    XorUnits(a, b);
    hide Xor;
  }

  lemma XorSwap(a: bv32, b: bv32, c: bv32, d: bv32)
    ensures Xor(Xor(a, b), Xor(c, d)) == Xor(Xor(a, c), Xor(b, d))
  {
    XorLaws(a, b, Xor(c, d));
    XorLaws(b, c, d);
    XorLaws(c, b, d);
    XorLaws(a, c, Xor(b, d));
    hide Xor;
  }

  lemma XorShuffle(a: bv32, b: bv32, c: bv32, d: bv32, e: bv32, f: bv32)
    ensures Xor(Xor(Xor(a, b), c), Xor(Xor(d, e), f)) == Xor(Xor(Xor(a, d), Xor(b, e)), Xor(c, f))
  {
    hide Xor;
    XorSwap(Xor(a, b), c, Xor(d, e), f);
    XorSwap(a, b, d, e);
  }

  /** bech32Polymod */
  method Polymod(values: seq<bv32>) returns (chk: bv32)
    ensures chk == Register(1, values)
  {
    hide Xor, Top, Shifted, Bit;
    chk := 1;
    for n := 0 to |values|
      invariant Register(1, values) == Register(chk, values[n..])
    {
      assert values[n..][1..] == values[n + 1..];
      var top := Top(chk);
      var next := Xor(Shifted(chk), values[n]);
      ghost var start := next;
      XorLaws(start, 0, 0);
      for i := 0 to 5
        invariant next == Xor(start, Selected(top, i))
      {
        XorLaws(start, Selected(top, i), GEN[i]);
        if Bit(top, i) { next := Xor(next, GEN[i]); }
      }
      chk := next;
    }
  }

  // ----- The step is linear and loses nothing -----

  function Pick(b: bool, g: bv32): bv32 { if b then g else 0 }

  function Mix(top: bv32): bv32 {
    Pick(top & 1 == 1, 0x3b6a57b2) ^ Pick(top & 2 == 2, 0x26508e6d) ^ Pick(top & 4 == 4, 0x1ea119fa)
    ^ Pick(top & 8 == 8, 0x3d4233dd) ^ Pick(top & 16 == 16, 0x2a1462b3)
  }

  lemma BitIs(top: bv32)
    ensures Bit(top, 0) == (top & 1 == 1) && Bit(top, 1) == (top & 2 == 2) && Bit(top, 2) == (top & 4 == 4)
    ensures Bit(top, 3) == (top & 8 == 8) && Bit(top, 4) == (top & 16 == 16)
  {
  }

  lemma SelectedIsMix(top: bv32)
    ensures Selected(top, 5) == Mix(top)
  {
    BitIs(top);
    hide Bit;
    assert Selected(top, 1) == Pick(Bit(top, 0), GEN[0]);
    assert Selected(top, 2) == Selected(top, 1) ^ Pick(Bit(top, 1), GEN[1]);
    assert Selected(top, 3) == Selected(top, 2) ^ Pick(Bit(top, 2), GEN[2]);
    assert Selected(top, 4) == Selected(top, 3) ^ Pick(Bit(top, 3), GEN[3]);
  }

  /** The generator of each bit of a difference is the difference of the generators. */
  function Part0(top: bv32): bv32 { Pick(top & 1 == 1, 0x3b6a57b2) }

  function Part1(top: bv32): bv32 { Pick(top & 2 == 2, 0x26508e6d) }

  function Part2(top: bv32): bv32 { Pick(top & 4 == 4, 0x1ea119fa) }

  function Part3(top: bv32): bv32 { Pick(top & 8 == 8, 0x3d4233dd) }

  function Part4(top: bv32): bv32 { Pick(top & 16 == 16, 0x2a1462b3) }

  lemma Part0Linear(a: bv32, b: bv32)
    ensures Xor(Part0(a), Part0(b)) == Part0(Xor(a, b))
  {
  }

  lemma Part1Linear(a: bv32, b: bv32)
    ensures Xor(Part1(a), Part1(b)) == Part1(Xor(a, b))
  {
  }

  lemma Part2Linear(a: bv32, b: bv32)
    ensures Xor(Part2(a), Part2(b)) == Part2(Xor(a, b))
  {
  }

  lemma Part3Linear(a: bv32, b: bv32)
    ensures Xor(Part3(a), Part3(b)) == Part3(Xor(a, b))
  {
  }

  lemma Part4Linear(a: bv32, b: bv32)
    ensures Xor(Part4(a), Part4(b)) == Part4(Xor(a, b))
  {
  }

  lemma MixIsParts(top: bv32)
    ensures Mix(top) == Xor(Xor(Xor(Xor(Part0(top), Part1(top)), Part2(top)), Part3(top)), Part4(top))
  {
  }

  lemma MixLinear(a: bv32, b: bv32)
    ensures Xor(Mix(a), Mix(b)) == Mix(Xor(a, b))
  {
    MixIsParts(a);
    MixIsParts(b);
    MixIsParts(Xor(a, b));
    Part0Linear(a, b);
    Part1Linear(a, b);
    Part2Linear(a, b);
    Part3Linear(a, b);
    Part4Linear(a, b);
    hide Mix, Part0, Part1, Part2, Part3, Part4, Xor;
    FiveParts(Part0(a), Part1(a), Part2(a), Part3(a), Part4(a), Part0(b), Part1(b), Part2(b), Part3(b), Part4(b));
  }

  lemma FiveParts(a: bv32, b: bv32, c: bv32, d: bv32, e: bv32, f: bv32, g: bv32, h: bv32, i: bv32, j: bv32)
    ensures Xor(Xor(Xor(Xor(Xor(a, b), c), d), e), Xor(Xor(Xor(Xor(f, g), h), i), j))
            == Xor(Xor(Xor(Xor(Xor(a, f), Xor(b, g)), Xor(c, h)), Xor(d, i)), Xor(e, j))
  {
    hide Xor;
    XorSwap(Xor(Xor(Xor(a, b), c), d), e, Xor(Xor(Xor(f, g), h), i), j);
    XorSwap(Xor(Xor(a, b), c), d, Xor(Xor(f, g), h), i);
    XorShuffle(a, b, c, f, g, h);
  }

  lemma PartsLinear(a: bv32, b: bv32)
    ensures Xor(Shifted(a), Shifted(b)) == Shifted(Xor(a, b)) && Xor(Top(a), Top(b)) == Top(Xor(a, b))
  {
  }

  /** The register of a difference is the difference of the registers. */
  lemma StepLinear(a: bv32, b: bv32, v: bv32, w: bv32)
    ensures Xor(Step(a, v), Step(b, w)) == Step(Xor(a, b), Xor(v, w))
  {
    SelectedIsMix(Top(a));
    SelectedIsMix(Top(b));
    SelectedIsMix(Top(Xor(a, b)));
    MixLinear(Top(a), Top(b));
    PartsLinear(a, b);
    XorShuffle(Shifted(a), v, Mix(Top(a)), Shifted(b), w, Mix(Top(b)));
    hide Mix, Selected, Xor, Top, Shifted;
  }

  lemma ZeroStays(d: bv32)
    requires d < 0x4000_0000
    ensures Xor(Shifted(d), Mix(Top(d))) == 0 <==> d == 0
  {
  }

  /** A nonzero difference never vanishes on equal symbols. */
  lemma StepInjective(d: bv32)
    requires d < 0x4000_0000
    ensures Step(d, 0) == 0 <==> d == 0
  {
    SelectedIsMix(Top(d));
    ZeroStays(d);
    XorLaws(Shifted(d), 0, 0);
    hide Mix, Selected, Xor, Top, Shifted;
  }

  lemma MixBounded(top: bv32)
    ensures Mix(top) < 0x4000_0000
  {
  }

  lemma XorBounded(a: bv32, b: bv32, c: bv32)
    requires b < 0x4000_0000 && c < 0x4000_0000
    ensures Xor(Xor(Shifted(a), b), c) < 0x4000_0000
  {
  }

  /** The register keeps to 30 bits. */
  lemma StepBounded(chk: bv32, v: bv32)
    requires v < 0x4000_0000
    ensures Step(chk, v) < 0x4000_0000
  {
    SelectedIsMix(Top(chk));
    MixBounded(Top(chk));
    XorBounded(chk, v, Mix(Top(chk)));
    hide Mix, Selected, Xor, Top, Shifted;
  }

  // ----- Whole sequences -----

  function Difference(vs: seq<bv32>, ws: seq<bv32>): (ds: seq<bv32>)
    requires |vs| == |ws|
  {
    seq(|vs|, i requires 0 <= i < |vs| => Xor(vs[i], ws[i]))
  }

  lemma {:induction false} RegisterLinear(c: bv32, d: bv32, vs: seq<bv32>, ws: seq<bv32>)
    requires |vs| == |ws|
    ensures Xor(Register(c, vs), Register(d, ws)) == Register(Xor(c, d), Difference(vs, ws))
    decreases vs
  {
    hide Step, Xor;
    if vs != [] {
      StepLinear(c, d, vs[0], ws[0]);
      RegisterLinear(Step(c, vs[0]), Step(d, ws[0]), vs[1..], ws[1..]);
      assert Difference(vs, ws)[1..] == Difference(vs[1..], ws[1..]);
    }
  }

  lemma {:induction false} RegisterAppend(c: bv32, vs: seq<bv32>, ws: seq<bv32>)
    ensures Register(c, vs + ws) == Register(Register(c, vs), ws)
    decreases vs
  {
    hide Step;
    if vs == [] {
      assert [] + ws == ws;
    } else {
      assert (vs + ws)[1..] == vs[1..] + ws;
      RegisterAppend(Step(c, vs[0]), vs[1..], ws);
    }
  }

  ghost predicate Zeros(zs: seq<bv32>) {
    forall i | 0 <= i < |zs| :: zs[i] == 0
  }

  /** Equal symbols neither create nor remove a difference. */
  lemma {:induction false} ZerosKeep(d: bv32, zs: seq<bv32>)
    requires Zeros(zs) && d < 0x4000_0000
    ensures Register(d, zs) == 0 <==> d == 0
    decreases zs
  {
    hide Step;
    if zs != [] {
      StepInjective(d);
      StepBounded(d, 0);
      ZerosKeep(Step(d, 0), zs[1..]);
    }
  }

  ghost predicate Small(ds: seq<bv32>) {
    forall i | 0 <= i < |ds| :: ds[i] < 32
  }

  /** 32 to the power k, up to the size of the register. */
  function Limit(k: nat): bv32 {
    match k
    case 0 => 1
    case 1 => 0x20
    case 2 => 0x400
    case 3 => 0x8000
    case 4 => 0x10_0000
    case 5 => 0x200_0000
    case _ => 0x4000_0000
  }

  function Append(d: bv32, v: bv32): bv32 { (d << 5) | v }

  lemma TopEmpty(d: bv32)
    requires d < 0x200_0000
    ensures Mix(Top(d)) == 0
  {
    assert Top(d) == 0;
  }

  lemma ShiftedIn(d: bv32, v: bv32)
    requires d < 0x200_0000 && v < 32
    ensures Xor(Shifted(d), v) == Append(d, v)
  {
  }

  lemma AppendLimit(d: bv32, v: bv32, k: nat)
    requires k < 6 && d < Limit(k) && v < 32
    ensures d < 0x200_0000 && Append(d, v) < Limit(k + 1) && (Append(d, v) == 0 <==> d == 0 && v == 0)
  {
    if k == 0 { } else if k == 1 { } else if k == 2 { } else if k == 3 { } else if k == 4 { } else { }
  }

  /** Below 25 bits the register only shifts the symbol in. */
  lemma StepShifts(d: bv32, v: bv32)
    requires d < 0x200_0000 && v < 32
    ensures Step(d, v) == Append(d, v)
  {
    SelectedIsMix(Top(d));
    TopEmpty(d);
    ShiftedIn(d, v);
    XorLaws(Xor(Shifted(d), v), 0, 0);
    hide Mix, Selected, Xor, Top, Shifted, Append;
  }

  /** Up to six symbols fill the register without loss. */
  lemma {:induction false} SixFit(d: bv32, ds: seq<bv32>)
    requires |ds| <= 6 && d < Limit(6 - |ds|) && Small(ds)
    ensures Register(d, ds) < 0x4000_0000
    ensures Register(d, ds) == 0 <==> d == 0 && Zeros(ds)
    decreases ds
  {
    hide Step, Append, Limit;
    if ds == [] {
      LimitSix();
    } else {
      AppendLimit(d, ds[0], 6 - |ds|);
      StepShifts(d, ds[0]);
      SixFit(Append(d, ds[0]), ds[1..]);
      if Zeros(ds[1..]) && ds[0] == 0 {
        forall i | 0 <= i < |ds| ensures ds[i] == 0 { if i > 0 { assert ds[i] == ds[1..][i - 1]; } }
      }
    }
  }

  lemma LimitSix()
    ensures Limit(6) == 0x4000_0000
  {
  }

  /** Two symbol sequences that differ only inside six consecutive places and leave the same
      register are equal. */
  lemma BurstDetected(c: bv32, vs: seq<bv32>, ws: seq<bv32>, at: nat)
    requires |vs| == |ws| && at + 6 <= |vs| && Small(vs[at..at + 6]) && Small(ws[at..at + 6])
    requires vs[..at] == ws[..at] && vs[at + 6..] == ws[at + 6..]
    requires Register(c, vs) == Register(c, ws)
    ensures vs == ws
  {
    hide Step, Xor, Register, Difference, Zeros, Small, Limit;
    var before, burst, after := Difference(vs[..at], ws[..at]), Difference(vs[at..at + 6], ws[at..at + 6]),
      Difference(vs[at + 6..], ws[at + 6..]);
    RegisterLinear(c, c, vs, ws);
    XorLaws(Register(c, vs), Register(c, ws), 0);
    XorLaws(c, c, 0);
    DifferenceSplits(vs, ws, at);
    RegisterAppend(0, before, burst + after);
    RegisterAppend(Register(0, before), burst, after);
    DifferenceZero(vs[..at], ws[..at]);
    DifferenceZero(vs[at + 6..], ws[at + 6..]);
    ZerosKeep(0, before);
    DifferenceSmall(vs[at..at + 6], ws[at..at + 6]);
    LimitZero();
    SixFit(0, burst);
    ZerosKeep(Register(0, burst), after);
    DifferenceZero(vs[at..at + 6], ws[at..at + 6]);
    assert vs == vs[..at] + vs[at..at + 6] + vs[at + 6..];
    assert ws == ws[..at] + ws[at..at + 6] + ws[at + 6..];
  }

  lemma DifferenceSplits(vs: seq<bv32>, ws: seq<bv32>, at: nat)
    requires |vs| == |ws| && at + 6 <= |vs|
    ensures Difference(vs, ws) == Difference(vs[..at], ws[..at])
              + (Difference(vs[at..at + 6], ws[at..at + 6]) + Difference(vs[at + 6..], ws[at + 6..]))
  {
    hide Xor;
  }

  lemma LimitZero()
    ensures 0 < Limit(0)
  {
  }

  lemma DifferenceZero(vs: seq<bv32>, ws: seq<bv32>)
    requires |vs| == |ws|
    ensures Zeros(Difference(vs, ws)) <==> vs == ws
  {
    hide Xor;
    forall i | 0 <= i < |vs| ensures Difference(vs, ws)[i] == 0 <==> vs[i] == ws[i] { XorLaws(vs[i], ws[i], 0); }
    if Zeros(Difference(vs, ws)) {
      forall i | 0 <= i < |vs| ensures vs[i] == ws[i] { assert Difference(vs, ws)[i] == 0; }
    }
  }

  lemma DifferenceSmall(vs: seq<bv32>, ws: seq<bv32>)
    requires |vs| == |ws| && Small(vs) && Small(ws)
    ensures Small(Difference(vs, ws)) && |Difference(vs, ws)| == |vs|
  {
    forall i | 0 <= i < |vs| ensures Difference(vs, ws)[i] < 32 { XorSmall(vs[i], ws[i]); }
  }

  lemma XorSmall(a: bv32, b: bv32)
    requires a < 32 && b < 32
    ensures Xor(a, b) < 32
  {
  }

  // ----- The examples of the two standards -----

  lemma StepIs(chk: bv32, v: bv32)
    ensures Step(chk, v) == (((chk & 0x1ffffff) << 5) ^ v) ^ Mix(chk >> 25)
  {
    SelectedIsMix(Top(chk));
    hide Mix, Selected;
  }

  /** The register of the BIP-173 example A12UEL5L. */
  lemma KnownBech32()
    ensures Register(1, [3, 0, 1, 10, 28, 25, 31, 20, 31]) == 0x1
  {
    StepIs(0x1, 3);
    StepIs(0x23, 0);
    StepIs(0x460, 1);
    StepIs(0x8c01, 10);
    StepIs(0x11802a, 28);
    StepIs(0x230055c, 25);
    StepIs(0x3d6afc2b, 31);
    StepIs(0x2f84386, 20);
    StepIs(0x24622766, 31);
    hide Step, Xor, Top, Shifted, Bit, Selected;
    assert Register(0x1, [3, 0, 1, 10, 28, 25, 31, 20, 31]) == Register(0x23, [0, 1, 10, 28, 25, 31, 20, 31]);
    assert Register(0x23, [0, 1, 10, 28, 25, 31, 20, 31]) == Register(0x460, [1, 10, 28, 25, 31, 20, 31]);
    assert Register(0x460, [1, 10, 28, 25, 31, 20, 31]) == Register(0x8c01, [10, 28, 25, 31, 20, 31]);
    assert Register(0x8c01, [10, 28, 25, 31, 20, 31]) == Register(0x11802a, [28, 25, 31, 20, 31]);
    assert Register(0x11802a, [28, 25, 31, 20, 31]) == Register(0x230055c, [25, 31, 20, 31]);
    assert Register(0x230055c, [25, 31, 20, 31]) == Register(0x3d6afc2b, [31, 20, 31]);
    assert Register(0x3d6afc2b, [31, 20, 31]) == Register(0x2f84386, [20, 31]);
    assert Register(0x2f84386, [20, 31]) == Register(0x24622766, [31]);
    assert Register(0x24622766, [31]) == Register(0x1, []);
  }

  /** The register of the BIP-350 example A1LQFN3A. */
  lemma KnownBech32m()
    ensures Register(1, [3, 0, 1, 31, 0, 9, 19, 17, 29]) == 0x2bc830a3
  {
    StepIs(0x1, 3);
    StepIs(0x23, 0);
    StepIs(0x460, 1);
    StepIs(0x8c01, 31);
    StepIs(0x11803f, 0);
    StepIs(0x23007e0, 9);
    StepIs(0x3d6aabbb, 19);
    StepIs(0x2f2b18a, 17);
    StepIs(0x253c66e3, 29);
    hide Step, Xor, Top, Shifted, Bit, Selected;
    assert Register(0x1, [3, 0, 1, 31, 0, 9, 19, 17, 29]) == Register(0x23, [0, 1, 31, 0, 9, 19, 17, 29]);
    assert Register(0x23, [0, 1, 31, 0, 9, 19, 17, 29]) == Register(0x460, [1, 31, 0, 9, 19, 17, 29]);
    assert Register(0x460, [1, 31, 0, 9, 19, 17, 29]) == Register(0x8c01, [31, 0, 9, 19, 17, 29]);
    assert Register(0x8c01, [31, 0, 9, 19, 17, 29]) == Register(0x11803f, [0, 9, 19, 17, 29]);
    assert Register(0x11803f, [0, 9, 19, 17, 29]) == Register(0x23007e0, [9, 19, 17, 29]);
    assert Register(0x23007e0, [9, 19, 17, 29]) == Register(0x3d6aabbb, [19, 17, 29]);
    assert Register(0x3d6aabbb, [19, 17, 29]) == Register(0x2f2b18a, [17, 29]);
    assert Register(0x2f2b18a, [17, 29]) == Register(0x253c66e3, [29]);
    assert Register(0x253c66e3, [29]) == Register(0x2bc830a3, []);
  }

  // ----- Every payload has exactly one checksum -----

  function Shorter(u: bv32): bv32 { u >> 5 }

  /** The first `k` symbols of a 30-bit word, as a number. */
  function Leading(t: bv32, k: nat): bv32
    requires k <= 6
    decreases 6 - k
  {
    if k == 6 then t else Shorter(Leading(t, k + 1))
  }

  function Low(u: bv32): bv32 { u & 31 }

  /** The six symbols of a 30-bit word, most significant first. */
  function Unpack(t: bv32): seq<bv32> {
    seq(6, i requires 0 <= i < 6 => Low(Leading(t, i + 1)))
  }

  predicate Below(u: bv32, k: nat) { u < Limit(k) }

  predicate Below25(u: bv32) { u < 0x200_0000 }

  lemma ShorterBelow(u: bv32, k: nat)
    requires k < 6 && Below(u, k + 1)
    ensures Below(Shorter(u), k) && Below25(Shorter(u))
  {
    if k == 0 { } else if k == 1 { } else if k == 2 { } else if k == 3 { } else if k == 4 { } else { }
  }

  lemma {:induction false} LeadingBelow(t: bv32, k: nat)
    requires k <= 6 && Below(t, 6)
    ensures Below(Leading(t, k), k) && (k < 6 ==> Below25(Leading(t, k)))
    decreases 6 - k
  {
    hide Below, Below25, Shorter;
    if k < 6 {
      LeadingBelow(t, k + 1);
      ShorterBelow(Leading(t, k + 1), k);
    }
  }

  lemma Rejoin(u: bv32)
    ensures Append(Shorter(u), Low(u)) == u && Low(u) < 32
  {
  }

  lemma LeadingNext(t: bv32, k: nat)
    requires k < 6 && t < 0x4000_0000
    ensures Append(Leading(t, k), Unpack(t)[k]) == Leading(t, k + 1) && Leading(t, k) < 0x200_0000 && Unpack(t)[k] < 32
  {
    LimitSix();
    assert Below(t, 6);
    hide Append, Low, Shorter, Limit;
    LeadingBelow(t, k);
    Rejoin(Leading(t, k + 1));
  }

  lemma {:induction false} Unpacked(t: bv32, k: nat)
    requires k <= 6 && t < 0x4000_0000
    ensures Register(Leading(t, k), Unpack(t)[k..]) == t
    decreases 6 - k
  {
    hide Step, Append, Leading, Unpack;
    assert |Unpack(t)| == 6 && Leading(t, 6) == t by { UnpackShape(t); }
    if k < 6 {
      LeadingNext(t, k);
      StepShifts(Leading(t, k), Unpack(t)[k]);
      Unpacked(t, k + 1);
      assert Unpack(t)[k..][1..] == Unpack(t)[k + 1..];
    }
  }

  lemma UnpackShape(t: bv32)
    ensures |Unpack(t)| == 6 && Leading(t, 6) == t
  {
  }

  lemma TargetBounded(a: bv32, b: bv32)
    requires a < 0x4000_0000 && b < 0x4000_0000
    ensures Xor(a, b) < 0x4000_0000
  {
  }

  const SixZeros: seq<bv32> := [0, 0, 0, 0, 0, 0]

  /** The checksum that makes the register end in `target`. */
  function ChecksumFor(c: bv32, target: bv32): seq<bv32> {
    Unpack(Xor(Register(c, SixZeros), target))
  }

  lemma LeadingZero(t: bv32)
    requires t < 0x4000_0000
    ensures Leading(t, 0) == 0
  {
    LimitSix();
    LeadingBelow(t, 0);
    hide Leading;
  }

  lemma ChecksumWorks(c: bv32, target: bv32)
    requires c < 0x4000_0000 && target < 0x4000_0000
    ensures |ChecksumFor(c, target)| == 6 && Small(ChecksumFor(c, target))
    ensures Register(c, ChecksumFor(c, target)) == target
  {
    hide Step, Register, Limit, Leading, Low, Unpack, Difference, Xor;
    var rest := Register(c, SixZeros);
    RegisterBounded(c, SixZeros);
    var t := Xor(rest, target);
    TargetBounded(rest, target);
    ChecksumSmall(t);
    LeadingZero(t);
    Unpacked(t, 0);
    assert Unpack(t)[0..] == Unpack(t);
    RegisterLinear(c, 0, SixZeros, Unpack(t));
    DifferenceFromZeros(Unpack(t));
    XorLaws(c, 0, 0);
    XorSelf(rest, target);
    XorLaws(rest, Register(c, Unpack(t)), target);
    XorCancels(rest, t, Register(c, Unpack(t)));
  }

  lemma XorSelf(a: bv32, b: bv32)
    ensures Xor(a, Xor(a, b)) == b
  {
  }

  /** From rest ^ t == r follows r == rest ^ t in the order it is needed. */
  lemma XorCancels(rest: bv32, t: bv32, r: bv32)
    ensures Xor(rest, t) == Xor(t, rest) && (Xor(rest, r) == t ==> r == Xor(rest, t))
  {
  }

  lemma DifferenceFromZeros(ds: seq<bv32>)
    requires |ds| == 6
    ensures Difference(SixZeros, ds) == ds
  {
    hide Xor;
    forall i | 0 <= i < 6 ensures Difference(SixZeros, ds)[i] == ds[i] { XorLaws(ds[i], 0, 0); }
  }

  /** For every payload and target exactly one six-symbol checksum leaves the target. */
  lemma ExactlyOneChecksum(c: bv32, target: bv32, other: seq<bv32>)
    requires c < 0x4000_0000 && target < 0x4000_0000 && |other| == 6 && Small(other)
    ensures Register(c, other) == target <==> other == ChecksumFor(c, target)
  {
    hide Step, Register, ChecksumFor, Small;
    ChecksumWorks(c, target);
    var sum := ChecksumFor(c, target);
    if Register(c, other) == target {
      assert other[..0] == sum[..0] && other[6..] == sum[6..] && other[0..6] == other && sum[0..6] == sum;
      BurstDetected(c, other, sum, 0);
    }
  }

  lemma ChecksumSmall(t: bv32)
    requires t < 0x4000_0000
    ensures |Unpack(t)| == 6 && Small(Unpack(t))
  {
    hide Leading, Low;
    forall i | 0 <= i < 6 ensures Unpack(t)[i] < 32 { Rejoin(Leading(t, i + 1)); }
  }

  lemma {:induction false} RegisterBounded(c: bv32, vs: seq<bv32>)
    requires c < 0x4000_0000 && forall i | 0 <= i < |vs| :: vs[i] < 0x4000_0000
    ensures Register(c, vs) < 0x4000_0000
    decreases vs
  {
    hide Step;
    if vs != [] {
      StepBounded(c, vs[0]);
      RegisterBounded(Step(c, vs[0]), vs[1..]);
    }
  }
}
