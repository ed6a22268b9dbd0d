/** Examples of BIP-173 and BIP-350 as strings: what the decoder answers for each of them. */
module Bech32Examples {
  import opened Wrappers
  import opened Bech32
  import opened Bech32Address
  import opened Bech32Encoding
  import opened Strings

  /** `trace` lists the registers on the way through `vs`. */
  lemma {:induction false} Walked(vs: seq<bv32>, trace: seq<bv32>)
    requires |trace| == |vs| + 1 && forall i | 0 <= i < |vs| :: Step(trace[i], vs[i]) == trace[i + 1]
    ensures Register(trace[0], vs) == trace[|vs|]
    decreases vs
  {
    hide Step;
    if vs != [] { Walked(vs[1..], trace[1..]); }
  }

  lemma Leg1()
    ensures Register(0x1, [3, 3, 3, 3, 3, 3, 0, 1, 2, 3, 4, 5, 6]) == 0x3be80e6a
  {
    StepIs(0x1, 3); StepIs(0x23, 3); StepIs(0x463, 3); StepIs(0x8c63, 3); StepIs(0x118c63, 3); StepIs(0x2318c63, 3);
    StepIs(0x3d5bdbd1, 0); StepIs(0x4dcbcd9, 1); StepIs(0x3dc7154c, 2); StepIs(0x17456f7b, 3); StepIs(0x8d50561, 4);
    StepIs(0x401b5de, 5); StepIs(0x266635a8, 6);
    hide Step, Xor, Top, Shifted, Bit, Selected;
    Walked([3, 3, 3, 3, 3, 3, 0, 1, 2, 3, 4, 5, 6],
           [0x1, 0x23, 0x463, 0x8c63, 0x118c63, 0x2318c63, 0x3d5bdbd1, 0x4dcbcd9, 0x3dc7154c, 0x17456f7b, 0x8d50561,
           0x401b5de, 0x266635a8, 0x3be80e6a]);
  }

  lemma Leg2()
    ensures Register(0x3be80e6a, [0, 1, 2, 3, 4, 5, 6, 7, 8, 9]) == 0xa5fdaa9
  {
    StepIs(0x3be80e6a, 0); StepIs(0xf9cd266, 1); StepIs(0x30018ce4, 2); StepIs(0x1767cdec, 3); StepIs(0xc815781, 4);
    StepIs(0x28db67b3, 5); StepIs(0x2fd98d2c, 6); StepIs(0x12be0710, 7); StepIs(0x11e88668, 8); StepIs(0x52fed5, 9);
    hide Step, Xor, Top, Shifted, Bit, Selected;
    Walked([0, 1, 2, 3, 4, 5, 6, 7, 8, 9],
           [0x3be80e6a, 0xf9cd266, 0x30018ce4, 0x1767cdec, 0xc815781, 0x28db67b3, 0x2fd98d2c, 0x12be0710, 0x11e88668,
           0x52fed5, 0xa5fdaa9]);
  }

  lemma Leg3()
    ensures Register(0xa5fdaa9, [10, 11, 12, 13, 14, 15, 16, 17, 18, 19]) == 0x28166541
  {
    StepIs(0xa5fdaa9, 10); StepIs(0x2e301b62, 11); StepIs(0x2f8ccedd, 12); StepIs(0x1816793a, 13);
    StepIs(0x212c0d6a, 14); StepIs(0xf95cffd, 15); StepIs(0x31223f8a, 16); StepIs(0x3311a03e, 17);
    StepIs(0xe08010d, 18); StepIs(0x29be197, 19);
    hide Step, Xor, Top, Shifted, Bit, Selected;
    Walked([10, 11, 12, 13, 14, 15, 16, 17, 18, 19],
           [0xa5fdaa9, 0x2e301b62, 0x2f8ccedd, 0x1816793a, 0x212c0d6a, 0xf95cffd, 0x31223f8a, 0x3311a03e, 0xe08010d,
           0x29be197, 0x28166541]);
  }

  lemma Leg4()
    ensures Register(0x28166541, [20, 21, 22, 23, 24, 25, 26, 27, 28]) == 0x9853657
  {
    StepIs(0x28166541, 20); StepIs(0x3679d37d, 21); StepIs(0x556e704, 22); StepIs(0xc8c6efb, 23);
    StepIs(0x297c48e0, 24); StepIs(0x1b3c6751, 25); StepIs(0x3f0597ac, 26); StepIs(0x347f64d1, 27);
    StepIs(0x3eea4538, 28);
    hide Step, Xor, Top, Shifted, Bit, Selected;
    Walked([20, 21, 22, 23, 24, 25, 26, 27, 28],
           [0x28166541, 0x3679d37d, 0x556e704, 0xc8c6efb, 0x297c48e0, 0x1b3c6751, 0x3f0597ac, 0x347f64d1, 0x3eea4538,
           0x9853657]);
  }

  lemma Leg5()
    ensures Register(0x9853657, [29, 30, 31, 27, 0, 0, 0, 6, 14]) == 0x1
  {
    StepIs(0x9853657, 29); StepIs(0x2e07d307, 30); StepIs(0x2975c268, 31); StepIs(0x1a0d3656, 27);
    StepIs(0x192fb74e, 0); StepIs(0x615c3e7, 0); StepIs(0x1f82a53f, 0); StepIs(0xe8d5418, 6); StepIs(0x12314323, 14);
    hide Step, Xor, Top, Shifted, Bit, Selected;
    Walked([29, 30, 31, 27, 0, 0, 0, 6, 14],
           [0x9853657, 0x2e07d307, 0x2975c268, 0x1a0d3656, 0x192fb74e, 0x615c3e7, 0x1f82a53f, 0xe8d5418, 0x12314323,
           0x1]);
  }


  const ALL_SYMBOLS: seq<bv32> :=
    [0, 1, 2, 3, 4, 5, 6, 7, 8, 9, 10, 11, 12, 13, 14, 15, 16, 17, 18, 19, 20, 21, 22, 23, 24, 25, 26, 27, 28, 29, 30, 31]

  lemma AllSymbolsRegister()
    ensures Register(1, [3, 3, 3, 3, 3, 3, 0, 1, 2, 3, 4, 5, 6] + (ALL_SYMBOLS + [27, 0, 0, 0, 6, 14])) == 1
  {
    Leg1();
    Leg2();
    Leg3();
    Leg4();
    Leg5();
    hide Register;
    var a: seq<bv32> := [3, 3, 3, 3, 3, 3, 0, 1, 2, 3, 4, 5, 6];
    var b: seq<bv32> := [0, 1, 2, 3, 4, 5, 6, 7, 8, 9];
    var c: seq<bv32> := [10, 11, 12, 13, 14, 15, 16, 17, 18, 19];
    var d: seq<bv32> := [20, 21, 22, 23, 24, 25, 26, 27, 28];
    var e: seq<bv32> := [29, 30, 31, 27, 0, 0, 0, 6, 14];
    RegisterAppend(1, a, b);
    RegisterAppend(1, a + b, c);
    RegisterAppend(1, a + b + c, d);
    RegisterAppend(1, a + b + c + d, e);
    assert a + (ALL_SYMBOLS + [27, 0, 0, 0, 6, 14]) == a + b + c + d + e;
  }

  /** Six symbols that pass the checksum are the checksum. */
  lemma AddressOf(hrp: string, payload: seq<bv32>, six: seq<bv32>, spec: Spec)
    requires Small(payload) && Small(six) && |six| == 6
    requires SpecOf(Register(1, HrpExpand(hrp) + (payload + six))) == Some(spec)
    ensures Small(payload + six) && Address(hrp, payload, spec) == hrp + "1" + CharsOf(payload + six)
  {
    SmallJoins(payload, six);
    hide Register, HrpExpand, SpecOf, Small, ChecksumFor;
    assert HrpExpand(hrp) + payload + six == HrpExpand(hrp) + (payload + six);
    ExactlyOneChecksumAccepted(hrp, payload, spec, six);
  }

  lemma ExpandedAbcdef()
    ensures HrpExpand("abcdef") == [3, 3, 3, 3, 3, 3, 0, 1, 2, 3, 4, 5, 6]
  {
  }

  lemma ExpandedA()
    ensures HrpExpand("a") == [3, 0, 1]
  {
  }

  lemma Text1()
    ensures Small([0, 1, 2, 3, 4, 5, 6, 7]) && CharsOf([0, 1, 2, 3, 4, 5, 6, 7]) == "qpzry9x8"
  {
  }

  lemma Case1()
    ensures Upper("qpzry9x8") == "QPZRY9X8"
  {
  }

  lemma Text2()
    ensures Small([8, 9, 10, 11, 12, 13, 14, 15]) && CharsOf([8, 9, 10, 11, 12, 13, 14, 15]) == "gf2tvdw0"
  {
  }

  lemma Case2()
    ensures Upper("gf2tvdw0") == "GF2TVDW0"
  {
  }

  lemma Text3()
    ensures Small([16, 17, 18, 19, 20, 21, 22, 23]) && CharsOf([16, 17, 18, 19, 20, 21, 22, 23]) == "s3jn54kh"
  {
  }

  lemma Case3()
    ensures Upper("s3jn54kh") == "S3JN54KH"
  {
  }

  lemma Text4()
    ensures Small([24, 25, 26, 27, 28, 29, 30, 31]) && CharsOf([24, 25, 26, 27, 28, 29, 30, 31]) == "ce6mua7l"
  {
  }

  lemma Case4()
    ensures Upper("ce6mua7l") == "CE6MUA7L"
  {
  }

  lemma Text5()
    ensures Small([27, 0, 0, 0, 6, 14]) && CharsOf([27, 0, 0, 0, 6, 14]) == "mqqqxw"
  {
  }

  lemma Case5()
    ensures Upper("mqqqxw") == "MQQQXW"
  {
  }

  lemma CharsJoin(a: seq<bv32>, b: seq<bv32>)
    requires Small(a) && Small(b)
    ensures Small(a + b) && CharsOf(a + b) == CharsOf(a) + CharsOf(b)
  {
    hide CharOf;
    SmallJoins(a, b);
  }

  lemma UpperJoins(a: string, b: string)
    ensures Upper(a + b) == Upper(a) + Upper(b)
  {
  }

  lemma ManyChars(a: seq<bv32>, b: seq<bv32>, c: seq<bv32>, d: seq<bv32>, e: seq<bv32>)
    requires Small(a) && Small(b) && Small(c) && Small(d) && Small(e)
    ensures Small(a + b + c + d + e)
    ensures CharsOf(a + b + c + d + e) == CharsOf(a) + CharsOf(b) + CharsOf(c) + CharsOf(d) + CharsOf(e)
  {
    hide CharsOf, Small;
    CharsJoin(a, b);
    CharsJoin(a + b, c);
    CharsJoin(a + b + c, d);
    CharsJoin(a + b + c + d, e);
  }

  lemma ManyUpper(a: string, b: string, c: string, d: string, e: string, f: string)
    ensures Upper(a + b + c + d + e + f) == Upper(a) + Upper(b) + Upper(c) + Upper(d) + Upper(e) + Upper(f)
  {
    hide Upper;
    UpperJoins(a, b);
    UpperJoins(a + b, c);
    UpperJoins(a + b + c, d);
    UpperJoins(a + b + c + d, e);
    UpperJoins(a + b + c + d + e, f);
  }

  lemma PrefixText()
    ensures Lower("abcdef") == "abcdef" && Upper("abcdef1") == "ABCDEF1"
  {
  }

  lemma AllSymbolsSplit()
    ensures ALL_SYMBOLS == [0, 1, 2, 3, 4, 5, 6, 7] + [8, 9, 10, 11, 12, 13, 14, 15]
                           + [16, 17, 18, 19, 20, 21, 22, 23] + [24, 25, 26, 27, 28, 29, 30, 31]
  {
  }

  lemma AllSymbolsText()
    ensures Small(ALL_SYMBOLS) && Small([27, 0, 0, 0, 6, 14]) && Small(ALL_SYMBOLS + [27, 0, 0, 0, 6, 14])
    ensures CharsOf(ALL_SYMBOLS + [27, 0, 0, 0, 6, 14]) == "qpzry9x8" + "gf2tvdw0" + "s3jn54kh" + "ce6mua7l" + "mqqqxw"
  {
    AllSymbolsSplit();
    Text1();
    Text2();
    Text3();
    Text4();
    Text5();
    hide CharsOf, Upper, Small, ALL_SYMBOLS;
    ManyChars([0, 1, 2, 3, 4, 5, 6, 7], [8, 9, 10, 11, 12, 13, 14, 15], [16, 17, 18, 19, 20, 21, 22, 23],
              [24, 25, 26, 27, 28, 29, 30, 31], [27, 0, 0, 0, 6, 14]);
    SmallJoins(ALL_SYMBOLS, [27, 0, 0, 0, 6, 14]);
  }

  lemma AllSymbolsUpper()
    ensures Upper("abcdef1" + "qpzry9x8" + "gf2tvdw0" + "s3jn54kh" + "ce6mua7l" + "mqqqxw")
            == "ABCDEF1" + "QPZRY9X8" + "GF2TVDW0" + "S3JN54KH" + "CE6MUA7L" + "MQQQXW"
  {
    PrefixText();
    Case1();
    Case2();
    Case3();
    Case4();
    Case5();
    hide CharsOf, Upper, Lower, Small;
    ManyUpper("abcdef1", "qpzry9x8", "gf2tvdw0", "s3jn54kh", "ce6mua7l", "mqqqxw");
  }

  /** An address given by the text of its symbols. */
  lemma Example(hrp: string, payload: seq<bv32>, six: seq<bv32>, spec: Spec, text: string)
    requires hrp != "" && Lower(hrp) == hrp && Small(payload) && Small(six) && |six| == 6 && Small(payload + six)
    requires SpecOf(Register(1, HrpExpand(hrp) + (payload + six))) == Some(spec) && text == CharsOf(payload + six)
    requires |hrp| + 1 + |text| <= 90
    ensures Decoding(hrp + "1" + text) == Some(Decoded(hrp, payload, spec))
    ensures Decoding(Upper(hrp + "1" + text)) == Some(Decoded(hrp, payload, spec))
  {
    AddressOf(hrp, payload, six, spec);
    hide Register, CharsOf, Lower, Upper, Decoding, HrpExpand, Address, Small, SpecOf;
    AddressDecodes(hrp, payload, spec, hrp + "1" + text);
    AddressDecodes(hrp, payload, spec, Upper(hrp + "1" + text));
  }

  lemma SixJoin(a: string, b: string, c: string, d: string, e: string, f: string, g: string)
    ensures a + b + (c + d + e + f + g) == a + b + c + d + e + f + g
  {
  }

  /** Every symbol once, in lower and in upper case: symbols 0 to 31 in order. */
  lemma AllSymbolsAddress()
    ensures Decoding("abcdef1" + "qpzry9x8" + "gf2tvdw0" + "s3jn54kh" + "ce6mua7l" + "mqqqxw")
            == Some(Decoded("abcdef", ALL_SYMBOLS, Plain))
    ensures Decoding("ABCDEF1" + "QPZRY9X8" + "GF2TVDW0" + "S3JN54KH" + "CE6MUA7L" + "MQQQXW")
            == Some(Decoded("abcdef", ALL_SYMBOLS, Plain))
  {
    hide Register, CharsOf, Lower, Upper, Decoding, HrpExpand, Small, ALL_SYMBOLS;
    PrefixText();
    AllSymbolsText();
    AllSymbolsUpper();
    AllSymbolsRegister();
    ExpandedAbcdef();
    var text := "qpzry9x8" + "gf2tvdw0" + "s3jn54kh" + "ce6mua7l" + "mqqqxw";
    Example("abcdef", ALL_SYMBOLS, [27, 0, 0, 0, 6, 14], Plain, text);
    SixJoin("abcdef", "1", "qpzry9x8", "gf2tvdw0", "s3jn54kh", "ce6mua7l", "mqqqxw");
    assert "abcdef" + "1" == "abcdef1";
  }

  lemma ModifiedText()
    ensures Lower("a") == "a" && Small([]) && Small([31, 0, 9, 19, 17, 29])
    ensures CharsOf([31, 0, 9, 19, 17, 29]) == "lqfn3a"
  {
  }

  /** The empty payload in the modified variant. */
  lemma ModifiedAddress()
    ensures Decoding("a1lqfn3a") == Some(Decoded("a", [], Modified))
  {
    ModifiedText();
    hide Register, CharsOf, Lower, Upper, Decoding, HrpExpand, Small;
    KnownBech32m();
    ExpandedA();
    var six: seq<bv32> := [31, 0, 9, 19, 17, 29];
    assert [] + six == six && [3, 0, 1] + six == [3, 0, 1, 31, 0, 9, 19, 17, 29];
    Example("a", [], six, Modified, "lqfn3a");
    assert "a" + "1" + "lqfn3a" == "a1lqfn3a";
  }
}
