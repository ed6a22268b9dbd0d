/** The address of a prefix, a payload and a checksum variant, and what the decoder makes of it:
    it accepts these addresses, in lower or in upper case, and nothing else. */
module Bech32Encoding {
  import opened Wrappers
  import opened Bech32
  import opened Bech32Address
  import opened Strings

  // ----- Symbols and characters -----

  function NumberOf(v: bv32): (n: nat)
    requires v < 32
    ensures n < 32
  {
    v as nat
  }

  function CharOf(v: bv32): char
    requires v < 32
  {
    CharsetSize();
    CHARSET[NumberOf(v)]
  }

  function CharsOf(vs: seq<bv32>): (s: string)
    requires Small(vs)
    ensures |s| == |vs|
  {
    seq(|vs|, i requires 0 <= i < |vs| => CharOf(vs[i]))
  }

  lemma SymbolNumber(v: bv32)
    requires v < 32
    ensures Symbol(NumberOf(v)) == v
  {
  }

  /** The table of BIP-173, the other way round. */
  function Position(c: char): int {
    match c
    case 'q' => 0 case 'p' => 1 case 'z' => 2 case 'r' => 3 case 'y' => 4 case '9' => 5 case 'x' => 6 case '8' => 7
    case 'g' => 8 case 'f' => 9 case '2' => 10 case 't' => 11 case 'v' => 12 case 'd' => 13 case 'w' => 14 case '0' => 15
    case 's' => 16 case '3' => 17 case 'j' => 18 case 'n' => 19 case '5' => 20 case '4' => 21 case 'k' => 22 case 'h' => 23
    case 'c' => 24 case 'e' => 25 case '6' => 26 case 'm' => 27 case 'u' => 28 case 'a' => 29 case '7' => 30 case 'l' => 31
    case _ => -1
  }

  lemma CharsetDistinct(i: nat, j: nat)
    requires i < |CHARSET| && j < |CHARSET| && CHARSET[i] == CHARSET[j]
    ensures i == j
  {
    PositionOf(i);
    PositionOf(j);
    hide Position;
  }

  lemma PositionOf(i: nat)
    requires i < |CHARSET|
    ensures Position(CHARSET[i]) == i
  {
  }

  /** A symbol is read back from its character. */
  lemma SymbolOfChar(v: bv32)
    requires v < 32
    ensures CharOf(v) in CHARSET && SymbolOf(CharOf(v)) == v
  {
    CharsetSize();
    SymbolNumber(v);
    CharsetDistinct(IndexIn(CHARSET, CharOf(v)), NumberOf(v));
    hide Symbol, NumberOf;
  }

  lemma SymbolsOfChars(vs: seq<bv32>)
    requires Small(vs)
    ensures InCharset(CharsOf(vs)) && SymbolsOf(CharsOf(vs)) == vs
  {
    hide CharOf, SymbolOf;
    forall i | 0 <= i < |vs| ensures CharsOf(vs)[i] in CHARSET && SymbolOf(CharsOf(vs)[i]) == vs[i] {
      SymbolOfChar(vs[i]);
    }
  }

  lemma CharsOfSymbols(s: string)
    requires InCharset(s)
    ensures Small(SymbolsOf(s)) && CharsOf(SymbolsOf(s)) == s
  {
    hide CharOf, SymbolOf;
    SymbolsSmall(s);
    SymbolsOfChars(SymbolsOf(s));
    SymbolsInjective(CharsOf(SymbolsOf(s)), s);
  }

  // ----- The prefix -----

  lemma WidenNumber(b: bv5)
    ensures Widen(b) as nat == b as nat
  {
  }

  lemma SymbolIsNumber(i: nat)
    requires i < 32
    ensures Symbol(i) as nat == i && Symbol(i) < 32
  {
    FiveNumber(i);
    WidenNumber(Five(i));
    SymbolBounded(i);
    hide Five, Widen;
  }

  /** The two halves of a character give it back. */
  lemma BitsOfChar(c: char)
    requires c as int < 0x400
    ensures HighBits(c) as nat == c as nat / 32 && LowBits(c) as nat == c as nat % 32
    ensures HighBits(c) as nat * 32 + LowBits(c) as nat == c as nat && LowBits(c) < 32
  {
    SymbolIsNumber(c as nat / 32);
    SymbolIsNumber(c as nat % 32);
    hide Symbol;
  }

  /** The expansion has the high parts, a zero, and the low parts. */
  lemma ExpansionAt(hrp: string, i: nat)
    requires i < |hrp| && hrp[i] as int < 0x400
    ensures var e := HrpExpand(hrp);
      && |e| == 2 * |hrp| + 1 && e[|hrp|] == 0
      && e[i] as nat == hrp[i] as nat / 32 && e[|hrp| + 1 + i] as nat == hrp[i] as nat % 32
  {
    BitsOfChar(hrp[i]);
    hide HighBits, LowBits;
  }

  /** Two prefixes with one expansion are the same. */
  lemma ExpansionInjective(a: string, b: string)
    requires HrpExpand(a) == HrpExpand(b)
    requires forall i | 0 <= i < |a| :: a[i] as int < 0x400
    requires forall i | 0 <= i < |b| :: b[i] as int < 0x400
    ensures a == b
  {
    hide HighBits, LowBits;
    assert |a| == |b|;
    forall i | 0 <= i < |a| ensures a[i] == b[i] {
      ExpansionAt(a, i);
      ExpansionAt(b, i);
      assert a[i] as nat == 32 * (a[i] as nat / 32) + a[i] as nat % 32;
      assert b[i] as nat == 32 * (b[i] as nat / 32) + b[i] as nat % 32;
    }
  }

  // ----- Characters are lower case -----

  lemma CharOfIsLower(v: bv32)
    requires v < 32
    ensures LowerChar(CharOf(v)) == CharOf(v) && CharOf(v) != '1'
  {
    CharsetSize();
    CharsetIsLower(NumberOf(v));
    hide NumberOf;
  }

  lemma CharsetIsLower(i: nat)
    requires i < |CHARSET|
    ensures LowerChar(CHARSET[i]) == CHARSET[i] && CHARSET[i] != '1'
  {
  }

  lemma CharsAreLower(vs: seq<bv32>)
    requires Small(vs)
    ensures Lower(CharsOf(vs)) == CharsOf(vs) && forall i | 0 <= i < |vs| :: CharsOf(vs)[i] != '1'
  {
    hide CharOf;
    forall i | 0 <= i < |vs| ensures LowerChar(CharsOf(vs)[i]) == CharsOf(vs)[i] && CharsOf(vs)[i] != '1' {
      CharOfIsLower(vs[i]);
    }
  }

  // ----- Encoding -----

  function Target(spec: Spec): bv32 {
    if spec == Plain then 1 else 0x2bc830a3
  }

  function Checksum(hrp: string, payload: seq<bv32>, spec: Spec): (six: seq<bv32>)
    requires Small(payload)
    ensures |six| == 6 && Small(six)
  {
    StartBounded(hrp, payload);
    ChecksumWorks(Register(1, HrpExpand(hrp) + payload), Target(spec));
    ChecksumFor(Register(1, HrpExpand(hrp) + payload), Target(spec))
  }

  lemma StartBounded(hrp: string, payload: seq<bv32>)
    requires Small(payload)
    ensures Register(1, HrpExpand(hrp) + payload) < 0x4000_0000
  {
    hide Register, Small, HrpExpand;
    ValuesBounded(hrp, payload);
    RegisterBounded(1, HrpExpand(hrp) + payload);
  }

  function WithChecksum(hrp: string, payload: seq<bv32>, spec: Spec): (symbols: seq<bv32>)
    requires Small(payload)
    ensures Small(symbols) && |symbols| == |payload| + 6
  {
    SmallJoins(payload, Checksum(hrp, payload, spec));
    payload + Checksum(hrp, payload, spec)
  }

  lemma SmallJoins(a: seq<bv32>, b: seq<bv32>)
    ensures Small(a + b) <==> Small(a) && Small(b)
  {
    assert forall i | 0 <= i < |a| :: (a + b)[i] == a[i];
    assert forall i | 0 <= i < |b| :: (a + b)[|a| + i] == b[i];
  }

  /** Prefix, separator, payload and checksum. */
  function Address(hrp: string, payload: seq<bv32>, spec: Spec): string
    requires Small(payload)
  {
    hrp + "1" + CharsOf(WithChecksum(hrp, payload, spec))
  }

  lemma {:induction false} SeparatorIsLastOne(hrp: string, data: string)
    requires forall i | 0 <= i < |data| :: data[i] != '1'
    ensures LastOne(hrp + "1" + data) == |hrp|
    decreases data
  {
    var s := hrp + "1" + data;
    if data == "" {
      assert s[|s| - 1] == '1';
    } else {
      var front := data[..|data| - 1];
      assert s[..|s| - 1] == hrp + "1" + front;
      SeparatorIsLastOne(hrp, front);
    }
  }

  lemma LowerJoins(a: string, b: string)
    ensures Lower(a + b) == Lower(a) + Lower(b)
  {
  }

  lemma AddressIsLower(hrp: string, payload: seq<bv32>, spec: Spec)
    requires Small(payload) && Lower(hrp) == hrp
    ensures Lower(Address(hrp, payload, spec)) == Address(hrp, payload, spec)
    ensures LastOne(Address(hrp, payload, spec)) == |hrp|
    ensures |Address(hrp, payload, spec)| == |hrp| + |payload| + 7
  {
    var data := CharsOf(WithChecksum(hrp, payload, spec));
    CharsAreLower(WithChecksum(hrp, payload, spec));
    hide Lower, WithChecksum, CharsOf, Small;
    LowerJoins(hrp + "1", data);
    LowerJoins(hrp, "1");
    assert Lower("1") == "1" by { OneIsLower(); }
    SeparatorIsLastOne(hrp, data);
  }

  lemma OneIsLower()
    ensures Lower("1") == "1"
  {
  }

  /** The symbols of an address pass the checksum of its variant. */
  lemma ChecksumAccepted(hrp: string, payload: seq<bv32>, spec: Spec)
    requires Small(payload)
    ensures SpecOf(Register(1, HrpExpand(hrp) + WithChecksum(hrp, payload, spec))) == Some(spec)
    ensures WithChecksum(hrp, payload, spec)[..|payload|] == payload
  {
    hide Register, HrpExpand, SpecOf, Small;
    var six := Checksum(hrp, payload, spec);
    ExactlyOneChecksumAccepted(hrp, payload, spec, six);
    assert HrpExpand(hrp) + payload + six == HrpExpand(hrp) + (payload + six);
  }

  lemma OneCase(e: string, addr: string)
    requires Lower(e) == e && (addr == e || addr == Upper(e))
    ensures Lower(addr) == e && !MixedCase(addr) && |addr| == |e|
  {
    FoldsTwice(e);
    hide Lower, Upper;
  }

  /** The parts the decoder cuts an address into. */
  lemma AddressParts(hrp: string, payload: seq<bv32>, spec: Spec, addr: string)
    requires Small(payload) && hrp != "" && Lower(hrp) == hrp
    requires var e := Address(hrp, payload, spec); |e| <= 90 && (addr == e || addr == Upper(e))
    ensures Shaped(addr) && Prefix(addr) == hrp && DataPart(addr) == CharsOf(WithChecksum(hrp, payload, spec))
  {
    hide Lower, Upper, CharsOf, SymbolsOf, InCharset, WithChecksum, Small, MixedCase, LastOne;
    var e := Address(hrp, payload, spec);
    AddressIsLower(hrp, payload, spec);
    OneCase(e, addr);
    var data := CharsOf(WithChecksum(hrp, payload, spec));
    SymbolsOfChars(WithChecksum(hrp, payload, spec));
    Cut(hrp, data);
    hide Address;
  }

  lemma Cut(hrp: string, data: string)
    ensures (hrp + "1" + data)[..|hrp|] == hrp && (hrp + "1" + data)[|hrp| + 1..] == data
  {
  }

  /** An address, in either case, is decoded to what it was made from. */
  lemma AddressDecodes(hrp: string, payload: seq<bv32>, spec: Spec, addr: string)
    requires Small(payload) && hrp != "" && Lower(hrp) == hrp
    requires var e := Address(hrp, payload, spec); |e| <= 90 && (addr == e || addr == Upper(e))
    ensures Decoding(addr) == Some(Decoded(hrp, payload, spec))
  {
    AddressParts(hrp, payload, spec, addr);
    hide Address, Shaped, Prefix, DataPart, CharsOf, SymbolsOf, WithChecksum, Register, HrpExpand, SpecOf, Small, Lower,
         Upper;
    SymbolsOfChars(WithChecksum(hrp, payload, spec));
    ChecksumAccepted(hrp, payload, spec);
  }

  /** Whatever is accepted is the address of what it is decoded to. */
  lemma DecodedIsAddress(addr: string)
    requires Decoding(addr).Some?
    ensures var d := Decoding(addr).value;
      && d.hrp != "" && Lower(d.hrp) == d.hrp && Small(d.data) && |addr| <= 90
      && Lower(addr) == Address(d.hrp, d.data, d.spec)
  {
    var d := Decoding(addr).value;
    var symbols := SymbolsOf(DataPart(addr));
    CharsOfSymbols(DataPart(addr));
    PartsMakeAddress(addr);
    PrefixIsLower(addr);
    var six := symbols[|symbols| - 6..];
    assert symbols == d.data + six;
    SmallJoins(d.data, six);
    assert HrpExpand(d.hrp) + d.data + six == HrpExpand(d.hrp) + symbols;
    hide Lower, Upper, CharsOf, SymbolsOf, Register, HrpExpand, SpecOf, Small, MixedCase, InCharset;
    ExactlyOneChecksumAccepted(d.hrp, d.data, d.spec, six);
  }

  lemma PrefixIsLower(addr: string)
    ensures Lower(Prefix(addr)) == Prefix(addr)
  {
    FoldsTwice(addr);
  }

  /** The decoder accepts the addresses of at most 90 characters, written in lower or in upper case
      throughout, and returns the prefix, payload and variant they were made from. */
  lemma AcceptedIff(addr: string, d: Decoded)
    ensures Decoding(addr) == Some(d)
            <==> && d.hrp != "" && Lower(d.hrp) == d.hrp && Small(d.data)
                 && var e := Address(d.hrp, d.data, d.spec); |e| <= 90 && (addr == e || addr == Upper(e))
  {
    if Decoding(addr) == Some(d) {
      DecodedIsAddress(addr);
      FoldsTwice(addr);
      assert !MixedCase(addr);
    } else if d.hrp != "" && Lower(d.hrp) == d.hrp && Small(d.data) {
      var e := Address(d.hrp, d.data, d.spec);
      if |e| <= 90 && (addr == e || addr == Upper(e)) { AddressDecodes(d.hrp, d.data, d.spec, addr); }
    }
  }
}
