/** bech32Decode: from an address string to prefix, symbols and checksum variant. */
module Bech32Address {
  import opened Wrappers
  import opened Bech32
  import opened Strings

  const CHARSET: string := "qpzry9x8gf2tvdw0s3jn54khce6mua7l"
  const BECH32_CONST: bv32 := 1
  const BECH32M_CONST: bv32 := 0x2bc830a3
  const MAX_LENGTH: nat := 90

  /** The five-bit value at a position of the charset. */
  function Symbol(i: nat): bv32
    requires i < 32
  {
    Widen(Five(i))
  }

  function Five(i: nat): bv5
    requires i < 32
  {
    i as bv5
  }

  function Widen(b: bv5): bv32 { b as bv32 }

  datatype Spec = Plain | Modified

  datatype Decoded = Decoded(hrp: string, data: seq<bv32>, spec: Spec)

  /** charset.indexOf(c), or -1 */
  function IndexIn(s: string, c: char): (i: int)
    ensures -1 <= i < |s| && (i >= 0 ==> s[i] == c)
    ensures i == -1 <==> c !in s
  {
    if s == "" then -1
    else if s[0] == c then 0
    else
      var rest := IndexIn(s[1..], c);
      if rest == -1 then -1 else rest + 1
  }

  /** lower.lastIndexOf("1"), or -1 */
  function LastOne(s: string): (i: int)
    ensures -1 <= i < |s| && (i >= 0 ==> s[i] == '1')
  {
    if s == "" then -1 else if s[|s| - 1] == '1' then |s| - 1 else LastOne(s[..|s| - 1])
  }

  function SymbolOf(c: char): bv32
    requires c in CHARSET
  {
    Symbol(IndexIn(CHARSET, c))
  }

  predicate InCharset(s: string) {
    forall i | 0 <= i < |s| :: s[i] in CHARSET
  }

  function SymbolsOf(s: string): (v: seq<bv32>)
    requires InCharset(s)
    ensures |v| == |s|
  {
    seq(|s|, i requires 0 <= i < |s| => SymbolOf(s[i]))
  }

  /** charCodeAt(i) >> 5 */
  function HighBits(c: char): bv32 {
    if c as int < 0x400 then Symbol(c as int / 32) else (c as int / 32) as bv32
  }

  /** charCodeAt(i) & 31 */
  function LowBits(c: char): bv32 { Symbol(c as int % 32) }

  function HrpExpand(hrp: string): seq<bv32> {
    seq(|hrp|, i requires 0 <= i < |hrp| => HighBits(hrp[i]))
    + [0]
    + seq(|hrp|, i requires 0 <= i < |hrp| => LowBits(hrp[i]))
  }

  predicate MixedCase(addr: string) {
    addr != Lower(addr) && addr != Upper(addr)
  }

  function SpecOf(checksum: bv32): Option<Spec> {
    if checksum == BECH32_CONST then Some(Plain) else if checksum == BECH32M_CONST then Some(Modified) else None
  }

  /** The part after the last '1': payload and checksum symbols. */
  function DataPart(addr: string): string {
    Lower(addr)[LastOne(Lower(addr)) + 1..]
  }

  function Prefix(addr: string): string {
    var pos := LastOne(Lower(addr));
    if pos < 0 then "" else Lower(addr)[..pos]
  }

  predicate Shaped(addr: string) {
    var pos := LastOne(Lower(addr));
    !MixedCase(addr) && pos >= 1 && pos + 7 <= |addr| <= MAX_LENGTH && InCharset(DataPart(addr))
  }

  /** What bech32Decode answers. */
  function Decoding(addr: string): Option<Decoded> {
    if !Shaped(addr) then None
    else
      var symbols := SymbolsOf(DataPart(addr));
      match SpecOf(Register(1, HrpExpand(Prefix(addr)) + symbols))
      case None => None
      case Some(spec) => Some(Decoded(Prefix(addr), symbols[..|symbols| - 6], spec))
  }

  method ExpandHrp(hrp: string) returns (out: seq<bv32>)
    ensures out == HrpExpand(hrp)
  {
    hide HighBits, LowBits;
    out := [];
    for i := 0 to |hrp|
      invariant out == seq(i, k requires 0 <= k < i => HighBits(hrp[k]))
    {
      out := out + [HighBits(hrp[i])];
    }
    out := out + [0];
    ghost var half := out;
    for i := 0 to |hrp|
      invariant out == half + seq(i, k requires 0 <= k < i => LowBits(hrp[k]))
    {
      out := out + [LowBits(hrp[i])];
    }
  }

  lemma SymbolsSnoc(s: string, c: char)
    requires InCharset(s)
    ensures InCharset(s + [c]) <==> c in CHARSET
    ensures c in CHARSET ==> SymbolsOf(s + [c]) == SymbolsOf(s) + [SymbolOf(c)]
  {
    hide CHARSET, SymbolOf;
    if c !in CHARSET { assert (s + [c])[|s|] !in CHARSET; }
  }

  lemma CharsetPrefix(s: string, n: nat)
    requires n <= |s| && InCharset(s)
    ensures InCharset(s[..n])
  {
    hide CHARSET;
  }

  lemma NoSymbols()
    ensures InCharset("") && SymbolsOf("") == []
  {
  }

  /** The loop over the data part: every character, or the first that is not in the charset. */
  method ReadSymbols(dataPart: string) returns (data: Option<seq<bv32>>)
    ensures data == if InCharset(dataPart) then Some(SymbolsOf(dataPart)) else None
  {
    hide Symbol, InCharset, SymbolsOf, CHARSET;
    NoSymbols();
    var symbols: seq<bv32> := [];
    for i := 0 to |dataPart|
      invariant InCharset(dataPart[..i]) && symbols == SymbolsOf(dataPart[..i])
    {
      SymbolsSnoc(dataPart[..i], dataPart[i]);
      assert dataPart[..i] + [dataPart[i]] == dataPart[..i + 1];
      if InCharset(dataPart) { CharsetPrefix(dataPart, i + 1); }
      var idx := IndexIn(CHARSET, dataPart[i]);
      if idx == -1 { return None; }
      CharsetSize();
      symbols := symbols + [Symbol(idx)];
    }
    assert dataPart[..|dataPart|] == dataPart;
    data := Some(symbols);
  }

  lemma CharsetSize()
    ensures |CHARSET| == 32
  {
  }

  method Bech32Decode(addr: string) returns (r: Option<Decoded>)
    ensures r == Decoding(addr)
  {
    hide SpecOf, Register, HrpExpand, Lower, Upper, InCharset, SymbolsOf;
    if addr != Lower(addr) && addr != Upper(addr) { return None; }
    var lower := Lower(addr);
    var pos := LastOne(lower);
    if pos < 1 || pos + 7 > |lower| || |lower| > MAX_LENGTH { return None; }
    var hrp, dataPart := lower[..pos], lower[pos + 1..];
    var data := ReadSymbols(dataPart);
    if data.None? { return None; }
    var expanded := ExpandHrp(hrp);
    var checksum := Polymod(expanded + data.value);
    var spec := SpecOf(checksum);
    if spec.None? { return None; }
    r := Some(Decoded(hrp, data.value[..|data.value| - 6], spec.value));
  }

  lemma FiveNumber(i: nat)
    requires i < 32
    ensures Five(i) as int == i
  {
  }

  lemma WidenInjective(a: bv5, b: bv5)
    ensures Widen(a) < 32 && (Widen(a) == Widen(b) ==> a == b)
  {
  }

  lemma SymbolInjective(i: nat, j: nat)
    requires i < 32 && j < 32 && Symbol(i) == Symbol(j)
    ensures i == j
  {
    FiveNumber(i);
    FiveNumber(j);
    WidenInjective(Five(i), Five(j));
    hide Five, Widen;
  }

  lemma SymbolBounded(i: nat)
    requires i < 32
    ensures Symbol(i) < 32
  {
    WidenInjective(Five(i), Five(i));
    hide Five, Widen;
  }

  lemma SymbolOfInjective(c: char, d: char)
    requires c in CHARSET && d in CHARSET && SymbolOf(c) == SymbolOf(d)
    ensures c == d
  {
    SymbolInjective(IndexIn(CHARSET, c), IndexIn(CHARSET, d));
    hide Symbol;
  }

  lemma SymbolsSmall(s: string)
    requires InCharset(s)
    ensures Small(SymbolsOf(s))
  {
    hide Symbol;
    forall i | 0 <= i < |s| ensures SymbolsOf(s)[i] < 32 { SymbolBounded(IndexIn(CHARSET, s[i])); }
  }

  lemma SymbolsInjective(s: string, t: string)
    requires InCharset(s) && InCharset(t) && SymbolsOf(s) == SymbolsOf(t)
    ensures s == t
  {
    hide Symbol;
    forall i | 0 <= i < |s| ensures s[i] == t[i] {
      assert SymbolsOf(s)[i] == SymbolsOf(t)[i];
      SymbolOfInjective(s[i], t[i]);
    }
  }

  /** Two addresses with one prefix and length, accepted under one spec, whose data parts
      differ only inside six consecutive symbols are the same address up to case. */
  lemma BurstOfSixDetected(a: string, b: string, at: nat)
    requires Decoding(a).Some? && Decoding(b).Some? && |a| == |b|
    requires Decoding(a).value.hrp == Decoding(b).value.hrp && Decoding(a).value.spec == Decoding(b).value.spec
    requires at + 6 <= |DataPart(a)|
    requires DataPart(a)[..at] == DataPart(b)[..at] && DataPart(a)[at + 6..] == DataPart(b)[at + 6..]
    ensures Lower(a) == Lower(b)
  {
    hide Register, HrpExpand, InCharset, SymbolsOf, Lower, MixedCase, Small;
    var x, y := DataPart(a), DataPart(b);
    var front := Register(1, HrpExpand(Prefix(a)));
    RegisterAppend(1, HrpExpand(Prefix(a)), SymbolsOf(x));
    RegisterAppend(1, HrpExpand(Prefix(b)), SymbolsOf(y));
    SpecInjective(Register(front, SymbolsOf(x)), Register(front, SymbolsOf(y)));
    SymbolsSplit(x, at);
    SymbolsSplit(y, at);
    BurstDetected(front, SymbolsOf(x), SymbolsOf(y), at);
    SymbolsInjective(x, y);
    PartsMakeAddress(a);
    PartsMakeAddress(b);
  }

  lemma SpecInjective(x: bv32, y: bv32)
    requires SpecOf(x).Some? && SpecOf(x) == SpecOf(y)
    ensures x == y
  {
  }

  lemma SymbolsSplit(x: string, at: nat)
    requires InCharset(x) && at + 6 <= |x|
    ensures InCharset(x[..at]) && SymbolsOf(x)[..at] == SymbolsOf(x[..at])
    ensures InCharset(x[at + 6..]) && SymbolsOf(x)[at + 6..] == SymbolsOf(x[at + 6..])
    ensures Small(SymbolsOf(x)[at..at + 6])
  {
    hide Symbol;
    SymbolsSmall(x);
  }

  lemma PartsMakeAddress(a: string)
    requires Shaped(a)
    ensures Lower(a) == Prefix(a) + ['1'] + DataPart(a)
  {
    hide MixedCase, InCharset, Lower;
    var l, pos := Lower(a), LastOne(Lower(a));
    assert l == l[..pos] + [l[pos]] + l[pos + 1..];
  }

  /** For every prefix, payload and spec exactly one six-symbol checksum is accepted. */
  lemma ExactlyOneChecksumAccepted(hrp: string, payload: seq<bv32>, spec: Spec, six: seq<bv32>)
    requires |six| == 6 && Small(six) && Small(payload)
    ensures var c := Register(1, HrpExpand(hrp) + payload);
      SpecOf(Register(1, HrpExpand(hrp) + payload + six)) == Some(spec)
      <==> six == ChecksumFor(c, if spec == Plain then BECH32_CONST else BECH32M_CONST)
  {
    var c := Register(1, HrpExpand(hrp) + payload);
    var target := if spec == Plain then BECH32_CONST else BECH32M_CONST;
    assert c < 0x4000_0000 by {
      hide Register, Small;
      ValuesBounded(hrp, payload);
      RegisterBounded(1, HrpExpand(hrp) + payload);
    }
    hide Register, HrpExpand, ChecksumFor, Small;
    RegisterAppend(1, HrpExpand(hrp) + payload, six);
    ExactlyOneChecksum(c, target, six);
  }

  lemma WordBounded(n: nat)
    requires n < 0x9000
    ensures n as bv32 < 0x4000_0000
  {
  }

  lemma HighBitsBounded(c: char)
    ensures HighBits(c) < 0x4000_0000 && LowBits(c) < 0x4000_0000
  {
    SymbolBounded(c as int % 32);
    if c as int < 0x400 { SymbolBounded(c as int / 32); } else { WordBounded(c as int / 32); }
    hide Symbol;
  }

  lemma ValuesBounded(hrp: string, payload: seq<bv32>)
    requires Small(payload)
    ensures var vs := HrpExpand(hrp) + payload; forall i | 0 <= i < |vs| :: vs[i] < 0x4000_0000
  {
    hide HighBits, LowBits;
    var vs := HrpExpand(hrp) + payload;
    forall i | 0 <= i < |vs| ensures vs[i] < 0x4000_0000 {
      if i < |hrp| { HighBitsBounded(hrp[i]); }
      else if |hrp| < i <= 2 * |hrp| { HighBitsBounded(hrp[i - |hrp| - 1]); }
    }
  }
}
