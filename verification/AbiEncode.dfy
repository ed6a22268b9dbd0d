/** The hand-written ABI encoders for the escrow calls, the calldata parser of the server, and
    a reference decoder (Solidity Contract ABI Specification, "Formal Specification of the
    Encoding"). Calldata is a hex string; a word is 64 hex digits. The function selector is a
    parameter: four bytes that no property looks into. */
module AbiEncode {
  import opened Strings
  import opened Wrappers

  datatype AbiError = TooShort | NotHex | OddLength | BadOffset

  const WORD: nat := 64

  // ----- Hex -----

  predicate IsHex(c: char) {
    '0' <= c <= '9' || 'a' <= c <= 'f' || 'A' <= c <= 'F'
  }

  predicate AllHex(s: string) {
    forall i | 0 <= i < |s| :: IsHex(s[i])
  }

  function HexDigit(c: char): (d: int)
    requires IsHex(c)
    ensures 0 <= d < 16
  {
    if c <= '9' then c as int - '0' as int
    else if c <= 'F' then c as int - 'A' as int + 10
    else c as int - 'a' as int + 10
  }

  function HexChar(d: int): (c: char)
    requires 0 <= d < 16
    ensures IsHex(c) && HexDigit(c) == d
  {
    if d < 10 then ('0' as int + d) as char else ('a' as int + d - 10) as char
  }

  function Pow16(n: nat): (p: int)
    ensures p > 0
  {
    if n == 0 then 1 else 16 * Pow16(n - 1)
  }

  /** BigInt("0x" + s) */
  function HexValue(s: string): (n: nat)
    requires AllHex(s)
  {
    if s == "" then 0 else 16 * HexValue(s[..|s| - 1]) + HexDigit(s[|s| - 1])
  }

  /** n.toString(16) */
  function HexPrint(n: nat): (s: string)
    ensures AllHex(s) && |s| > 0
  {
    if n < 16 then [HexChar(n)] else HexPrint(n / 16) + [HexChar(n % 16)]
  }

  // ----- The encoders -----

  function Unprefixed(s: string): string {
    if |s| >= 2 && s[..2] == "0x" then s[2..] else s
  }

  function Pad32(h: string): string { PadStart(Unprefixed(h), WORD) }

  function PadAddr(a: string): string { PadStart(Lower(Unprefixed(a)), WORD) }

  function UintTo32(v: nat): string { PadStart(HexPrint(v), WORD) }

  datatype LockCall = LockCall(hashValue: string, unlockTime: nat, amount: nat, token: string, receiver: string)

  function EncodeLock(selector: string, p: LockCall): string {
    selector + Pad32(p.hashValue) + UintTo32(p.unlockTime) + UintTo32(p.amount) + PadAddr(p.token) + PadAddr(p.receiver)
  }

  function CeilDiv(a: nat, b: nat): nat
    requires b > 0
  {
    (a + b - 1) / b
  }

  /** The byte length is half the digits; an odd count is not an integer and throws. */
  function EncodeClaim(selector: string, preImage: string): Result<string, AbiError> {
    var data := Lower(Unprefixed(preImage));
    if |data| % 2 != 0 then Err(OddLength)
    else
      var byteLen := |data| / 2;
      Ok(selector + UintTo32(32) + UintTo32(byteLen) + PadEnd(data, CeilDiv(byteLen, 32) * WORD))
  }

  // ----- The server's parser -----

  datatype LockArgs = LockArgs(unlockTime: nat, amount: nat, tokenAddress: string, receiverAddress: string)

  function AddrFromWord(word: string): string
    requires |word| == WORD
  {
    Lower("0x" + word[24..])
  }

  /** parseLockTxCalldata. A number read with parseInt is exact below 2^53. */
  function ParseLockTxCalldata(input: string): Result<LockArgs, AbiError> {
    var body := Unprefixed(input);
    if |body| < 8 + 5 * WORD then Err(TooShort)
    else
      var data := body[8..];
      if !AllHex(data[64..192]) then Err(NotHex)
      else
        assert AllHex(data[64..128]) by { assert data[64..128] == data[64..192][..64]; }
        assert AllHex(data[128..192]) by { assert data[128..192] == data[64..192][64..]; }
        Ok(LockArgs(HexValue(data[64..128]), HexValue(data[128..192]),
                    AddrFromWord(data[192..256]), AddrFromWord(data[256..320])))
  }

  // ----- The reference decoder for one `bytes` argument -----

  function BytesOf(s: string): seq<int>
    requires AllHex(s) && |s| % 2 == 0
  {
    if s == "" then [] else [16 * HexDigit(s[0]) + HexDigit(s[1])] + BytesOf(s[2..])
  }

  /** The argument block: an offset word, and at that offset a length word and the bytes,
      zero-filled to whole words. */
  function DecodeBytes(selector: string, calldata: string): Result<seq<int>, AbiError> {
    if |calldata| < |selector| + 2 * WORD then Err(TooShort)
    else
      var args := calldata[|selector|..];
      if !AllHex(args) then Err(NotHex)
      else if HexValue(args[..WORD]) != 32 then Err(BadOffset)
      else
        var length := HexValue(args[WORD..2 * WORD]);
        if |args| != 2 * WORD + CeilDiv(length, 32) * WORD then Err(TooShort)
        else Ok(BytesOf(args[2 * WORD..2 * WORD + 2 * length]))
  }

  // ----- Digits, prefixes and bytes -----

  /** The sixteen digits, in either case, and nothing else. */
  lemma HexDigitsAre(c: char)
    ensures IsHex(c) <==> c in "0123456789abcdefABCDEF"
    ensures forall d | 0 <= d < 16 :: HexDigit("0123456789abcdef"[d]) == d && HexDigit("0123456789ABCDEF"[d]) == d
  {
  }

  /** One prefix "0x" is taken off, and nothing else. */
  lemma PrefixDropped(s: string)
    ensures Unprefixed("0x" + s) == s
    ensures (forall rest :: s != "0x" + rest) ==> Unprefixed(s) == s
  {
    if |s| >= 2 && s[..2] == "0x" { assert s == "0x" + s[2..]; }
  }

  /** Byte k is the number of the two digits at 2k. */
  lemma {:induction false} ByteAt(s: string, k: nat)
    requires AllHex(s) && |s| % 2 == 0
    ensures |BytesOf(s)| == |s| / 2
    ensures k < |s| / 2 ==> BytesOf(s)[k] == 16 * HexDigit(s[2 * k]) + HexDigit(s[2 * k + 1])
    decreases s
  {
    if s != "" {
      ByteAt(s[2..], if k > 0 then k - 1 else 0);
      if 0 < k < |s| / 2 { assert s[2..][2 * (k - 1)] == s[2 * k] && s[2..][2 * (k - 1) + 1] == s[2 * k + 1]; }
    }
  }

  // ----- Hex numbers -----

  lemma {:induction false} ZerosLead(n: nat, s: string)
    requires AllHex(s)
    ensures AllHex(Zeros(n) + s) && HexValue(Zeros(n) + s) == HexValue(s)
    decreases s
  {
    if s == "" {
      assert Zeros(n) + s == Zeros(n);
      ZerosAreZero(n);
    } else {
      ZerosLead(n, s[..|s| - 1]);
      assert (Zeros(n) + s)[..n + |s| - 1] == Zeros(n) + s[..|s| - 1];
    }
  }

  lemma {:induction false} ZerosAreZero(n: nat)
    ensures HexValue(Zeros(n)) == 0
  {
    if n > 0 {
      ZerosAreZero(n - 1);
      assert Zeros(n)[..n - 1] == Zeros(n - 1) by {
        forall i | 0 <= i < n - 1 ensures Zeros(n)[i] == Zeros(n - 1)[i] {}
      }
    }
  }

  lemma {:induction false} PrintValue(n: nat)
    ensures HexValue(HexPrint(n)) == n
  {
    if n >= 16 {
      PrintValue(n / 16);
      assert HexPrint(n)[..|HexPrint(n)| - 1] == HexPrint(n / 16);
    } else {
      assert HexPrint(n)[..0] == "";
    }
  }

  lemma {:induction false} PrintLength(n: nat, k: nat)
    requires k > 0 && n < Pow16(k)
    ensures |HexPrint(n)| <= k
  {
    if n >= 16 { PrintLength(n / 16, k - 1); }
  }

  /** A number below 2^256 fills one word and is read back from it. */
  lemma WordRoundTrip(v: nat)
    requires v < Pow16(WORD)
    ensures |UintTo32(v)| == WORD && AllHex(UintTo32(v)) && HexValue(UintTo32(v)) == v
  {
    PrintValue(v);
    PrintLength(v, WORD);
    hide HexPrint, HexValue, Pow16;
    if |HexPrint(v)| < WORD { ZerosLead(WORD - |HexPrint(v)|, HexPrint(v)); }
  }

  // ----- lock: the server reads back what the wallet was given -----

  predicate IsSelector(s: string) {
    |s| == 10 && s[..2] == "0x"
  }

  predicate IsAddress(a: string) {
    |a| == 42 && a[..2] == "0x" && AllHex(a[2..])
  }

  lemma AddressWord(a: string)
    requires IsAddress(a)
    ensures |PadAddr(a)| == WORD && AddrFromWord(PadAddr(a)) == Lower(a)
  {
    assert PadAddr(a)[24..] == Lower(a[2..]);
    assert a == "0x" + a[2..];
    assert Lower("0x" + Lower(a[2..])) == Lower(a);
  }

  /** Five words, one after the other, are five slices. */
  lemma FiveWords(w0: string, w1: string, w2: string, w3: string, w4: string)
    requires |w0| == WORD && |w1| == WORD && |w2| == WORD && |w3| == WORD && |w4| == WORD
    ensures var d := w0 + w1 + w2 + w3 + w4;
      d[64..128] == w1 && d[128..192] == w2 && d[192..256] == w3 && d[256..320] == w4 && d[64..192] == w1 + w2
  {
  }

  lemma HexJoins(a: string, b: string)
    requires AllHex(a) && AllHex(b)
    ensures AllHex(a + b)
  {
  }

  /** Parsing encodeLock output returns the unlock time, amount, token and receiver. */
  lemma LockRoundTrip(selector: string, p: LockCall)
    requires IsSelector(selector) && |Unprefixed(p.hashValue)| <= WORD
    requires p.unlockTime < 0x20_0000_0000_0000 && p.amount < Pow16(WORD)
    requires IsAddress(p.token) && IsAddress(p.receiver)
    ensures ParseLockTxCalldata(EncodeLock(selector, p))
            == Ok(LockArgs(p.unlockTime, p.amount, Lower(p.token), Lower(p.receiver)))
  {
    hide UintTo32, PadAddr, HexValue, AllHex, Lower, Pow16;
    SafeIntegerFits(p.unlockTime);
    WordRoundTrip(p.unlockTime);
    WordRoundTrip(p.amount);
    AddressWord(p.token);
    AddressWord(p.receiver);
    HexJoins(UintTo32(p.unlockTime), UintTo32(p.amount));
    FiveWords(Pad32(p.hashValue), UintTo32(p.unlockTime), UintTo32(p.amount), PadAddr(p.token), PadAddr(p.receiver));
    var words := Pad32(p.hashValue) + UintTo32(p.unlockTime) + UintTo32(p.amount) + PadAddr(p.token) + PadAddr(p.receiver);
    assert EncodeLock(selector, p) == selector + words;
    assert (selector + words)[..2] == "0x" && (selector + words)[2..] == selector[2..] + words;
    assert (selector[2..] + words)[8..] == words;
  }

  /** The first argument word carries the hash lock; the call is a selector and five words. */
  lemma LockCarriesHash(selector: string, p: LockCall)
    requires IsSelector(selector) && |Unprefixed(p.hashValue)| <= WORD && AllHex(Unprefixed(p.hashValue))
    requires p.unlockTime < 0x20_0000_0000_0000 && p.amount < Pow16(WORD)
    requires IsAddress(p.token) && IsAddress(p.receiver)
    ensures |EncodeLock(selector, p)| == 10 + 5 * WORD
    ensures var hash := EncodeLock(selector, p)[10..10 + WORD];
      AllHex(hash) && HexValue(hash) == HexValue(Unprefixed(p.hashValue))
  {
    hide UintTo32, PadAddr, HexValue, AllHex, Pow16, Pad32;
    SafeIntegerFits(p.unlockTime);
    WordRoundTrip(p.unlockTime);
    WordRoundTrip(p.amount);
    AddressWord(p.token);
    AddressWord(p.receiver);
    HashWord(p.hashValue);
    var rest := UintTo32(p.unlockTime) + UintTo32(p.amount) + PadAddr(p.token) + PadAddr(p.receiver);
    assert EncodeLock(selector, p) == selector + Pad32(p.hashValue) + rest;
    assert EncodeLock(selector, p)[10..10 + WORD] == Pad32(p.hashValue);
  }

  lemma {:induction false} ValueIgnoresCase(s: string)
    requires AllHex(s)
    ensures AllHex(Lower(s)) && HexValue(Lower(s)) == HexValue(s)
    decreases s
  {
    if s != "" {
      ValueIgnoresCase(s[..|s| - 1]);
      assert Lower(s)[..|s| - 1] == Lower(s[..|s| - 1]);
    }
  }

  /** The word of an address is a lower-case number, the one the address denotes. */
  lemma AddressValue(a: string)
    requires IsAddress(a)
    ensures |PadAddr(a)| == WORD && AllHex(PadAddr(a)) && HexValue(PadAddr(a)) == HexValue(a[2..])
    ensures Lower(PadAddr(a)) == PadAddr(a)
  {
    ValueIgnoresCase(a[2..]);
    ZerosLead(24, Lower(a[2..]));
    AddressWord(a);
    hide AllHex, HexValue;
    LowerOfPadded(Zeros(24), a[2..]);
  }

  lemma LowerOfPadded(z: string, s: string)
    requires forall i | 0 <= i < |z| :: z[i] == '0'
    ensures Lower(z + Lower(s)) == z + Lower(s)
  {
  }

  /** Word `i` behind the selector. */
  function WordAt(calldata: string, i: nat): string
    requires |calldata| >= 10 + (i + 1) * WORD
  {
    calldata[10 + i * WORD..10 + (i + 1) * WORD]
  }

  /** The five words of a lock call are numbers: hash lock, unlock time, amount, token, receiver. */
  lemma LockWords(selector: string, p: LockCall)
    requires IsSelector(selector) && |Unprefixed(p.hashValue)| <= WORD && AllHex(Unprefixed(p.hashValue))
    requires p.unlockTime < 0x20_0000_0000_0000 && p.amount < Pow16(WORD)
    requires IsAddress(p.token) && IsAddress(p.receiver)
    ensures var e := EncodeLock(selector, p);
      && |e| == 10 + 5 * WORD && (forall i: nat | i < 5 :: AllHex(WordAt(e, i)))
      && HexValue(WordAt(e, 0)) == HexValue(Unprefixed(p.hashValue))
      && HexValue(WordAt(e, 1)) == p.unlockTime && HexValue(WordAt(e, 2)) == p.amount
      && HexValue(WordAt(e, 3)) == HexValue(p.token[2..]) && HexValue(WordAt(e, 4)) == HexValue(p.receiver[2..])
      && Lower(WordAt(e, 3)) == WordAt(e, 3) && Lower(WordAt(e, 4)) == WordAt(e, 4)
  {
    hide UintTo32, PadAddr, HexValue, AllHex, Pow16, Pad32, Lower, IsAddress, Unprefixed, IsSelector;
    SafeIntegerFits(p.unlockTime);
    WordRoundTrip(p.unlockTime);
    WordRoundTrip(p.amount);
    AddressValue(p.token);
    AddressValue(p.receiver);
    HashWord(p.hashValue);
    WordsOf(selector, Pad32(p.hashValue), UintTo32(p.unlockTime), UintTo32(p.amount), PadAddr(p.token),
            PadAddr(p.receiver)) by { SelectorLength(selector); }
  }

  lemma SelectorLength(s: string)
    requires IsSelector(s)
    ensures |s| == 10
  {
  }

  lemma WordsOf(selector: string, w0: string, w1: string, w2: string, w3: string, w4: string)
    requires |selector| == 10 && |w0| == WORD && |w1| == WORD && |w2| == WORD && |w3| == WORD && |w4| == WORD
    ensures var e := selector + w0 + w1 + w2 + w3 + w4;
      && |e| == 10 + 5 * WORD && WordAt(e, 0) == w0 && WordAt(e, 1) == w1 && WordAt(e, 2) == w2
      && WordAt(e, 3) == w3 && WordAt(e, 4) == w4
  {
  }

  lemma HashWord(hashValue: string)
    requires |Unprefixed(hashValue)| <= WORD
    ensures |Pad32(hashValue)| == WORD
    ensures AllHex(Unprefixed(hashValue)) ==>
              AllHex(Pad32(hashValue)) && HexValue(Pad32(hashValue)) == HexValue(Unprefixed(hashValue))
  {
    var h := Unprefixed(hashValue);
    if AllHex(h) && |h| < WORD { ZerosLead(WORD - |h|, h); }
  }

  lemma SafeIntegerFits(n: nat)
    requires n < 0x20_0000_0000_0000
    ensures n < Pow16(WORD)
  {
    assert Pow16(14) == 0x100_0000_0000_0000 by {
      assert Pow16(2) == 256 && Pow16(4) == 256 * Pow16(2) && Pow16(6) == 256 * Pow16(4);
      assert Pow16(8) == 256 * Pow16(6) && Pow16(10) == 256 * Pow16(8) && Pow16(12) == 256 * Pow16(10);
      assert Pow16(14) == 256 * Pow16(12);
    }
    PowMonotone(14, WORD);
  }

  lemma {:induction false} PowMonotone(a: nat, b: nat)
    requires a <= b
    ensures Pow16(a) <= Pow16(b)
  {
    if a < b { PowMonotone(a, b - 1); }
  }

  // ----- claim: the reference decoder recovers the preimage -----

  lemma {:induction false} BytesIgnoreCase(s: string)
    requires AllHex(s) && |s| % 2 == 0
    ensures AllHex(Lower(s)) && BytesOf(Lower(s)) == BytesOf(s)
    decreases s
  {
    if s != "" {
      BytesIgnoreCase(s[2..]);
      assert Lower(s)[2..] == Lower(s[2..]);
    }
  }

  lemma CeilFits(digits: nat)
    requires digits % 2 == 0
    ensures digits <= CeilDiv(digits / 2, 32) * WORD < digits + WORD
  {
  }

  /** encodeClaim emits an offset of 32, the byte length, and the bytes filled with zeros to
      whole words; the decoder gets exactly the preimage bytes back. An odd number of digits is
      the only refusal. */
  lemma ClaimRoundTrip(selector: string, preImage: string)
    requires IsSelector(selector) && AllHex(Unprefixed(preImage)) && |preImage| < Pow16(WORD)
    ensures EncodeClaim(selector, preImage).Ok? <==> |Unprefixed(preImage)| % 2 == 0
    ensures EncodeClaim(selector, preImage).Ok? ==>
              var e := EncodeClaim(selector, preImage).value;
              && DecodeBytes(selector, e) == Ok(BytesOf(Unprefixed(preImage)))
              && (|e| - |selector|) % WORD == 0
              && forall i | |selector| + 2 * WORD + |Unprefixed(preImage)| <= i < |e| :: e[i] == '0'
  {
    var data := Lower(Unprefixed(preImage));
    if |data| % 2 == 0 {
      var byteLen := |data| / 2;
      var e := EncodeClaim(selector, preImage).value;
      CeilFits(|data|);
      BytesIgnoreCase(Unprefixed(preImage));
      hide UintTo32, HexValue, Lower, Pow16;
      SafeIntegerFits(32);
      WordRoundTrip(32);
      WordRoundTrip(byteLen);
      ClaimDecodes(selector, UintTo32(32), UintTo32(byteLen), data);
    }
  }

  /** The bytes filled with zeros to whole words. */
  lemma FilledShape(data: string)
    requires AllHex(data) && |data| % 2 == 0
    ensures var words := CeilDiv(|data| / 2, 32); var filled := PadEnd(data, words * WORD);
      && |data| <= |filled| == words * WORD && AllHex(filled) && filled[..|data|] == data
      && forall i | |data| <= i < |filled| :: filled[i] == '0'
  {
    CeilFits(|data|);
  }

  lemma ThreeParts(offset: string, length: string, filled: string, n: nat)
    requires |offset| == WORD && |length| == WORD && n <= |filled|
    requires AllHex(offset) && AllHex(length) && AllHex(filled)
    ensures var args := offset + length + filled;
      && args[..WORD] == offset && args[WORD..2 * WORD] == length
      && args[2 * WORD..2 * WORD + n] == filled[..n] && AllHex(args)
  {
  }

  lemma ClaimDecodes(selector: string, offset: string, length: string, data: string)
    requires |offset| == WORD && AllHex(offset) && HexValue(offset) == 32
    requires |length| == WORD && AllHex(length) && HexValue(length) == |data| / 2
    requires AllHex(data) && |data| % 2 == 0
    ensures var filled := PadEnd(data, CeilDiv(|data| / 2, 32) * WORD);
      var e := selector + offset + length + filled;
      && DecodeBytes(selector, e) == Ok(BytesOf(data)) && (|e| - |selector|) % WORD == 0
      && forall i | |selector| + 2 * WORD + |data| <= i < |e| :: e[i] == '0'
  {
    hide HexValue, BytesOf, CeilDiv, AllHex, PadEnd, DecodeBytes;
    var filled := PadEnd(data, CeilDiv(|data| / 2, 32) * WORD);
    FilledShape(data);
    ArgumentsDecode(selector, offset, length, filled, |data|);
    var e := selector + offset + length + filled;
    forall i | |selector| + 2 * WORD + |data| <= i < |e| ensures e[i] == '0' {
      assert e[i] == filled[i - |selector| - 2 * WORD];
    }
  }

  lemma ArgumentsDecode(selector: string, offset: string, length: string, filled: string, n: nat)
    requires |offset| == WORD && AllHex(offset) && HexValue(offset) == 32
    requires |length| == WORD && AllHex(length) && HexValue(length) == n / 2
    requires AllHex(filled) && n % 2 == 0 && n <= |filled| && |filled| == CeilDiv(n / 2, 32) * WORD
    ensures AllHex(filled[..n]) && DecodeBytes(selector, selector + offset + length + filled) == Ok(BytesOf(filled[..n]))
  {
    HexPrefix(filled, n);
    hide HexValue, BytesOf, CeilDiv, AllHex;
    ThreeParts(offset, length, filled, n);
    var args := offset + length + filled;
    assert selector + offset + length + filled == selector + args;
    assert (selector + args)[|selector|..] == args;
  }

  lemma HexPrefix(s: string, n: nat)
    requires AllHex(s) && n <= |s|
    ensures AllHex(s[..n])
  {
  }

  lemma {:induction false} PrintIsLower(n: nat)
    ensures Lower(HexPrint(n)) == HexPrint(n)
  {
    if n >= 16 { PrintIsLower(n / 16); }
  }

  lemma UintIsLower(n: nat)
    ensures Lower(UintTo32(n)) == UintTo32(n)
  {
    PrintIsLower(n);
    hide HexPrint;
  }

  /** The arguments of a claim are written in lower case throughout. */
  lemma ClaimIsLower(selector: string, preImage: string)
    requires EncodeClaim(selector, preImage).Ok?
    ensures var e := EncodeClaim(selector, preImage).value; Lower(e[|selector|..]) == e[|selector|..]
  {
    var data := Lower(Unprefixed(preImage));
    var offset, length := UintTo32(32), UintTo32(|data| / 2);
    UintIsLower(32);
    UintIsLower(|data| / 2);
    hide UintTo32;
    var e := EncodeClaim(selector, preImage).value;
    assert e[|selector|..] == offset + length + PadEnd(data, CeilDiv(|data| / 2, 32) * WORD);
  }

  /** Two preimages with the same calldata are the same bytes. */
  lemma ClaimInjective(selector: string, a: string, b: string)
    requires IsSelector(selector) && AllHex(Unprefixed(a)) && AllHex(Unprefixed(b))
    requires |a| < Pow16(WORD) && |b| < Pow16(WORD)
    requires EncodeClaim(selector, a).Ok? && EncodeClaim(selector, a) == EncodeClaim(selector, b)
    ensures |Unprefixed(b)| % 2 == 0 && |Unprefixed(a)| % 2 == 0 && BytesOf(Unprefixed(a)) == BytesOf(Unprefixed(b))
  {
    ClaimRoundTrip(selector, a);
    ClaimRoundTrip(selector, b);
    hide DecodeBytes, BytesOf;
  }
}
