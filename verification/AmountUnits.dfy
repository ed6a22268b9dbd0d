/** Decimal strings and integer base units (amount-units.ts). */
module AmountUnits {
  import opened Strings
  import opened Wrappers

  datatype AmountError = InvalidDecimal | TooManyDecimals | NegativeAmount

  // ----- Strings -----

  /** What JavaScript's trim takes off: white space and line terminators. */
  predicate IsSpace(c: char) {
    || c == ' ' || c == '\t' || c == '\n' || c == '\r' || c == 11 as char || c == 12 as char
    || c == '\U{00A0}' || c == '\U{1680}' || '\U{2000}' <= c <= '\U{200A}' || c == '\U{2028}' || c == '\U{2029}'
    || c == '\U{202F}' || c == '\U{205F}' || c == '\U{3000}' || c == '\U{FEFF}'
  }

  function Trim(s: string): string {
    if s != "" && IsSpace(s[0]) then Trim(s[1..])
    else if s != "" && IsSpace(s[|s| - 1]) then Trim(s[..|s| - 1])
    else s
  }

  predicate IsDigit(c: char) { '0' <= c <= '9' }

  predicate IsDigits(s: string) {
    forall i | 0 <= i < |s| :: IsDigit(s[i])
  }

  /** replace(/^0+(?=\d)/, ""): leading zeros that a digit follows */
  function StripLeading(s: string): string {
    if |s| > 1 && s[0] == '0' then StripLeading(s[1..]) else s
  }

  /** replace(/0+$/, "") */
  function StripTrailing(s: string): string {
    if s != "" && s[|s| - 1] == '0' then StripTrailing(s[..|s| - 1]) else s
  }

  // ----- Numbers -----

  function Pow10(n: nat): (p: int)
    ensures p > 0
  {
    if n == 0 then 1 else 10 * Pow10(n - 1)
  }

  function Digit(c: char): (d: int)
    requires IsDigit(c)
    ensures 0 <= d <= 9
  {
    c as int - '0' as int
  }

  /** BigInt(digits) */
  function Value(s: string): (n: nat)
    requires IsDigits(s)
  {
    if s == "" then 0 else 10 * Value(s[..|s| - 1]) + Digit(s[|s| - 1])
  }

  /** n.toString() */
  function Print(n: nat): (s: string)
    ensures IsDigits(s) && |s| > 0
  {
    if n < 10 then [('0' as int + n) as char] else Print(n / 10) + [('0' as int + n % 10) as char]
  }

  // ----- The decimal syntax ^\d+(\.\d+)?$ -----

  function DotIndex(s: string): (k: nat)
    ensures k <= |s| && (k < |s| ==> s[k] == '.') && forall i | 0 <= i < k :: s[i] != '.'
  {
    if s == "" || s[0] == '.' then 0 else DotIndex(s[1..]) + 1
  }

  function Whole(s: string): string { s[..DotIndex(s)] }

  function Fraction(s: string): string {
    var k := DotIndex(s);
    if k < |s| then s[k + 1..] else ""
  }

  predicate IsDecimal(s: string) {
    && Whole(s) != "" && IsDigits(Whole(s)) && IsDigits(Fraction(s))
    && (DotIndex(s) < |s| ==> Fraction(s) != "")
  }

  // ----- The three conversions -----

  function ToBaseUnitsFloor(amount: string, decimals: nat): Result<nat, AmountError> {
    var trimmed := Trim(amount);
    if !IsDecimal(trimmed) then Err(InvalidDecimal)
    else
      var frac := Fraction(trimmed);
      var floored := PadEnd(if |frac| > decimals then frac[..decimals] else frac, decimals);
      Stripped(Whole(trimmed), floored)
  }

  function ToBaseUnits(amount: string, decimals: nat): Result<nat, AmountError> {
    var trimmed := Trim(amount);
    if !IsDecimal(trimmed) then Err(InvalidDecimal)
    else
      var frac := Fraction(trimmed);
      if |frac| > decimals then Err(TooManyDecimals) else Stripped(Whole(trimmed), PadEnd(frac, decimals))
  }

  function Stripped(whole: string, frac: string): Result<nat, AmountError>
    requires whole != "" && IsDigits(whole) && IsDigits(frac)
  {
    StripKeepsDigits(whole + frac);
    Ok(Value(StripLeading(whole + frac)))
  }

  function FromBaseUnits(units: int, decimals: nat): Result<string, AmountError> {
    if units < 0 then Err(NegativeAmount)
    else if decimals == 0 then Ok(Print(units))
    else
      var s := PadStart(Print(units), decimals + 1);
      var whole := s[..|s| - decimals];
      var frac := StripTrailing(s[|s| - decimals..]);
      Ok(if frac != "" then whole + "." + frac else whole)
  }

  // ----- Trimming -----

  const WHITE_SPACE: string :=
    "\t\n\U{000B}\U{000C}\r \U{00A0}\U{1680}\U{2000}\U{2001}\U{2002}\U{2003}\U{2004}\U{2005}\U{2006}\U{2007}\U{2008}"
    + "\U{2009}\U{200A}\U{2028}\U{2029}\U{202F}\U{205F}\U{3000}\U{FEFF}"

  /** The white space of ECMAScript, written out. */
  lemma SpacesAre(c: char)
    ensures IsSpace(c) <==> c in WHITE_SPACE
  {
  }

  /** Trimming takes away exactly the outer white space. */
  lemma {:induction false} TrimIsOuter(s: string) returns (i: nat, j: nat)
    ensures i <= j <= |s| && Trim(s) == s[i..j]
    ensures (forall k | 0 <= k < i :: IsSpace(s[k])) && (forall k | j <= k < |s| :: IsSpace(s[k]))
    ensures i < j ==> !IsSpace(s[i]) && !IsSpace(s[j - 1])
    decreases s
  {
    hide IsSpace;
    if s != "" && IsSpace(s[0]) {
      var i', j' := TrimIsOuter(s[1..]);
      i, j := i' + 1, j' + 1;
      assert s[1..][i'..j'] == s[i..j];
      forall k | 0 <= k < i ensures IsSpace(s[k]) { if k > 0 { assert IsSpace(s[1..][k - 1]); } }
      forall k | j <= k < |s| ensures IsSpace(s[k]) { assert IsSpace(s[1..][k - 1]); }
    } else if s != "" && IsSpace(s[|s| - 1]) {
      i, j := TrimIsOuter(s[..|s| - 1]);
      assert s[..|s| - 1][i..j] == s[i..j];
      forall k | j <= k < |s| ensures IsSpace(s[k]) { if k < |s| - 1 { assert IsSpace(s[..|s| - 1][k]); } }
    } else {
      i, j := 0, |s|;
      assert s[i..j] == s;
    }
  }

  // ----- Digits strings as numbers -----

  lemma {:induction false} StripKeepsDigits(s: string)
    requires IsDigits(s) && s != ""
    ensures IsDigits(StripLeading(s)) && StripLeading(s) != "" && Value(StripLeading(s)) == Value(s)
    ensures |StripLeading(s)| == 1 || StripLeading(s)[0] != '0'
    ensures |StripLeading(s)| <= |s|
    decreases s
  {
    if |s| > 1 && s[0] == '0' {
      LeadingZero(s[1..]);
      assert s == "0" + s[1..];
      StripKeepsDigits(s[1..]);
    }
  }

  lemma {:induction false} LeadingZero(s: string)
    requires IsDigits(s)
    ensures IsDigits("0" + s) && Value("0" + s) == Value(s)
    decreases s
  {
    if s != "" {
      LeadingZero(s[..|s| - 1]);
      assert ("0" + s)[..|s|] == "0" + s[..|s| - 1];
    }
  }

  lemma {:induction false} ZerosLead(n: nat, s: string)
    requires IsDigits(s)
    ensures IsDigits(Zeros(n) + s) && Value(Zeros(n) + s) == Value(s)
    decreases n
  {
    if n == 0 {
      assert Zeros(0) + s == s;
    } else {
      ZerosLead(n - 1, s);
      LeadingZero(Zeros(n - 1) + s);
      assert Zeros(n) + s == "0" + (Zeros(n - 1) + s);
    }
  }

  lemma TenTimes(a: int, b: int)
    ensures a * (10 * b) == 10 * (a * b)
  {
  }

  /** One more digit behind both numbers. */
  lemma OneMoreDigit(v: int, p: int, front: int, whole: int, d: int)
    requires whole == v * p + front
    ensures 10 * whole + d == v * (10 * p) + (10 * front + d)
  {
    TenTimes(v, p);
  }

  lemma ValueLast(t: string)
    requires IsDigits(t) && t != ""
    ensures Value(t) == 10 * Value(t[..|t| - 1]) + Digit(t[|t| - 1]) && Pow10(|t|) == 10 * Pow10(|t| - 1)
  {
  }

  lemma {:induction false} ValueAppend(s: string, t: string)
    requires IsDigits(s) && IsDigits(t)
    ensures IsDigits(s + t) && Value(s + t) == Value(s) * Pow10(|t|) + Value(t)
    decreases t
  {
    if t == "" {
      assert s + t == s;
    } else {
      hide Value, Pow10, Digit;
      var front := t[..|t| - 1];
      ValueAppend(s, front);
      ValueLast(t);
      assert (s + t)[..|s + t| - 1] == s + front;
      ValueLast(s + t);
      OneMoreDigit(Value(s), Pow10(|front|), Value(front), Value(s + front), Digit(t[|t| - 1]));
    }
  }

  lemma {:induction false} ValueBelow(s: string)
    requires IsDigits(s)
    ensures Value(s) < Pow10(|s|)
    decreases s
  {
    if s != "" { ValueBelow(s[..|s| - 1]); }
  }

  /** Digit strings of one length are told apart by their value. */
  lemma {:induction false} ValueInjective(s: string, t: string)
    requires IsDigits(s) && IsDigits(t) && |s| == |t| && Value(s) == Value(t)
    ensures s == t
    decreases s
  {
    if s != "" {
      ValueInjective(s[..|s| - 1], t[..|t| - 1]);
      assert s == s[..|s| - 1] + [s[|s| - 1]] && t == t[..|t| - 1] + [t[|t| - 1]];
    }
  }

  lemma {:induction false} PrintValue(n: nat)
    ensures Value(Print(n)) == n && (|Print(n)| == 1 || Print(n)[0] != '0')
  {
    if n >= 10 {
      PrintValue(n / 10);
      assert Print(n)[..|Print(n)| - 1] == Print(n / 10);
    } else {
      assert Print(n)[..0] == "";
    }
  }

  lemma PrintSnoc(v: nat, c: char)
    requires v > 0 && IsDigit(c)
    ensures Print(10 * v + Digit(c)) == Print(v) + [c]
  {
  }

  /** A digit string without spare leading zeros is what printing its value gives. */
  lemma {:induction false} PrintIsCanonical(s: string)
    requires IsDigits(s) && s != "" && (|s| == 1 || s[0] != '0')
    ensures Print(Value(s)) == s
    decreases s
  {
    var front, last := s[..|s| - 1], s[|s| - 1];
    assert s == front + [last];
    if front == "" {
      assert Value(front) == 0;
    } else {
      hide Value, Print, Pow10;
      assert front[0] == s[0];
      PrintIsCanonical(front);
      PositiveValue(front);
      ValueLast(s);
      PrintSnoc(Value(front), last);
    }
  }

  lemma {:induction false} PositiveValue(s: string)
    requires IsDigits(s) && s != "" && s[0] != '0'
    ensures Value(s) > 0
    decreases s
  {
    if |s| > 1 { PositiveValue(s[..|s| - 1]); } else { assert s[..0] == ""; }
  }

  lemma {:induction false} PadRestoresTrailing(s: string)
    requires IsDigits(s)
    ensures IsDigits(StripTrailing(s)) && PadEnd(StripTrailing(s), |s|) == s
    ensures StripTrailing(s) != "" ==> StripTrailing(s)[|StripTrailing(s)| - 1] != '0'
    decreases s
  {
    if s != "" && s[|s| - 1] == '0' {
      var front := s[..|s| - 1];
      PadRestoresTrailing(front);
      var k := |StripTrailing(front)|;
      ZerosAppend(|s| - 1 - k);
      assert s == front + "0";
    }
  }

  lemma {:induction false} ZerosAppend(n: nat)
    ensures Zeros(n) + "0" == Zeros(n + 1)
  {
    if n > 0 { ZerosAppend(n - 1); }
  }

  // ----- Printing and parsing -----

  /** The text of a whole part and a fraction that may be empty. */
  function Text(whole: string, frac: string): string {
    if frac != "" then whole + "." + frac else whole
  }

  lemma {:induction false} DotAfter(whole: string, rest: string)
    requires IsDigits(whole) && (rest == "" || rest[0] == '.')
    ensures DotIndex(whole + rest) == |whole|
    decreases whole
  {
    if whole == "" {
      assert "" + rest == rest;
    } else {
      assert (whole + rest)[1..] == whole[1..] + rest;
      DotAfter(whole[1..], rest);
    }
  }

  lemma TextParses(whole: string, frac: string)
    requires whole != "" && IsDigits(whole) && IsDigits(frac)
    ensures var s := Text(whole, frac);
      Trim(s) == s && IsDecimal(s) && Whole(s) == whole && Fraction(s) == frac
  {
    var s := Text(whole, frac);
    var rest := if frac != "" then "." + frac else "";
    assert s == whole + rest;
    DotAfter(whole, rest);
    assert s[..|whole|] == whole;
    if frac != "" {
      assert s[|whole| + 1..] == frac;
      assert s[|s| - 1] == frac[|frac| - 1];
    }
  }

  /** The syntax: digits, or digits on both sides of one dot. */
  lemma DecimalIff(s: string)
    ensures IsDecimal(s)
            <==> exists whole, frac :: whole != "" && IsDigits(whole) && IsDigits(frac)
                                       && (s == whole || (frac != "" && s == whole + "." + frac))
  {
    if IsDecimal(s) {
      var k := DotIndex(s);
      assert s == if k < |s| then Whole(s) + "." + Fraction(s) else Whole(s);
    }
    if whole, frac :| whole != "" && IsDigits(whole) && IsDigits(frac) && (s == whole || (frac != "" && s == whole + "." + frac)) {
      TextParses(whole, if s == whole then "" else frac);
    }
  }

  lemma PadStartValue(s: string, n: nat)
    requires IsDigits(s)
    ensures IsDigits(PadStart(s, n)) && Value(PadStart(s, n)) == Value(s) && |PadStart(s, n)| >= n
  {
    if |s| < n { ZerosLead(n - |s|, s); }
  }

  /** Parsing what was printed gives the units back, with either parser. */
  lemma ParseUndoesPrint(units: nat, decimals: nat)
    ensures FromBaseUnits(units, decimals).Ok?
    ensures ToBaseUnits(FromBaseUnits(units, decimals).value, decimals) == Ok(units)
    ensures ToBaseUnitsFloor(FromBaseUnits(units, decimals).value, decimals) == Ok(units)
  {
    hide Trim, IsDecimal, Whole, Fraction, DotIndex, Value, Print, StripTrailing, StripLeading, Zeros, PadStart;
    PrintValue(units);
    if decimals == 0 {
      TextParses(Print(units), "");
      assert Print(units) + "" == Print(units);
      StripKeepsDigits(Print(units));
    } else {
      var s := PadStart(Print(units), decimals + 1);
      PadStartValue(Print(units), decimals + 1);
      var whole, tail := s[..|s| - decimals], s[|s| - decimals..];
      PadRestoresTrailing(tail);
      TextParses(whole, StripTrailing(tail));
      TrailingShorter(tail);
      assert whole + tail == s;
      StripKeepsDigits(s);
    }
  }

  lemma {:induction false} TrailingShorter(s: string)
    ensures |StripTrailing(s)| <= |s|
    decreases s
  {
    if s != "" && s[|s| - 1] == '0' { TrailingShorter(s[..|s| - 1]); }
  }

  lemma TrailingZeroGoes(s: string)
    ensures StripTrailing(s + "0") == StripTrailing(s)
  {
    assert (s + "0")[..|s|] == s;
  }

  lemma {:induction false} TrailingIgnoresPad(f: string, n: nat)
    ensures StripTrailing(f + Zeros(n)) == StripTrailing(f)
    decreases n
  {
    if n == 0 {
      assert f + Zeros(0) == f;
    } else {
      ZerosAppend(n - 1);
      hide Zeros;
      assert f + Zeros(n) == f + Zeros(n - 1) + "0";
      TrailingZeroGoes(f + Zeros(n - 1));
      hide StripTrailing;
      TrailingIgnoresPad(f, n - 1);
    }
  }

  /** Padding a printed value to the width of a digit string of that value gives the string. */
  lemma PrintedAtWidth(t: string, n: nat)
    requires IsDigits(t) && t != "" && (|t| == n || (|t| > n && t[0] != '0'))
    ensures PadStart(Print(Value(t)), n) == t
  {
    StripKeepsDigits(t);
    PrintIsCanonical(StripLeading(t));
    PadStartValue(Print(Value(t)), n);
    PrintValue(Value(t));
    if |t| == n {
      ValueInjective(PadStart(Print(Value(t)), n), t);
    } else {
      PrintIsCanonical(t);
    }
  }

  lemma DecimalParts(s: string)
    requires IsDecimal(s)
    ensures Whole(s) != "" && IsDigits(Whole(s)) && IsDigits(Fraction(s))
  {
  }

  lemma StripKeepsValue(whole: string, frac: string)
    requires IsDigits(whole) && whole != "" && IsDigits(frac)
    ensures IsDigits(StripLeading(whole) + frac) && Value(StripLeading(whole) + frac) == Value(whole + frac)
  {
    StripKeepsDigits(whole);
    hide Value, Pow10;
    ValueAppend(whole, frac);
    ValueAppend(StripLeading(whole), frac);
  }

  /** Printing the value of a canonical whole part with a padded fraction. */
  lemma PrintOfParts(whole: string, frac: string, decimals: nat)
    requires whole != "" && IsDigits(whole) && IsDigits(frac) && |frac| <= decimals
    requires |whole| == 1 || whole[0] != '0'
    ensures IsDigits(whole + PadEnd(frac, decimals))
    ensures FromBaseUnits(Value(whole + PadEnd(frac, decimals)), decimals) == Ok(Text(whole, StripTrailing(frac)))
  {
    hide Value, Print, StripTrailing, StripLeading, Zeros, PadStart;
    var padded := PadEnd(frac, decimals);
    var t := whole + padded;
    TrailingIgnoresPad(frac, decimals - |frac|);
    if decimals == 0 {
      assert t == whole;
      TrailingShorter(frac);
      PrintIsCanonical(whole);
    } else {
      PrintedAtWidth(t, decimals + 1);
      assert t[..|t| - decimals] == whole && t[|t| - decimals..] == padded;
      if |frac| == decimals { assert frac + Zeros(0) == frac; }
    }
  }

  /** Printing what was parsed gives the same number in its canonical form: no spare leading
      zeros, no trailing zeros, no empty fraction, no spaces. */
  lemma PrintAfterParseIsCanonical(amount: string, decimals: nat)
    requires ToBaseUnits(amount, decimals).Ok?
    ensures var s := Trim(amount);
      FromBaseUnits(ToBaseUnits(amount, decimals).value, decimals)
      == Ok(Text(StripLeading(Whole(s)), StripTrailing(Fraction(s))))
  {
    hide Trim, IsDecimal, Whole, Fraction, DotIndex, Value, Print, StripTrailing, StripLeading, Zeros, PadStart,
         Pow10, FromBaseUnits, Text;
    var s := Trim(amount);
    DecimalParts(s);
    var padded := PadEnd(Fraction(s), decimals);
    StripKeepsDigits(Whole(s));
    StripKeepsDigits(Whole(s) + padded);
    StripKeepsValue(Whole(s), padded);
    PrintOfParts(StripLeading(Whole(s)), Fraction(s), decimals);
  }

  // ----- The floor -----

  lemma {:induction false} PowAdd(a: nat, b: nat)
    ensures Pow10(a + b) == Pow10(a) * Pow10(b)
  {
    if b > 0 {
      PowAdd(a, b - 1);
      TenTimes(Pow10(a), Pow10(b - 1));
    }
  }

  lemma {:induction false} ValueOfZeros(n: nat)
    ensures Value(Zeros(n)) == 0
  {
    ZerosLead(n, "");
    assert Zeros(n) + "" == Zeros(n);
  }

  /** The number the text denotes, times 10 to the length of its fraction. */
  function Scaled(amount: string): int
    requires IsDecimal(Trim(amount))
  {
    Value(Whole(Trim(amount)) + Fraction(Trim(amount)))
  }

  /** The floor parser returns the floor of amount * 10^decimals. */
  lemma FloorIsFloor(amount: string, decimals: nat)
    requires ToBaseUnitsFloor(amount, decimals).Ok?
    ensures var r := ToBaseUnitsFloor(amount, decimals).value; var places := |Fraction(Trim(amount))|;
      r * Pow10(places) <= Scaled(amount) * Pow10(decimals) < (r + 1) * Pow10(places)
  {
    hide Trim, IsDecimal, Whole, Fraction, DotIndex, Value, StripLeading, Zeros, Pow10;
    var s := Trim(amount);
    DecimalParts(s);
    var whole, frac := Whole(s), Fraction(s);
    var r := ToBaseUnitsFloor(amount, decimals).value;
    if |frac| > decimals {
      var kept, cut := frac[..decimals], frac[decimals..];
      assert frac == kept + cut && whole + frac == (whole + kept) + cut;
      StripKeepsDigits(whole + kept);
      ValueAppend(whole + kept, cut);
      ValueBelow(cut);
      PowAdd(|cut|, decimals);
      Between(r, Value(cut), Pow10(|cut|), Pow10(decimals));
    } else {
      var pad := Zeros(decimals - |frac|);
      assert whole + PadEnd(frac, decimals) == (whole + frac) + pad;
      StripKeepsDigits(whole + PadEnd(frac, decimals));
      ValueAppend(whole + frac, pad);
      ValueOfZeros(decimals - |frac|);
      PowAdd(decimals - |frac|, |frac|);
      Exact(r, Value(whole + frac), Pow10(decimals - |frac|), Pow10(|frac|));
    }
  }

  lemma Between(r: int, c: int, p: int, q: int)
    requires 0 <= c < p && q > 0
    ensures r * (p * q) <= (r * p + c) * q < (r + 1) * (p * q)
  {
    assert (r * p + c) * q == r * (p * q) + c * q;
    assert (r + 1) * (p * q) == r * (p * q) + p * q;
    Smaller(c, p, q);
  }

  lemma Smaller(c: int, p: int, q: int)
    requires 0 <= c < p && q > 0
    ensures 0 <= c * q < p * q
  {
  }

  lemma Exact(r: int, v: int, p: int, q: int)
    requires r == v * p && q > 0
    ensures r * q == v * (p * q) && r * q < (r + 1) * q
  {
  }

  /** The two parsers agree whenever the fraction fits; otherwise only the floor answers. */
  lemma ParsersAgree(amount: string, decimals: nat)
    ensures ToBaseUnits(amount, decimals).Ok? ==> ToBaseUnitsFloor(amount, decimals) == ToBaseUnits(amount, decimals)
    ensures IsDecimal(Trim(amount)) ==>
              ToBaseUnitsFloor(amount, decimals).Ok?
              && (ToBaseUnits(amount, decimals) == Err(TooManyDecimals) <==> |Fraction(Trim(amount))| > decimals)
  {
  }
}
