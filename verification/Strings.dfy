/** String operations several modules share. Case changes are the ASCII ones. */
module Strings {

  function LowerChar(c: char): char {
    if 'A' <= c <= 'Z' then (c as int + 32) as char else c
  }

  function UpperChar(c: char): char {
    if 'a' <= c <= 'z' then (c as int - 32) as char else c
  }

  function Lower(s: string): (l: string)
    ensures |l| == |s|
  {
    seq(|s|, i requires 0 <= i < |s| => LowerChar(s[i]))
  }

  function Upper(s: string): string {
    seq(|s|, i requires 0 <= i < |s| => UpperChar(s[i]))
  }

  function Zeros(n: nat): (z: string)
    ensures |z| == n && forall i | 0 <= i < n :: z[i] == '0'
  {
    if n == 0 then "" else "0" + Zeros(n - 1)
  }

  function PadStart(s: string, n: nat): string {
    if |s| < n then Zeros(n - |s|) + s else s
  }

  function PadEnd(s: string, n: nat): string {
    if |s| < n then s + Zeros(n - |s|) else s
  }

  // ----- Case folding -----

  const UPPER_CASE: string := "ABCDEFGHIJKLMNOPQRSTUVWXYZ"
  const LOWER_CASE: string := "abcdefghijklmnopqrstuvwxyz"

  /** The two alphabets are folded letter by letter, and nothing else is. */
  lemma FoldsLetters(c: char)
    ensures Lower(UPPER_CASE) == LOWER_CASE && Upper(LOWER_CASE) == UPPER_CASE
    ensures c !in UPPER_CASE ==> LowerChar(c) == c
    ensures c !in LOWER_CASE ==> UpperChar(c) == c
  {
    forall i: nat | i < 26 ensures LowerChar(UPPER_CASE[i]) == LOWER_CASE[i] && UpperChar(LOWER_CASE[i]) == UPPER_CASE[i] {
      LetterAt(i);
    }
    if LowerChar(c) != c { LetterAt(c as int - 65); }
    if UpperChar(c) != c { LetterAt(c as int - 97); }
  }

  lemma LetterAt(i: nat)
    requires i < 26
    ensures |UPPER_CASE| == 26 && UPPER_CASE[i] as int == 65 + i && |LOWER_CASE| == 26 && LOWER_CASE[i] as int == 97 + i
  {
  }

  lemma FoldsTwice(s: string)
    ensures Lower(Lower(s)) == Lower(s) && Lower(Upper(s)) == Lower(s)
    ensures Upper(Upper(s)) == Upper(s) && Upper(Lower(s)) == Upper(s)
    ensures |Upper(s)| == |s|
  {
  }
}
