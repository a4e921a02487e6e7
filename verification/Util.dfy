/** Options and the few string operations the operator relies on. */
module Util {

  datatype Option<+T> = None | Some(value: T)

  /** The strings of a list, as a set. */
  function SetOf(s: seq<string>): (r: set<string>)
    ensures forall x :: x in r <==> x in s
  {
    set x | x in s
  }

  predicate HasPrefix(s: string, prefix: string) {
    |prefix| <= |s| && s[..|prefix|] == prefix
  }

  predicate HasSuffix(s: string, suffix: string) {
    |suffix| <= |s| && s[|s| - |suffix|..] == suffix
  }

  /** Whether `part` occurs somewhere in `s`. */
  predicate Contains(s: string, part: string) {
    exists i | 0 <= i <= |s| :: HasPrefix(s[i..], part)
  }

  function Digit(n: nat): char
    requires n < 10
  {
    "0123456789"[n]
  }

  function DecimalNat(n: nat): string {
    if n < 10 then [Digit(n)] else DecimalNat(n / 10) + [Digit(n % 10)]
  }

  function Decimal(n: int): string {
    if n < 0 then "-" + DecimalNat(-n) else DecimalNat(n)
  }

  function LowerChar(c: char): char {
    if 'A' <= c <= 'Z' then c - 'A' + 'a' else c
  }

  /** ASCII lower-casing; enough to compare an annotation with "true" or "false". */
  function ToLower(s: string): string {
    seq(|s|, i requires 0 <= i < |s| => LowerChar(s[i]))
  }
}
