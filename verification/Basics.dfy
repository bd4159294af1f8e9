/** What several of the modules need: an optional value, and the two things every
    reader of a text file does with its lines. */
module Basics {

  datatype Option<+T> = None | Some(value: T)

  /** Where `c` first is in `s`, or the length of `s`. */
  function Find(s: string, c: char): (n: nat)
    ensures n <= |s| && c !in s[..n] && (n < |s| ==> s[n] == c)
  {
    if s == [] || s[0] == c then 0
    else
      assert forall k: nat | k <= |s[1..]| :: s[..k + 1] == [s[0]] + s[1..][..k];
      1 + Find(s[1..], c)
  }

  lemma FindIs(s: string, c: char, n: nat)
    requires n <= |s| && c !in s[..n] && (n < |s| ==> s[n] == c)
    ensures Find(s, c) == n
  {
  }

  // `lines` drops a carriage return before a newline.
  function Chomp(l: string): string {
    if l != [] && l[|l| - 1] == '\r' then l[..|l| - 1] else l
  }
}
