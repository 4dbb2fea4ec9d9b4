// Trimming and lower-casing, for each language's own white space.
module Texts {
  predicate AllSpace(space: char -> bool, s: string) {
    forall i | 0 <= i < |s| :: space(s[i])
  }

  function TrimStart(space: char -> bool, s: string): string {
    if s != "" && space(s[0]) then TrimStart(space, s[1..]) else s
  }

  function TrimEnd(space: char -> bool, s: string): string {
    if s != "" && space(s[|s| - 1]) then TrimEnd(space, s[..|s| - 1]) else s
  }

  function Trim(space: char -> bool, s: string): string {
    TrimEnd(space, TrimStart(space, s))
  }

  lemma {:induction false} TrimStartTakesSpace(space: char -> bool, s: string) returns (n: nat)
    ensures n <= |s| && AllSpace(space, s[..n]) && TrimStart(space, s) == s[n..]
    ensures n < |s| ==> !space(s[n])
  {
    n := 0;
    if s != "" && space(s[0]) {
      n := TrimStartTakesSpace(space, s[1..]);
      assert s[..n + 1] == [s[0]] + s[1..][..n];
      n := n + 1;
    }
  }

  lemma {:induction false} TrimEndTakesSpace(space: char -> bool, s: string) returns (n: nat)
    ensures n <= |s| && AllSpace(space, s[n..]) && TrimEnd(space, s) == s[..n]
    ensures n > 0 ==> !space(s[n - 1])
  {
    n := |s|;
    if s != "" && space(s[|s| - 1]) {
      n := TrimEndTakesSpace(space, s[..|s| - 1]);
      assert s[n..] == s[..|s| - 1][n..] + [s[|s| - 1]];
    }
  }

  /** Trimming takes white space at both ends, all of it, and nothing else. */
  lemma TrimTakesSpace(space: char -> bool, s: string) returns (low: nat, high: nat)
    ensures low <= high <= |s| && Trim(space, s) == s[low..high]
    ensures AllSpace(space, s[..low]) && AllSpace(space, s[high..])
    ensures low < high ==> !space(s[low]) && !space(s[high - 1])
  {
    low := TrimStartTakesSpace(space, s);
    var n := TrimEndTakesSpace(space, s[low..]);
    high := low + n;
    assert s[low..][..n] == s[low..high] && s[low..][n..] == s[high..];
  }

  /** There is only one such part. */
  lemma TrimIs(space: char -> bool, s: string, low: nat, high: nat)
    requires low < high <= |s| && AllSpace(space, s[..low]) && AllSpace(space, s[high..])
    requires !space(s[low]) && !space(s[high - 1])
    ensures Trim(space, s) == s[low..high]
  {
    var from, to := TrimTakesSpace(space, s);
    AllSpaceAt(space, s, 0, from);
    AllSpaceAt(space, s, to, |s|);
    AllSpaceAt(space, s, 0, low);
    AllSpaceAt(space, s, high, |s|);
    assert s[0..from] == s[..from] && s[to..|s|] == s[to..] && s[0..low] == s[..low] && s[high..|s|] == s[high..];
  }

  lemma AllSpaceAt(space: char -> bool, s: string, a: nat, b: nat)
    requires a <= b <= |s|
    ensures AllSpace(space, s[a..b]) ==> forall i | a <= i < b :: space(s[i])
  {
    assert forall i | a <= i < b :: s[i] == s[a..b][i - a];
  }

  function LowerChar(c: char): char {
    if 'A' <= c <= 'Z' then c - 'A' + 'a' else c
  }

  /** By code point: A to Z move down to a to z. */
  lemma LowerCharIs(c: char)
    ensures LowerChar(c) as int == if 65 <= c as int <= 90 then c as int + 32 else c as int
  {
  }

  /** In lower case, as far as ASCII goes. */
  function Lower(s: string): (r: string)
    ensures |r| == |s| && forall i | 0 <= i < |s| :: r[i] == LowerChar(s[i])
  {
    seq(|s|, i requires 0 <= i < |s| => LowerChar(s[i]))
  }
}
