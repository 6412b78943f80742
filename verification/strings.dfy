/** String helpers with the semantics of the JavaScript operations they stand for.
    Strings are `seq<char>`, whose elements are Unicode scalar values; JavaScript
    counts UTF-16 code units instead, so lengths agree only on text in the Basic
    Multilingual Plane. */
module Strings {

  /** `p` is a prefix of `s` (`s.startsWith(p)`). */
  predicate IsPrefix(p: string, s: string) {
    |p| <= |s| && s[..|p|] == p
  }

  /** `sub` occurs in `s` starting at index `i`. */
  predicate OccursAt(s: string, sub: string, i: int) {
    0 <= i && i + |sub| <= |s| && s[i..i + |sub|] == sub
  }

  /** `s.includes(sub)`: `sub` occurs somewhere in `s`. */
  predicate Contains(s: string, sub: string) {
    exists i | 0 <= i <= |s| - |sub| :: OccursAt(s, sub, i)
  }

  /** Every string contains itself as a suffix of any extension. */
  lemma ContainsSuffix(prefix: string, sub: string)
    ensures Contains(prefix + sub, sub)
  {
    assert (prefix + sub)[|prefix|..|prefix| + |sub|] == sub;
    assert OccursAt(prefix + sub, sub, |prefix|);
  }

  /** A string that contains `sub` contains every character of `sub`; used to
      refute containment from one missing character. */
  lemma ContainsChars(s: string, sub: string, c: char)
    requires Contains(s, sub)
    requires c in sub
    ensures c in s
  {
    var i :| 0 <= i <= |s| - |sub| && OccursAt(s, sub, i);
    var k :| 0 <= k < |sub| && sub[k] == c;
    assert s[i..i + |sub|][k] == s[i + k];
  }

  /** `parts.join(sep)` from JavaScript's Array.prototype.join. */
  function Join(parts: seq<string>, sep: string): string
  {
    if |parts| == 0 then ""
    else if |parts| == 1 then parts[0]
    else parts[0] + sep + Join(parts[1..], sep)
  }

  /** Joining a concatenation of two non-empty lists is joining each half and
      putting one separator between them. */
  lemma {:induction false} JoinAppend(a: seq<string>, b: seq<string>, sep: string)
    requires |a| > 0 && |b| > 0
    ensures Join(a + b, sep) == Join(a, sep) + sep + Join(b, sep)
  {
    if |a| == 1 {
      assert (a + b)[1..] == b;
    } else {
      assert (a + b)[1..] == a[1..] + b;
      JoinAppend(a[1..], b, sep);
    }
  }

  /** Decimal digits of a natural number, most significant first. */
  function NatToString(n: nat): (r: string)
    ensures |r| > 0
    ensures forall i :: 0 <= i < |r| ==> '0' <= r[i] <= '9'
    decreases n
  {
    var d := ['0' + (n % 10) as char];
    if n < 10 then d else NatToString(n / 10) + d
  }

  /** `String(n)` for an integer `n`. */
  function IntToString(n: int): string {
    if n < 0 then "-" + NatToString(-n) else NatToString(n)
  }
}
