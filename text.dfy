/** String operations the gateway relies on: lower-casing, substring search
    (`String.prototype.includes`) and the decimal rendering of a number in a
    template string. */
module Text {

  /** Lower-cases one character; only the ASCII letters A-Z change. */
  function LowerChar(c: char): char {
    if 'A' <= c <= 'Z' then (c as int + 32) as char else c
  }

  /** `s.toLowerCase()`, restricted to the ASCII letters. */
  function ToLower(s: string): (r: string)
    ensures |r| == |s|
    ensures forall i :: 0 <= i < |s| ==> r[i] == LowerChar(s[i])
    ensures forall i :: 0 <= i < |r| ==> !('A' <= r[i] <= 'Z')
  {
    if s == [] then [] else [LowerChar(s[0])] + ToLower(s[1..])
  }

  /** `sub` occurs in `s` starting at position `i`. */
  predicate OccursAt(sub: string, s: string, i: nat) {
    i + |sub| <= |s| && s[i..i + |sub|] == sub
  }

  /** `sub` occurs somewhere in `s`. */
  ghost predicate IsSubstring(sub: string, s: string) {
    exists i: nat :: OccursAt(sub, s, i)
  }

  /** A match that does not start at the front of `s` is a match in `s[1..]`. */
  lemma OccursInTail(sub: string, s: string)
    requires |s| > 0 && !OccursAt(sub, s, 0)
    ensures IsSubstring(sub, s) <==> IsSubstring(sub, s[1..])
  {
    if IsSubstring(sub, s) {
      var i: nat :| OccursAt(sub, s, i);
      assert i > 0;
      assert s[1..][i - 1..i - 1 + |sub|] == s[i..i + |sub|];
      assert OccursAt(sub, s[1..], i - 1);
    }
    if IsSubstring(sub, s[1..]) {
      var i: nat :| OccursAt(sub, s[1..], i);
      assert s[1..][i..i + |sub|] == s[i + 1..i + 1 + |sub|];
      assert OccursAt(sub, s, i + 1);
    }
  }

  /** `s.includes(sub)`: scans `s` from the left for an occurrence of `sub`. */
  function Includes(s: string, sub: string): (b: bool)
    ensures b <==> IsSubstring(sub, s)
    decreases |s|
  {
    if |sub| > |s| then
      assert forall i: nat :: !OccursAt(sub, s, i);
      false
    else if s[..|sub|] == sub then
      assert OccursAt(sub, s, 0);
      true
    else
      OccursInTail(sub, s);
      Includes(s[1..], sub)
  }

  /** Substring is transitive: an occurrence of `a` inside an occurrence of
      `b` inside `s` is an occurrence of `a` in `s`. */
  lemma SubstringTransitive(a: string, b: string, s: string)
    requires IsSubstring(a, b) && IsSubstring(b, s)
    ensures IsSubstring(a, s)
  {
    var i: nat :| OccursAt(a, b, i);
    var j: nat :| OccursAt(b, s, j);
    forall k | 0 <= k < |a|
      ensures s[j + i..j + i + |a|][k] == a[k]
    {
      assert a[k] == b[i + k] == s[j + i + k];
    }
    assert OccursAt(a, s, j + i);
  }

  /** A prefix of a string is a substring of it. */
  lemma PrefixIsSubstring(a: string, b: string)
    requires |a| <= |b| && b[..|a|] == a
    ensures IsSubstring(a, b)
  {
    assert OccursAt(a, b, 0);
  }

  function DigitChar(d: nat): char
    requires d < 10
  {
    ('0' as int + d) as char
  }

  function DigitValue(c: char): int {
    c as int - '0' as int
  }

  /** The decimal value of a string of digits, most significant first. */
  function DecimalValue(s: string): int {
    if s == [] then 0 else 10 * DecimalValue(s[..|s| - 1]) + DigitValue(s[|s| - 1])
  }

  predicate IsDigits(s: string) {
    forall i :: 0 <= i < |s| ==> '0' <= s[i] <= '9'
  }

  /** `${n}` for a non-negative integer. */
  function NatToString(n: nat): string {
    if n < 10 then [DigitChar(n)] else NatToString(n / 10) + [DigitChar(n % 10)]
  }

  /** `${n}` is the shortest decimal rendering of `n`: digits only, with
      value `n` and no leading zero. */
  lemma {:induction false} NatToStringSpec(n: nat)
    ensures var r := NatToString(n);
            && |r| > 0 && IsDigits(r)
            && DecimalValue(r) == n
            && (|r| > 1 ==> r[0] != '0')
  {
    if n >= 10 {
      NatToStringSpec(n / 10);
      var r := NatToString(n);
      assert r[..|r| - 1] == NatToString(n / 10);
    }
  }

  /** Distinct numbers render as distinct strings. */
  lemma NatToStringInjective(m: nat, n: nat)
    requires NatToString(m) == NatToString(n)
    ensures m == n
  {
    NatToStringSpec(m);
    NatToStringSpec(n);
  }
}
