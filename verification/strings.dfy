/** String helpers shared by the front end (TypeScript) and the back end (Python):
    prefix and substring tests, ASCII lower-casing and JavaScript string truthiness. */
module Strings {
  import opened Wrappers

  /** `s.startsWith(p)` */
  predicate IsPrefix(p: string, s: string) {
    |p| <= |s| && s[..|p|] == p
  }

  /** `s.includes(sub)`: some position of `s` starts a copy of `sub`.
      Written as the scan a naive implementation performs. */
  predicate Contains(s: string, sub: string)
    decreases |s|
  {
    IsPrefix(sub, s) || (|s| > 0 && Contains(s[1..], sub))
  }

  /** The positional reading of `Contains`. */
  ghost predicate OccursAt(s: string, sub: string, i: int) {
    0 <= i && i + |sub| <= |s| && s[i..i + |sub|] == sub
  }

  /** A scan that succeeds has found an occurrence. */
  lemma {:induction false} ContainsHasOccurrence(s: string, sub: string) returns (i: int)
    requires Contains(s, sub)
    ensures OccursAt(s, sub, i)
    decreases |s|
  {
    if IsPrefix(sub, s) {
      i := 0;
    } else {
      var j := ContainsHasOccurrence(s[1..], sub);
      assert s[1..][j..j + |sub|] == s[j + 1..j + 1 + |sub|];
      i := j + 1;
    }
  }

  /** An occurrence at position `i` is found by the scan. */
  lemma {:induction false} OccurrenceIsContained(s: string, sub: string, i: int)
    requires OccursAt(s, sub, i)
    ensures Contains(s, sub)
    decreases i
  {
    if i > 0 {
      assert s[1..][i - 1..i - 1 + |sub|] == s[i..i + |sub|];
      OccurrenceIsContained(s[1..], sub, i - 1);
    }
  }

  lemma ContainsIffOccurs(s: string, sub: string)
    ensures Contains(s, sub) <==> exists i :: OccursAt(s, sub, i)
  {
    if Contains(s, sub) {
      var i := ContainsHasOccurrence(s, sub);
    }
    if exists i :: OccursAt(s, sub, i) {
      var i :| OccursAt(s, sub, i);
      OccurrenceIsContained(s, sub, i);
    }
  }

  /** Every string contains the empty string. */
  lemma ContainsEmpty(s: string)
    ensures Contains(s, "")
  {
    assert IsPrefix("", s);
  }

  /** A string contains a string that begins it. */
  lemma ContainsPrefix(s: string, sub: string)
    requires IsPrefix(sub, s)
    ensures Contains(s, sub)
  {
  }

  /** `c.toLowerCase()` on the ASCII range; other characters are kept. */
  function LowerChar(c: char): char {
    if 'A' <= c <= 'Z' then (c as int + 32) as char else c
  }

  /** `s.toLowerCase()` / Python `s.lower()`, ASCII letters only. */
  function Lower(s: string): (r: string)
    ensures |r| == |s|
    ensures forall i :: 0 <= i < |s| ==> r[i] == LowerChar(s[i])
  {
    seq(|s|, i requires 0 <= i < |s| => LowerChar(s[i]))
  }

  /** Lower-casing twice is lower-casing once. */
  lemma LowerIdempotent(s: string)
    ensures Lower(Lower(s)) == Lower(s)
  {
  }

  /** JavaScript truthiness of a possibly-absent string: absent and `''` are falsy. */
  predicate Present(o: Option<string>) {
    o.Some? && o.value != ""
  }
}
