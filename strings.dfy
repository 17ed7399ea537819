/** String helpers with the meaning of the JavaScript string methods the
    recorder uses: `includes`, `endsWith`, `replace(/ /g, '-')` and
    `toLowerCase` (restricted to ASCII letters). */
module Strings {

  /** `sub` occurs in `s` starting at index `i`. */
  ghost predicate OccursAt(s: string, sub: string, i: int)
  {
    0 <= i && i + |sub| <= |s| && s[i..i + |sub|] == sub
  }

  predicate IsPrefix(p: string, s: string)
  {
    |p| <= |s| && s[..|p|] == p
  }

  /** `s.includes(sub)`: scan the start positions of `s` from left to right.
      A string shorter than `sub` never contains it. */
  predicate Contains(s: string, sub: string): (r: bool)
    ensures r ==> |sub| <= |s|
    decreases |s|
  {
    IsPrefix(sub, s) || (|s| > 0 && Contains(s[1..], sub))
  }

  /** `s.endsWith(suf)`: the last `|suf|` characters of `s` are those of
      `suf`, position by position. */
  predicate EndsWith(s: string, suf: string): (r: bool)
    ensures r <==> |suf| <= |s| && forall i :: 0 <= i < |suf| ==> s[|s| - |suf| + i] == suf[i]
  {
    |suf| <= |s| && s[|s| - |suf|..] == suf
  }

  /** The scan agrees with the positional definition of an occurrence, in
      both directions. */
  lemma {:induction false} ContainsIff(s: string, sub: string)
    ensures Contains(s, sub) <==> exists i :: OccursAt(s, sub, i)
    decreases |s|
  {
    if IsPrefix(sub, s) {
      assert OccursAt(s, sub, 0);
    } else if |s| > 0 {
      ContainsIff(s[1..], sub);
      if Contains(s[1..], sub) {
        var j :| OccursAt(s[1..], sub, j);
        assert s[j + 1..j + 1 + |sub|] == s[1..][j..j + |sub|];
        assert OccursAt(s, sub, j + 1);
      } else {
        forall i | 1 <= i && i + |sub| <= |s|
          ensures !OccursAt(s, sub, i)
        {
          assert s[1..][i - 1..i - 1 + |sub|] == s[i..i + |sub|];
          assert !OccursAt(s[1..], sub, i - 1);
        }
      }
    }
  }

  /** A string ending with `suf` contains it. */
  lemma EndsWithContains(s: string, suf: string)
    requires EndsWith(s, suf)
    ensures Contains(s, suf)
  {
    assert OccursAt(s, suf, |s| - |suf|);
    ContainsIff(s, suf);
  }

  /** `s.replace(/ /g, '-')`: every space becomes a dash, nothing else changes. */
  function ReplaceSpaces(s: string): (r: string)
    ensures |r| == |s|
    ensures forall i :: 0 <= i < |s| ==> r[i] == (if s[i] == ' ' then '-' else s[i])
  {
    if s == [] then []
    else [if s[0] == ' ' then '-' else s[0]] + ReplaceSpaces(s[1..])
  }

  function LowerChar(c: char): char
  {
    if 'A' <= c <= 'Z' then (c as int + 32) as char else c
  }

  /** `s.toLowerCase()` on ASCII: upper-case letters become lower-case ones,
      every other character is kept. */
  function Lower(s: string): (r: string)
    ensures |r| == |s|
    ensures forall i :: 0 <= i < |s| ==> r[i] == LowerChar(s[i])
    ensures forall i :: 0 <= i < |s| ==> !('A' <= r[i] <= 'Z')
  {
    if s == [] then []
    else [LowerChar(s[0])] + Lower(s[1..])
  }
}
