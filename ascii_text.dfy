/** ASCII case folding and substring search, used to match profile names case-insensitively. */
module AsciiText {

  predicate IsUpper(c: char) {
    'A' <= c <= 'Z'
  }

  /** The lower-case form of an ASCII letter; every other character is unchanged. */
  function LowerChar(c: char): (d: char)
    ensures IsUpper(c) ==> d as int == c as int + 32 && 'a' <= d <= 'z'
    ensures !IsUpper(c) ==> d == c
  {
    if IsUpper(c) then (c as int + 32) as char else c
  }

  /** ASCII lower-casing of a whole string, character by character. */
  function Lower(s: string): (r: string)
    ensures |r| == |s|
    ensures forall i :: 0 <= i < |s| ==> r[i] == LowerChar(s[i])
    ensures forall i :: 0 <= i < |r| ==> !IsUpper(r[i])
  {
    seq(|s|, i requires 0 <= i < |s| => LowerChar(s[i]))
  }

  /** `sub` occurs in `s` starting at position `i`. */
  ghost predicate OccursAt(sub: string, s: string, i: int) {
    0 <= i && i + |sub| <= |s| && s[i..i + |sub|] == sub
  }

  /** `sub` occurs somewhere inside `s`. */
  ghost predicate Occurs(sub: string, s: string) {
    exists i :: OccursAt(sub, s, i)
  }

  /** Characters `k..` of `sub` agree with `s` from position `i + k` on. */
  function AgreeFrom(s: string, sub: string, i: nat, k: nat): (b: bool)
    requires i + |sub| <= |s| && k <= |sub|
    ensures b <==> s[i + k..i + |sub|] == sub[k..]
    decreases |sub| - k
  {
    if k == |sub| then true
    else
      var b := s[i + k] == sub[k] && AgreeFrom(s, sub, i, k + 1);
      assert s[i + k..i + |sub|] == [s[i + k]] + s[i + k + 1..i + |sub|];
      assert sub[k..] == [sub[k]] + sub[k + 1..];
      b
  }

  /** Some occurrence of `sub` in `s` starts at `i` or later. */
  function ContainsFrom(s: string, sub: string, i: nat): (b: bool)
    ensures b <==> exists j :: i <= j && OccursAt(sub, s, j)
    decreases |s| - i
  {
    if i + |sub| > |s| then false
    else if AgreeFrom(s, sub, i, 0) then
      assert OccursAt(sub, s, i);
      true
    else
      var b := ContainsFrom(s, sub, i + 1);
      assert !OccursAt(sub, s, i);
      b
  }

  /** Substring search, as JavaScript's `includes`. */
  function Contains(s: string, sub: string): (b: bool)
    ensures b <==> Occurs(sub, s)
  {
    ContainsFrom(s, sub, 0)
  }

  /** A lower-case letter absent from `s` in both cases is absent from its folded form. */
  lemma LowerOmits(s: string, c: char)
    requires 'a' <= c <= 'z'
    requires c !in s && (c as int - 32) as char !in s
    ensures c !in Lower(s)
  {
    forall i | 0 <= i < |s|
      ensures Lower(s)[i] != c
    {
      assert s[i] in s;
    }
  }

  /** A string lacking one of the characters of `sub` cannot contain `sub`. */
  lemma MissingCharBlocksOccurs(sub: string, s: string, c: char)
    requires c in sub && c !in s
    ensures !Occurs(sub, s)
  {
    var k :| 0 <= k < |sub| && sub[k] == c;
    forall i | 0 <= i <= |s| - |sub|
      ensures !OccursAt(sub, s, i)
    {
      assert s[i..i + |sub|][k] == s[i + k];
      assert s[i + k] in s;
    }
  }
}
