/** ASCII case mapping, the behaviour of PHP's `strtoupper`, `strtolower` and `ucfirst`. */
module Ascii {

  predicate IsLowerLetter(c: char) { 'a' <= c <= 'z' }

  predicate IsUpperLetter(c: char) { 'A' <= c <= 'Z' }

  function UpperChar(c: char): (u: char)
    ensures IsLowerLetter(c) ==> IsUpperLetter(u) && u as int == c as int - 32
    ensures !IsLowerLetter(c) ==> u == c
  {
    if IsLowerLetter(c) then (c as int - 32) as char else c
  }

  function LowerChar(c: char): (l: char)
    ensures IsUpperLetter(c) ==> IsLowerLetter(l) && l as int == c as int + 32
    ensures !IsUpperLetter(c) ==> l == c
  {
    if IsUpperLetter(c) then (c as int + 32) as char else c
  }

  /** `strtoupper`: every character mapped on its own. */
  function Upper(s: string): (u: string)
    ensures |u| == |s|
    ensures forall i :: 0 <= i < |s| ==> u[i] == UpperChar(s[i])
  {
    seq(|s|, i requires 0 <= i < |s| => UpperChar(s[i]))
  }

  /** `strtolower`. */
  function Lower(s: string): (l: string)
    ensures |l| == |s|
    ensures forall i :: 0 <= i < |s| ==> l[i] == LowerChar(s[i])
  {
    seq(|s|, i requires 0 <= i < |s| => LowerChar(s[i]))
  }

  /** `ucfirst`: only the first character changes. */
  function UpperFirst(s: string): (u: string)
    ensures |u| == |s|
    ensures |s| > 0 ==> u[0] == UpperChar(s[0]) && u[1..] == s[1..]
  {
    if |s| == 0 then s else [UpperChar(s[0])] + s[1..]
  }

  /** Lower-casing twice is lower-casing once: nothing `strtolower` returns has an upper-case letter. */
  lemma LowerIdempotent(s: string)
    ensures Lower(Lower(s)) == Lower(s)
  {
    var l := Lower(s);
    forall i | 0 <= i < |s|
      ensures Lower(l)[i] == l[i]
    {
      assert !IsUpperLetter(l[i]);
    }
  }
}
