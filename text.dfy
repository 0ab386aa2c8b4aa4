/** The string operations the components use: `toLowerCase`, `toUpperCase` of one character,
    `startsWith`, `includes`, the `/^www\./` replacement and `split('.')[0]`.
    Case mapping covers the ASCII letters only. */
module Text {

  function Lower(c: char): char
  {
    if 'A' <= c <= 'Z' then (c as int + 32) as char else c
  }

  function Upper(c: char): char
  {
    if 'a' <= c <= 'z' then (c as int - 32) as char else c
  }

  /** `s.toLowerCase()`. */
  function LowerStr(s: string): (r: string)
    ensures |r| == |s|
    ensures forall i :: 0 <= i < |s| ==> r[i] == Lower(s[i])
  {
    seq(|s|, i requires 0 <= i < |s| => Lower(s[i]))
  }

  /** `s.startsWith(p)`. */
  predicate StartsWith(s: string, p: string)
  {
    |p| <= |s| && s[..|p|] == p
  }

  /** `s.includes(t)`: `t` occurs in `s` at some offset. */
  predicate Includes(s: string, t: string)
  {
    exists i :: 0 <= i <= |s| - |t| && StartsWith(s[i..], t)
  }

  /** Every string includes the empty string. */
  lemma IncludesEmpty(s: string)
    ensures Includes(s, "")
  {
    assert StartsWith(s[0..], "");
  }

  /** `h.replace(/^www\./, '')`: one leading "www." is dropped. */
  function StripWww(h: string): (r: string)
    ensures StartsWith(h, "www.") ==> h == "www." + r
    ensures !StartsWith(h, "www.") ==> r == h
  {
    if StartsWith(h, "www.") then h[4..] else h
  }

  /** `s.split('.')[0]`: everything before the first '.', or all of `s` when it has none. */
  function FirstLabel(s: string): (r: string)
    ensures StartsWith(s, r)
    ensures '.' !in r
    ensures |r| < |s| ==> s[|r|] == '.'
    decreases |s|
  {
    if s == [] || s[0] == '.' then []
    else [s[0]] + FirstLabel(s[1..])
  }

  /** `s.charAt(0).toUpperCase() + s.slice(1)`. */
  function Capitalize(s: string): (r: string)
    ensures |r| == |s|
    ensures s != [] ==> r[0] == Upper(s[0]) && r[1..] == s[1..]
  {
    if s == [] then [] else [Upper(s[0])] + s[1..]
  }
}
