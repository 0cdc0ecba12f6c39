/**
  The two functions of Go's `strings` package the library uses. Lower case is taken over the
  ASCII capitals and the two other code points Unicode lowers to ASCII letters: U+0130
  (capital I with dot above, to 'i') and U+212A (Kelvin sign, to 'k'). Every other code point
  lowers, in Go, to a code point outside ASCII or to itself, so comparing a lowered value with
  the library's plain ASCII names decides alike here and in Go.
*/
module Strings {

  function LowerChar(c: char): (l: char)
    ensures 'A' <= c <= 'Z' ==> l as int == c as int + 32
    ensures c == '\U{0130}' ==> l == 'i'
    ensures c == '\U{212A}' ==> l == 'k'
    ensures !('A' <= c <= 'Z' || c == '\U{0130}' || c == '\U{212A}') ==> l == c
  {
    if 'A' <= c <= 'Z' then (c as int - 'A' as int + 'a' as int) as char
    else if c == '\U{0130}' then 'i'
    else if c == '\U{212A}' then 'k'
    else c
  }

  /** `strings.ToLower`, for the code points that lower to ASCII. */
  function Lower(s: string): (r: string)
    ensures |r| == |s|
    ensures forall i :: 0 <= i < |s| ==> r[i] == LowerChar(s[i])
  {
    if s == [] then [] else [LowerChar(s[0])] + Lower(s[1..])
  }

  /** A string without ASCII capitals, U+0130 or U+212A is left as it is. */
  lemma {:induction false} LowerOfLowerCase(s: string)
    requires forall i :: 0 <= i < |s| ==> !('A' <= s[i] <= 'Z' || s[i] == '\U{0130}' || s[i] == '\U{212A}')
    ensures Lower(s) == s
  {
    if s != [] {
      LowerOfLowerCase(s[1..]);
    }
  }

  /** `strings.TrimPrefix`: `s` without a leading `prefix`, or `s` itself. */
  function TrimPrefix(s: string, prefix: string): (r: string)
    ensures |prefix| <= |s| && s[..|prefix|] == prefix ==> prefix + r == s
    ensures !(|prefix| <= |s| && s[..|prefix|] == prefix) ==> r == s
  {
    if |prefix| <= |s| && s[..|prefix|] == prefix then s[|prefix|..] else s
  }

  /** Removing a prefix that was just added gives back the original string. */
  lemma TrimAddedPrefix(prefix: string, s: string)
    ensures TrimPrefix(prefix + s, prefix) == s
  {
    assert (prefix + s)[..|prefix|] == prefix;
  }

  /** The `otpauth` parameter names the library matches are already lower case. */
  lemma LowerOfParameterName(f: string)
    requires f in {"secret", "digits", "algorithm", "issuer", "counter", "period"}
    ensures Lower(f) == f
  {
    forall i | 0 <= i < |f|
      ensures !('A' <= f[i] <= 'Z' || f[i] == '\U{0130}' || f[i] == '\U{212A}')
    {
    }
    LowerOfLowerCase(f);
  }
}
