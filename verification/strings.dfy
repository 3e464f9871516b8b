/**
 * String helpers shared by the validators: the ASCII character classes that the
 * source's regular expressions use (`[a-z]`, `[A-Z]`, `\d`, `[a-z0-9_]`), ASCII case
 * mapping (`toLowerCase` / `toUpperCase` restricted to ASCII), and the
 * `startsWith` / `endsWith` tests of JavaScript strings.
 */
module Strings {

  predicate IsLower(c: char) { 'a' <= c <= 'z' }

  predicate IsUpper(c: char) { 'A' <= c <= 'Z' }

  /** `\d` without the `u` flag: the ten ASCII digits only. */
  predicate IsDigit(c: char) { '0' <= c <= '9' }

  predicate IsAlnum(c: char) { IsLower(c) || IsUpper(c) || IsDigit(c) }

  function ToLower(c: char): (r: char)
    ensures IsUpper(c) ==> IsLower(r)
    ensures !IsUpper(c) ==> r == c
  {
    if IsUpper(c) then (c as int + 32) as char else c
  }

  function ToUpper(c: char): (r: char)
    ensures IsLower(c) ==> IsUpper(r)
    ensures !IsLower(c) ==> r == c
  {
    if IsLower(c) then (c as int - 32) as char else c
  }

  /** ASCII `toUpperCase` of a whole string: same length, every character mapped. */
  function Upper(s: string): (r: string)
    ensures |r| == |s|
    ensures forall i :: 0 <= i < |s| ==> r[i] == ToUpper(s[i])
  {
    seq(|s|, i requires 0 <= i < |s| => ToUpper(s[i]))
  }

  /** `s.startsWith(p)`. */
  predicate StartsWith(s: string, p: string) {
    |p| <= |s| && s[..|p|] == p
  }

  /** `s.endsWith(p)`. */
  predicate EndsWith(s: string, p: string) {
    |p| <= |s| && s[|s| - |p|..] == p
  }

  /** `/^\d+$/.test(s)`: non-empty and every character an ASCII digit. */
  predicate AllDigits(s: string) {
    s != [] && forall i :: 0 <= i < |s| ==> IsDigit(s[i])
  }

  /** `/X/.test(s)` for a one-character class X: some character of `s` is in it. */
  predicate HasLower(s: string) { exists i :: 0 <= i < |s| && IsLower(s[i]) }

  predicate HasUpper(s: string) { exists i :: 0 <= i < |s| && IsUpper(s[i]) }

  predicate HasDigit(s: string) { exists i :: 0 <= i < |s| && IsDigit(s[i]) }

  /** `/[^a-zA-Z0-9]/.test(s)`: some character outside ASCII letters and digits. */
  predicate HasNonAlnum(s: string) { exists i :: 0 <= i < |s| && !IsAlnum(s[i]) }

  /** `s || fallback` on strings: the fallback replaces only the empty string. */
  function OrElse(s: string, fallback: string): string {
    if s != "" then s else fallback
  }
}
