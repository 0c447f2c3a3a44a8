/** ASCII case mapping of single characters, as Rust's `char::to_ascii_uppercase`
    and `char::to_ascii_lowercase` define it: only the 26 Latin letters change,
    every other character is returned as it is. */
module Ascii {

  predicate IsAsciiUpper(c: char) { 'A' <= c <= 'Z' }

  predicate IsAsciiLower(c: char) { 'a' <= c <= 'z' }

  function ToAsciiUppercase(c: char): (u: char)
    ensures !IsAsciiLower(u)
    ensures IsAsciiLower(c) <==> IsAsciiUpper(u) && u != c
    // each letter keeps its place in the alphabet
    ensures IsAsciiLower(c) ==> u as int - 'A' as int == c as int - 'a' as int
    ensures !IsAsciiLower(c) ==> u == c
  {
    if IsAsciiLower(c) then (c as int - 32) as char else c
  }

  function ToAsciiLowercase(c: char): (l: char)
    ensures !IsAsciiUpper(l)
    ensures IsAsciiUpper(c) <==> IsAsciiLower(l) && l != c
    // each letter keeps its place in the alphabet
    ensures IsAsciiUpper(c) ==> l as int - 'a' as int == c as int - 'A' as int
    ensures !IsAsciiUpper(c) ==> l == c
  {
    if IsAsciiUpper(c) then (c as int + 32) as char else c
  }

  /** Lowering an upper-case letter and raising it again gives the letter back,
      and the other way round. */
  lemma CaseRoundTrip(c: char)
    ensures IsAsciiUpper(c) ==> ToAsciiUppercase(ToAsciiLowercase(c)) == c
    ensures IsAsciiLower(c) ==> ToAsciiLowercase(ToAsciiUppercase(c)) == c
  {
  }
}
