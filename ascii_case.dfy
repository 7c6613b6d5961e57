/** Case mapping of `String.prototype.toLowerCase` and `toUpperCase`,
    restricted to ASCII: letters A-Z and a-z swap case, every other
    character is left as it is. */
module AsciiCase {

  predicate IsUpper(c: char) { 'A' <= c <= 'Z' }

  predicate IsLower(c: char) { 'a' <= c <= 'z' }

  predicate IsLetter(c: char) { IsUpper(c) || IsLower(c) }

  function ToLower(c: char): (d: char)
    ensures IsUpper(c) ==> IsLower(d) && d as int == c as int + 32
    ensures !IsUpper(c) ==> d == c
  {
    if IsUpper(c) then (c as int + 32) as char else c
  }

  function ToUpper(c: char): (d: char)
    ensures IsLower(c) ==> IsUpper(d) && d as int == c as int - 32
    ensures !IsLower(c) ==> d == c
  {
    if IsLower(c) then (c as int - 32) as char else c
  }

  /** `toLowerCase` on a whole string: one character at a time. */
  function Lower(s: string): (r: string)
    ensures |r| == |s|
  {
    seq(|s|, i requires 0 <= i < |s| => ToLower(s[i]))
  }

  /** Lower-casing keeps letters letters and leaves non-letters, the space
      among them, exactly where they were; it is idempotent, and upper-casing
      afterwards gives the same character as upper-casing directly. */
  lemma CaseLaws(c: char)
    ensures IsLetter(ToLower(c)) <==> IsLetter(c)
    ensures IsLetter(ToUpper(c)) <==> IsLetter(c)
    ensures !IsLetter(c) ==> ToLower(c) == c && ToUpper(c) == c
    ensures ToLower(ToLower(c)) == ToLower(c)
    ensures ToUpper(ToUpper(c)) == ToUpper(c)
    ensures ToUpper(ToLower(c)) == ToUpper(c)
    ensures ToLower(ToUpper(c)) == ToLower(c)
    ensures IsLetter(c) ==> IsUpper(ToUpper(c)) && IsLower(ToLower(c))
  {
  }
}
