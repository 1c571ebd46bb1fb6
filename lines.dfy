/** What is left of a command line after its arguments were extracted. */
module Lines {

  /** `isspace` in the classic locale: space, tab, newline, vertical tab, form feed, carriage return. */
  predicate IsSpace(c: char) {
    c == ' ' || '\t' <= c <= '\r'
  }

  /** How many characters `std::ws` skips at the start of `s`. */
  function LeadingSpaces(s: string): (n: nat)
    ensures n <= |s|
    ensures forall i :: 0 <= i < n ==> IsSpace(s[i])
    ensures n < |s| ==> !IsSpace(s[n])
  {
    if s == [] || !IsSpace(s[0]) then 0 else 1 + LeadingSpaces(s[1..])
  }

  /** True when skipping white space does not reach the end of the line. */
  function HasNonWhitespace(rest: string): (b: bool)
    ensures b <==> exists i :: 0 <= i < |rest| && !IsSpace(rest[i])
  {
    LeadingSpaces(rest) < |rest|
  }
}
