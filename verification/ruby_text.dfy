/** Ruby's `String#strip`, as the comment edit route applies it to the
    submitted body. In Ruby 2 `lstrip` removes leading ASCII whitespace
    (space, tab, line feed, vertical tab, form feed, carriage return) and
    `rstrip` removes trailing whitespace and NUL characters. */
module RubyText {

  predicate IsSpace(c: char) {
    c == ' ' || c == '\t' || c == '\n' || c == '\U{B}' || c == '\U{C}' || c == '\r'
  }

  /** What `rstrip` removes from the end. */
  predicate IsBlank(c: char) {
    IsSpace(c) || c == '\0'
  }

  /** Every character of `s` is something `strip` can remove. */
  predicate AllBlank(s: string) {
    forall i :: 0 <= i < |s| ==> IsBlank(s[i])
  }

  /** How many whitespace characters `s` starts with. */
  function LeadingSpaces(s: string): (n: nat)
    ensures n <= |s|
    ensures forall i :: 0 <= i < n ==> IsSpace(s[i])
    ensures n < |s| ==> !IsSpace(s[n])
    decreases |s|
  {
    if s != [] && IsSpace(s[0]) then 1 + LeadingSpaces(s[1..]) else 0
  }

  /** Where the trailing run of whitespace and NUL characters of `s` begins. */
  function TrailingStart(s: string): (n: nat)
    ensures n <= |s|
    ensures forall i :: n <= i < |s| ==> IsBlank(s[i])
    ensures 0 < n ==> !IsBlank(s[n - 1])
    decreases |s|
  {
    if s != [] && IsBlank(s[|s| - 1]) then TrailingStart(s[..|s| - 1]) else |s|
  }

  /** `lstrip`: the longest suffix of `s` that does not start with whitespace. */
  function LStrip(s: string): (r: string)
    ensures |r| <= |s| && r == s[|s| - |r|..]
    ensures forall i :: 0 <= i < |s| - |r| ==> IsSpace(s[i])
    ensures r != [] ==> !IsSpace(r[0])
  {
    s[LeadingSpaces(s)..]
  }

  /** `rstrip`: the longest prefix of `s` that does not end in whitespace or NUL. */
  function RStrip(s: string): (r: string)
    ensures |r| <= |s| && r == s[..|r|]
    ensures forall i :: |r| <= i < |s| ==> IsBlank(s[i])
    ensures r != [] ==> !IsBlank(r[|r| - 1])
  {
    s[..TrailingStart(s)]
  }

  /** `strip`: the body with its surrounding blanks removed. It is empty
      exactly when the body held nothing but blanks. */
  function Strip(s: string): (r: string)
    ensures |r| <= |s|
    ensures r <= LStrip(s)
    ensures forall i :: |r| <= i < |LStrip(s)| ==> IsBlank(LStrip(s)[i])
    ensures r != [] ==> !IsSpace(r[0]) && !IsBlank(r[|r| - 1])
    ensures r == [] <==> AllBlank(s)
  {
    RStrip(LStrip(s))
  }

  /** Stripping twice is stripping once. */
  lemma StripIdempotent(s: string)
    ensures Strip(Strip(s)) == Strip(s)
  {
    var t := Strip(s);
    if t != [] {
      assert LStrip(t) == t;
      assert RStrip(t) == t;
    }
  }
}
