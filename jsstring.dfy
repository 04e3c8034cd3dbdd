/**
 * `String.prototype.trim` of ECMAScript: it removes the leading and the
 * trailing characters that are WhiteSpace or LineTerminator code points
 * (sections 12.2 and 12.3 of ECMA-262).
 */
module JsString {

  /** The WhiteSpace and LineTerminator code points of ECMA-262. */
  predicate IsWhitespace(c: char) {
    var n := c as int;
    n == 0x09 || n == 0x0A || n == 0x0B || n == 0x0C || n == 0x0D || n == 0x20
    || n == 0xA0 || n == 0x1680 || (0x2000 <= n <= 0x200A) || n == 0x2028 || n == 0x2029
    || n == 0x202F || n == 0x205F || n == 0x3000 || n == 0xFEFF
  }

  predicate AllWhitespace(s: string) {
    forall i :: 0 <= i < |s| ==> IsWhitespace(s[i])
  }

  /** How many white-space characters `s` starts with. */
  function LeadingCount(s: string): (n: nat)
    ensures n <= |s|
    ensures forall i :: 0 <= i < n ==> IsWhitespace(s[i])
    ensures n < |s| ==> !IsWhitespace(s[n])
  {
    if s != [] && IsWhitespace(s[0]) then 1 + LeadingCount(s[1..]) else 0
  }

  /** How many white-space characters `s` ends with. */
  function TrailingCount(s: string): (n: nat)
    ensures n <= |s|
    ensures forall i :: |s| - n <= i < |s| ==> IsWhitespace(s[i])
    ensures n < |s| ==> !IsWhitespace(s[|s| - 1 - n])
  {
    if s != [] && IsWhitespace(s[|s| - 1]) then 1 + TrailingCount(s[..|s| - 1]) else 0
  }

  /** `s` with its leading white space removed. */
  function TrimStart(s: string): string {
    s[LeadingCount(s)..]
  }

  /** `s` with its trailing white space removed. */
  function TrimEnd(s: string): string {
    s[..|s| - TrailingCount(s)]
  }

  /** `s.trim()`: leading white space first, then trailing. */
  function Trim(s: string): (r: string)
    ensures |r| <= |s|
    ensures r == [] <==> AllWhitespace(s)
    ensures r != [] ==> !IsWhitespace(r[0]) && !IsWhitespace(r[|r| - 1])
  {
    var t := TrimStart(s);
    var r := TrimEnd(t);
    assert r != [] ==> r[0] == t[0] == s[LeadingCount(s)];
    r
  }

  /** Cutting a sequence at two points and gluing the three pieces back gives it again. */
  lemma SliceSplit<T>(s: seq<T>, a: nat, b: nat)
    requires a <= b <= |s|
    ensures s == s[..a] + s[a..b] + s[b..]
    ensures s[a..][..b - a] == s[a..b]
    ensures s[a..][b - a..] == s[b..]
  {
  }

  /** What trim removes is white space: `s` is white space, the trimmed text, white space. */
  lemma TrimSplit(s: string) returns (before: string, after: string)
    ensures s == before + Trim(s) + after
    ensures AllWhitespace(before) && AllWhitespace(after)
  {
    var a := LeadingCount(s);
    var t := s[a..];
    var b := a + |t| - TrailingCount(t);
    SliceSplit(s, a, b);
    before, after := s[..a], s[b..];
    assert Trim(s) == s[a..b];
  }
}
