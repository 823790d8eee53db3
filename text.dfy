/**
 * JavaScript's `String.prototype.trim`, which both the login form
 * (main.jsx) and the login handler (server.js) use to reject identifiers
 * that are empty or made only of white space.
 */
module Text {

  /** The ECMAScript WhiteSpace and LineTerminator code points that `trim` removes. */
  predicate IsWhitespace(c: char) {
    || c == '\U{0009}' || c == '\U{000A}' || c == '\U{000B}' || c == '\U{000C}' || c == '\U{000D}'
    || c == '\U{0020}' || c == '\U{00A0}' || c == '\U{1680}'
    || ('\U{2000}' <= c <= '\U{200A}')
    || c == '\U{2028}' || c == '\U{2029}' || c == '\U{202F}' || c == '\U{205F}'
    || c == '\U{3000}' || c == '\U{FEFF}'
  }

  /** Every character of `s` is white space (so `s.trim()` is empty). */
  predicate IsBlank(s: string) {
    forall i :: 0 <= i < |s| ==> IsWhitespace(s[i])
  }

  /** `s` with its leading white space removed. */
  function TrimStart(s: string): (r: string)
    ensures |r| <= |s| && r == s[|s| - |r|..]
    ensures r == [] || !IsWhitespace(r[0])
    ensures IsBlank(s[..|s| - |r|])
  {
    if |s| > 0 && IsWhitespace(s[0]) then TrimStart(s[1..]) else s
  }

  /** `s` with its trailing white space removed. */
  function TrimEnd(s: string): (r: string)
    ensures |r| <= |s| && r == s[..|r|]
    ensures r == [] || !IsWhitespace(r[|r| - 1])
    ensures IsBlank(s[|r|..])
  {
    if |s| > 0 && IsWhitespace(s[|s| - 1]) then TrimEnd(s[..|s| - 1]) else s
  }

  /** `s.trim()`. */
  function Trim(s: string): string {
    TrimEnd(TrimStart(s))
  }

  /** How many characters `trim` removes from the front of `s`. */
  function LeadingBlanks(s: string): (n: nat)
    ensures n <= |s|
  {
    |s| - |TrimStart(s)|
  }

  /**
   * `s.trim()` is the piece of `s` that starts after its leading white space;
   * it neither starts nor ends with white space, and everything cut off
   * around it is white space.
   */
  lemma TrimIsCore(s: string)
    ensures LeadingBlanks(s) + |Trim(s)| <= |s|
    ensures Trim(s) == s[LeadingBlanks(s)..LeadingBlanks(s) + |Trim(s)|]
    ensures IsBlank(s[..LeadingBlanks(s)]) && IsBlank(s[LeadingBlanks(s) + |Trim(s)|..])
    ensures Trim(s) == [] || (!IsWhitespace(Trim(s)[0]) && !IsWhitespace(Trim(s)[|Trim(s)| - 1]))
  {
    TrimPlacement(s, TrimStart(s), LeadingBlanks(s), Trim(s));
    TrimEnds(TrimStart(s), Trim(s));
  }

  /** Where the trimmed piece `r` of the suffix `t == s[i..]` sits in `s`. */
  lemma TrimPlacement(s: string, t: string, i: nat, r: string)
    requires i <= |s| && t == s[i..]
    requires |r| <= |t| && r == t[..|r|] && IsBlank(t[|r|..])
    ensures i + |r| <= |s| && r == s[i..i + |r|] && IsBlank(s[i + |r|..])
  {
    assert s[i + |r|..] == t[|r|..];
  }

  /** Trimming the end of a string that does not start with white space keeps its first character. */
  lemma TrimEnds(t: string, r: string)
    requires t == [] || !IsWhitespace(t[0])
    requires r == TrimEnd(t)
    ensures r == [] || (!IsWhitespace(r[0]) && !IsWhitespace(r[|r| - 1]))
  {
    if r != [] {
      assert r[0] == t[0];
    }
  }

  /** The identifier is rejected (`!s.trim()`) exactly when it is blank. */
  lemma {:induction false} TrimEmptyIffBlank(s: string)
    ensures Trim(s) == [] <==> IsBlank(s)
  {
    var t := TrimStart(s);
    var i := |s| - |t|;
    assert s == s[..i] + t;
    if t == [] {
      assert Trim(s) == [];
      assert IsBlank(s);
    } else {
      assert !IsWhitespace(t[0]) && s[i] == t[0];
      assert !IsBlank(s);
      TrimEndKeepsNonWhitespaceLast(t);
    }
  }

  /** Trimming keeps a string that ends in a non-white-space character non-empty. */
  lemma {:induction false} TrimEndKeepsNonWhitespaceLast(t: string)
    requires t != [] && !IsWhitespace(t[0])
    ensures TrimEnd(t) != []
    decreases |t|
  {
    if IsWhitespace(t[|t| - 1]) {
      assert |t| > 1;
      TrimEndKeepsNonWhitespaceLast(t[..|t| - 1]);
    }
  }

  /**
   * What the login form relies on: a string that is not blank trims to a
   * non-empty string that is itself not blank and that `trim` leaves as is.
   */
  lemma TrimOfNonBlank(s: string)
    requires !IsBlank(s)
    ensures Trim(s) != [] && !IsBlank(Trim(s)) && Trim(Trim(s)) == Trim(s)
  {
    TrimEmptyIffBlank(s);
    TrimIdempotent(s);
    TrimEmptyIffBlank(Trim(s));
  }

  /** Trimming twice is the same as trimming once. */
  lemma TrimIdempotent(s: string)
    ensures Trim(Trim(s)) == Trim(s)
  {
    var r := Trim(s);
    TrimIsCore(s);
    if r != [] {
      assert TrimStart(r) == r;
      assert TrimEnd(r) == r;
    }
  }
}
