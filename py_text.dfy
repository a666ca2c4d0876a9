/**
 * Python's `str.strip()` with no argument, as `chat_ai` applies it to every
 * incoming message before using it as a name or as a prompt.
 */
module PyText {

  /** The 29 characters for which Python 3's `str.isspace()` is true, one by one. */
  const PythonWhitespace: set<char> := {
    '\t', '\n', '\U{0B}', '\U{0C}', '\r', '\U{1C}', '\U{1D}', '\U{1E}', '\U{1F}', ' ', '\U{85}', '\U{A0}',
    '\U{1680}', '\U{2000}', '\U{2001}', '\U{2002}', '\U{2003}', '\U{2004}', '\U{2005}', '\U{2006}',
    '\U{2007}', '\U{2008}', '\U{2009}', '\U{200A}', '\U{2028}', '\U{2029}', '\U{202F}', '\U{205F}', '\U{3000}'
  }

  /** Whitespace as `str.strip()` sees it: exactly the characters of `PythonWhitespace`. */
  predicate IsSpace(c: char)
    ensures IsSpace(c) <==> c in PythonWhitespace
  {
    || ('\t' <= c <= '\r')                 // TAB, LF, VT, FF, CR
    || ('\U{1C}' <= c <= '\U{1F}')         // FS, GS, RS, US
    || c == ' '
    || c == '\U{85}'                       // NEL
    || c == '\U{A0}'                       // NO-BREAK SPACE
    || c == '\U{1680}'
    || ('\U{2000}' <= c <= '\U{200A}')
    || c == '\U{2028}' || c == '\U{2029}'
    || c == '\U{202F}' || c == '\U{205F}' || c == '\U{3000}'
  }

  predicate AllSpace(s: string)
  {
    forall i :: 0 <= i < |s| ==> IsSpace(s[i])
  }

  /** A string that `strip` leaves as it is: empty, or not starting or ending in whitespace. */
  predicate Unpadded(s: string)
  {
    s == [] || (!IsSpace(s[0]) && !IsSpace(s[|s| - 1]))
  }

  /** Length of the longest all-whitespace prefix of `s`. */
  function LeadingSpaces(s: string): (n: nat)
    ensures n <= |s|
    ensures forall i :: 0 <= i < n ==> IsSpace(s[i])
    ensures n < |s| ==> !IsSpace(s[n])
  {
    if s == [] || !IsSpace(s[0]) then 0 else 1 + LeadingSpaces(s[1..])
  }

  /** Length of the longest all-whitespace suffix of `s`. */
  function TrailingSpaces(s: string): (n: nat)
    ensures n <= |s|
    ensures forall i :: |s| - n <= i < |s| ==> IsSpace(s[i])
    ensures n < |s| ==> !IsSpace(s[|s| - 1 - n])
  {
    if s == [] || !IsSpace(s[|s| - 1]) then 0 else 1 + TrailingSpaces(s[..|s| - 1])
  }

  /**
   * `s.strip()`: the part of `s` that starts right after its leading
   * whitespace, keeps every non-whitespace character, and is followed in `s`
   * by whitespace only.
   */
  function Strip(s: string): (r: string)
    ensures LeadingSpaces(s) + |r| <= |s|
    ensures r == s[LeadingSpaces(s)..LeadingSpaces(s) + |r|]
    ensures forall i :: LeadingSpaces(s) + |r| <= i < |s| ==> IsSpace(s[i])
    ensures Unpadded(r)
  {
    var t := s[LeadingSpaces(s)..];
    t[..|t| - TrailingSpaces(t)]
  }

  /**
   * `strip` is characterised by its result: whatever whitespace surrounds an
   * unpadded string, stripping gives back exactly that string.
   */
  lemma StripUnique(a: string, r: string, b: string)
    requires AllSpace(a) && Unpadded(r) && AllSpace(b)
    ensures Strip(a + r + b) == r
  {
    var s := a + r + b;
    var n := LeadingSpaces(s);
    var r' := Strip(s);
    if r == [] {
      assert s == a + b;
      assert AllSpace(s);
      assert n == |s|;
    } else {
      assert s[|a|] == r[0];
      assert n == |a|;
      assert s[|a| + |r| - 1] == r[|r| - 1];
      assert |r'| == |r|;
      assert r' == s[|a|..|a| + |r|] == r;
    }
  }

  /** A string without surrounding whitespace is left as it is. */
  lemma StripKeepsUnpadded(s: string)
    requires Unpadded(s)
    ensures Strip(s) == s
  {
    StripUnique([], s, []);
    assert [] + s + [] == s;
  }

  /** Stripping twice is stripping once. */
  lemma StripIdempotent(s: string)
    ensures Strip(Strip(s)) == Strip(s)
  {
    StripKeepsUnpadded(Strip(s));
  }

  /** The result is empty exactly when the input is whitespace only (the empty string included). */
  lemma StripEmptyIffBlank(s: string)
    ensures Strip(s) == [] <==> AllSpace(s)
  {
    if AllSpace(s) {
      StripUnique(s, [], []);
      assert s + [] + [] == s;
    }
  }
}
