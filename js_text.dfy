/**
 * The white space JavaScript strips: `String.prototype.trim` and the leading part `parseInt`
 * skips both use the WhiteSpace and LineTerminator characters of ECMAScript section 7.2 and 7.3.
 */
module JsText {

  /** TAB, VT, FF, SP, NBSP, ZWNBSP, the other Unicode space separators, LF, CR, LS and PS. */
  predicate IsJsSpace(c: char)
  {
    || c == '\t' || c == '\U{B}' || c == '\U{C}' || c == ' ' || c == '\U{A0}' || c == '\U{FEFF}'
    || c == '\U{1680}' || ('\U{2000}' <= c <= '\U{200A}') || c == '\U{202F}' || c == '\U{205F}' || c == '\U{3000}'
    || c == '\n' || c == '\r' || c == '\U{2028}' || c == '\U{2029}'
  }

  /** The number of white-space characters before the first other one. */
  function Lead(s: string): (n: nat)
    ensures n <= |s|
    ensures forall k :: 0 <= k < n ==> IsJsSpace(s[k])
    ensures n < |s| ==> !IsJsSpace(s[n])
  {
    if s != [] && IsJsSpace(s[0]) then 1 + Lead(s[1..]) else 0
  }

  /** The length of the text once its trailing white space is cut off. */
  function Kept(s: string): (n: nat)
    ensures n <= |s|
    ensures forall k :: n <= k < |s| ==> IsJsSpace(s[k])
    ensures n > 0 ==> !IsJsSpace(s[n - 1])
  {
    if s != [] && IsJsSpace(s[|s| - 1]) then Kept(s[..|s| - 1]) else |s|
  }

  /** The text without its leading white space (`trimStart()`). */
  function TrimStart(s: string): (r: string)
    ensures r == [] || !IsJsSpace(r[0])
    ensures s != [] && !IsJsSpace(s[0]) ==> r == s
  {
    s[Lead(s)..]
  }

  /** `trim()`: white space removed at both ends and nowhere else. */
  function Trim(s: string): (r: string)
    ensures r == [] || (!IsJsSpace(r[0]) && !IsJsSpace(r[|r| - 1]))
    ensures Lead(s) + |r| <= |s| && r == s[Lead(s)..Lead(s) + |r|]
    ensures forall k :: Lead(s) + |r| <= k < |s| ==> IsJsSpace(s[k])
  {
    var i := Lead(s);
    var t := s[i..];
    var r := t[..Kept(t)];
    assert forall k :: i + |r| <= k < |s| ==> IsJsSpace(s[k]) by {
      forall k | i + |r| <= k < |s|
        ensures IsJsSpace(s[k])
      {
        assert s[k] == t[k - i];
      }
    }
    r
  }

  /** Trimming trimmed text changes nothing. */
  lemma TrimIdempotent(s: string)
    ensures Trim(Trim(s)) == Trim(s)
  {
    var r := Trim(s);
    assert Lead(r) == 0;
    assert Kept(r) == |r|;
    assert r[0..] == r;
  }

  /** A text of white space alone trims to the empty text. */
  lemma BlankTrimsToEmpty(s: string)
    requires forall k :: 0 <= k < |s| ==> IsJsSpace(s[k])
    ensures Trim(s) == ""
  {
    assert Lead(s) == |s|;
  }
}
