/** The part of JavaScript's string library that the output-directory setting
    goes through: `String.prototype.trim`, which strips white space and line
    terminators (as ECMAScript defines them) from both ends of a string. */
module JsString {

  /** ECMAScript WhiteSpace (TAB, VT, FF, ZWNBSP and every Unicode "Zs" space)
      together with the four LineTerminator code points. */
  predicate IsJsSpace(c: char) {
    || c == '\t' || c == '\U{B}' || c == '\U{C}' || c == ' ' || c == '\U{A0}'
    || c == '\U{FEFF}' || c == '\U{1680}' || ('\U{2000}' <= c <= '\U{200A}')
    || c == '\U{202F}' || c == '\U{205F}' || c == '\U{3000}'
    || c == '\n' || c == '\r' || c == '\U{2028}' || c == '\U{2029}'
  }

  /** Every character of `s` is white space (vacuously so for the empty string). */
  predicate AllSpace(s: string) {
    forall i :: 0 <= i < |s| ==> IsJsSpace(s[i])
  }

  /** `s` neither starts nor ends with white space. */
  predicate Trimmed(s: string) {
    s == [] || (!IsJsSpace(s[0]) && !IsJsSpace(s[|s| - 1]))
  }

  /** Drops the leading white space: what is dropped is all space, what is
      kept is a suffix that does not start with space. */
  function TrimStart(s: string): (r: string)
    ensures |r| <= |s| && r == s[|s| - |r|..]
    ensures AllSpace(s[..|s| - |r|])
    ensures r == [] || !IsJsSpace(r[0])
  {
    if s != [] && IsJsSpace(s[0]) then TrimStart(s[1..]) else s
  }

  /** Drops the trailing white space: what is dropped is all space, what is
      kept is a prefix that does not end with space. */
  function TrimEnd(s: string): (r: string)
    ensures |r| <= |s| && r == s[..|r|]
    ensures AllSpace(s[|r|..])
    ensures r == [] || !IsJsSpace(r[|r| - 1])
  {
    if s != [] && IsJsSpace(s[|s| - 1]) then TrimEnd(s[..|s| - 1]) else s
  }

  /** `String.prototype.trim`. */
  function Trim(s: string): string {
    TrimEnd(TrimStart(s))
  }

  /** `Trim(s)` is the infix `s[i..j]` of `s` that is left once the white
      space on either side is removed, and it has no white space at its ends. */
  lemma TrimIsInfix(s: string)
    ensures exists i, j ::
      && 0 <= i <= j <= |s|
      && Trim(s) == s[i..j] && AllSpace(s[..i]) && AllSpace(s[j..])
    ensures Trimmed(Trim(s))
  {
    var t := TrimStart(s);
    var r := TrimEnd(t);
    var i := |s| - |t|;
    var j := i + |r|;
    assert Trim(s) == s[i..j];
    assert AllSpace(s[..i]);
    assert AllSpace(s[j..]) by {
      assert s[j..] == t[|r|..];
    }
    assert Trimmed(r) by {
      assert r == [] || r[0] == t[0];
    }
  }

  /** The trimmed string is empty exactly when the whole string is white
      space — the case in which the setting counts as not given. */
  lemma TrimEmptyIffAllSpace(s: string)
    ensures Trim(s) == [] <==> AllSpace(s)
  {
  }
}
