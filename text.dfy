/**
 * `String.prototype.trim` as the guards of the chat input and of the title
 * editor use it: it removes the white space and line terminators of the
 * ECMAScript grammar from both ends of a string.
 */
module Text {

  /** ECMAScript WhiteSpace and LineTerminator code points. */
  predicate IsWhitespace(c: char) {
    || c == '\t' || c == '\n' || c == '\U{000B}' || c == '\U{000C}' || c == '\r'
    || c == ' ' || c == '\U{00A0}' || c == '\U{1680}'
    || ('\U{2000}' <= c <= '\U{200A}')
    || c == '\U{2028}' || c == '\U{2029}' || c == '\U{202F}' || c == '\U{205F}'
    || c == '\U{3000}' || c == '\U{FEFF}'
  }

  predicate AllWhitespace(s: string) {
    forall i :: 0 <= i < |s| ==> IsWhitespace(s[i])
  }

  /** The index of the first character at or after `i` that is not white space (`|s|` if none). */
  function FirstKept(s: string, i: nat): (k: nat)
    requires i <= |s|
    ensures i <= k <= |s|
    ensures forall m :: i <= m < k ==> IsWhitespace(s[m])
    ensures k == |s| || !IsWhitespace(s[k])
    decreases |s| - i
  {
    if i < |s| && IsWhitespace(s[i]) then FirstKept(s, i + 1) else i
  }

  /**
   * The end of the text before `j` once the white space in front of `j` is
   * dropped, going back no further than `lo`.
   */
  function LastKept(s: string, lo: nat, j: nat): (k: nat)
    requires lo <= j <= |s|
    ensures lo <= k <= j
    ensures forall m :: k <= m < j ==> IsWhitespace(s[m])
    ensures k == lo || !IsWhitespace(s[k - 1])
    decreases j
  {
    if lo < j && IsWhitespace(s[j - 1]) then LastKept(s, lo, j - 1) else j
  }

  /** `s.trim()`: the white space at both ends dropped. */
  function Trim(s: string): (r: string)
    ensures |r| <= |s|
  {
    var i := FirstKept(s, 0);
    s[i..LastKept(s, i, |s|)]
  }

  /**
   * What trim returns is a piece of its input that starts and ends with a
   * character that is not white space, and everything cut away on either
   * side is white space.
   */
  lemma TrimIsInnerPiece(s: string)
    ensures exists i, j :: 0 <= i <= j <= |s| && Trim(s) == s[i..j]
              && AllWhitespace(s[..i]) && AllWhitespace(s[j..])
    ensures Trim(s) == [] || (!IsWhitespace(Trim(s)[0]) && !IsWhitespace(Trim(s)[|Trim(s)| - 1]))
  {
    var i := FirstKept(s, 0);
    var j := LastKept(s, i, |s|);
    assert Trim(s) == s[i..j];
    assert AllWhitespace(s[..i]) && AllWhitespace(s[j..]);
    if j == i {
      assert Trim(s) == [];
    }
  }

  /** trim yields the empty string exactly when its input is all white space. */
  lemma TrimEmptyIff(s: string)
    ensures Trim(s) == [] <==> AllWhitespace(s)
  {
    var i := FirstKept(s, 0);
    var j := LastKept(s, i, |s|);
    if i < |s| {
      assert !IsWhitespace(s[i]);
      assert j != i;
    }
  }

  /** Trimming twice is trimming once. */
  lemma TrimIdempotent(s: string)
    ensures Trim(Trim(s)) == Trim(s)
  {
    TrimIsInnerPiece(s);
    var t := Trim(s);
    if t != [] {
      assert FirstKept(t, 0) == 0;
      assert LastKept(t, 0, |t|) == |t|;
      assert t[0..|t|] == t;
    }
  }
}
