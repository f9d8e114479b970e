/**
 * `String.prototype.trim` (ECMA-262, 2024 edition, section 22.1.3.32): the
 * string with its leading and trailing white space removed, where white space
 * is every code point of the WhiteSpace production (section 12.2) and of the
 * LineTerminator production (section 12.3).
 */
module JsString {

  /** The WhiteSpace code points of ECMA-262 section 12.2: TAB, VT, FF, ZWNBSP and the Zs category. */
  const WhiteSpace: set<char> := {
    '\t', '\U{000B}', '\U{000C}', '\U{FEFF}',
    ' ', '\U{00A0}', '\U{1680}',
    '\U{2000}', '\U{2001}', '\U{2002}', '\U{2003}', '\U{2004}', '\U{2005}',
    '\U{2006}', '\U{2007}', '\U{2008}', '\U{2009}', '\U{200A}',
    '\U{202F}', '\U{205F}', '\U{3000}'
  }

  /** The LineTerminator code points of ECMA-262 section 12.3: LF, CR, LS, PS. */
  const LineTerminators: set<char> := {'\n', '\r', '\U{2028}', '\U{2029}'}

  /** The characters `trim` removes. */
  predicate IsWs(c: char) {
    c in WhiteSpace || c in LineTerminators
  }

  /** Every character is white space (the empty string included). */
  predicate IsBlank(s: string) {
    forall i :: 0 <= i < |s| ==> IsWs(s[i])
  }

  /** The index of the first character at or after `i` that is not white space, or `|s|`. */
  function SkipWs(s: string, i: nat): (k: nat)
    requires i <= |s|
    ensures i <= k <= |s|
    ensures forall j :: i <= j < k ==> IsWs(s[j])
    ensures k < |s| ==> !IsWs(s[k])
    decreases |s| - i
  {
    if i == |s| || !IsWs(s[i]) then i else SkipWs(s, i + 1)
  }

  /** The index just past the last character before `j` that is not white space, but not below `lo`. */
  function SkipWsBack(s: string, lo: nat, j: nat): (k: nat)
    requires lo <= j <= |s|
    ensures lo <= k <= j
    ensures forall m :: k <= m < j ==> IsWs(s[m])
    ensures lo < k ==> !IsWs(s[k - 1])
    decreases j
  {
    if j == lo || !IsWs(s[j - 1]) then j else SkipWsBack(s, lo, j - 1)
  }

  /**
   * TrimString(s, start+end): the white space at the start is skipped, then
   * the white space at the end of what remains. The result is empty exactly
   * when `s` is blank, and otherwise starts and ends with a character that is
   * not white space.
   */
  function Trim(s: string): (r: string)
    ensures |r| <= |s|
    ensures r == [] <==> IsBlank(s)
    ensures r == [] || (!IsWs(r[0]) && !IsWs(r[|r| - 1]))
  {
    var start := SkipWs(s, 0);
    s[start..SkipWsBack(s, start, |s|)]
  }

  /** Where trimming cuts: the skipped text on either side is blank, and the rest is the result. */
  lemma TrimCuts(s: string) returns (start: nat, end: nat)
    ensures start <= end <= |s|
    ensures Trim(s) == s[start..end]
    ensures IsBlank(s[..start]) && IsBlank(s[end..])
  {
    start := SkipWs(s, 0);
    end := SkipWsBack(s, start, |s|);
    assert forall j :: 0 <= j < start ==> s[..start][j] == s[j];
    assert forall j :: 0 <= j < |s| - end ==> s[end..][j] == s[end + j];
  }

  /**
   * Trim is characterised by its result alone: whatever blank text surrounds a
   * string that starts and ends with non-white-space characters, trimming
   * gives back exactly that string.
   */
  lemma TrimUnique(pre: string, mid: string, post: string)
    requires IsBlank(pre) && IsBlank(post)
    requires mid == [] || (!IsWs(mid[0]) && !IsWs(mid[|mid| - 1]))
    ensures Trim(pre + mid + post) == mid
  {
    var s := pre + mid + post;
    assert forall j :: 0 <= j < |pre| ==> s[j] == pre[j];
    assert forall j :: 0 <= j < |mid| ==> s[|pre| + j] == mid[j];
    assert forall j :: 0 <= j < |post| ==> s[|pre| + |mid| + j] == post[j];
    var start := SkipWs(s, 0);
    if mid == [] {
      assert IsBlank(s) by {
        forall i | 0 <= i < |s| ensures IsWs(s[i]) {
          if i >= |pre| { assert s[i] == post[i - |pre|]; }
        }
      }
    } else {
      assert start == |pre| by {
        assert !IsWs(s[|pre|]);
      }
      var end := SkipWsBack(s, start, |s|);
      assert end == |pre| + |mid| by {
        assert !IsWs(s[|pre| + |mid| - 1]);
      }
      assert s[start..end] == mid;
    }
  }

  /** Trimming twice is trimming once. */
  lemma TrimIdempotent(s: string)
    ensures Trim(Trim(s)) == Trim(s)
  {
    var r := Trim(s);
    var empty: string := [];
    assert IsBlank(empty);
    assert r == [] || (!IsWs(r[0]) && !IsWs(r[|r| - 1]));
    TrimUnique(empty, r, empty);
    assert Trim(empty + r + empty) == r;
    assert empty + r + empty == r;
  }

  /** The input is the trimmed string with blank text around it. */
  lemma TrimDecomposes(s: string) returns (pre: string, post: string)
    ensures IsBlank(pre) && IsBlank(post)
    ensures s == pre + Trim(s) + post
  {
    var start, end := TrimCuts(s);
    pre, post := s[..start], s[end..];
    assert s == s[..start] + s[start..end] + s[end..];
  }
}
