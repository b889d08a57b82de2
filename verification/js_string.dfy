/**
 * The one piece of JavaScript string behaviour the order form depends on:
 * `String.prototype.trim`, used by the submit guard and by the button's
 * `disabled` test to decide whether the description is blank.
 *
 * ECMAScript's `trim` strips, from both ends, every code point of its
 * WhiteSpace production (TAB, VT, FF, ZWNBSP and every Unicode "Zs" space)
 * and of its LineTerminator production (LF, CR, LS, PS).
 */
module JsString {

  /** A code point that ECMAScript's `trim` removes. */
  predicate IsJsWhitespace(c: char) {
    // WhiteSpace: TAB, VT, FF, ZWNBSP
    c == '\t' || c == '\U{000B}' || c == '\U{000C}' || c == '\U{FEFF}'
    // WhiteSpace: the Unicode space separators (category Zs)
    || c == ' ' || c == '\U{00A0}' || c == '\U{1680}' || ('\U{2000}' <= c <= '\U{200A}')
    || c == '\U{202F}' || c == '\U{205F}' || c == '\U{3000}'
    // LineTerminator: LF, CR, LS, PS
    || c == '\n' || c == '\r' || c == '\U{2028}' || c == '\U{2029}'
  }

  predicate AllWhitespace(s: string) {
    forall i :: 0 <= i < |s| ==> IsJsWhitespace(s[i])
  }

  /** `s` with its leading whitespace removed: the longest suffix that does not start with whitespace. */
  function TrimStart(s: string): (r: string)
    ensures |r| <= |s| && r == s[|s| - |r|..]
    ensures AllWhitespace(s[..|s| - |r|])
    ensures r == [] || !IsJsWhitespace(r[0])
    decreases |s|
  {
    if |s| > 0 && IsJsWhitespace(s[0]) then
      var r := TrimStart(s[1..]);
      assert s[..|s| - |r|] == [s[0]] + s[1..][..|s| - 1 - |r|];
      r
    else
      s
  }

  /** `s` with its trailing whitespace removed: the longest prefix that does not end with whitespace. */
  function TrimEnd(s: string): (r: string)
    ensures |r| <= |s| && r == s[..|r|]
    ensures AllWhitespace(s[|r|..])
    ensures r == [] || !IsJsWhitespace(r[|r| - 1])
    decreases |s|
  {
    if |s| > 0 && IsJsWhitespace(s[|s| - 1]) then
      var r := TrimEnd(s[..|s| - 1]);
      assert s[|r|..] == s[..|s| - 1][|r|..] + [s[|s| - 1]];
      r
    else
      s
  }

  /** `s.trim()`. */
  function Trim(s: string): string {
    TrimEnd(TrimStart(s))
  }

  /** `!s.trim()`: the trimmed string is the empty, falsy string. */
  predicate IsBlank(s: string) {
    Trim(s) == ""
  }

  /** A string is blank exactly when every one of its characters is whitespace. */
  lemma {:induction false} BlankIffAllWhitespace(s: string)
    ensures IsBlank(s) <==> AllWhitespace(s)
  {
    var t := TrimStart(s);
    var k := |s| - |t|;
    if AllWhitespace(s) {
      if t != [] {
        assert false;
      }
    }
    if IsBlank(s) {
      // a non-empty `t` would start with non-whitespace, which TrimEnd would keep
      assert AllWhitespace(t[0..]);
      assert t == [] && s[..k] == s;
    }
  }

  /** One non-whitespace character anywhere makes a string non-blank. */
  lemma NotBlankAt(s: string, i: nat)
    requires i < |s| && !IsJsWhitespace(s[i])
    ensures !IsBlank(s)
  {
    BlankIffAllWhitespace(s);
  }

  /**
   * `trim` removes whitespace only: what it returns is the slice of `s` that
   * starts at the first and ends at the last non-whitespace character, and
   * every character it drops on either side is whitespace.
   */
  lemma TrimIsSlice(s: string) returns (lo: nat, hi: nat)
    ensures lo <= hi <= |s| && Trim(s) == s[lo..hi]
    ensures AllWhitespace(s[..lo]) && AllWhitespace(s[hi..])
    ensures Trim(s) != [] ==> !IsJsWhitespace(s[lo]) && !IsJsWhitespace(s[hi - 1])
  {
    var t := TrimStart(s);
    lo := |s| - |t|;
    var r := TrimEnd(t);
    hi := lo + |r|;
    assert s[hi..] == t[|r|..];
  }

  /**
   * The reference characterisation of `trim`: any split of `s` into a
   * whitespace prefix, a middle that is empty or has non-whitespace at both
   * ends, and a whitespace suffix has `Trim(s)` as its middle.
   */
  lemma {:induction false} TrimCharacterized(s: string, lo: nat, hi: nat)
    requires lo <= hi <= |s|
    requires AllWhitespace(s[..lo]) && AllWhitespace(s[hi..])
    requires lo < hi ==> !IsJsWhitespace(s[lo]) && !IsJsWhitespace(s[hi - 1])
    ensures Trim(s) == s[lo..hi]
  {
    if lo == hi {
      forall i | 0 <= i < |s| ensures IsJsWhitespace(s[i]) {
        if i < lo {
          assert s[..lo][i] == s[i];
        } else {
          assert s[hi..][i - hi] == s[i];
        }
      }
      BlankIffAllWhitespace(s);
    } else {
      var t := TrimStart(s);
      var k := |s| - |t|;
      if k < lo {
        assert false;
      }
      if k > lo {
        assert false;
      }
      assert t == s[lo..];
      var r := TrimEnd(t);
      var e := lo + |r|;
      if e < hi {
        assert false;
      }
      if e > hi {
        assert false;
      }
      assert r == s[lo..hi];
    }
  }

  /** Trimming twice removes nothing more than trimming once. */
  lemma TrimIdempotent(s: string)
    ensures Trim(Trim(s)) == Trim(s)
  {
    var r := Trim(s);
    assert TrimStart(r) == r;
    assert TrimEnd(r) == r;
  }
}
