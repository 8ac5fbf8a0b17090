/**
 * The login form's decision (`handleLogin` in src/App.js): the typed name is
 * trimmed as `String.prototype.trim` does, and the user logs in under the
 * trimmed name only when it is not empty.
 */
module Login {
  import opened Wrappers

  /** The ECMAScript WhiteSpace and LineTerminator code points that `trim` strips. */
  predicate IsJsWhiteSpace(c: char) {
    var n := c as int;
    || n == 0x09 || n == 0x0A || n == 0x0B || n == 0x0C || n == 0x0D || n == 0x20
    || n == 0xA0 || n == 0x1680 || (0x2000 <= n <= 0x200A)
    || n == 0x2028 || n == 0x2029 || n == 0x202F || n == 0x205F || n == 0x3000 || n == 0xFEFF
  }

  /** Every character of s at positions lo up to (excluding) hi is white space. */
  predicate WhiteBetween(s: string, lo: int, hi: int)
    requires 0 <= lo && hi <= |s|
  {
    forall k :: lo <= k < hi ==> IsJsWhiteSpace(s[k])
  }

  /** Scans forward from i past white space: the index of the first other character, or |s|. */
  function SkipWhiteForward(s: string, i: nat): (r: nat)
    requires i <= |s|
    ensures i <= r <= |s|
    ensures WhiteBetween(s, i, r)
    ensures r < |s| ==> !IsJsWhiteSpace(s[r])
    decreases |s| - i
  {
    if i < |s| && IsJsWhiteSpace(s[i]) then SkipWhiteForward(s, i + 1) else i
  }

  /** Scans backward from j, not below lo, past white space: one past the last other character, or lo. */
  function SkipWhiteBackward(s: string, lo: nat, j: nat): (r: nat)
    requires lo <= j <= |s|
    ensures lo <= r <= j
    ensures WhiteBetween(s, r, j)
    ensures r > lo ==> !IsJsWhiteSpace(s[r - 1])
    decreases j
  {
    if lo < j && IsJsWhiteSpace(s[j - 1]) then SkipWhiteBackward(s, lo, j - 1) else j
  }

  /**
   * `String.prototype.trim`: s without its leading and trailing white
   * space. What remains is a stretch of s between two white-space runs,
   * neither starting nor ending with white space, and it is empty exactly
   * when s is all white space.
   */
  function Trim(s: string): (r: string)
    ensures exists i :: 0 <= i <= |s| - |r| && r == s[i..i + |r|]
                        && WhiteBetween(s, 0, i) && WhiteBetween(s, i + |r|, |s|)
    ensures r != [] ==> !IsJsWhiteSpace(r[0]) && !IsJsWhiteSpace(r[|r| - 1])
    ensures r == [] <==> WhiteBetween(s, 0, |s|)
  {
    var i := SkipWhiteForward(s, 0);
    var j := SkipWhiteBackward(s, i, |s|);
    assert WhiteBetween(s, 0, i) && WhiteBetween(s, j, |s|);
    s[i..j]
  }

  /** The name the user logs in under; None, and the form is ignored, when the trimmed name is empty. */
  function LoginName(typed: string): (name: Option<string>)
    ensures name.Some? ==> name.value == Trim(typed) && name.value != []
    ensures name.None? <==> WhiteBetween(typed, 0, |typed|)
  {
    var t := Trim(typed);
    if t != [] then Some(t) else None
  }

  /** Trimming twice is trimming once. */
  lemma TrimIdempotent(s: string)
    ensures Trim(Trim(s)) == Trim(s)
  {
    var t := Trim(s);
    if t != [] {
      assert SkipWhiteForward(t, 0) == 0;
      assert SkipWhiteBackward(t, 0, |t|) == |t|;
    }
  }
}
