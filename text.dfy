/** The JavaScript string operations the core relies on: `startsWith`,
    `includes` and `trim`, written out over `seq<char>`. */
module Text {

  /** `s.startsWith(p)` */
  predicate StartsWith(s: string, p: string)
  {
    |p| <= |s| && s[..|p|] == p
  }

  /** `p` occurs in `s` starting at index `i`. */
  predicate StartsAt(s: string, i: nat, p: string)
  {
    i + |p| <= |s| && s[i..i + |p|] == p
  }

  lemma StartsWithIsStartsAtZero(s: string, p: string)
    ensures StartsWith(s, p) <==> StartsAt(s, 0, p)
  {
  }

  /** Matching a concatenation is matching its parts one after the other. */
  lemma StartsAtConcat(s: string, i: nat, a: string, b: string)
    ensures StartsAt(s, i, a + b) <==> StartsAt(s, i, a) && StartsAt(s, i + |a|, b)
  {
    if StartsAt(s, i, a) && StartsAt(s, i + |a|, b) {
      assert s[i..i + |a + b|] == s[i..i + |a|] + s[i + |a|..i + |a| + |b|];
    }
    if StartsAt(s, i, a + b) {
      assert s[i..i + |a|] == (a + b)[..|a|];
      assert s[i + |a|..i + |a| + |b|] == (a + b)[|a|..];
    }
  }

  /** `s.includes(t)` searching from index `i` on. */
  function IncludesFrom(s: string, t: string, i: nat): (r: bool)
    requires i <= |s|
    ensures r <==> exists k :: i <= k <= |s| && StartsAt(s, k, t)
    decreases |s| - i
  {
    if StartsAt(s, i, t) then true
    else if i == |s| then false
    else IncludesFrom(s, t, i + 1)
  }

  /** `s.includes(t)` */
  function Includes(s: string, t: string): (r: bool)
    ensures r <==> exists k :: 0 <= k <= |s| && StartsAt(s, k, t)
  {
    IncludesFrom(s, t, 0)
  }

  /** The characters `String.prototype.trim` removes: ECMAScript WhiteSpace
      (tab, vertical tab, form feed, space, no-break space, byte-order mark and
      the Unicode space separators) and LineTerminator (LF, CR, LS, PS). */
  predicate IsJsSpace(c: char)
  {
    c == '\t' || c == '\n' || c == '\U{000B}' || c == '\U{000C}' || c == '\r' || c == ' '
    || c == '\U{00A0}' || c == '\U{1680}' || ('\U{2000}' <= c <= '\U{200A}')
    || c == '\U{2028}' || c == '\U{2029}' || c == '\U{202F}' || c == '\U{205F}'
    || c == '\U{3000}' || c == '\U{FEFF}'
  }

  /** The characters a regular-expression `.` does not match. */
  predicate IsLineTerminator(c: char)
  {
    c == '\n' || c == '\r' || c == '\U{2028}' || c == '\U{2029}'
  }

  /** Where `trim` starts cutting from the front: the first index at or after
      `i` that does not hold white space (or `|s|`). */
  function TrimStartIndex(s: string, i: nat): (n: nat)
    requires i <= |s|
    ensures i <= n <= |s|
    ensures forall k :: i <= k < n ==> IsJsSpace(s[k])
    ensures n == |s| || !IsJsSpace(s[n])
    decreases |s| - i
  {
    if i < |s| && IsJsSpace(s[i]) then TrimStartIndex(s, i + 1) else i
  }

  /** Where `trim` stops at the back: the smallest `m` in `lo..j` such that
      `s[m..j]` is all white space. */
  function TrimEndIndex(s: string, lo: nat, j: nat): (m: nat)
    requires lo <= j <= |s|
    ensures lo <= m <= j
    ensures forall k :: m <= k < j ==> IsJsSpace(s[k])
    ensures m == lo || !IsJsSpace(s[m - 1])
    decreases j
  {
    if lo < j && IsJsSpace(s[j - 1]) then TrimEndIndex(s, lo, j - 1) else j
  }

  /** `s.trim()`: a contiguous piece `s[i..j]` of `s`, everything outside it is
      white space, and it neither starts nor ends with white space. */
  function Trim(s: string): (r: string)
    ensures exists i, j :: 0 <= i <= j <= |s| && r == s[i..j]
                           && (forall k :: 0 <= k < i ==> IsJsSpace(s[k]))
                           && (forall k :: j <= k < |s| ==> IsJsSpace(s[k]))
    ensures r == [] || (!IsJsSpace(r[0]) && !IsJsSpace(r[|r| - 1]))
  {
    var i := TrimStartIndex(s, 0);
    var j := TrimEndIndex(s, i, |s|);
    assert j > i ==> s[i..j][0] == s[i] && s[i..j][j - i - 1] == s[j - 1];
    s[i..j]
  }

  /** The piece `trim` keeps is the only one with the properties above: a
      string `p + r + q` whose `p` and `q` are white space and whose `r`
      neither starts nor ends with it trims to `r`. */
  lemma TrimPieceUnique(p: string, r: string, q: string)
    requires forall k :: 0 <= k < |p| ==> IsJsSpace(p[k])
    requires forall k :: 0 <= k < |q| ==> IsJsSpace(q[k])
    requires r != [] && !IsJsSpace(r[0]) && !IsJsSpace(r[|r| - 1])
    ensures Trim(p + r + q) == r
  {
    var s := p + r + q;
    var i := TrimStartIndex(s, 0);
    assert s[|p|] == r[0];
    assert forall k :: 0 <= k < |p| ==> s[k] == p[k];
    assert i == |p|;
    var j := TrimEndIndex(s, i, |s|);
    assert s[|p| + |r| - 1] == r[|r| - 1];
    assert forall k :: |p| + |r| <= k < |s| ==> s[k] == q[k - |p| - |r|];
    assert j == |p| + |r|;
    assert s[i..j] == r;
  }

  /** A string with no surrounding white space is its own trim. */
  lemma TrimOfTrimmed(s: string)
    requires s == [] || (!IsJsSpace(s[0]) && !IsJsSpace(s[|s| - 1]))
    ensures Trim(s) == s
  {
    if s != [] {
      assert [] + s + [] == s;
      TrimPieceUnique([], s, []);
    }
  }

  /** `trim` is idempotent. */
  lemma TrimIdempotent(s: string)
    ensures Trim(Trim(s)) == Trim(s)
  {
    TrimOfTrimmed(Trim(s));
  }

  /** Trailing white space (such as the newline a command prints after its
      output) is removed and nothing else. */
  lemma TrimDropsTrailingSpace(s: string, w: string)
    requires s != [] && !IsJsSpace(s[0]) && !IsJsSpace(s[|s| - 1])
    requires forall k :: 0 <= k < |w| ==> IsJsSpace(w[k])
    ensures Trim(s + w) == s
  {
    assert [] + s + w == s + w;
    TrimPieceUnique([], s, w);
  }
}
