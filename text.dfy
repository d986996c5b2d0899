/** String operations the codec borrows from JavaScript and Node's path module. */
module Text {

  /** A character of the class `[a-zA-Z0-9]`. */
  predicate Alnum(c: char) {
    ('a' <= c <= 'z') || ('A' <= c <= 'Z') || ('0' <= c <= '9')
  }

  /** A character of the class `[a-zA-Z0-9-_]`. */
  predicate Allowed(c: char) {
    Alnum(c) || c == '-' || c == '_'
  }

  /** `s.lastIndexOf(c)`: the position of the last `c`, or -1. */
  function LastIndexOf(s: string, c: char): (i: int)
    ensures -1 <= i < |s|
    ensures i >= 0 ==> s[i] == c
    ensures forall j :: i < j < |s| ==> s[j] != c
  {
    LastIndexBelow(s, c, |s|)
  }

  /** The position of the last `c` among the first `n` characters of `s`, or -1. */
  function LastIndexBelow(s: string, c: char, n: nat): (i: int)
    requires n <= |s|
    ensures -1 <= i < n
    ensures i >= 0 ==> s[i] == c
    ensures forall j :: i < j < n ==> s[j] != c
  {
    if n == 0 then -1
    else if s[n - 1] == c then n - 1
    else LastIndexBelow(s, c, n - 1)
  }

  /** `s` with its trailing `/` characters removed. */
  function TrimTrailingSlashes(s: string): (r: string)
    ensures |r| <= |s| && r == s[..|r|]
    ensures r == [] || r[|r| - 1] != '/'
  {
    if s != [] && s[|s| - 1] == '/' then TrimTrailingSlashes(s[..|s| - 1]) else s
  }

  /** The last component of a path, trailing slashes ignored. */
  function LastComponent(p: string): (r: string)
    ensures forall i :: 0 <= i < |r| ==> r[i] in p
  {
    var t := TrimTrailingSlashes(p);
    var k := LastIndexOf(t, '/') + 1;
    assert forall i :: k <= i < |t| ==> t[i] == p[i];
    t[k..]
  }

  /**
   * `path.extname(p)` on POSIX: the last component from its last dot on, or "" when that
   * component has no dot, only a leading one, or is "..".
   */
  function Extname(p: string): string {
    var base := LastComponent(p);
    var d := LastIndexOf(base, '.');
    if d <= 0 || base == ".." then "" else base[d..]
  }

  /** `pat` occurs in `s` at position `i`. */
  predicate OccursAt(s: string, pat: string, i: nat) {
    i + |pat| <= |s| && s[i..i + |pat|] == pat
  }

  /** `pat` occurs somewhere in `s`. */
  predicate Contains(s: string, pat: string) {
    exists i :: 0 <= i <= |s| - |pat| && OccursAt(s, pat, i)
  }

  /** `s.replace(pat, '')` with a string pattern: only the first occurrence is removed. */
  function RemoveFirst(s: string, pat: string): (r: string)
    ensures |r| <= |s|
  {
    if pat == [] then s else RemoveFirstFrom(s, pat, 0)
  }

  /** Removes the first occurrence of `pat` at or after position `i`. */
  function RemoveFirstFrom(s: string, pat: string, i: nat): (r: string)
    requires pat != []
    ensures |r| <= |s|
    decreases |s| - i
  {
    if i + |pat| > |s| then s
    else if OccursAt(s, pat, i) then s[..i] + s[i + |pat|..]
    else RemoveFirstFrom(s, pat, i + 1)
  }

  /** `s.split(c).slice(-1)[0]`: the text after the last `c`, or all of `s`. */
  function AfterLast(s: string, c: char): (r: string)
    ensures c !in r
    ensures |r| <= |s|
  {
    if s == [] || s[|s| - 1] == c then []
    else AfterLast(s[..|s| - 1], c) + [s[|s| - 1]]
  }

  /** The last piece of the split is what follows the last `c`. */
  lemma {:induction false} AfterLastIndex(s: string, c: char)
    ensures AfterLast(s, c) == s[LastIndexOf(s, c) + 1..]
  {
    if s != [] && s[|s| - 1] != c {
      var t := s[..|s| - 1];
      AfterLastIndex(t, c);
      LastIndexBelowSame(s, t, c, |t|);
      var i := LastIndexOf(s, c);
      assert s[i + 1..] == t[i + 1..] + [s[|s| - 1]];
    }
  }

  /** Looking below `n` sees only the first `n` characters. */
  lemma {:induction false} LastIndexBelowSame(s: string, t: string, c: char, n: nat)
    requires n <= |s| && n <= |t|
    requires forall j :: 0 <= j < n ==> s[j] == t[j]
    ensures LastIndexBelow(s, c, n) == LastIndexBelow(t, c, n)
  {
    if n > 0 {
      LastIndexBelowSame(s, t, c, n - 1);
    }
  }

  lemma LastIndexOfAbsent(s: string, c: char)
    requires c !in s
    ensures LastIndexOf(s, c) == -1
  {
  }

  /** Removing the first occurrence of `pat` when it is known to be at `i`. */
  lemma RemoveFirstAt(s: string, pat: string, i: nat)
    requires pat != [] && OccursAt(s, pat, i)
    requires forall j :: 0 <= j < i ==> !OccursAt(s, pat, j)
    ensures RemoveFirst(s, pat) == s[..i] + s[i + |pat|..]
  {
    RemoveFirstFromAt(s, pat, 0, i);
  }

  lemma {:induction false} RemoveFirstFromAt(s: string, pat: string, k: nat, i: nat)
    requires pat != [] && k <= i && OccursAt(s, pat, i)
    requires forall j :: k <= j < i ==> !OccursAt(s, pat, j)
    ensures RemoveFirstFrom(s, pat, k) == s[..i] + s[i + |pat|..]
    decreases i - k
  {
    if k < i {
      RemoveFirstFromAt(s, pat, k + 1, i);
    }
  }

  /** When `pat` does not occur at or after `k`, nothing is removed. */
  lemma {:induction false} RemoveFirstFromAbsent(s: string, pat: string, k: nat)
    requires pat != []
    requires forall j :: k <= j ==> !OccursAt(s, pat, j)
    ensures RemoveFirstFrom(s, pat, k) == s
    decreases |s| - k
  {
    if k + |pat| <= |s| {
      RemoveFirstFromAbsent(s, pat, k + 1);
    }
  }
}
