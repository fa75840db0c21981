/**
 * The string and path primitives the sorter and the compiler mojo lean on:
 * java.lang.String.lastIndexOf, an ASCII toLowerCase, java.io.File.getName,
 * commons-io FilenameUtils.getBaseName and the java.io.File(parent, child)
 * constructor, each written out on Unix paths.
 */
module Strings {

  /** A file-system path, as java.io.File holds it. */
  type Path = string

  /** `sub` occurs in `s` starting at index `k`. */
  predicate OccursAt(s: string, sub: string, k: int) {
    0 <= k && k + |sub| <= |s| && s[k..k + |sub|] == sub
  }

  /** String.lastIndexOf(String): the greatest index at which `sub` occurs, or -1. */
  function LastIndexOf(s: string, sub: string): (r: int)
    ensures r == -1 || OccursAt(s, sub, r)
    ensures forall k :: r < k ==> !OccursAt(s, sub, k)
    decreases |s|
  {
    if |sub| > |s| then -1
    else if s[|s| - |sub|..] == sub then |s| - |sub|
    else
      assert forall k :: k + |sub| < |s| ==> (OccursAt(s[..|s| - 1], sub, k) <==> OccursAt(s, sub, k)) by {
        forall k | k + |sub| < |s| {
          OccursAtPrefix(s, sub, |s| - 1, k);
        }
      }
      LastIndexOf(s[..|s| - 1], sub)
  }

  /** An occurrence that ends within the first `n` characters is one of the prefix of length `n`. */
  lemma OccursAtPrefix(s: string, sub: string, n: int, k: int)
    requires 0 <= n && k + |sub| <= n <= |s|
    ensures OccursAt(s[..n], sub, k) <==> OccursAt(s, sub, k)
  {
    if 0 <= k {
      assert s[..n][k..k + |sub|] == s[k..k + |sub|];
    }
  }

  /** String.lastIndexOf(char): the greatest index holding `c`, or -1. */
  function LastIndexOfChar(s: string, c: char): (r: int)
    ensures -1 <= r < |s|
    ensures 0 <= r ==> s[r] == c
    ensures forall k :: r < k < |s| ==> s[k] != c
  {
    LastIndexOfCharBelow(s, c, |s|)
  }

  /** The greatest index below `n` holding `c`, or -1. */
  function LastIndexOfCharBelow(s: string, c: char, n: nat): (r: int)
    requires n <= |s|
    ensures -1 <= r < n
    ensures 0 <= r ==> s[r] == c
    ensures forall k :: r < k < n ==> s[k] != c
  {
    if n == 0 then -1
    else if s[n - 1] == c then n - 1
    else LastIndexOfCharBelow(s, c, n - 1)
  }

  /** The last `c` in `x + [c] + y` is the one after `x` when `y` holds no `c`. */
  lemma {:induction false} LastIndexOfCharLast(x: string, c: char, y: string)
    requires c !in y
    ensures LastIndexOfChar(x + [c] + y, c) == |x|
  {
    var s := x + [c] + y;
    var r := LastIndexOfChar(s, c);
    assert s[|x|] == c;
    forall k | |x| < k < |s| ensures s[k] != c {
      assert s[k] == y[k - |x| - 1];
    }
  }

  /** Character.toLowerCase restricted to ASCII letters. */
  function ToLowerChar(c: char): (r: char)
    ensures !('A' <= r <= 'Z')
    ensures !('A' <= c <= 'Z') ==> r == c
    ensures 'A' <= c <= 'Z' ==> r == (c as int - 'A' as int + 'a' as int) as char
  {
    if 'A' <= c <= 'Z' then (c as int + 32) as char else c
  }

  /** String.toLowerCase restricted to ASCII letters: each character is mapped on its own. */
  function ToLower(s: string): (r: string)
    ensures |r| == |s|
    ensures forall i :: 0 <= i < |s| ==> r[i] == ToLowerChar(s[i])
  {
    seq(|s|, i requires 0 <= i < |s| => ToLowerChar(s[i]))
  }

  /** What follows the last occurrence of `c` in `s` (all of `s` when there is none). */
  function AfterLast(s: string, c: char): (r: string)
    ensures c !in r
    ensures |r| <= |s|
  {
    var k := LastIndexOfChar(s, c);
    var r := s[k + 1..];
    forall i | 0 <= i < |r| ensures r[i] != c {
      assert r[i] == s[k + 1 + i];
    }
    r
  }

  /** AfterLast is the suffix of `s` after the last `c`: a `c` precedes it unless it is all of `s`. */
  lemma AfterLastSuffix(s: string, c: char)
    ensures var r := AfterLast(s, c);
      s[|s| - |r|..] == r && (|r| < |s| ==> s[|s| - |r| - 1] == c)
  {
  }

  /** java.io.File.getName on Unix: what follows the last '/'. */
  function FileName(path: Path): (r: string)
    ensures '/' !in r
  {
    AfterLast(path, '/')
  }

  /** FilenameUtils.getBaseName: drop everything up to the last '/' or '\', then the extension from the last '.' on. */
  function BaseName(name: string): (r: string)
    ensures '/' !in r && '\\' !in r
  {
    var last := AfterLast(AfterLast(name, '/'), '\\');
    var dot := LastIndexOfChar(last, '.');
    if dot == -1 then last else last[..dot]
  }

  /** A name with no separator and no dot is its own base name. */
  lemma BaseNameNoDot(name: string)
    requires '/' !in name && '\\' !in name && '.' !in name
    ensures BaseName(name) == name
  {
  }

  /**
   * new java.io.File(parent, child) on Unix, for a parent and child already in
   * normal form: an empty parent stands for the root, an empty child for the
   * parent itself, and exactly one '/' separates the two.
   */
  function Join(parent: Path, child: string): (r: Path)
    ensures parent != "" ==> parent <= r
    ensures |child| <= |r| && r[|r| - |child|..] == child
    ensures child != "" && child[0] != '/' && parent != "" && parent != "/" ==> r == parent + "/" + child
    ensures child == "" && parent != "" ==> r == parent
    ensures child != "" && child[0] != '/' && (parent == "" || parent == "/") ==> r == "/" + child
    ensures child != "" && child[0] == '/' && parent != "" && parent != "/" ==> r == parent + child
    ensures child != "" && child[0] == '/' && (parent == "" || parent == "/") ==> r == child
  {
    var base := if parent == "" then "/" else parent;
    if child == "" then base
    else if child[0] == '/' then (if base == "/" then child else base + child)
    else if base == "/" then base + child
    else base + "/" + child
  }
}
