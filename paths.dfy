/**
 * The part of `pathlib` the logger uses: a path's `stem` and `suffix`, and
 * `with_name` to build the timestamped file of a `#START` session.
 */
module Paths {

  /** A file path: its parent directory and its final component. */
  datatype FilePath = FilePath(dir: string, name: string)

  /** `s.rfind(c)`: the last index of `c` in `s`, or -1. */
  function RFind(s: string, c: char): (r: int)
    ensures -1 <= r < |s|
    ensures r == -1 ==> c !in s
    ensures r >= 0 ==> s[r] == c && forall k :: r < k < |s| ==> s[k] != c
    decreases |s|
  {
    if s == [] then -1
    else if s[|s| - 1] == c then |s| - 1
    else RFind(s[..|s| - 1], c)
  }

  /** `pathlib` counts a last dot as the start of a suffix only when it is
      neither the first nor the last character of the name. */
  predicate HasSuffix(name: string) {
    0 < RFind(name, '.') < |name| - 1
  }

  /** `PurePath.suffix`. */
  function Suffix(name: string): (r: string)
    ensures r != [] <==> HasSuffix(name)
    ensures r == [] || (|r| >= 2 && r[0] == '.' && '.' !in r[1..])
  {
    if HasSuffix(name) then name[RFind(name, '.')..] else ""
  }

  /** `PurePath.stem`. */
  function Stem(name: string): (r: string)
    ensures r + Suffix(name) == name
    ensures HasSuffix(name) ==> r != [] && |r| < |name|
  {
    if HasSuffix(name) then name[..RFind(name, '.')] else name
  }

  /** The file of a session started at `stamp`:
      `base.with_name(f"{stem}_{stamp}{suffix}")`. */
  function StampedPath(base: FilePath, stamp: string): (p: FilePath)
    ensures p.dir == base.dir
    ensures p != base
  {
    FilePath(base.dir, Stem(base.name) + "_" + stamp + Suffix(base.name))
  }

  /** Sessions started at different timestamps write different files. */
  lemma StampedPathInjective(base: FilePath, s1: string, s2: string)
    requires StampedPath(base, s1) == StampedPath(base, s2)
    ensures s1 == s2
  {
    var stem, suffix := Stem(base.name), Suffix(base.name);
    var n1, n2 := StampedPath(base, s1).name, StampedPath(base, s2).name;
    assert n1[|stem| + 1..|stem| + 1 + |s1|] == s1;
    assert n2[|stem| + 1..|stem| + 1 + |s2|] == s2;
  }
}
