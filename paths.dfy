/** The few string operations the helpers apply to file names and paths. */
module Paths {

  /** `a / b` on a `pathlib.Path`, rendered as the path string. */
  function Join(dir: string, name: string): (p: string)
    ensures |p| == |dir| + 1 + |name|
    ensures p[..|dir|] == dir && p[|dir|] == '/' && p[|dir| + 1..] == name
  {
    dir + "/" + name
  }

  /** Python's `s[:-7]`: the string without its last seven characters, or "" when it is shorter. */
  function DropLast7(s: string): (r: string)
    ensures |s| >= 7 ==> |r| == |s| - 7
    ensures |s| < 7 ==> r == ""
    ensures r <= s
  {
    if |s| >= 7 then s[..|s| - 7] else ""
  }

  predicate EndsWith(s: string, suffix: string) {
    |suffix| <= |s| && s[|s| - |suffix|..] == suffix
  }

  /** `sub` occurs in `s` starting at index `i`. */
  predicate OccursAt(s: string, sub: string, i: int) {
    0 <= i <= |s| - |sub| && s[i..i + |sub|] == sub
  }

  /** Python's `sub in s` on strings. */
  predicate Contains(s: string, sub: string) {
    exists i | 0 <= i <= |s| - |sub| :: OccursAt(s, sub, i)
  }

  const NiftiSuffix := ".nii.gz"
  const SidecarSuffix := ".json"

  /** Stripping seven characters from a `.nii.gz` name and adding the suffix back gives the name. */
  lemma StemRoundTrip(name: string)
    requires EndsWith(name, NiftiSuffix)
    ensures DropLast7(name) + NiftiSuffix == name
  {
    assert |NiftiSuffix| == 7;
  }

  /** Dropping seven characters of a joined path only touches its last component, when that is
      at least seven characters long. */
  lemma {:induction false} DropLast7OfJoin(dir: string, name: string)
    requires |name| >= 7
    ensures DropLast7(Join(dir, name)) == Join(dir, DropLast7(name))
  {
    var p := Join(dir, name);
    assert p[..|p| - 7] == dir + "/" + name[..|name| - 7];
  }
}
