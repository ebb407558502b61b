/**
 * A separator-join standing for Go's `filepath.Join` on the directory names
 * the node code uses, with `Dir` and `Base` as its inverses.  Path cleaning
 * (collapsing `..`, doubled separators, an empty directory) is not modelled.
 */
module FilePath {

  const Separator: char := '/'

  /** `dir` and `name` joined by one separator. */
  function Join(dir: string, name: string): (p: string)
    ensures |p| == |dir| + 1 + |name|
    ensures p[..|dir|] == dir && p[|dir|] == Separator && p[|dir| + 1..] == name
  {
    dir + [Separator] + name
  }

  /** Index of the last separator in `p`, or -1 when it holds none. */
  function LastSeparator(p: string): (k: int)
    ensures -1 <= k < |p|
    ensures k >= 0 ==> p[k] == Separator
    ensures forall i :: k < i < |p| ==> p[i] != Separator
  {
    if p == [] then -1
    else if p[|p| - 1] == Separator then |p| - 1
    else LastSeparator(p[..|p| - 1])
  }

  /** Everything before the last separator ("" when there is none). */
  function Dir(p: string): (d: string)
  {
    var k := LastSeparator(p);
    if k < 0 then "" else p[..k]
  }

  /** Everything after the last separator (all of `p` when there is none). */
  function Base(p: string): (b: string)
  {
    p[LastSeparator(p) + 1..]
  }

  /** Joining a separator-free name onto a directory can be undone by Dir and Base. */
  lemma SplitJoin(dir: string, name: string)
    requires Separator !in name
    ensures Dir(Join(dir, name)) == dir
    ensures Base(Join(dir, name)) == name
  {
    var p := Join(dir, name);
    // the joining separator bounds the last one from below ...
    assert p[|dir|] == Separator;
    // ... and the name contributes none after it
    assert forall i :: |dir| < i < |p| ==> p[i] == name[i - |dir| - 1];
    assert LastSeparator(p) == |dir|;
  }
}
