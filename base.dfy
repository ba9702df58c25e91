/** The path helper of the base example: the last segment of a ZooKeeper path, used
    to name a node when its value is logged. */
module BaseExample {

  /** The index of the last occurrence of a character, or -1 when it does not occur
      (strings.LastIndex; a '/' byte never occurs inside a multi-byte UTF-8 sequence,
      so counting characters and counting bytes find the same separator). */
  function LastIndex(s: string, c: char): (i: int)
    ensures -1 <= i < |s|
    ensures i >= 0 ==> s[i] == c
    ensures forall j :: i < j < |s| ==> s[j] != c
  {
    if |s| == 0 then -1
    else if s[|s| - 1] == c then |s| - 1
    else LastIndex(s[..|s| - 1], c)
  }

  /** The part of a path after its last '/': the path itself when it has no '/', and
      "" when it ends with one. The result is always a suffix of the path and never
      contains a '/'. */
  function GetNodeFromPath(path: string): (r: string)
    ensures '/' !in r
    ensures |r| <= |path| && r == path[|path| - |r|..]
  {
    var index := LastIndex(path, '/');
    if index < 0 then path
    else if index + 1 >= |path| then ""
    else path[index + 1..]
  }

  /** A path without '/' is its own last segment. */
  lemma NoSlashUnchanged(path: string)
    requires '/' !in path
    ensures GetNodeFromPath(path) == path
  {
  }

  /** A path ending with '/' has an empty last segment. */
  lemma TrailingSlashEmpty(path: string)
    requires |path| > 0 && path[|path| - 1] == '/'
    ensures GetNodeFromPath(path) == ""
  {
  }

  /** Whatever '/' is the last one, the result is what follows it. */
  lemma AfterLastSlash(path: string, i: nat)
    requires i < |path| && path[i] == '/'
    requires '/' !in path[i + 1..]
    ensures GetNodeFromPath(path) == path[i + 1..]
  {
    assert LastIndex(path, '/') == i;
  }

  /** Taking the last segment twice is taking it once. */
  lemma GetNodeFromPathIdempotent(path: string)
    ensures GetNodeFromPath(GetNodeFromPath(path)) == GetNodeFromPath(path)
  {
    NoSlashUnchanged(GetNodeFromPath(path));
  }

  /** The last segment of a child path built from a directory and a child name (a
      non-empty name without '/') is the child name: the path the example builds for
      each child is logged under that child's name. */
  lemma ChildPathNamesChild(dir: string, child: string)
    requires child != "" && '/' !in child
    ensures GetNodeFromPath(dir + "/" + child) == child
  {
    var p := dir + "/" + child;
    assert p[|dir|] == '/';
    assert p[|dir| + 1..] == child;
    AfterLastSlash(p, |dir|);
  }
}
