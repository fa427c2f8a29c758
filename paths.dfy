/** The part of Node's `path` module (POSIX flavour) that the processing pipeline
    uses to derive file names: `dirname`, `join`, `extname` and `basename`. Paths
    are strings with '/' as separator. */
module Paths {
  import opened Common

  function LastIndexOf(s: string, c: char): (r: Option<nat>)
    ensures r.Some? ==> r.value < |s| && s[r.value] == c
    ensures r.Some? ==> forall k :: r.value < k < |s| ==> s[k] != c
    ensures r.None? ==> forall k :: 0 <= k < |s| ==> s[k] != c
  {
    if s == [] then None
    else if s[|s| - 1] == c then Some(|s| - 1)
    else LastIndexOf(s[..|s| - 1], c)
  }

  /** `path.basename(p)`: the last component of a path. */
  function LastComponent(p: string): (name: string)
    ensures '/' !in name
  {
    match LastIndexOf(p, '/')
    case None => p
    case Some(i) => p[i + 1..]
  }

  /** `path.extname(p)`: from the last '.' of the last component to its end,
      or "" when that component has no '.' or has its only '.' in front. */
  function Extname(p: string): (ext: string)
    ensures ext == "" || (ext[0] == '.' && '.' !in ext[1..])
    ensures |ext| <= |LastComponent(p)|
    ensures ext == LastComponent(p)[|LastComponent(p)| - |ext|..]
  {
    var name := LastComponent(p);
    match LastIndexOf(name, '.')
    case None => ""
    case Some(i) =>
      if i == 0 then ""
      else
        name[i..]
  }

  /** `path.basename(p, path.extname(p))`: the last component without its extension. */
  function Stem(p: string): string
  {
    var name := LastComponent(p);
    name[..|name| - |Extname(p)|]
  }

  lemma StemThenExtension(p: string)
    ensures Stem(p) + Extname(p) == LastComponent(p)
  {
  }

  /** `path.dirname(p)`: everything before the last '/', "." when there is none
      and "/" when the only '/' is the leading one. */
  function Dirname(p: string): (dir: string)
    ensures dir != ""
  {
    match LastIndexOf(p, '/')
    case None => "."
    case Some(i) => if i == 0 then "/" else p[..i]
  }

  /** `s` ends with `suffix`. */
  predicate EndsWith(s: string, suffix: string)
  {
    |suffix| <= |s| && s[|s| - |suffix|..] == suffix
  }

  /** `path.join(dir, name)` for a single name without separators or dot segments. */
  function Join(dir: string, name: string): string
  {
    if dir == "" || dir == "." then name
    else if dir[|dir| - 1] == '/' then dir + name
    else dir + "/" + name
  }

  /** A joined path ends with the name and, unless the directory is ".", starts
      with the directory. */
  lemma JoinPlacesName(dir: string, name: string)
    ensures EndsWith(Join(dir, name), name)
    ensures dir != "" && dir != "." ==> dir <= Join(dir, name)
  {
    var p := Join(dir, name);
    assert p[|p| - |name|..] == name;
  }

  /** Joining is injective in the name: two names give the same path only if
      they are the same name. */
  lemma JoinInjective(dir: string, a: string, b: string)
    requires Join(dir, a) == Join(dir, b)
    ensures a == b
  {
    var prefix := Join(dir, "");
    assert Join(dir, a) == prefix + a && Join(dir, b) == prefix + b;
    assert a == (prefix + a)[|prefix|..];
    assert b == (prefix + b)[|prefix|..];
  }

  /** A suffix appended to a joined path is a suffix of the name. */
  lemma JoinAppend(dir: string, name: string, suffix: string)
    ensures Join(dir, name) + suffix == Join(dir, name + suffix)
  {
  }

  lemma DirnameOfJoin(dir: string, name: string)
    requires dir != "" && dir != "." && dir[|dir| - 1] != '/'
    requires '/' !in name
    ensures Dirname(Join(dir, name)) == dir
  {
    var p := Join(dir, name);
    assert p == dir + "/" + name;
    assert p[|dir|] == '/';
    assert forall k :: |dir| < k < |p| ==> p[k] == name[k - |dir| - 1];
    var i := LastIndexOf(p, '/');
    assert i == Some(|dir|);
    assert p[..|dir|] == dir;
  }
}
