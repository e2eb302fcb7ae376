/**
 * The parts of Go's `path/filepath` that the sync engine relies on, for
 * slash-separated paths: `Split`, `Clean`, `Base` and the path of a
 * directory entry. `Clean` keeps only the rule about trailing separators;
 * the paths of the model are free of `.`, `..` and doubled separators.
 */
module Paths {
  import Strings

  /** Index of the last '/' in `s`, or -1 when there is none. */
  function LastSlash(s: string): (i: int)
    ensures -1 <= i < |s|
    ensures i >= 0 ==> s[i] == '/'
    ensures forall j :: i < j < |s| ==> s[j] != '/'
    decreases |s|
  {
    if |s| == 0 then -1
    else if s[|s| - 1] == '/' then |s| - 1
    else LastSlash(s[..|s| - 1])
  }

  /** filepath.Split: everything up to and including the last '/', and the rest. */
  function Split(s: string): (r: (string, string))
    ensures r.0 + r.1 == s
    ensures '/' !in r.1
    ensures r.0 == [] || r.0[|r.0| - 1] == '/'
  {
    var i := LastSlash(s);
    (s[..i + 1], s[i + 1..])
  }

  /** `s` without its trailing '/' characters. */
  function TrimTrailingSlashes(s: string): (r: string)
    ensures Strings.HasPrefix(s, r)
    ensures r == [] || r[|r| - 1] != '/'
    ensures forall j :: |r| <= j < |s| ==> s[j] == '/'
    decreases |s|
  {
    if |s| > 0 && s[|s| - 1] == '/' then TrimTrailingSlashes(s[..|s| - 1]) else s
  }

  /** filepath.Clean, restricted to dropping trailing separators ("" is "."). */
  function Clean(s: string): string {
    if s == "" then "."
    else var t := TrimTrailingSlashes(s); if t == "" then "/" else t
  }

  /** A path that `Clean` leaves alone. */
  predicate Normal(s: string) {
    s != "" && (s == "/" || s[|s| - 1] != '/')
  }

  /** Clean's result is a path Clean leaves alone. */
  lemma CleanIsNormal(s: string)
    ensures Normal(Clean(s))
  {
  }

  lemma CleanNormal(s: string)
    requires Normal(s)
    ensures Clean(s) == s
  {
  }

  /** filepath.Base: the last element, after trailing separators are removed. */
  function Base(s: string): string {
    if s == "" then "."
    else var t := TrimTrailingSlashes(s); if t == "" then "/" else Split(t).1
  }

  /** The path filepath.Walk gives the entry `name` of the directory `dir`. */
  function ChildPath(dir: string, name: string): string {
    if dir != "" && dir[|dir| - 1] == '/' then dir + name else dir + "/" + name
  }

  /** The key under which the walk callback looks up an entry's parent folder. */
  function ParentKey(path: string): string {
    Clean(Split(path).0)
  }

  /** A usable directory-entry name: non-empty and without a separator. */
  predicate SimpleName(name: string) {
    name != "" && '/' !in name
  }

  /** Splitting a path whose tail after a '/' has no separator gives that tail. */
  lemma {:induction false} SplitAfterSlash(prefix: string, name: string)
    requires prefix != [] && prefix[|prefix| - 1] == '/'
    requires '/' !in name
    ensures Split(prefix + name) == (prefix, name)
  {
    var s := prefix + name;
    var i := LastSlash(s);
    assert s[|prefix| - 1] == '/';
    assert i >= |prefix| - 1;
    assert s[..|prefix|] == prefix;
    assert s[|prefix|..] == name;
  }

  /** A name without separators after a directory part (empty or ending in '/') splits back off, and is the base. */
  lemma {:induction false} BaseAfterDirectory(prefix: string, name: string)
    requires prefix == [] || prefix[|prefix| - 1] == '/'
    requires SimpleName(name)
    ensures Split(prefix + name) == (prefix, name)
    ensures Base(prefix + name) == name
  {
    var s := prefix + name;
    if prefix == [] {
      assert s == name;
      assert LastSlash(s) == -1;
      assert s[..0] == [] && s[0..] == s;
    } else {
      SplitAfterSlash(prefix, name);
    }
    assert s[|s| - 1] == name[|name| - 1] != '/';
    assert TrimTrailingSlashes(s) == s;
    assert Base(s) == Split(s).1;
  }

  /** The parent key of an entry of `dir` is `dir` itself. */
  lemma {:induction false} ParentKeyOfChild(dir: string, name: string)
    requires Normal(dir)
    requires SimpleName(name)
    ensures ParentKey(ChildPath(dir, name)) == dir
    ensures Base(ChildPath(dir, name)) == name
  {
    var p := ChildPath(dir, name);
    if dir == "/" {
      SplitAfterSlash(dir, name);
      assert TrimTrailingSlashes("/") == "";
    } else {
      SplitAfterSlash(dir + "/", name);
      assert p == (dir + "/") + name;
      assert TrimTrailingSlashes(dir + "/") == TrimTrailingSlashes(dir) by {
        assert (dir + "/")[..|dir|] == dir;
      }
    }
    assert p[|p| - 1] == name[|name| - 1];
    assert TrimTrailingSlashes(p) == p;
  }
}
