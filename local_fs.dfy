/**
 * The local side: a finite directory tree standing for what filepath.Walk
 * sees, the pre-order listing Walk visits (children in the order given,
 * which stands for Walk's lexical order), and the disk on which mark files
 * are looked up with os.Stat and written with os.Create.
 */
module LocalFs {
  import opened Wrappers
  import Paths

  /** How hashing a file for the recheck can fail. */
  datatype HashFault = HashOk | ReopenFails(reason: string) | ReadFails(reason: string)

  /** A regular file: its bytes and the faults opening or hashing it runs into. */
  datatype LocalFile = LocalFile(content: seq<bv8>, openError: Option<string>, hashFault: HashFault)

  datatype Node =
    | File(name: string, file: LocalFile)
    | Dir(name: string, children: seq<Node>)
    | Unlistable(name: string, reason: string)  // a directory whose entries cannot be read
    | Broken(name: string, reason: string)      // an entry that cannot be stat'ed

  /** What the walk callback receives: a directory, a file, or an error. */
  datatype Kind = DirKind | FileKind(file: LocalFile) | Failed(reason: string)

  datatype Entry = Entry(path: string, name: string, kind: Kind)

  /**
   * The callbacks filepath.Walk makes, in order: the entry itself, then, for
   * a directory, its children's listings; a directory whose listing fails is
   * reported once, with the error, and nothing below it is visited.
   */
  function Preorder(path: string, node: Node): (es: seq<Entry>)
    ensures |es| >= 1 && es[0].path == path && es[0].name == node.name
    ensures es[0].kind.DirKind? <==> node.Dir?
    ensures es[0].kind.Failed? <==> node.Unlistable? || node.Broken?
    ensures !node.Dir? ==> |es| == 1
    decreases node, 1
  {
    match node
    case File(n, f) => [Entry(path, n, FileKind(f))]
    case Broken(n, why) => [Entry(path, n, Failed(why))]
    case Unlistable(n, why) => [Entry(path, n, Failed(why))]
    case Dir(n, kids) => [Entry(path, n, DirKind)] + Children(path, kids)
  }

  function Children(dir: string, kids: seq<Node>): seq<Entry>
    decreases kids, 0
  {
    if kids == [] then []
    else Preorder(Paths.ChildPath(dir, kids[0].name), kids[0]) + Children(dir, kids[1..])
  }

  /** The tree as Walk sees it from `path`: its root entry is named after the path's last element. */
  function Rooted(path: string, node: Node): (n: Node)
    ensures n.name == Paths.Base(path)
    ensures n.Dir? == node.Dir? && n.File? == node.File? && n.Unlistable? == node.Unlistable?
    ensures n.Dir? ==> n.children == node.children
    ensures n.File? ==> n.file == node.file
  {
    node.(name := Paths.Base(path))
  }

  /** Every name in the tree is a usable entry name. */
  predicate WellNamed(node: Node)
    decreases node
  {
    Paths.SimpleName(node.name) &&
    (node.Dir? ==> forall k :: 0 <= k < |node.children| ==> WellNamed(node.children[k]))
  }

  /** Entry i is a directory entry that is the parent of entry j, with no entry of its path in between. */
  predicate ParentAt(es: seq<Entry>, i: int, j: int) {
    0 <= i < j < |es| && es[i].kind.DirKind? && es[i].path == Paths.ParentKey(es[j].path) &&
    forall m :: i < m < j ==> es[m].path != es[i].path
  }

  /** Entry j has its parent directory's entry before it. */
  ghost predicate HasParentBefore(es: seq<Entry>, j: int) {
    exists i :: 0 <= i < j && ParentAt(es, i, j)
  }

  /** Entry j is an entry of `dir` itself, and no entry before it has the path `dir`. */
  predicate TopLevelAt(es: seq<Entry>, j: int, dir: string)
    requires 0 <= j < |es|
  {
    Paths.ParentKey(es[j].path) == dir && forall m :: 0 <= m < j ==> es[m].path != dir
  }

  lemma ChildPathFacts(dir: string, name: string)
    requires Paths.Normal(dir) && Paths.SimpleName(name)
    ensures Paths.Normal(Paths.ChildPath(dir, name))
    ensures |Paths.ChildPath(dir, name)| > |dir|
    ensures Paths.ParentKey(Paths.ChildPath(dir, name)) == dir
  {
    Paths.ParentKeyOfChild(dir, name);
  }

  lemma ParentInPrefix(a: seq<Entry>, b: seq<Entry>, i: int, j: int)
    requires ParentAt(a, i, j)
    ensures ParentAt(a + b, i, j)
  {
    assert forall m :: 0 <= m < |a| ==> (a + b)[m] == a[m];
  }

  lemma ParentInSuffix(a: seq<Entry>, b: seq<Entry>, i: int, j: int)
    requires ParentAt(b, i, j)
    ensures ParentAt(a + b, i + |a|, j + |a|)
  {
    assert forall m :: 0 <= m < |b| ==> (a + b)[m + |a|] == b[m];
  }

  /** No path in a listing is shorter than the path it starts from. */
  lemma {:induction false} PreorderPathLonger(path: string, node: Node, k: int)
    requires Paths.Normal(path) && WellNamed(node)
    requires 0 <= k < |Preorder(path, node)|
    ensures |Preorder(path, node)[k].path| >= |path|
    decreases node, 1
  {
    if node.Dir? && k > 0 {
      assert Preorder(path, node)[k] == Children(path, node.children)[k - 1];
      ChildrenPathLonger(path, node.children, k - 1);
    }
  }

  lemma {:induction false} ChildrenPathLonger(dir: string, kids: seq<Node>, k: int)
    requires Paths.Normal(dir)
    requires forall n :: 0 <= n < |kids| ==> WellNamed(kids[n])
    requires 0 <= k < |Children(dir, kids)|
    ensures |Children(dir, kids)[k].path| > |dir|
    decreases kids, 0
  {
    var q := Paths.ChildPath(dir, kids[0].name);
    var a := Preorder(q, kids[0]);
    ChildPathFacts(dir, kids[0].name);
    if k < |a| {
      PreorderPathLonger(q, kids[0], k);
    } else {
      ChildrenPathLonger(dir, kids[1..], k - |a|);
    }
  }

  /**
   * In the listing of a well-named tree, every entry after the first that is
   * not an error report comes after the directory entry that is its parent.
   */
  lemma {:induction false} PreorderParents(path: string, node: Node, j: int)
    requires Paths.Normal(path) && WellNamed(node)
    requires 0 < j < |Preorder(path, node)| && !Preorder(path, node)[j].kind.Failed?
    ensures HasParentBefore(Preorder(path, node), j)
    decreases node, 1
  {
    if node.Dir? {
      var head := Entry(path, node.name, DirKind);
      var cs := Children(path, node.children);
      assert Preorder(path, node) == [head] + cs;
      assert Preorder(path, node)[j] == cs[j - 1];
      ChildrenParents(path, node.children, j - 1);
      ParentsUnderDirEntry(head, cs, j);
    }
  }

  /** The PreorderParents case of an entry below the directory entry `head` that starts the listing. */
  lemma ParentsUnderDirEntry(head: Entry, cs: seq<Entry>, j: int)
    requires head.kind.DirKind? && 0 < j <= |cs|
    requires HasParentBefore(cs, j - 1) || TopLevelAt(cs, j - 1, head.path)
    ensures HasParentBefore([head] + cs, j)
  {
    if HasParentBefore(cs, j - 1) {
      ParentBeforeInSuffix([head], cs, j - 1);
    } else {
      DirEntryIsParent(head, cs, j);
    }
  }

  /** An entry of the directory itself has the directory's entry as its parent. */
  lemma DirEntryIsParent(head: Entry, cs: seq<Entry>, j: int)
    requires head.kind.DirKind? && 0 < j <= |cs| && TopLevelAt(cs, j - 1, head.path)
    ensures ParentAt([head] + cs, 0, j)
  {
    var es := [head] + cs;
    forall m | 0 < m < j ensures es[m].path != es[0].path {
      assert es[m] == cs[m - 1];
    }
    assert es[j] == cs[j - 1];
  }

  /**
   * Each non-error entry of the children's listings either has its parent
   * before it, or is the entry of one of the children itself.
   */
  lemma {:induction false} ChildrenParents(dir: string, kids: seq<Node>, j: int)
    requires Paths.Normal(dir)
    requires forall n :: 0 <= n < |kids| ==> WellNamed(kids[n])
    requires 0 <= j < |Children(dir, kids)| && !Children(dir, kids)[j].kind.Failed?
    ensures HasParentBefore(Children(dir, kids), j) || TopLevelAt(Children(dir, kids), j, dir)
    decreases kids, 2
  {
    var q := Paths.ChildPath(dir, kids[0].name);
    var a := Preorder(q, kids[0]);
    var b := Children(dir, kids[1..]);
    assert Children(dir, kids) == a + b;
    ChildPathFacts(dir, kids[0].name);
    if j < |a| {
      ParentsInFirstChild(dir, q, kids[0], a, b, j);
    } else {
      assert forall n :: 0 <= n < |kids[1..]| ==> kids[1..][n] == kids[n + 1];
      ParentsInLaterChildren(dir, kids[0], kids[1..], q, a, b, j);
    }
  }

  /** The ChildrenParents case of an entry inside the first child's listing. */
  lemma {:induction false} ParentsInFirstChild(dir: string, q: string, kid: Node, a: seq<Entry>, b: seq<Entry>, j: int)
    requires Paths.Normal(q) && WellNamed(kid) && Paths.ParentKey(q) == dir
    requires a == Preorder(q, kid) && 0 <= j < |a| && !a[j].kind.Failed?
    ensures HasParentBefore(a + b, j) || TopLevelAt(a + b, j, dir)
    decreases kid, 2
  {
    assert (a + b)[j] == a[j];
    if j > 0 {
      PreorderParents(q, kid, j);
      var i :| ParentAt(a, i, j);
      ParentInPrefix(a, b, i, j);
    }
  }

  /** The ChildrenParents case of an entry in the listings of the children after the first, `rest`. */
  lemma {:induction false} ParentsInLaterChildren(dir: string, kid: Node, rest: seq<Node>, q: string,
                                                  a: seq<Entry>, b: seq<Entry>, j: int)
    requires Paths.Normal(dir) && forall n :: 0 <= n < |rest| ==> WellNamed(rest[n])
    requires |q| > |dir| && Paths.Normal(q) && WellNamed(kid) && a == Preorder(q, kid)
    requires b == Children(dir, rest) && |a| <= j < |a| + |b| && !b[j - |a|].kind.Failed?
    ensures HasParentBefore(a + b, j) || TopLevelAt(a + b, j, dir)
    decreases rest, 3
  {
    ChildrenParents(dir, rest, j - |a|);
    AllPathsLonger(q, kid);
    ParentsAfterFirstChild(dir, a, b, j);
  }

  /** What holds of entry j - |a| of the later listings b holds of entry j of a + b. */
  lemma ParentsAfterFirstChild(dir: string, a: seq<Entry>, b: seq<Entry>, j: int)
    requires forall m :: 0 <= m < |a| ==> |a[m].path| > |dir|
    requires |a| <= j < |a| + |b|
    requires HasParentBefore(b, j - |a|) || TopLevelAt(b, j - |a|, dir)
    ensures HasParentBefore(a + b, j) || TopLevelAt(a + b, j, dir)
  {
    if HasParentBefore(b, j - |a|) {
      ParentBeforeInSuffix(a, b, j - |a|);
    } else {
      TopLevelAfterFirstChild(a, b, dir, j - |a|);
    }
  }

  lemma ParentBeforeInSuffix(a: seq<Entry>, b: seq<Entry>, jb: int)
    requires 0 <= jb < |b| && HasParentBefore(b, jb)
    ensures HasParentBefore(a + b, jb + |a|)
  {
    var i :| 0 <= i < jb && ParentAt(b, i, jb);
    ParentInSuffix(a, b, i, jb);
  }

  /** An entry of `dir` itself in the later children's listings stays one after the first child's listing. */
  lemma TopLevelAfterFirstChild(a: seq<Entry>, b: seq<Entry>, dir: string, jb: int)
    requires forall m :: 0 <= m < |a| ==> |a[m].path| > |dir|
    requires 0 <= jb < |b| && TopLevelAt(b, jb, dir)
    ensures TopLevelAt(a + b, jb + |a|, dir)
  {
    forall m | 0 <= m < jb + |a| ensures (a + b)[m].path != dir {
      if m < |a| {
        assert (a + b)[m] == a[m];
      } else {
        assert (a + b)[m] == b[m - |a|];
      }
    }
    assert (a + b)[jb + |a|] == b[jb];
  }

  /** Every path in the listing of a well-named tree at `q` is at least as long as `q`. */
  lemma AllPathsLonger(q: string, kid: Node)
    requires Paths.Normal(q) && WellNamed(kid)
    ensures forall m :: 0 <= m < |Preorder(q, kid)| ==> |Preorder(q, kid)[m].path| >= |q|
  {
    forall m | 0 <= m < |Preorder(q, kid)| ensures |Preorder(q, kid)[m].path| >= |q| {
      PreorderPathLonger(q, kid, m);
    }
  }

  datatype StatResult = Exists | Missing | StatFailed(reason: string)

  /**
   * The marks on disk. `statErrors` and `createErrors` say for which paths
   * os.Stat fails (other than "does not exist") and os.Create fails.
   */
  class Disk {
    var marks: set<string>
    const statErrors: map<string, string>
    const createErrors: map<string, string>

    constructor (present: set<string>, failingStats: map<string, string>, failingCreates: map<string, string>)
      ensures marks == present && statErrors == failingStats && createErrors == failingCreates
    {
      marks := present;
      statErrors := failingStats;
      createErrors := failingCreates;
    }

    /** What os.Stat of `path` reports. */
    function StatOf(path: string): StatResult
      reads this
    {
      if path in marks then Exists
      else if path in statErrors then StatFailed(statErrors[path])
      else Missing
    }

    method Stat(path: string) returns (r: StatResult)
      ensures r == StatOf(path)
    {
      r := StatOf(path);
    }

    /** os.Create of a mark: the mark exists afterwards unless the call fails. */
    method Create(path: string) returns (err: Option<string>)
      modifies this
      ensures path in createErrors ==> err == Some(createErrors[path]) && marks == old(marks)
      ensures path !in createErrors ==> err == None && marks == old(marks) + {path}
    {
      if path in createErrors {
        err := Some(createErrors[path]);
      } else {
        err := None;
        marks := marks + {path};
      }
    }
  }
}
