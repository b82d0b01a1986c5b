/** The search for the project's `tools` folder: a top-down walk from the git root
    that never enters `.venv` or `agencies` directories and stops at the first
    directory with a `tools` child. The file system is a directory tree given as
    input, with each directory's children in the order the walk lists them. */
module ProjectUtils {
  import opened Wrappers

  /** A directory: its name and its sub-directories (files play no part). */
  datatype Dir = Dir(name: string, subdirs: seq<Dir>)

  const GitRootNotFound := "Git root directory not found"
  const NoToolsFolder := "No 'tools' folder found in the project directory"

  /** A directory the walk may enter: its name is not in `['.venv', 'agencies']`. */
  predicate Kept(d: Dir) {
    d.name != ".venv" && d.name != "agencies"
  }

  /** `[d for d in dirs if d not in ['.venv', 'agencies']]`, in order. */
  function Pruned(ds: seq<Dir>): (r: seq<Dir>)
    ensures |r| <= |ds|
    ensures forall c :: c in r <==> c in ds && Kept(c)
    decreases |ds|
  {
    if ds == [] then []
    else (if Kept(ds[0]) then [ds[0]] else []) + Pruned(ds[1..])
  }

  function Names(ds: seq<Dir>): (r: seq<string>)
    ensures |r| == |ds| && forall i :: 0 <= i < |ds| ==> r[i] == ds[i].name
  {
    seq(|ds|, i requires 0 <= i < |ds| => ds[i].name)
  }

  /** `'tools' in dirs` once `dirs` has been pruned. */
  predicate HasTools(d: Dir) {
    "tools" in Names(Pruned(d.subdirs))
  }

  /** Pruning never removes a `tools` child: the test is "some child is named tools". */
  lemma HasToolsIff(d: Dir)
    ensures HasTools(d) <==> exists i :: 0 <= i < |d.subdirs| && d.subdirs[i].name == "tools"
  {
    var ps := Pruned(d.subdirs);
    if HasTools(d) {
      var k :| 0 <= k < |ps| && Names(ps)[k] == "tools";
      assert ps[k] in d.subdirs;
    }
    if exists i :: 0 <= i < |d.subdirs| && d.subdirs[i].name == "tools" {
      var i :| 0 <= i < |d.subdirs| && d.subdirs[i].name == "tools";
      assert d.subdirs[i] in ps;
      var k :| 0 <= k < |ps| && ps[k] == d.subdirs[i];
      assert Names(ps)[k] == "tools";
    }
  }

  /** `os.path.join(a, b)` on POSIX paths. */
  function PathJoin(a: string, b: string): (r: string)
    ensures b != [] && b[0] == '/' ==> r == b
  {
    if b != [] && b[0] == '/' then b
    else if a == [] || a[|a| - 1] == '/' then a + b
    else a + "/" + b
  }

  // ----------------------------------------------------------- the walk's answer

  /** The answer of the walk below `d`, reached as `path`: `d`'s own `tools` child
      when it has one, otherwise the answer of the first kept sub-directory that has
      one, in the order they are listed. */
  function Search(path: string, d: Dir): Option<string>
    decreases d, 1
  {
    if HasTools(d) then Some(PathJoin(path, "tools"))
    else SearchAll(path, d, Pruned(d.subdirs))
  }

  function SearchAll(path: string, d: Dir, cs: seq<Dir>): Option<string>
    requires forall c :: c in cs ==> c in d.subdirs
    decreases d, 0, |cs|
  {
    if cs == [] then None
    else
      assert cs[0] in d.subdirs;
      match Search(PathJoin(path, cs[0].name), cs[0])
      case Some(r) => Some(r)
      case None => SearchAll(path, d, cs[1..])
  }

  /** `get_tools_folder_path()` given what `get_git_root()` returned and the tree
      under that root. */
  function ToolsFolderPath(root: Option<string>, tree: Dir): Result<string, string> {
    if root.None? || root.value == "" then Failure(GitRootNotFound)
    else match Search(root.value, tree)
      case Some(p) => Success(p)
      case None => Failure(NoToolsFolder)
  }

  // ------------------------------------------------ what the answer is, declaratively

  /** Some directory reachable from `d` without entering a pruned directory has a
      `tools` child. */
  predicate Reachable(d: Dir)
    decreases d
  {
    HasTools(d) || exists i :: 0 <= i < |d.subdirs| && Kept(d.subdirs[i]) && Reachable(d.subdirs[i])
  }

  /** The walk finds a folder exactly when one is reachable through kept directories;
      in particular a `tools` folder below `.venv` or `agencies` only is never found. */
  lemma {:induction false} SearchFindsIff(path: string, d: Dir)
    ensures Search(path, d).Some? <==> Reachable(d)
    decreases d, 1
  {
    if !HasTools(d) {
      SearchAllFindsIff(path, d, Pruned(d.subdirs));
      ReachableThroughPruned(d);
      assert Search(path, d) == SearchAll(path, d, Pruned(d.subdirs));
      assert Reachable(d) <==>
             exists i :: 0 <= i < |d.subdirs| && Kept(d.subdirs[i]) && Reachable(d.subdirs[i]);
    }
  }

  /** Some member of the pruned list has a property exactly when some kept member
      of the full list has it. */
  lemma PrunedExists(ds: seq<Dir>, p: Dir -> bool)
    ensures (exists j :: 0 <= j < |Pruned(ds)| && p(Pruned(ds)[j])) <==>
            (exists i :: 0 <= i < |ds| && Kept(ds[i]) && p(ds[i]))
  {
    var ps := Pruned(ds);
    forall j | 0 <= j < |ps| && p(ps[j])
      ensures exists i :: 0 <= i < |ds| && Kept(ds[i]) && p(ds[i])
    {
      assert ps[j] in ps;
      var i :| 0 <= i < |ds| && ds[i] == ps[j];
      assert Kept(ds[i]) && p(ds[i]);
    }
    forall i | 0 <= i < |ds| && Kept(ds[i]) && p(ds[i])
      ensures exists j :: 0 <= j < |ps| && p(ps[j])
    {
      assert ds[i] in ds;
      var j :| 0 <= j < |ps| && ps[j] == ds[i];
      assert p(ps[j]);
    }
  }

  lemma ReachableThroughPruned(d: Dir)
    ensures var ps := Pruned(d.subdirs);
            (exists j :: 0 <= j < |ps| && Reachable(ps[j])) <==>
            (exists i :: 0 <= i < |d.subdirs| && Kept(d.subdirs[i]) && Reachable(d.subdirs[i]))
  {
    PrunedExists(d.subdirs, c => Reachable(c));
  }

  lemma {:induction false} SearchAllFindsIff(path: string, d: Dir, cs: seq<Dir>)
    requires forall c :: c in cs ==> c in d.subdirs
    ensures SearchAll(path, d, cs).Some? <==> exists j :: 0 <= j < |cs| && Reachable(cs[j])
    decreases d, 0, |cs|
  {
    if cs != [] {
      assert cs[0] in d.subdirs;
      SearchFindsIff(PathJoin(path, cs[0].name), cs[0]);
      SearchAllFindsIff(path, d, cs[1..]);
      if exists j :: 0 <= j < |cs| && Reachable(cs[j]) {
        var j :| 0 <= j < |cs| && Reachable(cs[j]);
        if j > 0 {
          assert cs[1..][j - 1] == cs[j];
        }
      }
      if exists j :: 0 <= j < |cs[1..]| && Reachable(cs[1..][j]) {
        var j :| 0 <= j < |cs[1..]| && Reachable(cs[1..][j]);
        assert Reachable(cs[j + 1]);
      }
    }
  }

  // ----------------------------------------------------- top-down visit order

  /** The `(root, dirs)` pairs `os.walk` yields, top-down, when each visit prunes
      its `dirs` before the walk descends. */
  function Walk(path: string, d: Dir): seq<(string, Dir)>
    decreases d, 1
  {
    [(path, d)] + WalkAll(path, d, Pruned(d.subdirs))
  }

  function WalkAll(path: string, d: Dir, cs: seq<Dir>): seq<(string, Dir)>
    requires forall c :: c in cs ==> c in d.subdirs
    decreases d, 0, |cs|
  {
    if cs == [] then []
    else
      assert cs[0] in d.subdirs;
      Walk(PathJoin(path, cs[0].name), cs[0]) + WalkAll(path, d, cs[1..])
  }

  /** The walk never enters `.venv` or `agencies`: every directory visited after the
      root is kept. */
  lemma {:induction false} WalkVisitsKept(path: string, d: Dir)
    ensures var w := Walk(path, d);
            |w| >= 1 && w[0] == (path, d) && forall k :: 1 <= k < |w| ==> Kept(w[k].1)
    decreases d, 1
  {
    var ps := Pruned(d.subdirs);
    WalkAllVisitsKept(path, d, ps);
    assert Walk(path, d)[1..] == WalkAll(path, d, ps);
  }

  lemma {:induction false} WalkAllVisitsKept(path: string, d: Dir, cs: seq<Dir>)
    requires forall c :: c in cs ==> c in d.subdirs && Kept(c)
    ensures forall k :: 0 <= k < |WalkAll(path, d, cs)| ==> Kept(WalkAll(path, d, cs)[k].1)
    decreases d, 0, |cs|
  {
    if cs != [] {
      assert cs[0] in d.subdirs;
      var first := Walk(PathJoin(path, cs[0].name), cs[0]);
      WalkVisitsKept(PathJoin(path, cs[0].name), cs[0]);
      WalkAllVisitsKept(path, d, cs[1..]);
      var w := WalkAll(path, d, cs);
      assert w == first + WalkAll(path, d, cs[1..]);
      assert first[0].1 == cs[0] && Kept(cs[0]);
    }
  }

  /** The loop over the walk: the first visited directory with a `tools` child. */
  function FirstTools(visits: seq<(string, Dir)>): Option<string>
    decreases |visits|
  {
    if visits == [] then None
    else if HasTools(visits[0].1) then Some(PathJoin(visits[0].0, "tools"))
    else FirstTools(visits[1..])
  }

  lemma {:induction false} FirstToolsAppend(a: seq<(string, Dir)>, b: seq<(string, Dir)>)
    ensures FirstTools(a + b) == if FirstTools(a).Some? then FirstTools(a) else FirstTools(b)
    decreases |a|
  {
    if a == [] {
      assert a + b == b;
    } else {
      assert (a + b)[0] == a[0] && (a + b)[1..] == a[1..] + b;
      FirstToolsAppend(a[1..], b);
    }
  }

  /** The answer is the `tools` child of the first directory, in top-down visit
      order, that has one. */
  lemma {:induction false} SearchIsFirstVisit(path: string, d: Dir)
    ensures Search(path, d) == FirstTools(Walk(path, d))
    decreases d, 1
  {
    var rest := WalkAll(path, d, Pruned(d.subdirs));
    assert Walk(path, d)[0] == (path, d) && Walk(path, d)[1..] == rest;
    if !HasTools(d) {
      SearchAllIsFirstVisit(path, d, Pruned(d.subdirs));
    }
  }

  lemma {:induction false} SearchAllIsFirstVisit(path: string, d: Dir, cs: seq<Dir>)
    requires forall c :: c in cs ==> c in d.subdirs
    ensures SearchAll(path, d, cs) == FirstTools(WalkAll(path, d, cs))
    decreases d, 0, |cs|
  {
    if cs != [] {
      var sub := PathJoin(path, cs[0].name);
      assert cs[0] in d.subdirs;
      SearchIsFirstVisit(sub, cs[0]);
      SearchAllIsFirstVisit(path, d, cs[1..]);
      FirstToolsAppend(Walk(sub, cs[0]), WalkAll(path, d, cs[1..]));
    }
  }

  // ----------------------------------------------------------- the loop itself

  function Size(d: Dir): nat
    decreases d, 1
  {
    1 + SizeAll(d, d.subdirs)
  }

  function SizeAll(d: Dir, cs: seq<Dir>): nat
    requires forall c :: c in cs ==> c in d.subdirs
    decreases d, 0, |cs|
  {
    if cs == [] then 0
    else
      assert cs[0] in d.subdirs;
      Size(cs[0]) + SizeAll(d, cs[1..])
  }

  /** The directories still to visit, each with the path the walk reaches it by. */
  type Pending = seq<(string, Dir)>

  function PendingSize(stack: Pending): nat
    decreases |stack|
  {
    if stack == [] then 0 else Size(stack[0].1) + PendingSize(stack[1..])
  }

  /** The answer of the walk over the pending directories, in order. */
  function SearchPending(stack: Pending): Option<string>
    decreases |stack|
  {
    if stack == [] then None
    else match Search(stack[0].0, stack[0].1)
      case Some(r) => Some(r)
      case None => SearchPending(stack[1..])
  }

  /** The sub-directories to visit next, with their paths. */
  function Children(path: string, cs: seq<Dir>): (r: Pending)
    ensures |r| == |cs| && forall i :: 0 <= i < |cs| ==> r[i] == (PathJoin(path, cs[i].name), cs[i])
  {
    seq(|cs|, i requires 0 <= i < |cs| => (PathJoin(path, cs[i].name), cs[i]))
  }

  /** Replacing a visited directory by its kept children leaves the answer as it is. */
  lemma {:induction false} ExpandPending(path: string, d: Dir, cs: seq<Dir>, rest: Pending)
    requires forall c :: c in cs ==> c in d.subdirs
    ensures SearchPending(Children(path, cs) + rest) ==
            match SearchAll(path, d, cs)
            case Some(r) => Some(r)
            case None => SearchPending(rest)
    ensures PendingSize(Children(path, cs) + rest) == SizeAll(d, cs) + PendingSize(rest)
    decreases |cs|
  {
    var all := Children(path, cs) + rest;
    if cs == [] {
      assert all == rest;
    } else {
      ExpandPending(path, d, cs[1..], rest);
      assert Children(path, cs[1..]) == Children(path, cs)[1..];
      assert all[0] == (PathJoin(path, cs[0].name), cs[0]);
      assert all[1..] == Children(path, cs[1..]) + rest;
    }
  }

  lemma {:induction false} PrunedSize(d: Dir, cs: seq<Dir>)
    requires forall c :: c in cs ==> c in d.subdirs
    ensures SizeAll(d, Pruned(cs)) <= SizeAll(d, cs)
    decreases |cs|
  {
    if cs != [] {
      PrunedSize(d, cs[1..]);
      var p := Pruned(cs);
      assert SizeAll(d, cs) == Size(cs[0]) + SizeAll(d, cs[1..]);
      if Kept(cs[0]) {
        assert p == [cs[0]] + Pruned(cs[1..]);
        assert p != [] && p[0] == cs[0] && p[1..] == Pruned(cs[1..]);
        assert SizeAll(d, p) == Size(cs[0]) + SizeAll(d, Pruned(cs[1..]));
      } else {
        assert p == Pruned(cs[1..]);
      }
    }
  }

  /** `get_tools_folder_path()`: the `for root, dirs, _ in os.walk(root_dir)` loop, with
      the walk's pending directories made explicit; each visit prunes `dirs` in place,
      so only kept children are queued, ahead of the ones already pending. */
  method GetToolsFolderPath(root: Option<string>, tree: Dir) returns (r: Result<string, string>)
    ensures r == ToolsFolderPath(root, tree)
  {
    if root.None? || root.value == "" {
      return Failure(GitRootNotFound);
    }
    var stack: Pending := [(root.value, tree)];
    assert SearchPending(stack[1..]) == None;
    while stack != []
      invariant SearchPending(stack) == Search(root.value, tree)
      decreases PendingSize(stack)
    {
      var path := stack[0].0;
      var d := stack[0].1;
      var rest := stack[1..];
      var dirs := Pruned(d.subdirs);
      if "tools" in Names(dirs) {
        return Success(PathJoin(path, "tools"));
      }
      ExpandPending(path, d, dirs, rest);
      PrunedSize(d, d.subdirs);
      stack := Children(path, dirs) + rest;
    }
    return Failure(NoToolsFolder);
  }
}
