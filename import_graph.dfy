/**
 * The watch-set walk of rerun (`getWatcher` / `addToWatcher`): a depth-first
 * walk over the import graph that registers the source directory of every
 * package it visits, skipping standard-library (Goroot) packages and imports
 * that fail to resolve, and marking packages in a shared map so that cycles
 * and diamonds are walked once.
 *
 * `build.Import` is replaced by a finite map from import path to Package; a
 * path missing from the map is an import that failed to resolve.
 */
module ImportGraph {

  /** What `build.Import` reports about one package. */
  datatype Package = Package(
    name: string,
    dir: string,
    binDir: string,
    goroot: bool,
    imports: seq<string>)

  type Graph = map<string, Package>

  /** A package the walk watches and expands: it resolves and is not in Goroot. */
  predicate Eligible(graph: Graph, path: string)
  {
    path in graph && !graph[path].goroot
  }

  /** `p` is a chain of eligible packages, each importing the next. */
  ghost predicate IsPath(graph: Graph, p: seq<string>)
  {
    && |p| > 0
    && (forall k :: 0 <= k < |p| ==> Eligible(graph, p[k]))
    && (forall k :: 0 <= k < |p| - 1 ==> p[k + 1] in graph[p[k]].imports)
  }

  /** `to` is reached from `from` through eligible packages only (both ends included). */
  ghost predicate Reachable(graph: Graph, from: string, to: string)
  {
    exists p :: IsPath(graph, p) && p[0] == from && p[|p| - 1] == to
  }

  /** `m` resolves and every eligible import of it is marked. */
  ghost predicate ClosedAt(graph: Graph, marked: set<string>, m: string)
  {
    m in graph && forall imp :: imp in graph[m].imports && Eligible(graph, imp) ==> imp in marked
  }

  /** Marking more packages keeps a package closed. */
  lemma ClosedAtGrows(graph: Graph, a: set<string>, b: set<string>, m: string)
    requires a <= b && ClosedAt(graph, a, m)
    ensures ClosedAt(graph, b, m)
  {
  }

  /** The directory of a package (the walk only asks this of resolved packages). */
  function DirOf(graph: Graph, path: string): string
  {
    if path in graph then graph[path].dir else ""
  }

  /** The directories of the packages `paths`, in the same order. */
  function DirsOf(graph: Graph, paths: seq<string>): (dirs: seq<string>)
    ensures |dirs| == |paths|
    ensures forall k :: 0 <= k < |paths| ==> dirs[k] == DirOf(graph, paths[k])
  {
    if paths == [] then [] else DirsOf(graph, paths[..|paths| - 1]) + [DirOf(graph, paths[|paths| - 1])]
  }

  ghost predicate Distinct(s: seq<string>)
  {
    forall i, j :: 0 <= i < j < |s| ==> s[i] != s[j]
  }

  // ---------------------------------------------------------------------
  // Facts about reachability
  // ---------------------------------------------------------------------

  /** An eligible package reaches itself. */
  lemma ReachableSelf(graph: Graph, x: string)
    requires Eligible(graph, x)
    ensures Reachable(graph, x, x)
  {
    assert IsPath(graph, [x]);
  }

  /** Whatever an eligible import of `x` reaches, `x` reaches. */
  lemma ReachableStep(graph: Graph, x: string, imp: string, m: string)
    requires Eligible(graph, x) && imp in graph[x].imports
    requires Reachable(graph, imp, m)
    ensures Reachable(graph, x, m)
  {
    var p :| IsPath(graph, p) && p[0] == imp && p[|p| - 1] == m;
    var q := [x] + p;
    assert forall k :: 1 <= k < |q| ==> q[k] == p[k - 1];
    assert IsPath(graph, q);
  }

  /**
   * A marked set in which every marked package has all its eligible imports
   * marked contains everything reachable from a marked package.
   */
  lemma {:induction false} ClosedContainsPath(graph: Graph, marked: set<string>, p: seq<string>)
    requires IsPath(graph, p) && p[0] in marked
    requires forall m :: m in marked ==> ClosedAt(graph, marked, m)
    ensures p[|p| - 1] in marked
    decreases |p|
  {
    if |p| > 1 {
      assert p[1] in graph[p[0]].imports && Eligible(graph, p[1]);
      var rest := p[1..];
      assert forall k :: 0 <= k < |rest| ==> rest[k] == p[k + 1];
      assert IsPath(graph, rest);
      ClosedContainsPath(graph, marked, rest);
    }
  }

  lemma ClosedContainsReachable(graph: Graph, marked: set<string>, root: string, m: string)
    requires root in marked && Reachable(graph, root, m)
    requires forall n :: n in marked ==> ClosedAt(graph, marked, n)
    ensures m in marked
  {
    var p :| IsPath(graph, p) && p[0] == root && p[|p| - 1] == m;
    ClosedContainsPath(graph, marked, p);
  }

  /**
   * A walk from `root` that started with nothing marked, marked only what
   * `root` reaches and left every marked package closed, marked exactly what
   * `root` reaches.
   */
  lemma WalkedFromEmpty(graph: Graph, root: string, marked: set<string>)
    requires root in marked <==> Eligible(graph, root)
    requires forall m :: m in marked ==> Reachable(graph, root, m)
    requires forall m :: m in marked ==> ClosedAt(graph, marked, m)
    ensures forall m :: m in marked <==> Reachable(graph, root, m)
  {
    forall m
      ensures m in marked <==> Reachable(graph, root, m)
    {
      if root !in marked {
        IneligibleReachesNothing(graph, root, m);
      } else if Reachable(graph, root, m) {
        ClosedContainsReachable(graph, marked, root, m);
      } else {
        assert m !in marked;
      }
    }
  }

  /** Nothing is reached from a package that is missing or in Goroot. */
  lemma IneligibleReachesNothing(graph: Graph, root: string, m: string)
    requires !Eligible(graph, root)
    ensures !Reachable(graph, root, m)
  {
    forall p | IsPath(graph, p)
      ensures p[0] != root
    {
      assert Eligible(graph, p[0]);
    }
  }

  /**
   * Two appends in a row are one append of the concatenation; stated apart
   * so that the walk's loop does not search for this regrouping itself.
   */
  lemma AppendTwice(s0: seq<string>, a: seq<string>, s1: seq<string>, b: seq<string>, s2: seq<string>)
    requires s1 == s0 + a && s2 == s1 + b
    ensures s2 == s0 + (a + b)
  {
  }

  lemma {:induction false} DirsOfAppend(graph: Graph, a: seq<string>, b: seq<string>)
    ensures DirsOf(graph, a + b) == DirsOf(graph, a) + DirsOf(graph, b)
  {
  }

  /**
   * The state of `addToWatcher(x)` after its loop has looked at the first `i`
   * imports: what it marked since entry (`marked0` is the map on entry) is
   * reached from `x`, closed except for `x` itself, and the eligible imports
   * among the first `i` are marked.
   */
  ghost predicate Explored(graph: Graph, x: string, marked0: set<string>, marked: set<string>, i: nat)
    requires x in graph && i <= |graph[x].imports|
  {
    && marked0 + {x} <= marked
    && (forall m :: m in marked - marked0 ==> Reachable(graph, x, m))
    && (forall m :: m in marked - marked0 && m != x ==> ClosedAt(graph, marked, m))
    && (forall k :: 0 <= k < i && Eligible(graph, graph[x].imports[k]) ==> graph[x].imports[k] in marked)
  }

  /** One iteration of the import loop keeps Explored, whether or not it recursed. */
  lemma ExploredStep(graph: Graph, x: string, marked0: set<string>, marked1: set<string>, marked2: set<string>, i: nat)
    requires Eligible(graph, x) && i < |graph[x].imports|
    requires Explored(graph, x, marked0, marked1, i)
    requires marked1 <= marked2
    requires graph[x].imports[i] in marked1 ==> marked2 == marked1
    requires graph[x].imports[i] !in marked1 ==>
      && (graph[x].imports[i] in marked2 <==> Eligible(graph, graph[x].imports[i]))
      && (forall m :: m in marked2 - marked1 ==> Reachable(graph, graph[x].imports[i], m))
      && (forall m :: m in marked2 - marked1 ==> ClosedAt(graph, marked2, m))
    ensures Explored(graph, x, marked0, marked2, i + 1)
  {
    var imp := graph[x].imports[i];
    forall m | m in marked2 - marked1
      ensures Reachable(graph, x, m)
    {
      ReachableStep(graph, x, imp, m);
    }
    forall m | m in marked1 - marked0 && m != x
      ensures ClosedAt(graph, marked2, m)
    {
      ClosedAtGrows(graph, marked1, marked2, m);
    }
  }

  // ---------------------------------------------------------------------
  // The walk
  // ---------------------------------------------------------------------

  /** The fsnotify watcher: only the directories registered with Watch are modelled. */
  class Watcher {
    var dirs: seq<string>

    constructor ()
      ensures dirs == []
    {
      dirs := [];
    }

    method Watch(dir: string)
      modifies this
      ensures dirs == old(dirs) + [dir]
    {
      dirs := dirs + [dir];
    }
  }

  /**
   * The `watching` map shared by the recursive calls.  Only `true` is ever
   * stored in it, so it is a set of import paths; `order` records the order
   * in which they were marked.
   */
  class Visited {
    var marked: set<string>
    ghost var order: seq<string>

    constructor ()
      ensures marked == {} && order == []
    {
      marked := {};
      order := [];
    }

    /** Each marked path is marked once, and only eligible packages are marked. */
    ghost predicate Valid(graph: Graph)
      reads this
    {
      && Distinct(order)
      && (forall p :: p in marked <==> p in order)
      && (forall k :: 0 <= k < |order| ==> Eligible(graph, order[k]))
    }
  }

  /**
   * `addToWatcher`: watch and mark `importpath` if it resolves and is not in
   * Goroot, then walk each of its imports that is not yet marked.  On return,
   * the newly marked packages are exactly reached from `importpath`, each one
   * was watched once in marking order, and every one of them has all its
   * eligible imports marked.
   */
  method AddToWatcher(graph: Graph, watcher: Watcher, importpath: string, watching: Visited)
    returns (ghost added: seq<string>)
    requires watching.Valid(graph)
    requires importpath !in watching.marked
    modifies watcher, watching
    decreases graph.Keys - watching.marked
    ensures watching.Valid(graph)
    ensures old(watching.marked) <= watching.marked
    ensures importpath in watching.marked <==> Eligible(graph, importpath)
    ensures forall m :: m in watching.marked - old(watching.marked) ==> Reachable(graph, importpath, m)
    ensures forall m :: m in watching.marked - old(watching.marked) ==> ClosedAt(graph, watching.marked, m)
    ensures watching.order == old(watching.order) + added
    ensures watcher.dirs == old(watcher.dirs) + DirsOf(graph, added)
  {
    added := [];
    if importpath !in graph {
      return;
    }
    var pkg := graph[importpath];
    if pkg.goroot {
      return;
    }
    ghost var marked0, order0, dirs0 := watching.marked, watching.order, watcher.dirs;
    watcher.Watch(pkg.dir);
    watching.marked := watching.marked + {importpath};
    watching.order := watching.order + [importpath];
    added := [importpath];
    ReachableSelf(graph, importpath);

    var i := 0;
    while i < |pkg.imports|
      invariant 0 <= i <= |pkg.imports|
      invariant watching.Valid(graph)
      invariant watching.order == order0 + added
      invariant watcher.dirs == dirs0 + DirsOf(graph, added)
      invariant Explored(graph, importpath, marked0, watching.marked, i)
    {
      var imp := pkg.imports[i];
      ghost var marked1 := watching.marked;
      if imp !in watching.marked {
        ghost var order1, dirs1 := watching.order, watcher.dirs;
        ghost var sub := AddToWatcher(graph, watcher, imp, watching);
        AppendTwice(order0, added, order1, sub, watching.order);
        DirsOfAppend(graph, added, sub);
        AppendTwice(dirs0, DirsOf(graph, added), dirs1, DirsOf(graph, sub), watcher.dirs);
        added := added + sub;
      }
      ExploredStep(graph, importpath, marked0, marked1, watching.marked, i);
      i := i + 1;
    }
  }

  /** `dirs` are the directories of exactly the packages reachable from `root`, each package once. */
  ghost predicate WatchesExactly(graph: Graph, root: string, dirs: seq<string>)
  {
    exists order ::
      && Distinct(order)
      && (forall m :: m in order <==> Reachable(graph, root, m))
      && dirs == DirsOf(graph, order)
  }

  lemma WatchesOrder(graph: Graph, root: string, order: seq<string>, dirs: seq<string>)
    requires Distinct(order) && (forall m :: m in order <==> Reachable(graph, root, m))
    requires dirs == DirsOf(graph, order)
    ensures WatchesExactly(graph, root, dirs)
  {
  }

  /**
   * `getWatcher`: a new watcher and an empty map, then the walk from the
   * root.  The watched directories are those of exactly the packages
   * reachable from the root through eligible packages, each import path once.
   */
  method GetWatcher(graph: Graph, buildpath: string) returns (watcher: Watcher)
    ensures fresh(watcher)
    ensures WatchesExactly(graph, buildpath, watcher.dirs)
  {
    watcher := new Watcher();
    var watching := new Visited();
    ghost var order := AddToWatcher(graph, watcher, buildpath, watching);
    assert watching.order == order;
    assert watcher.dirs == DirsOf(graph, order);
    WalkedFromEmpty(graph, buildpath, watching.marked);
    WatchesOrder(graph, buildpath, order, watcher.dirs);
  }
}
