/**
 * The production pipeline of `gulp/build.js`: the tasks it declares, their
 * dependency arrays, the guard that decides whether each task's body does
 * any work, and the two bodies that compute something of their own:
 * the in-place prefixing of `build:copy` and the folder list of
 * `build:images`. What the gulp plugins do with the files is not modelled.
 */
module BuildTasks {
  import opened Wrappers
  import opened Js
  import opened GulpConfig
  import TaskGraph

  // The lemma that walks the edges below `build` takes the tasks it names
  // as parameters equal to them rather than as literals: given literal
  // tasks, the verifier evaluates `Reach` by unfolding it without bound.

  /** The tasks of `build.js`: `build:watch`, `build:clean`, ..., `build:assets`, and `build`. */
  datatype Task = Watch | Clean | Copy | Fonts | Images | Styles | Less | Sass | Stylus | Jade | Wiredep | Inject | Assets | Build

  /** Every task `build.js` declares. */
  const AllTasks: set<Task> := {Watch, Clean, Copy, Fonts, Images, Styles, Less, Sass, Stylus, Jade, Wiredep, Inject, Assets, Build}

  /**
   * The dependency array of each task, as declared. Every dependency ranks
   * below its dependent, and no task depends on `build:clean` or
   * `build:watch`.
   */
  function DepsOf(t: Task): (ds: seq<Task>)
    ensures forall d | d in ds :: RankOf(d) < RankOf(t) && d != Clean && d != Watch
  {
    match t
    case Wiredep => [Jade]
    case Inject => [Styles, Less, Sass, Stylus, Wiredep, Jade]
    case Assets => [Inject]
    case Build => [Copy, Fonts, Images, Assets]
    case _ => []
  }

  /** The length of the longest dependency chain below each task. */
  function RankOf(t: Task): nat {
    match t
    case Wiredep => 1
    case Inject => 2
    case Assets => 3
    case Build => 4
    case _ => 0
  }

  const Deps: TaskGraph.Graph<Task> := map t | t in AllTasks :: DepsOf(t)

  const Rank: map<Task, nat> := map t | t in AllTasks :: RankOf(t)

  /** Every dependency names a declared task, and the graph is acyclic. */
  lemma DepsSound()
    ensures TaskGraph.Sound(Deps, Rank)
  {
  }

  /** The tasks `gulp build` runs: all but `build:clean` and `build:watch`. */
  const BuildRuns: set<Task> := AllTasks - {Clean, Watch}

  /** `BuildRuns` holds the dependencies of each of its tasks. */
  lemma BuildRunsClosed()
    ensures TaskGraph.DepClosed(Deps, BuildRuns)
  {
    forall x, d | x in BuildRuns && x in Deps && d in Deps[x] ensures d in BuildRuns {
      assert Deps[x] == DepsOf(x);
    }
  }

  /** The tasks reachable from `build` are exactly those of `BuildRuns`: neither `build:clean` nor `build:watch` is among them. */
  lemma ReachOfBuild()
    ensures TaskGraph.Sound(Deps, Rank)
    ensures TaskGraph.Reach(Deps, Rank, Build) == BuildRuns
  {
    DepsSound();
    BuildRunsClosed();
    TaskGraph.ReachLeast(Deps, Rank, Build, BuildRuns);
    ReachBelowBuild(Build, Assets, Inject);
  }

  /** Everything of `BuildRuns` is reached from `build`, along its declared edges. */
  lemma ReachBelowBuild(b: Task, a: Task, i: Task)
    requires b == Build && a == Assets && i == Inject
    ensures TaskGraph.Sound(Deps, Rank)
    ensures BuildRuns <= TaskGraph.Reach(Deps, Rank, b)
  {
    DepsSound();
    TaskGraph.DepsReached(Deps, Rank, b);
    assert Deps[b] == [Copy, Fonts, Images, a];
    TaskGraph.ReachDep(Deps, Rank, b, a);
    TaskGraph.ReachDep(Deps, Rank, a, i);
    ReachBelowInject(i);
  }

  /** `build:inject` reaches the four style tasks, `build:wiredep` and `build:jade`. */
  lemma ReachBelowInject(i: Task)
    requires i == Inject
    ensures TaskGraph.Sound(Deps, Rank)
    ensures {Inject, Styles, Less, Sass, Stylus, Wiredep, Jade} <= TaskGraph.Reach(Deps, Rank, i)
  {
    DepsSound();
    TaskGraph.DepsReached(Deps, Rank, i);
    assert Deps[i] == [Styles, Less, Sass, Stylus, Wiredep, Jade];
  }

  /**
   * The order `gulp build` runs its tasks in: each task of `BuildRuns`
   * once and nothing else, `build` last, and `build:jade`, `build:wiredep`,
   * `build:inject`, `build:assets` in that order.
   */
  lemma RunOrderOfBuild()
    ensures TaskGraph.Sound(Deps, Rank)
    ensures var o := TaskGraph.RunOrder(Deps, Rank, Build);
      && o[|o| - 1] == Build
      && (forall t | t in o :: t in BuildRuns)
      && (forall t | t in BuildRuns :: t in o)
      && Clean !in o && Watch !in o
      && forall i, j | 0 <= i < |o| && 0 <= j < |o| ::
        && (o[i] == Jade && o[j] == Wiredep ==> i < j)
        && (o[i] == Wiredep && o[j] == Inject ==> i < j)
        && (o[i] == Inject && o[j] == Assets ==> i < j)
  {
    ReachOfBuild();
    var o := TaskGraph.RunOrder(Deps, Rank, Build);
    JadeWiredepInjectAssets(o);
  }

  /**
   * In every order that runs each task once and each after its
   * dependencies, and that reaches `build:assets`, `build:jade` comes
   * before `build:wiredep`, which comes before `build:inject`, which comes
   * before `build:assets`.
   */
  lemma JadeWiredepInjectAssets(o: seq<Task>)
    requires TaskGraph.DepsFirst(Deps, o) && TaskGraph.NoDup(o) && Assets in o
    ensures Jade in o && Wiredep in o && Inject in o
    ensures forall i, j | 0 <= i < |o| && 0 <= j < |o| ::
      && (o[i] == Jade && o[j] == Wiredep ==> i < j)
      && (o[i] == Wiredep && o[j] == Inject ==> i < j)
      && (o[i] == Inject && o[j] == Assets ==> i < j)
  {
    TaskGraph.DependencyBefore(Deps, o, Assets, Inject);
    TaskGraph.DependencyBefore(Deps, o, Inject, Wiredep);
    TaskGraph.DependencyBefore(Deps, o, Wiredep, Jade);
  }

  /** The element-wise rewrite of `build:copy`: each entry becomes `src + entry`. */
  function Prefixed(src: string, files: seq<string>): (r: seq<string>)
    ensures |r| == |files|
    ensures forall i | 0 <= i < |files| :: |r[i]| == |src| + |files[i]| && r[i][..|src|] == src && r[i][|src|..] == files[i]
  {
    seq(|files|, i requires 0 <= i < |files| => src + files[i])
  }

  /**
   * Because the rewrite lands in the shared config, a second `build:copy`
   * prefixes `src` once more: with a non-empty `src` and list, the rewrite
   * is not idempotent, and two runs equal one run with `src + src`.
   */
  lemma PrefixedTwice(src: string, files: seq<string>)
    ensures Prefixed(src, Prefixed(src, files)) == Prefixed(src + src, files)
    ensures src != "" && files != [] ==> Prefixed(src, Prefixed(src, files)) != Prefixed(src, files)
  {
    var once, twice := Prefixed(src, files), Prefixed(src, Prefixed(src, files));
    forall i | 0 <= i < |files| ensures twice[i] == (src + src) + files[i] {
      assert twice[i] == src + once[i];
      assert once[i] == src + files[i];
    }
    if src != "" && files != [] {
      assert |twice[0]| == |src| + |once[0]|;
    }
  }

  /**
   * `build:copy`: when `copyfiles` is non-empty, each entry is replaced in
   * place by `src + entry` and the rewritten list is what the task copies;
   * when it is empty the task does nothing and returns `undefined`.
   */
  method CopyTask(src: string, copyfiles: array<string>) returns (globs: Option<seq<string>>)
    modifies copyfiles
    ensures copyfiles[..] == Prefixed(src, old(copyfiles[..]))
    ensures globs == if copyfiles.Length == 0 then None else Some(copyfiles[..])
  {
    if copyfiles.Length == 0 {
      return None;
    }
    var i, l := 0, copyfiles.Length;
    while i < l
      invariant 0 <= i <= l == copyfiles.Length
      invariant forall k | 0 <= k < i :: copyfiles[k] == src + old(copyfiles[k])
      invariant forall k | i <= k < l :: copyfiles[k] == old(copyfiles[k])
    {
      copyfiles[i] := src + copyfiles[i];
      i := i + 1;
    }
    globs := Some(copyfiles[..]);
  }

  /** Two `build:copy` runs in one process over the same config prefix every entry twice. */
  method CopyTwice(src: string, copyfiles: array<string>)
    modifies copyfiles
    ensures copyfiles[..] == Prefixed(src + src, old(copyfiles[..]))
  {
    ghost var before := copyfiles[..];
    var _ := CopyTask(src, copyfiles);
    var _ := CopyTask(src, copyfiles);
    PrefixedTwice(src, before);
  }

  /** The non-empty entries of `xs`, in order. */
  function NonEmpty(xs: seq<string>): (r: seq<string>)
    ensures |r| <= |xs|
    ensures forall x | x in r :: x != "" && x in xs
    ensures forall x | x in xs && x != "" :: x in r
  {
    if xs == [] then []
    else (if xs[0] != "" then [xs[0]] else []) + NonEmpty(xs[1..])
  }

  /**
   * The folder list of `build:images`: the non-empty ones among `icons`,
   * `images` and `pictures`, in that order, so at most three.
   */
  method ImagePaths(f: Folder) returns (path: seq<string>)
    ensures path == NonEmpty([f.icons, f.images, f.pictures])
    ensures |path| <= 3 && forall p | p in path :: p != ""
  {
    path := [];
    if f.icons != "" { path := path + [f.icons]; }
    if f.images != "" { path := path + [f.images]; }
    if f.pictures != "" { path := path + [f.pictures]; }
    var xs := [f.icons, f.images, f.pictures];
    assert xs[1..] == [f.images, f.pictures] && xs[1..][1..] == [f.pictures] && xs[1..][1..][1..] == [];
    assert NonEmpty([f.pictures]) == if f.pictures != "" then [f.pictures] else [];
    assert NonEmpty([f.images, f.pictures]) == (if f.images != "" then [f.images] else []) + NonEmpty([f.pictures]);
    assert NonEmpty(xs) == (if f.icons != "" then [f.icons] else []) + NonEmpty([f.images, f.pictures]);
  }

  /** The style type each of the four style tasks compiles for. */
  function StyleKind(t: Task): Option<string> {
    match t
    case Styles => Some("styles")
    case Less => Some("less")
    case Sass => Some("sass")
    case Stylus => Some("stylus")
    case _ => None
  }

  /**
   * Whether the body of `t` does any work under config `c`; `vendorsExist`
   * stands for `fs.existsSync(src + vendors)`. Tasks without a guard
   * always do.
   */
  predicate DoesWork(c: Config, vendorsExist: bool, t: Task) {
    match t
    case Copy => |c.copyfiles| > 0
    case Fonts => c.folder.fonts != ""
    case Images => NonEmpty([c.folder.icons, c.folder.images, c.folder.pictures]) != []
    case Styles | Less | Sass | Stylus => StyleGuard(c, StyleKind(t).value)
    case Jade => Truthy(c.folder.jade)
    case Wiredep => c.folder.vendors != "" && vendorsExist
    case _ => true
  }

  /**
   * At most one style task does work, the one whose style type equals
   * `config.css`, and only when a styles folder is set.
   */
  lemma StyleTasksExclusive(c: Config, vendorsExist: bool)
    ensures forall t, u | StyleKind(t).Some? && StyleKind(u).Some? && DoesWork(c, vendorsExist, t) && DoesWork(c, vendorsExist, u) :: t == u
    ensures forall t | StyleKind(t).Some? :: DoesWork(c, vendorsExist, t) <==> c.folder.styles != "" && c.css == StyleKind(t)
  {
  }

  /** `build:images` does work exactly when one of its three folders is set. */
  lemma ImagesGuard(c: Config, vendorsExist: bool)
    ensures DoesWork(c, vendorsExist, Images) <==> c.folder.icons != "" || c.folder.images != "" || c.folder.pictures != ""
  {
    var xs := [c.folder.icons, c.folder.images, c.folder.pictures];
    if c.folder.icons != "" {
      assert c.folder.icons in xs;
    } else if c.folder.images != "" {
      assert c.folder.images in xs;
    } else if c.folder.pictures != "" {
      assert c.folder.pictures in xs;
    } else if NonEmpty(xs) != [] {
      assert NonEmpty(xs)[0] in NonEmpty(xs);
    }
  }
}
