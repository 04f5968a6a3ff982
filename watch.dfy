/**
 * The development pipeline of `gulp/watch.js`: the tasks it declares, their
 * dependency arrays, the guard of each task body, the source list and the
 * path rewrite of `watch:inject`, and the watch rules that the `watch`
 * task registers. The plugins, browser-sync and event delivery are not
 * modelled.
 */
module WatchTasks {
  import opened Wrappers
  import opened Js
  import opened GulpConfig
  import TaskGraph
  import BuildTasks

  // As in `BuildTasks`, the lemma that walks the edges below `watch` takes
  // the tasks it names as parameters equal to them: given literal tasks,
  // the verifier evaluates `Reach` by unfolding it without bound.

  /** The tasks of `watch.js`: `watch:sync`, `watch:styles`, ..., `watch:inject`, and `watch`. */
  datatype Task = Sync | Styles | Less | Sass | Stylus | LintStyles | Jade | Wiredep | Scripts | Html | Inject | Watch

  /** Every task `watch.js` declares. */
  const AllTasks: set<Task> := {Sync, Styles, Less, Sass, Stylus, LintStyles, Jade, Wiredep, Scripts, Html, Inject, Watch}

  /**
   * The dependency array of each task, as declared. Every dependency ranks
   * below its dependent, and no task depends on `watch:scripts` or
   * `watch:html`.
   */
  function DepsOf(t: Task): (ds: seq<Task>)
    ensures forall d | d in ds :: RankOf(d) < RankOf(t) && d != Scripts && d != Html
  {
    match t
    case LintStyles => [Sass, Less, Stylus, Styles]
    case Wiredep => [Jade]
    case Inject => [Wiredep, Jade, LintStyles]
    case Watch => [Inject, Sync]
    case _ => []
  }

  /** The length of the longest dependency chain below each task. */
  function RankOf(t: Task): nat {
    match t
    case LintStyles => 1
    case Wiredep => 1
    case Inject => 2
    case Watch => 3
    case _ => 0
  }

  const Deps: TaskGraph.Graph<Task> := map t | t in AllTasks :: DepsOf(t)

  const Rank: map<Task, nat> := map t | t in AllTasks :: RankOf(t)

  /** Every dependency names a declared task, and the graph is acyclic. */
  lemma DepsSound()
    ensures TaskGraph.Sound(Deps, Rank)
  {
  }

  /** The tasks `gulp watch` runs: all but `watch:scripts` and `watch:html`. */
  const WatchRuns: set<Task> := AllTasks - {Scripts, Html}

  /** `WatchRuns` holds the dependencies of each of its tasks. */
  lemma WatchRunsClosed()
    ensures TaskGraph.DepClosed(Deps, WatchRuns)
  {
    forall x, d | x in WatchRuns && x in Deps && d in Deps[x] ensures d in WatchRuns {
      assert Deps[x] == DepsOf(x);
    }
  }

  /** The tasks reachable from `watch` are exactly those of `WatchRuns`. */
  lemma ReachOfWatch()
    ensures TaskGraph.Sound(Deps, Rank)
    ensures TaskGraph.Reach(Deps, Rank, Watch) == WatchRuns
  {
    DepsSound();
    WatchRunsClosed();
    TaskGraph.ReachLeast(Deps, Rank, Watch, WatchRuns);
    ReachBelowWatch(Watch, Inject, LintStyles);
  }

  /** Everything of `WatchRuns` is reached from `watch`, along its declared edges. */
  lemma ReachBelowWatch(w: Task, i: Task, l: Task)
    requires w == Watch && i == Inject && l == LintStyles
    ensures TaskGraph.Sound(Deps, Rank)
    ensures WatchRuns <= TaskGraph.Reach(Deps, Rank, w)
  {
    DepsSound();
    TaskGraph.DepsReached(Deps, Rank, w);
    assert Deps[w] == [i, Sync];
    TaskGraph.ReachDep(Deps, Rank, w, i);
    TaskGraph.DepsReached(Deps, Rank, i);
    assert Deps[i] == [Wiredep, Jade, l];
    TaskGraph.ReachDep(Deps, Rank, i, l);
    ReachBelowLintStyles(l);
  }

  /** `watch:lintstyles` reaches the four style tasks. */
  lemma ReachBelowLintStyles(l: Task)
    requires l == LintStyles
    ensures TaskGraph.Sound(Deps, Rank)
    ensures {LintStyles, Sass, Less, Stylus, Styles} <= TaskGraph.Reach(Deps, Rank, l)
  {
    DepsSound();
    TaskGraph.DepsReached(Deps, Rank, l);
    assert Deps[l] == [Sass, Less, Stylus, Styles];
  }

  /**
   * The order `gulp watch` runs its tasks in: each task of `WatchRuns`
   * once and nothing else, `watch` last, `watch:jade` before
   * `watch:wiredep`, every style task before `watch:lintstyles`, and
   * `watch:wiredep` and `watch:lintstyles` before `watch:inject`.
   */
  lemma RunOrderOfWatch()
    ensures TaskGraph.Sound(Deps, Rank)
    ensures var o := TaskGraph.RunOrder(Deps, Rank, Watch);
      && o[|o| - 1] == Watch
      && (forall t | t in o :: t in WatchRuns)
      && (forall t | t in WatchRuns :: t in o)
      && Scripts !in o && Html !in o
      && forall i, j | 0 <= i < |o| && 0 <= j < |o| ::
        && (o[i] == Jade && o[j] == Wiredep ==> i < j)
        && (o[i] in DepsOf(LintStyles) && o[j] == LintStyles ==> i < j)
        && (o[i] in DepsOf(Inject) && o[j] == Inject ==> i < j)
  {
    ReachOfWatch();
    var o := TaskGraph.RunOrder(Deps, Rank, Watch);
    OrderOfWatchRuns(o);
  }

  /** An order that runs the tasks of `WatchRuns` once each, dependencies first, runs neither scripts nor html and keeps the declared precedences. */
  lemma OrderOfWatchRuns(o: seq<Task>)
    requires TaskGraph.DepsFirst(Deps, o) && TaskGraph.NoDup(o)
    requires (forall t | t in o :: t in WatchRuns) && (forall t | t in WatchRuns :: t in o)
    ensures Scripts !in o && Html !in o
    ensures forall i, j | 0 <= i < |o| && 0 <= j < |o| ::
      && (o[i] == Jade && o[j] == Wiredep ==> i < j)
      && (o[i] in DepsOf(LintStyles) && o[j] == LintStyles ==> i < j)
      && (o[i] in DepsOf(Inject) && o[j] == Inject ==> i < j)
  {
    assert LintStyles in o && Inject in o && Wiredep in o;
    TaskGraph.DependencyBefore(Deps, o, Wiredep, Jade);
    forall d | d in DepsOf(LintStyles) {
      TaskGraph.DependencyBefore(Deps, o, LintStyles, d);
    }
    forall d | d in DepsOf(Inject) {
      TaskGraph.DependencyBefore(Deps, o, Inject, d);
    }
  }

  /** The style type that each style task's guard compares `config.css` against. */
  function StyleKind(t: Task): Option<string> {
    match t
    case Styles => Some("styles")
    case Less => Some("less")
    case Sass => Some("sass")
    case Stylus => Some("stylus")
    case _ => None
  }

  /**
   * Whether the body of `t` does any work under config `c`; `vendorsExist`
   * stands for `fs.existsSync(src + vendors)`. Tasks without a guard
   * always do.
   */
  predicate DoesWork(c: Config, vendorsExist: bool, t: Task) {
    match t
    case Styles | Less | Sass | Stylus => StyleGuard(c, StyleKind(t).value)
    case Jade => Truthy(c.folder.jade)
    case Wiredep => c.folder.vendors != "" && vendorsExist
    case Scripts => c.folder.scripts != ""
    case _ => true
  }

  /**
   * At most one style task does work, and each style task is guarded
   * exactly as its namesake in `build.js`.
   */
  lemma StyleTasksExclusive(c: Config, vendorsExist: bool)
    ensures forall t, u | StyleKind(t).Some? && StyleKind(u).Some? && DoesWork(c, vendorsExist, t) && DoesWork(c, vendorsExist, u) :: t == u
    ensures DoesWork(c, vendorsExist, Styles) == BuildTasks.DoesWork(c, vendorsExist, BuildTasks.Styles)
    ensures DoesWork(c, vendorsExist, Less) == BuildTasks.DoesWork(c, vendorsExist, BuildTasks.Less)
    ensures DoesWork(c, vendorsExist, Sass) == BuildTasks.DoesWork(c, vendorsExist, BuildTasks.Sass)
    ensures DoesWork(c, vendorsExist, Stylus) == BuildTasks.DoesWork(c, vendorsExist, BuildTasks.Stylus)
    ensures DoesWork(c, vendorsExist, Jade) == BuildTasks.DoesWork(c, vendorsExist, BuildTasks.Jade)
    ensures DoesWork(c, vendorsExist, Wiredep) == BuildTasks.DoesWork(c, vendorsExist, BuildTasks.Wiredep)
  {
  }

  /**
   * The source globs of `watch:inject`: the compiled css of the temp folder
   * first, then the scripts when a scripts folder is set.
   */
  method InjectSources(c: Config) returns (sources: seq<string>)
    ensures 1 <= |sources| <= 2
    ensures sources[0] == c.src + c.tmp + "/**/*.css"
    ensures |sources| == 2 <==> c.folder.scripts != ""
    ensures |sources| == 2 ==> sources[1] == c.src + c.folder.scripts + "/**/*.js"
  {
    sources := [c.src + c.tmp + "/**/*.css"];
    if c.folder.scripts != "" {
      sources := sources + [c.src + c.folder.scripts + "/**/*.js"];
    }
  }

  /** `filepath.slice(filepath.slice(1).indexOf('/') + 2)`: drops the first path segment. */
  function StripFirstSegment(filepath: string): string {
    Slice(filepath, IndexOf(Slice(filepath, 1), "/") + 2)
  }

  /** A path `c0 dir / rest` whose first segment `dir` has no slash loses `c0 dir /`, keeping `rest`. */
  lemma StripSegment(c0: char, dir: string, rest: string)
    requires '/' !in dir
    ensures StripFirstSegment([c0] + dir + "/" + rest) == rest
  {
    var fp := [c0] + dir + "/" + rest;
    assert Slice(fp, 1) == dir + "/" + rest;
    IndexOfChar(dir + "/" + rest, '/');
    var k := IndexOf(dir + "/" + rest, "/");
    assert (dir + "/" + rest)[|dir|] == '/';
    assert (dir + "/" + rest)[..|dir|] == dir;
    assert k == |dir|;
    assert fp[|dir| + 2..] == rest;
  }

  /** Without a slash after the first character, only the first character is dropped. */
  lemma StripNoSlash(filepath: string)
    requires '/' !in Slice(filepath, 1)
    ensures StripFirstSegment(filepath) == Slice(filepath, 1)
  {
    IndexOfChar(Slice(filepath, 1), '/');
  }

  /** A leading `/app/` goes: `/app/scripts/main.js` becomes `scripts/main.js`. */
  lemma StripExample()
    ensures StripFirstSegment("/app/scripts/main.js") == "scripts/main.js"
  {
    StripSegment('/', "app", "scripts/main.js");
    assert ['/'] + "app" + "/" + "scripts/main.js" == "/app/scripts/main.js";
  }

  /** `path.slice(path.indexOf(root) + root.length)`. */
  function TargetPath(root: string, path: string): string {
    Slice(path, IndexOf(path, root) + |root|)
  }

  /**
   * When `root` occurs in `path`, the target path is what follows its first
   * occurrence; when it does not, `indexOf` gives -1 and the target path is
   * what follows the first `|root| - 1` characters.
   */
  lemma TargetPathSplit(root: string, path: string)
    ensures IndexOf(path, root) != -1 ==>
      path == path[..IndexOf(path, root)] + root + TargetPath(root, path)
      && forall j | 0 <= j < IndexOf(path, root) :: !OccursAt(path, root, j)
    ensures IndexOf(path, root) == -1 ==> TargetPath(root, path) == Slice(path, |root| - 1)
  {
    var k := IndexOf(path, root);
    if k != -1 {
      assert path[k..k + |root|] == root;
      assert path == path[..k] + path[k..k + |root|] + path[k + |root|..];
    }
  }

  /**
   * The path that `watch:inject` hands to the tag renderer for a source
   * file `filepath` injected into the page at `targetFilePath`: the first
   * segment goes, and `../` is prepended once when the page's path below
   * the root has a slash, however deep it is.
   */
  function InjectPath(c: Config, filepath: string, targetFilePath: string): (r: string)
    ensures '/' in TargetPath(Root(c), targetFilePath) ==> r == "../" + StripFirstSegment(filepath)
    ensures '/' !in TargetPath(Root(c), targetFilePath) ==> r == StripFirstSegment(filepath)
  {
    var targetpath := TargetPath(Root(c), targetFilePath);
    IndexOfChar(targetpath, '/');
    var fp := StripFirstSegment(filepath);
    if IndexOf(targetpath, "/") + 1 != 0 then "../" + fp else fp
  }

  /** A watch rule: the globs `gulp.watch` observes and the tasks it starts. */
  datatype Rule = Rule(globs: seq<string>, tasks: seq<Task>)

  function StylesRule(c: Config): Rule {
    Rule([c.src + c.folder.styles + "/**/*.{css,scss,less,styl}"], [Inject])
  }

  function JadeRule(c: Config): Rule {
    Rule([c.src + ToStr(c.folder.jade) + "/**/*.jade"], [Inject])
  }

  function ScriptsRule(c: Config): Rule {
    Rule([c.src + c.folder.scripts + "/**/*.js"], [Scripts])
  }

  /** Every html page of the source, except those under the vendor folder. */
  function HtmlRule(c: Config): Rule {
    Rule([c.src + "**/*.html", "!" + c.src + c.folder.vendors + "/**"], [Html])
  }

  /** The truthiness of `config.css`: present and not empty. */
  predicate CssSet(c: Config) {
    c.css.Some? && c.css.value != ""
  }

  /**
   * The rules the `watch` task registers, in source order: the styles rule
   * when a styles folder is set and `config.css` is truthy, the jade rule
   * when `folder.jade` is truthy, the scripts rule when a scripts folder is
   * set, and the html rule always, last.
   */
  function Rules(c: Config): (rules: seq<Rule>)
    ensures 1 <= |rules| <= 4 && rules[|rules| - 1] == HtmlRule(c)
    ensures StylesRule(c) in rules <==> c.folder.styles != "" && CssSet(c)
    ensures JadeRule(c) in rules <==> Truthy(c.folder.jade)
    ensures ScriptsRule(c) in rules <==> c.folder.scripts != ""
    ensures forall i | 0 <= i < |rules| :: rules[i] in [StylesRule(c), JadeRule(c), ScriptsRule(c), HtmlRule(c)]
    ensures forall i, j | 0 <= i < j < |rules| :: RuleRank(c, rules[i]) < RuleRank(c, rules[j])
  {
    RulesDistinct(c);
    var styles := if c.folder.styles != "" && CssSet(c) then [StylesRule(c)] else [];
    var jade := if Truthy(c.folder.jade) then [JadeRule(c)] else [];
    var scripts := if c.folder.scripts != "" then [ScriptsRule(c)] else [];
    var rules := styles + jade + scripts + [HtmlRule(c)];
    assert forall i | 0 <= i < |rules| ::
      || (i < |styles| && rules[i] == StylesRule(c))
      || (|styles| <= i < |styles| + |jade| && rules[i] == JadeRule(c))
      || (|styles| + |jade| <= i < |rules| - 1 && rules[i] == ScriptsRule(c))
      || (i == |rules| - 1 && rules[i] == HtmlRule(c));
    rules
  }

  /** The body of `watch`: one `gulp.watch` call per rule, each guarded by its `if`. */
  method RegisterRules(c: Config) returns (rules: seq<Rule>)
    ensures rules == Rules(c)
  {
    rules := [];
    if c.folder.styles != "" && CssSet(c) {
      rules := rules + [StylesRule(c)];
    }
    if Truthy(c.folder.jade) {
      rules := rules + [JadeRule(c)];
    }
    if c.folder.scripts != "" {
      rules := rules + [ScriptsRule(c)];
    }
    rules := rules + [HtmlRule(c)];
  }

  /** The position of a rule in the source's order of registration. */
  function RuleRank(c: Config, r: Rule): nat {
    if r == StylesRule(c) then 0
    else if r == JadeRule(c) then 1
    else if r == ScriptsRule(c) then 2
    else 3
  }

  /** The four rules differ from one another, whatever the config. */
  lemma RulesDistinct(c: Config)
    ensures StylesRule(c) != JadeRule(c) && StylesRule(c) != ScriptsRule(c) && StylesRule(c) != HtmlRule(c)
    ensures JadeRule(c) != ScriptsRule(c) && JadeRule(c) != HtmlRule(c) && ScriptsRule(c) != HtmlRule(c)
    ensures RuleRank(c, StylesRule(c)) == 0 && RuleRank(c, JadeRule(c)) == 1
    ensures RuleRank(c, ScriptsRule(c)) == 2 && RuleRank(c, HtmlRule(c)) == 3
  {
    var s := StylesRule(c).globs[0];
    var j := JadeRule(c).globs[0];
    assert s[|s| - 1] == '}';
    assert j[|j| - 1] == 'e';
  }

  /**
   * `watch:scripts` and `watch:html` never run as part of `watch`; they
   * run only through their rules, of which the html one is always registered.
   */
  lemma ScriptsAndHtmlOnlyByRules(c: Config)
    ensures TaskGraph.Sound(Deps, Rank)
    ensures Scripts !in TaskGraph.Reach(Deps, Rank, Watch) && Html !in TaskGraph.Reach(Deps, Rank, Watch)
    ensures Scripts in ScriptsRule(c).tasks && Html in HtmlRule(c).tasks
  {
    ReachOfWatch();
  }
}
