# generator-yeomify-landing, modelled in Dafny

This project models the Yeoman generator `generator-yeomify-landing` and the
gulp build it scaffolds. Three parts are covered:

- **The generator** (`app/index.js`). It asks five questions: name,
  description, jade, style preprocessor and helper libraries. It then
  rewrites the answers in place in `gulp()`, renders `gulp/config.js` and the
  manifests from two contexts, and copies the landing sources into `app/`.
- **The rendered `gulp/config.js`.** It is a record whose `csstype` and
  `folder.styles` come from the same placeholder and whose `folder.jade` is
  pasted in unquoted. The model evaluates the rendered text as JavaScript
  literals.
- **The two gulp files.**
  - `build.js` (production) and `watch.js` (development) each declare a task
    graph. Both graphs are proved acyclic and closed. Their reachable task
    sets are computed, and the sequential dependency-first order that gulp's
    orchestrator runs is proved deduplicated, complete and ordered.
  - Every task body is reduced to the guard that decides whether it does any
    work.
  - Some task bodies compute something of their own, and those are modelled
    directly. In `build.js` these are the in-place prefix loop of
    `build:copy` (over an array) and the folder list of `build:images`. In
    `watch.js` they are the source list and path rewrite of `watch:inject`
    and the rule table that `watch` registers.

Files:

| file | modules | what |
|---|---|---|
| `js.dfy` | `Wrappers`, `Js` | `Option`; JavaScript truthiness, `String(v)`, `slice`, `indexOf`, evaluation of the pasted literals |
| `task_graph.dfy` | `TaskGraph` | declared graphs, acyclicity by a rank witness, reachability, the orchestrator's sequencing |
| `config.dfy` | `GulpConfig` | the config record and its rendering |
| `generator.dfy` | `Generator` | the prompt, the normalisation, the file operations, the generator class |
| `build.dfy` | `BuildTasks` | `build.js` |
| `watch.dfy` | `WatchTasks` | `watch.js` |
| `generated.dfy` | `GeneratedProject` | answers → config → which tasks do work, and the finding below |

## Model

| member | source | states |
|---|---|---|
| Js.Slice | app/templates/gulp/watch.js:227-230 | `s.slice(start)` is a suffix of `s`; for a start inside the string it is what follows `start`; past the end it is empty; a negative start keeps that many trailing characters |
| Js.IndexOf | app/templates/gulp/watch.js:228-232 | `indexOf` is -1 exactly when the needle occurs nowhere; otherwise the needle occurs there and at no earlier index |
| Js.IndexOfChar | app/templates/gulp/watch.js:230-232 | for a one-character needle, `indexOf` is -1 iff the character is absent, and otherwise points at its first occurrence |
| Js.EvalLiteral | app/templates/gulp/config.js:24-34 | a pasted text evaluates only as a boolean literal or a quoted plain string, and then it is exactly that literal's text |
| Js.EvalQuote | app/templates/gulp/config.js:34 | quoting a plain string and evaluating it gives the string back |
| Js.LineTerminatorRejected | app/templates/gulp/config.js:24-34 | a pasted quoted text that holds a line feed, carriage return, or line or paragraph separator does not evaluate: it is a syntax error |
| Js.EvalBool | app/templates/gulp/config.js:33 | pasting a boolean and evaluating it gives the boolean back |
| TaskGraph.NoCycle | app/templates/gulp/build.js:228-302 | in a graph with a rank witness, ranks strictly fall along every path, so no path returns to its start |
| TaskGraph.Reach | app/templates/gulp/build.js:302 | reachable tasks include the start, are declared, and rank no higher than it |
| TaskGraph.DepsReached | app/templates/gulp/build.js:249 | a task reaches every task of its dependency array |
| TaskGraph.ReachClosed | app/templates/gulp/build.js:302 | what is reachable holds the dependencies of everything in it |
| TaskGraph.ReachLeast | app/templates/gulp/build.js:302 | what is reachable lies inside every dependency-closed set holding the start: it is the least such set |
| TaskGraph.ReachDep | app/templates/gulp/build.js:249 | whatever a dependency reaches, its dependent reaches |
| TaskGraph.ReachAllHas | app/templates/gulp/build.js:249 | whatever a member of a dependency array reaches, the array reaches |
| TaskGraph.VisitSound | app/templates/gulp/build.js:249 | sequencing a task keeps the sequence repeat-free and dependency-first and adds only tasks reachable from it |
| TaskGraph.RunOrder | app/templates/gulp/build.js:302 | running a task executes every reachable task exactly once, nothing else, each after its dependencies, the task itself last |
| TaskGraph.DependencyBefore | app/templates/gulp/build.js:228-273 | in any repeat-free dependency-first order, a dependency is present and precedes its dependent |
| GulpConfig.Render | app/templates/gulp/config.js:7-52 | the rendered file evaluates iff the style text is plain and the jade text is a literal; `csstype` and `folder.styles` both equal the style value; a quoted jade gives its folder name, a boolean stays itself; there is no `css` key |
| GulpConfig.RenderWithCss | app/templates/gulp/config.js:24 | the corrected record evaluates whenever the written one does, is identical to it except that `css` carries the style type |
| GulpConfig.Root | app/templates/gulp/watch.js:227 | the injection root is `config.src` without its leading `./` |
| GulpConfig.RenderedDefaults | app/templates/gulp/config.js:11-51 | whatever the answers: hashing off, `./app/`, `./dist/`, `.tmp`, root `app/`, fonts and image folders disabled, scripts and vendors fixed, `favicon.ico` the only file to copy |
| Generator.Ask | app/index.js:31-71 | each answer is taken as given or, when none was given, the prompt default; the confirms give booleans and the list one of its three choices |
| Generator.Normalise | app/index.js:89-91 | truthiness of jade and libs is preserved; a truthy jade becomes the text `'jade'`, a truthy libs `'bower_components'`; `any` becomes `styles`; everything else is kept |
| Generator.NormalisedRange | app/index.js:89-91 | after normalising prompt answers the style is sass, less or styles, and jade and libs are `false` or their quoted text |
| Generator.NormaliseIdempotent | app/index.js:89-91 | running the three rewrites a second time changes nothing |
| Generator.GulpContext | app/index.js:93-97 | `gulp/config.js` is rendered with jade, styles and libs only, no name or description |
| Generator.FullContext | app/index.js:108-114 | the manifests are rendered with all five answers |
| Generator.DotfileOps | app/index.js:81-83 | `.bowerrc`, `.gitattributes`, `.gitignore`, each copied to the same path, in that order |
| Generator.GulpOps | app/index.js:99-102 | `gulpfile.js`, `gulp/watch.js`, `gulp/build.js` copied, then `gulp/config.js` rendered with the gulp context |
| Generator.ContextOps | app/index.js:116-118 | `bower.json`, `package.json`, `readme.md` rendered with the full context, in that order |
| Generator.FolderOps | app/index.js:122-134 | the styles folder is always copied; the jade folder is copied iff jade is truthy; nothing is rendered |
| Generator.OnlyConfigIsTemplated | app/index.js:99-102 | of the gulp files only `gulp/config.js` is rendered; the other three are copied verbatim to the same path |
| Generator.Generator.constructor | app/index.js:63-71 | the generator starts with the prompt answers and no file operations |
| Generator.Generator.Dotfiles | app/index.js:79-85 | appends the three dotfile copies, answers unchanged |
| Generator.Generator.Gulp | app/index.js:87-104 | rewrites the answers in place to their normalised form, then appends the gulp copies and the config render with the normalised context |
| Generator.Generator.Context | app/index.js:106-120 | appends the three manifest renders with the full context, answers unchanged |
| Generator.Generator.Folder | app/index.js:122-134 | appends the landing copies of `folder()`, answers unchanged |
| Generator.Scaffold | app/index.js:7-136 | a run ends with the normalised answers and the operations of the four steps in order |
| Generator.ContextsAgree | app/index.js:93-116 | every render of a run sees the same normalised jade, styles and libs; both the config and the manifests are rendered |
| Generator.ScaffoldFolders | app/index.js:128-132 | `landing/jade` is copied iff jade was chosen; the copied style folder is one of sass, less, styles |
| BuildTasks.DepsOf | app/templates/gulp/build.js:228-302 | the four declared dependency arrays (wiredep, inject, assets, build) in source order, the others empty; every dependency ranks below its dependent and none is `build:clean` or `build:watch` |
| BuildTasks.DepsSound | app/templates/gulp/build.js:228-302 | every dependency of `build.js` is a declared task and the graph is acyclic |
| BuildTasks.BuildRunsClosed | app/templates/gulp/build.js:228-302 | the tasks other than clean and watch hold all their dependencies |
| BuildTasks.ReachOfBuild | app/templates/gulp/build.js:302 | the tasks reachable from `build` are exactly all but `build:clean` and `build:watch` |
| BuildTasks.ReachBelowBuild | app/templates/gulp/build.js:249-302 | every task but clean and watch is reached from `build` along the declared edges |
| BuildTasks.ReachBelowInject | app/templates/gulp/build.js:249 | `build:inject` reaches the four style tasks, `build:wiredep` and `build:jade` |
| BuildTasks.RunOrderOfBuild | app/templates/gulp/build.js:302 | `gulp build` runs each of those tasks once and nothing else, `build` last, never clean or watch, with jade before wiredep before inject before assets |
| BuildTasks.JadeWiredepInjectAssets | app/templates/gulp/build.js:228-273 | in any repeat-free dependency-first order holding assets: jade, wiredep, inject, assets come in that order |
| BuildTasks.Prefixed | app/templates/gulp/build.js:51-53 | the rewrite keeps the length, and each entry becomes `src` followed by the old entry |
| BuildTasks.PrefixedTwice | app/templates/gulp/build.js:51-53 | two rewrites equal one with `src + src`; with a non-empty `src` and list the rewrite is not idempotent |
| BuildTasks.CopyTask | app/templates/gulp/build.js:47-60 | the array is rewritten in place to the prefixed list; an empty list yields nothing, otherwise the rewritten list is what is copied |
| BuildTasks.CopyTwice | app/templates/gulp/build.js:49-53 | two runs on the same shared list prefix every entry with `src` twice |
| BuildTasks.NonEmpty | app/templates/gulp/build.js:91-93 | no longer than its input; every non-empty entry is kept and nothing else is |
| BuildTasks.ImagePaths | app/templates/gulp/build.js:89-93 | the folder list is the non-empty folders among icons, images and pictures, in that order: at most three entries, none empty |
| BuildTasks.DoesWork | app/templates/gulp/build.js:47-230 | the guard of each task body: copy needs a non-empty copy list, fonts a fonts folder, images one of its three folders, a style task a styles folder and `css` equal to its type, jade a truthy jade folder, wiredep a vendor folder that exists; clean, watch, inject, assets and build have none |
| BuildTasks.StyleTasksExclusive | app/templates/gulp/build.js:121-190 | at most one style task does work; each does iff a styles folder is set and `css` equals its type |
| BuildTasks.ImagesGuard | app/templates/gulp/build.js:89-95 | `build:images` does work iff one of its three folders is set |
| WatchTasks.DepsOf | app/templates/gulp/watch.js:121-256 | the four declared dependency arrays (lintstyles, wiredep, inject, watch) in source order, the others empty; every dependency ranks below its dependent and none is `watch:scripts` or `watch:html` |
| WatchTasks.DepsSound | app/templates/gulp/watch.js:121-256 | every dependency of `watch.js` is a declared task and the graph is acyclic |
| WatchTasks.WatchRunsClosed | app/templates/gulp/watch.js:121-256 | the tasks other than scripts and html hold all their dependencies |
| WatchTasks.ReachOfWatch | app/templates/gulp/watch.js:256 | the tasks reachable from `watch` are exactly all but `watch:scripts` and `watch:html` |
| WatchTasks.ReachBelowWatch | app/templates/gulp/watch.js:214-256 | every task but scripts and html is reached from `watch` along the declared edges |
| WatchTasks.ReachBelowLintStyles | app/templates/gulp/watch.js:121 | `watch:lintstyles` reaches the four style tasks |
| WatchTasks.RunOrderOfWatch | app/templates/gulp/watch.js:121-256 | `gulp watch` runs each of those tasks once and nothing else, `watch` last, never scripts or html, jade before wiredep, the style tasks before lintstyles, inject's dependencies before inject |
| WatchTasks.OrderOfWatchRuns | app/templates/gulp/watch.js:121-214 | any repeat-free dependency-first order of exactly those tasks has no scripts or html task and keeps those precedences |
| WatchTasks.DoesWork | app/templates/gulp/watch.js:35-198 | the guard of each task body: a style task needs a styles folder and `css` equal to its type, jade a truthy jade folder, wiredep a vendor folder that exists, scripts a scripts folder; sync, lintstyles, html, inject and watch have none |
| WatchTasks.StyleTasksExclusive | app/templates/gulp/watch.js:35-167 | at most one style task does work, and the style, jade and wiredep guards are those of `build.js` |
| WatchTasks.InjectSources | app/templates/gulp/watch.js:216-222 | one or two globs: the temp css first, and the scripts glob second exactly when a scripts folder is set |
| WatchTasks.StripFirstSegment | app/templates/gulp/watch.js:230 | the file path with everything up to and including the first slash after its first character removed |
| WatchTasks.StripSegment | app/templates/gulp/watch.js:230 | a path `c dir/rest` whose first segment has no slash becomes `rest` |
| WatchTasks.StripNoSlash | app/templates/gulp/watch.js:230 | with no slash after the first character, only that character is dropped |
| WatchTasks.StripExample | app/templates/gulp/watch.js:230 | `/app/scripts/main.js` becomes `scripts/main.js` |
| WatchTasks.TargetPath | app/templates/gulp/watch.js:228 | the page path from just past the first occurrence of the root |
| WatchTasks.TargetPathSplit | app/templates/gulp/watch.js:227-228 | when the root occurs, the target path is what follows its first occurrence; when it does not, it is what follows the first `\|root\| - 1` characters |
| WatchTasks.InjectPath | app/templates/gulp/watch.js:224-236 | `../` is prepended exactly once when the target path has a slash, whatever its depth, and never otherwise |
| WatchTasks.StylesRule | app/templates/gulp/watch.js:259 | style sources of every preprocessor under the styles folder start `watch:inject` |
| WatchTasks.JadeRule | app/templates/gulp/watch.js:263 | jade sources under the jade folder start `watch:inject` |
| WatchTasks.ScriptsRule | app/templates/gulp/watch.js:267 | scripts under the scripts folder start `watch:scripts` |
| WatchTasks.HtmlRule | app/templates/gulp/watch.js:270 | every html page outside the vendor folder starts `watch:html` |
| WatchTasks.Rules | app/templates/gulp/watch.js:256-270 | the styles rule is registered iff a styles folder is set and `css` is truthy, the jade rule iff `folder.jade` is truthy, the scripts rule iff a scripts folder is set; html always, last; source order kept |
| WatchTasks.RegisterRules | app/templates/gulp/watch.js:258-270 | the `gulp.watch` calls register exactly the rule table |
| WatchTasks.RulesDistinct | app/templates/gulp/watch.js:259-270 | the four rules differ from one another for every config |
| WatchTasks.ScriptsAndHtmlOnlyByRules | app/templates/gulp/watch.js:174-270 | `watch:scripts` and `watch:html` are unreachable from `watch` and are started by their rules |
| GeneratedProject.RenderedConfigShape | app/templates/gulp/config.js:24-34 | for all answers the written config evaluates; `csstype` = `folder.styles` = the chosen style (styles for any); `folder.jade` is `jade` iff jade was chosen, else `false`; no `css` key |
| GeneratedProject.NoStyleTaskRuns | app/templates/gulp/config.js:24 | as written, no style task of either file does work and the styles watch rule is never registered |
| GeneratedProject.IntendedStyleTask | app/templates/gulp/build.js:121-190 | with `css` set, exactly the style task of the chosen type does work in each file, stylus never, and the styles rule is registered |
| GeneratedProject.StyleWorkUnderCss | app/templates/gulp/build.js:121-190 | when `css` and the styles folder name one shipped style type, exactly that type's task does work in each file, stylus never, and the styles rule is registered |
| GeneratedProject.RenderedBuildWork | app/templates/gulp/build.js:47-230 | under the written config copy always works, fonts and images never, jade iff jade was chosen, wiredep iff the vendor folder exists, `watch:scripts` always |
| GeneratedProject.WorkUnderDefaults | app/templates/gulp/build.js:49-230 | the guards a config with the template's fixed values passes |

## Left out

- The gulp plugins are not modelled: imagemin, the style compilers, jade, concat, sourcemaps, the linters, uglify, csso, autoprefixer, useref, rev, minifyHtml, notify, rimraf, wiredep and inject's tag renderer. They are library calls whose behaviour is not visible here. Each task body is reduced to the guard that decides whether it does work, and the inject path stops at the `filepath` handed to the renderer.
- browser-sync servers and reload streams (`build:watch`, `watch:sync`) are left out because they are I/O and a live server. `build:watch` and `build:clean` appear only as nodes of the graph.
- Concurrency in gulp's orchestrator and the delivery of `gulp.watch` events are left out. Only the sequential, deduplicated, dependency-first order is modelled.
- `fs.existsSync(src + vendors)` is the boolean parameter `vendorsExist`, because it reads the file system.
- The `abspaths` command-line flag of `build` (build.js:308) is left out because its effect is a gulp-replace rewrite.
- The Yeoman plumbing is left out: the prompt UI, yosay and chalk output, `installDependencies` at the end of a run, and `this.pkg`. File copies and renders are recorded as operations, not performed. The contents of the rendered manifests are not part of this model.
- Folder values of `false`: the config comments allow a folder to be `false` as well as `''`. Only `folder.jade` is modelled as a value that can be a boolean; every other folder is a string, with `''` for disabled.
- Positions in `slice` and `indexOf` are counted in Unicode code points, while JavaScript counts UTF-16 code units. The model therefore differs from JavaScript only for characters outside the Basic Multilingual Plane. The generator's paths are ASCII and never contain them.
- String literals with escapes: `EvalLiteral` accepts only plain single-quoted strings and booleans. Every value the generator pastes is of that kind.
- BuildTasks.RunOrderOfBuild: states the set of tasks run, that each runs once, that the root runs last and that the declared precedences hold, but not the complete sequence. The source promises no more than dependency-first execution.
- WatchTasks.RunOrderOfWatch: as above, for `watch`.
- BuildTasks.CopyTask: the shared config list is the array passed in, and a second run in the same process is modelled by passing the same array again (`CopyTwice`). Module caching by `require` is not modelled.

## Findings

| source | as written | input that shows it | evidently intended | confidence | as-written member | corrected member |
|---|---|---|---|---|---|---|
| app/templates/gulp/config.js:24 | the template exports the style type as `csstype`, but every style task (build.js:123, 143, 163, 187; watch.js:37, 58, 79, 101) and the styles watch rule (watch.js:258) test `config.css`, which is `undefined` | any answers, e.g. styles = sass: `build:sass` does nothing and no styles rule is registered | the style task of the chosen type compiles the styles and the styles rule is registered | not executed | GeneratedProject.NoStyleTaskRuns | GeneratedProject.IntendedStyleTask |
