/**
 * The project that one run of the generator leaves behind, end to end: the
 * answers become the normalised values, those fill `gulp/config.js`, and the
 * rendered record decides which tasks of `build.js` and `watch.js` do work.
 */
module GeneratedProject {
  import opened Wrappers
  import opened Js
  import opened GulpConfig
  import Generator
  import BuildTasks
  import WatchTasks

  /** The style folder name a run ends up with: the chosen one, and `styles` for "any". */
  function ChosenStyles(a: Generator.Answers): string {
    if a.styles.Some? && a.styles.value != Generator.Any then Generator.ChoiceName(a.styles.value) else "styles"
  }

  /** The `gulp/config.js` that a run with answers `a` writes, evaluated. */
  function RenderedConfig(a: Generator.Answers): Option<Config> {
    Render(Generator.GulpContext(Generator.Normalise(Generator.Ask(a))))
  }

  /**
   * Whatever the answers, the written config evaluates; its `csstype` and
   * its styles folder are the chosen style type, one of the three folders
   * the generator ships; its jade folder is `jade` exactly when jade was
   * chosen and `false` otherwise; and it has no `css` key.
   */
  lemma RenderedConfigShape(a: Generator.Answers)
    ensures RenderedConfig(a).Some?
    ensures var c := RenderedConfig(a).value;
      && c.csstype == c.folder.styles == ChosenStyles(a)
      && c.csstype in Generator.CssTypes
      && c.folder.jade == (if a.jade == Some(true) then Str("jade") else Bool(false))
      && c.css == None
  {
    var q := Generator.Ask(a);
    var n := Generator.Normalise(q);
    Generator.NormalisedRange(q);
    assert Plain("sass") && Plain("less") && Plain("styles") && Plain("jade");
    assert n.styles == ChosenStyles(a);
    if a.jade == Some(true) {
      assert n.jade == Str(Quote("jade"));
    } else {
      EvalBool(false);
    }
  }

  /**
   * As written, no style task ever does work, in either gulp file, and the
   * styles watch rule is never registered: the template names the style key
   * `csstype`, while every guard reads `config.css`.
   */
  lemma NoStyleTaskRuns(a: Generator.Answers, vendorsExist: bool)
    ensures RenderedConfig(a).Some?
    ensures var c := RenderedConfig(a).value;
      && (forall t | BuildTasks.StyleKind(t).Some? :: !BuildTasks.DoesWork(c, vendorsExist, t))
      && (forall t | WatchTasks.StyleKind(t).Some? :: !WatchTasks.DoesWork(c, vendorsExist, t))
      && WatchTasks.StylesRule(c) !in WatchTasks.Rules(c)
  {
    RenderedConfigShape(a);
  }

  /** The config as evidently intended: the key the style tasks read carries the chosen style type. */
  function IntendedConfig(a: Generator.Answers): Option<Config> {
    RenderWithCss(Generator.GulpContext(Generator.Normalise(Generator.Ask(a))))
  }

  /**
   * With the intended config, exactly the style task of the chosen type
   * does work in each gulp file (so `stylus`, which no answer selects,
   * never does), and the styles watch rule is registered.
   */
  lemma IntendedStyleTask(a: Generator.Answers, vendorsExist: bool)
    ensures IntendedConfig(a).Some?
    ensures var c := IntendedConfig(a).value;
      && c.css == Some(ChosenStyles(a))
      && (forall t | BuildTasks.StyleKind(t).Some? :: BuildTasks.DoesWork(c, vendorsExist, t) <==> BuildTasks.StyleKind(t) == Some(ChosenStyles(a)))
      && (forall t | WatchTasks.StyleKind(t).Some? :: WatchTasks.DoesWork(c, vendorsExist, t) <==> WatchTasks.StyleKind(t) == Some(ChosenStyles(a)))
      && !BuildTasks.DoesWork(c, vendorsExist, BuildTasks.Stylus)
      && !WatchTasks.DoesWork(c, vendorsExist, WatchTasks.Stylus)
      && WatchTasks.StylesRule(c) in WatchTasks.Rules(c)
  {
    var ctx := Generator.GulpContext(Generator.Normalise(Generator.Ask(a)));
    RenderedConfigShape(a);
    var c := IntendedConfig(a).value;
    assert c == Render(ctx).value.(css := Some(ctx.styles));
    StyleWorkUnderCss(c, vendorsExist, ChosenStyles(a));
  }

  /**
   * A config whose `css` and styles folder both name one of the shipped
   * style types runs exactly the style task of that type, in each gulp
   * file, and registers the styles watch rule.
   */
  lemma StyleWorkUnderCss(c: Config, vendorsExist: bool, kind: string)
    requires c.css == Some(kind) && c.folder.styles == kind && kind in Generator.CssTypes
    ensures forall t | BuildTasks.StyleKind(t).Some? :: BuildTasks.DoesWork(c, vendorsExist, t) <==> BuildTasks.StyleKind(t) == Some(kind)
    ensures forall t | WatchTasks.StyleKind(t).Some? :: WatchTasks.DoesWork(c, vendorsExist, t) <==> WatchTasks.StyleKind(t) == Some(kind)
    ensures !BuildTasks.DoesWork(c, vendorsExist, BuildTasks.Stylus) && !WatchTasks.DoesWork(c, vendorsExist, WatchTasks.Stylus)
    ensures WatchTasks.StylesRule(c) in WatchTasks.Rules(c)
  {
  }

  /**
   * Under the written config, `build:copy` always does work (on
   * `favicon.ico`), `build:fonts` and `build:images` never do, the jade
   * tasks do exactly when jade was chosen, the wiredep task exactly when
   * the vendor folder exists, and `watch:scripts` always does.
   */
  lemma RenderedBuildWork(a: Generator.Answers, vendorsExist: bool)
    ensures RenderedConfig(a).Some?
    ensures var c := RenderedConfig(a).value;
      && BuildTasks.DoesWork(c, vendorsExist, BuildTasks.Copy)
      && !BuildTasks.DoesWork(c, vendorsExist, BuildTasks.Fonts)
      && !BuildTasks.DoesWork(c, vendorsExist, BuildTasks.Images)
      && (BuildTasks.DoesWork(c, vendorsExist, BuildTasks.Jade) <==> a.jade == Some(true))
      && (WatchTasks.DoesWork(c, vendorsExist, WatchTasks.Jade) <==> a.jade == Some(true))
      && (BuildTasks.DoesWork(c, vendorsExist, BuildTasks.Wiredep) <==> vendorsExist)
      && WatchTasks.DoesWork(c, vendorsExist, WatchTasks.Scripts)
  {
    RenderedConfigShape(a);
    RenderedDefaults(Generator.GulpContext(Generator.Normalise(Generator.Ask(a))));
    var c := RenderedConfig(a).value;
    WorkUnderDefaults(c, vendorsExist);
  }

  /** Which guards a config with the template's fixed values passes. */
  lemma WorkUnderDefaults(c: Config, vendorsExist: bool)
    requires c.copyfiles == ["favicon.ico"]
    requires c.folder.fonts == "" && c.folder.icons == "" && c.folder.images == "" && c.folder.pictures == ""
    requires c.folder.scripts == "scripts" && c.folder.vendors == "bower_components"
    ensures BuildTasks.DoesWork(c, vendorsExist, BuildTasks.Copy)
    ensures !BuildTasks.DoesWork(c, vendorsExist, BuildTasks.Fonts)
    ensures !BuildTasks.DoesWork(c, vendorsExist, BuildTasks.Images)
    ensures BuildTasks.DoesWork(c, vendorsExist, BuildTasks.Jade) <==> Truthy(c.folder.jade)
    ensures WatchTasks.DoesWork(c, vendorsExist, WatchTasks.Jade) <==> Truthy(c.folder.jade)
    ensures BuildTasks.DoesWork(c, vendorsExist, BuildTasks.Wiredep) <==> vendorsExist
    ensures WatchTasks.DoesWork(c, vendorsExist, WatchTasks.Scripts)
  {
    BuildTasks.ImagesGuard(c, vendorsExist);
  }
}
