/**
 * The record that `gulp/config.js` exports once the generator has rendered
 * its two placeholders, `<%= yeomify_styles %>` and `<%= yeomify_jade %>`.
 */
module GulpConfig {
  import opened Wrappers
  import opened Js

  /** The `folder` record: folder names under `src`; '' switches the feature off. */
  datatype Folder = Folder(
    fonts: string,
    icons: string,
    images: string,
    pictures: string,
    jade: JsVal,
    styles: string,
    scripts: string,
    vendors: string)

  /**
   * The exported config. `csstype` is the style key the template defines;
   * `css` is the key every style task reads, and is None (`undefined`) when
   * the record has no such key.
   */
  datatype Config = Config(
    dist: string,
    src: string,
    tmp: string,
    rev: bool,
    csstype: string,
    css: Option<string>,
    folder: Folder,
    browsers: seq<string>,
    copyfiles: seq<string>)

  /** The values handed to a template's `yeomify_*` placeholders; `name` and `desc` are absent from the gulp context. */
  datatype TemplateContext = TemplateContext(
    name: Option<string>,
    desc: Option<string>,
    jade: JsVal,
    styles: string,
    libs: JsVal)

  /** The autoprefixer targets. */
  const Browsers: seq<string> := ["Firefox < 20", "Chrome < 20", "Opera < 12"]

  /**
   * Renders `gulp/config.js` and evaluates it. `csstype` and `folder.styles`
   * both read `'<%= yeomify_styles %>'`, a quoted placeholder; `folder.jade`
   * reads `<%= yeomify_jade %>` unquoted, so the pasted text must itself be a
   * literal. None when either pasted text does not evaluate to a literal.
   */
  function Render(ctx: TemplateContext): (r: Option<Config>)
    ensures r.Some? <==> Plain(ctx.styles) && EvalLiteral(ToStr(ctx.jade)).Some?
    ensures r.Some? ==> r.value.csstype == ctx.styles && r.value.folder.styles == ctx.styles
    ensures r.Some? ==> r.value.css == None
    ensures r.Some? && ctx.jade.Bool? ==> r.value.folder.jade == ctx.jade
    ensures forall s | Plain(s) && ctx.jade == Str(Quote(s)) && Plain(ctx.styles) :: r.Some? && r.value.folder.jade == Str(s)
  {
    assert Plain(ctx.styles) ==> EvalLiteral(Quote(ctx.styles)) == Some(Str(ctx.styles)) by {
      if Plain(ctx.styles) { EvalQuote(ctx.styles); }
    }
    assert ctx.jade.Bool? ==> EvalLiteral(ToStr(ctx.jade)) == Some(ctx.jade) by {
      if ctx.jade.Bool? { EvalBool(ctx.jade.b); }
    }
    assert forall s | Plain(s) && ctx.jade == Str(Quote(s)) :: EvalLiteral(ToStr(ctx.jade)) == Some(Str(s)) by {
      forall s | Plain(s) && ctx.jade == Str(Quote(s)) ensures EvalLiteral(ToStr(ctx.jade)) == Some(Str(s)) {
        EvalQuote(s);
      }
    }
    var styles := EvalLiteral(Quote(ctx.styles));
    var jade := EvalLiteral(ToStr(ctx.jade));
    if styles.Some? && styles.value.Str? && jade.Some? then
      Some(Config(
        "./dist/", "./app/", ".tmp", false,
        styles.value.s, None,
        Folder("", "", "", "", jade.value, styles.value.s, "scripts", "bower_components"),
        Browsers, ["favicon.ico"]))
    else None
  }

  /**
   * The config as the evident intent has it: the style key the tasks read,
   * `css`, carries the selected style type.
   */
  function RenderWithCss(ctx: TemplateContext): (r: Option<Config>)
    ensures r.Some? <==> Render(ctx).Some?
    ensures r.Some? ==> r.value.css == Some(ctx.styles) && r.value.css == Some(r.value.csstype)
    ensures r.Some? ==> r.value == Render(ctx).value.(css := Some(ctx.styles))
  {
    match Render(ctx)
    case Some(c) => Some(c.(css := Some(c.csstype)))
    case None => None
  }

  /** The project root as `watch.js` computes it: `config.src.slice(2)`. */
  function Root(c: Config): string {
    Slice(c.src, 2)
  }

  /** The guard of the four style tasks of both gulp files: a styles folder is set and `config.css === kind`. */
  predicate StyleGuard(c: Config, kind: string) {
    c.folder.styles != "" && c.css == Some(kind)
  }

  /**
   * Whatever the answers, the rendered record keeps the template's fixed
   * values: hashing off, fonts and image folders disabled, scripts and
   * vendors fixed, `favicon.ico` the only file to copy, and the root `app/`.
   */
  lemma RenderedDefaults(ctx: TemplateContext)
    requires Render(ctx).Some?
    ensures var c := Render(ctx).value;
      && !c.rev
      && c.src == "./app/" && c.dist == "./dist/" && c.tmp == ".tmp" && Root(c) == "app/"
      && c.folder.fonts == "" && c.folder.icons == "" && c.folder.images == "" && c.folder.pictures == ""
      && c.folder.scripts == "scripts" && c.folder.vendors == "bower_components"
      && c.copyfiles == ["favicon.ico"]
  {
  }
}
