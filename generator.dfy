/**
 * The Yeoman generator of `app/index.js`: it asks five questions,
 * normalises the answers in place, and then copies or renders files.
 * The copies and renders are recorded as a log of operations; the file
 * I/O itself belongs to Yeoman.
 */
module Generator {
  import opened Wrappers
  import opened Js
  import GulpConfig

  /** `this.questions`: the answers, rewritten in place by `gulp()`. */
  datatype Questions = Questions(name: string, desc: string, jade: JsVal, styles: string, libs: JsVal)

  /** One choice of the `styles` list prompt. */
  datatype StyleChoice = Sass | Less | Any

  function ChoiceName(c: StyleChoice): string {
    match c
    case Sass => "sass"
    case Less => "less"
    case Any => "any"
  }

  /**
   * What the user typed: an empty text answer, or None for a confirm or list
   * question, means the prompt's default was accepted.
   */
  datatype Answers = Answers(name: string, desc: string, jade: Option<bool>, styles: Option<StyleChoice>, libs: Option<bool>)

  /** The prompt defaults. */
  const Defaults: Questions := Questions("Yeomify", "Yeoman generator", Bool(false), "any", Bool(true))

  /** The style values `gulp()` can leave behind for answers the prompt produced. */
  const CssTypes: seq<string> := ["sass", "less", "styles"]

  /** Answers as the prompt can produce them: booleans for the confirms, a listed choice for the styles. */
  predicate FromPrompt(q: Questions) {
    q.jade.Bool? && q.libs.Bool? && q.styles in ["sass", "less", "any"]
  }

  /** `this.prompt(prompts, ...)`: each answer, or its default when none was given. */
  function Ask(a: Answers): (q: Questions)
    ensures FromPrompt(q)
    ensures q.name == (if a.name == "" then Defaults.name else a.name)
    ensures q.desc == (if a.desc == "" then Defaults.desc else a.desc)
    ensures a.jade.None? ==> q.jade == Defaults.jade
    ensures a.jade.Some? ==> q.jade == Bool(a.jade.value)
    ensures a.styles.None? ==> q.styles == Defaults.styles
    ensures a.styles.Some? ==> q.styles == ChoiceName(a.styles.value)
    ensures a.libs.None? ==> q.libs == Defaults.libs
    ensures a.libs.Some? ==> q.libs == Bool(a.libs.value)
  {
    Questions(
      if a.name == "" then Defaults.name else a.name,
      if a.desc == "" then Defaults.desc else a.desc,
      if a.jade.Some? then Bool(a.jade.value) else Defaults.jade,
      if a.styles.Some? then ChoiceName(a.styles.value) else Defaults.styles,
      if a.libs.Some? then Bool(a.libs.value) else Defaults.libs)
  }

  /**
   * Lines 89-91 of `gulp()`: a truthy `jade` becomes the source text
   * `'jade'`, the style `any` becomes `styles`, and a truthy `libs` becomes
   * the source text `'bower_components'`; falsy values are kept as they are.
   */
  function Normalise(q: Questions): (r: Questions)
    ensures r.name == q.name && r.desc == q.desc
    ensures Truthy(r.jade) == Truthy(q.jade) && Truthy(r.libs) == Truthy(q.libs)
    ensures Truthy(q.jade) ==> r.jade == Str(Quote("jade"))
    ensures !Truthy(q.jade) ==> r.jade == q.jade
    ensures Truthy(q.libs) ==> r.libs == Str(Quote("bower_components"))
    ensures !Truthy(q.libs) ==> r.libs == q.libs
    ensures q.styles == "any" ==> r.styles == "styles"
    ensures q.styles != "any" ==> r.styles == q.styles
  {
    var withJade := if Truthy(q.jade) then q.(jade := Str("'jade'")) else q;
    var withStyles := if withJade.styles == "any" then withJade.(styles := "styles") else withJade;
    if Truthy(withStyles.libs) then withStyles.(libs := Str("'bower_components'")) else withStyles
  }

  /** After `gulp()`, prompt answers hold a style among sass, less and styles, and jade and libs hold `false` or their quoted text. */
  lemma NormalisedRange(q: Questions)
    requires FromPrompt(q)
    ensures Normalise(q).styles in CssTypes
    ensures Normalise(q).jade == (if q.jade.b then Str("'jade'") else Bool(false))
    ensures Normalise(q).libs == (if q.libs.b then Str("'bower_components'") else Bool(false))
  {
  }

  /** Running lines 89-91 a second time changes nothing. */
  lemma NormaliseIdempotent(q: Questions)
    ensures Normalise(Normalise(q)) == Normalise(q)
  {
  }

  /** A copy, template render or directory copy that the generator asks Yeoman for. */
  datatype FileOp =
    | Copy(from: string, to: string)
    | Template(from: string, to: string, ctx: GulpConfig.TemplateContext)
    | Directory(from: string, to: string)

  /** The context `gulp()` renders `gulp/config.js` with. */
  function GulpContext(q: Questions): GulpConfig.TemplateContext {
    GulpConfig.TemplateContext(None, None, q.jade, q.styles, q.libs)
  }

  /** The context `context()` renders `bower.json`, `package.json` and `readme.md` with. */
  function FullContext(q: Questions): GulpConfig.TemplateContext {
    GulpConfig.TemplateContext(Some(q.name), Some(q.desc), q.jade, q.styles, q.libs)
  }

  /** The operations of `dotfiles()`. */
  function DotfileOps(): seq<FileOp> {
    [Copy(".bowerrc", ".bowerrc"), Copy(".gitattributes", ".gitattributes"), Copy(".gitignore", ".gitignore")]
  }

  /** The operations of `gulp()` once `q` is normalised. */
  function GulpOps(q: Questions): seq<FileOp> {
    [ Copy("gulpfile.js", "gulpfile.js"),
      Copy("gulp/watch.js", "gulp/watch.js"),
      Copy("gulp/build.js", "gulp/build.js"),
      Template("gulp/config.js", "gulp/config.js", GulpContext(q)) ]
  }

  /** The operations of `context()`. */
  function ContextOps(q: Questions): seq<FileOp> {
    [ Template("bower.json", "bower.json", FullContext(q)),
      Template("package.json", "package.json", FullContext(q)),
      Template("readme.md", "readme.md", FullContext(q)) ]
  }

  /**
   * The operations of `folder()`: the jade sources are copied exactly when
   * `jade` is truthy, and the folder named by `styles` is always copied
   * from `landing/` to `app/`.
   */
  function FolderOps(q: Questions): (ops: seq<FileOp>)
    ensures Directory("landing/" + q.styles, "app/" + q.styles) in ops
    ensures q.styles != "jade" ==> (Directory("landing/jade", "app/jade") in ops <==> Truthy(q.jade))
    ensures forall op | op in ops :: !op.Template?
  {
    var base := [
      Directory("landing/scripts", "app/scripts"),
      Copy("landing/favicon.ico", "app/favicon.ico"),
      Copy("landing/index.html", "app/index.html")];
    var jade := if Truthy(q.jade) then [Directory("landing/jade", "app/jade")] else [];
    var ops := base + jade + [Directory("landing/" + q.styles, "app/" + q.styles)];
    assert ("landing/" + q.styles)[8..] == q.styles;
    assert Directory("landing/jade", "app/jade") !in base;
    ops
  }

  /** Among the files `gulp()` writes, only `gulp/config.js` is rendered; the other three are copied verbatim. */
  lemma OnlyConfigIsTemplated(q: Questions)
    ensures forall op | op in GulpOps(q) :: op.Template? <==> op.from == "gulp/config.js"
    ensures forall op | op in GulpOps(q) && op.Copy? :: op.from == op.to
  {
  }

  /** The generator: the answers and the log of file operations so far. */
  class Generator {
    var questions: Questions
    var ops: seq<FileOp>

    /** `init` and `ask`: record the answers to the prompt. */
    constructor (a: Answers)
      ensures questions == Ask(a) && ops == []
    {
      questions := Ask(a);
      ops := [];
    }

    /** `dotfiles()`. */
    method Dotfiles()
      modifies this
      ensures questions == old(questions)
      ensures ops == old(ops) + DotfileOps()
    {
      ops := ops + [Copy(".bowerrc", ".bowerrc"), Copy(".gitattributes", ".gitattributes"), Copy(".gitignore", ".gitignore")];
    }

    /** `gulp()`: normalise the answers field by field, then write the gulp files. */
    method Gulp()
      modifies this
      ensures questions == Normalise(old(questions))
      ensures ops == old(ops) + GulpOps(questions)
    {
      if Truthy(questions.jade) {
        questions := questions.(jade := Str("'jade'"));
      }
      if questions.styles == "any" {
        questions := questions.(styles := "styles");
      }
      if Truthy(questions.libs) {
        questions := questions.(libs := Str("'bower_components'"));
      }
      var context := GulpConfig.TemplateContext(None, None, questions.jade, questions.styles, questions.libs);
      ops := ops + [
        Copy("gulpfile.js", "gulpfile.js"),
        Copy("gulp/watch.js", "gulp/watch.js"),
        Copy("gulp/build.js", "gulp/build.js"),
        Template("gulp/config.js", "gulp/config.js", context)];
    }

    /** `context()`: render the manifests and the readme. */
    method Context()
      modifies this
      ensures questions == old(questions)
      ensures ops == old(ops) + ContextOps(questions)
    {
      var context := GulpConfig.TemplateContext(Some(questions.name), Some(questions.desc), questions.jade, questions.styles, questions.libs);
      ops := ops + [
        Template("bower.json", "bower.json", context),
        Template("package.json", "package.json", context),
        Template("readme.md", "readme.md", context)];
    }

    /** `folder()`: copy the landing page sources. */
    method Folder()
      modifies this
      ensures questions == old(questions)
      ensures ops == old(ops) + FolderOps(questions)
    {
      ops := ops + [
        Directory("landing/scripts", "app/scripts"),
        Copy("landing/favicon.ico", "app/favicon.ico"),
        Copy("landing/index.html", "app/index.html")];
      if Truthy(questions.jade) {
        ops := ops + [Directory("landing/jade", "app/jade")];
      }
      ops := ops + [Directory("landing/" + questions.styles, "app/" + questions.styles)];
    }
  }

  /** Everything a run writes, for the given answers. */
  function ScaffoldOps(a: Answers): seq<FileOp> {
    var q := Normalise(Ask(a));
    DotfileOps() + GulpOps(q) + ContextOps(q) + FolderOps(q)
  }

  /** A whole generator run: Yeoman calls the prototype methods in declaration order. */
  method Scaffold(a: Answers) returns (ops: seq<FileOp>, questions: Questions)
    ensures questions == Normalise(Ask(a))
    ensures ops == ScaffoldOps(a)
  {
    var gen := new Generator(a);
    gen.Dotfiles();
    gen.Gulp();
    gen.Context();
    gen.Folder();
    ops, questions := gen.ops, gen.questions;
  }

  /**
   * In a run, `gulp/config.js` and the three files of `context()` are
   * rendered with the same normalised jade, styles and libs values.
   */
  lemma ContextsAgree(a: Answers)
    ensures forall i, j | 0 <= i < |ScaffoldOps(a)| && 0 <= j < |ScaffoldOps(a)| && ScaffoldOps(a)[i].Template? && ScaffoldOps(a)[j].Template? ::
      var c, d := ScaffoldOps(a)[i].ctx, ScaffoldOps(a)[j].ctx;
      c.jade == d.jade && c.styles == d.styles && c.libs == d.libs
    ensures Template("gulp/config.js", "gulp/config.js", GulpContext(Normalise(Ask(a)))) in ScaffoldOps(a)
    ensures Template("bower.json", "bower.json", FullContext(Normalise(Ask(a)))) in ScaffoldOps(a)
  {
    var q := Normalise(Ask(a));
    var ops := ScaffoldOps(a);
    forall op | op in ops && op.Template? ensures op.ctx.jade == q.jade && op.ctx.styles == q.styles && op.ctx.libs == q.libs {
      assert op in DotfileOps() || op in GulpOps(q) || op in ContextOps(q) || op in FolderOps(q);
    }
    assert ops[6] == Template("gulp/config.js", "gulp/config.js", GulpContext(q));
    assert ops[7] == Template("bower.json", "bower.json", FullContext(q));
  }

  /**
   * In a run, `landing/jade` is copied exactly when jade was chosen, and the
   * copied style folder is `sass`, `less` or, for `any`, `styles`.
   */
  lemma ScaffoldFolders(a: Answers)
    ensures Directory("landing/jade", "app/jade") in ScaffoldOps(a) <==> a.jade == Some(true)
    ensures exists s | s in CssTypes :: Directory("landing/" + s, "app/" + s) in ScaffoldOps(a)
  {
    var q := Normalise(Ask(a));
    NormalisedRange(Ask(a));
    var ops := ScaffoldOps(a);
    assert Directory("landing/jade", "app/jade") !in DotfileOps() + GulpOps(q) + ContextOps(q);
    assert Directory("landing/" + q.styles, "app/" + q.styles) in FolderOps(q);
  }
}
