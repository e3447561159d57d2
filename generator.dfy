/**
 * The generator object: the answers the prompts leave on it, and the four
 * steps that turn them into a plan of file operations. `SetAppName` is
 * `_setAppName`, `ChooseViewEngine` is `chooseViewEngine`, `SetParams` is
 * `setParams` and `Writing` is `writing`; `Generate` runs them in the order
 * the generator framework does.
 */
module Generator {
  import opened Js
  import opened Slug
  import opened Settings
  import opened Resolver
  import opened Dependencies
  import opened Scaffold

  /** What the command-line option and the prompts leave on the generator before `setParams`. */
  datatype Answers = Answers(
    standardInstall: JsValue,
    createDir: JsValue,
    dirname: JsValue,
    generateSSL: JsValue,
    templatingEngine: JsValue,
    server: Server,
    cssCompiler: JsValue,
    jsCompiler: JsValue,
    modelsPath: string,
    viewsPath: string,
    controllersPath: string)

  /**
   * The generator's fields. The port and HTTPS settings, the compilers and
   * MVC paths, and the state `setParams` derives are kept in three record
   * fields (`server`, `layout`, `build`) whose members carry the source's
   * field names; each step updates them one member at a time.
   */
  class RooseveltGenerator {
    /** The defaults file. */
    const defaults: Defaults

    var standardInstall: JsValue
    var createDir: JsValue
    var dirname: JsValue
    /** Read by `setParams` for the HTTPS switch; no prompt assigns it. */
    var https: JsValue
    var generateSSL: JsValue
    var templatingEngine: JsValue
    var viewEngineList: Option<seq<string>>
    var appName: string
    var packageName: string
    var destination: JsValue
    var server: Server
    var layout: Layout
    var build: Build
    /** The file operations issued so far. */
    var plan: seq<Op>

    constructor (d: Defaults, a: Answers)
      ensures defaults == d
      ensures standardInstall == a.standardInstall && createDir == a.createDir && dirname == a.dirname
      ensures https == Undefined && generateSSL == a.generateSSL
      ensures templatingEngine == a.templatingEngine && viewEngineList == None
      ensures appName == "" && packageName == "" && destination == Undefined
      ensures server == a.server
      ensures layout == Layout(a.cssCompiler, a.jsCompiler, a.modelsPath, a.viewsPath, a.controllersPath, Unresolved)
      ensures build == Build([], map[], false, ParamsUnset, Undefined, Undefined, ParamsUnset)
      ensures plan == []
    {
      defaults := d;
      standardInstall := a.standardInstall;
      createDir := a.createDir;
      dirname := a.dirname;
      https := Undefined;
      generateSSL := a.generateSSL;
      templatingEngine := a.templatingEngine;
      viewEngineList := None;
      appName := "";
      packageName := "";
      destination := Undefined;
      server := a.server;
      layout := Layout(a.cssCompiler, a.jsCompiler, a.modelsPath, a.viewsPath, a.controllersPath, Unresolved);
      build := Build([], map[], false, ParamsUnset, Undefined, Undefined, ParamsUnset);
      plan := [];
    }

    /** `_setAppName`: the answer or the default name, and its npm-safe form. */
    method SetAppName(answer: Option<string>)
      modifies this`appName, this`packageName
      ensures appName == ResolveAppName(answer, defaults.appName)
      ensures packageName == PackageName(appName)
    {
      appName := ResolveAppName(answer, defaults.appName);
      packageName := PackageName(appName);
    }

    /**
     * `chooseViewEngine`, given the answers of the successive prompt rounds:
     * nothing when no templating engine is wanted, otherwise one entry per
     * round until a round declines another engine.
     */
    method ChooseViewEngine(rounds: seq<EngineAnswers>)
      modifies this`viewEngineList
      ensures !Truthy(templatingEngine) ==> viewEngineList == old(viewEngineList)
      ensures Truthy(templatingEngine) ==>
        viewEngineList == Some(ListOr(old(viewEngineList), []) + EngineEntries(rounds))
      decreases |rounds|
    {
      if !Truthy(templatingEngine) {
        return;
      }
      var list := ListOr(viewEngineList, []);
      if rounds == [] {
        assert list + EngineEntries(rounds) == list;
        viewEngineList := Some(list);
      } else {
        viewEngineList := Some(list + [EngineEntry(rounds[0])]);
        if rounds[0].additionalTemplatingEngines {
          ChooseViewEngine(rounds[1..]);
          assert EngineEntries(rounds) == [EngineEntry(rounds[0])] + EngineEntries(rounds[1..]);
          assert list + [EngineEntry(rounds[0])] + EngineEntries(rounds[1..]) == list + EngineEntries(rounds);
        } else {
          assert EngineEntries(rounds) == [EngineEntry(rounds[0])];
        }
      }
    }

    /** `setParams`: resolve every setting against the defaults, then derive the build configuration from the resolved settings. */
    method SetParams()
      requires WellFormed(defaults)
      modifies this`destination, this`server, this`layout, this`build
      ensures destination == Destination(standardInstall, createDir, dirname, packageName)
      ensures server == ResolvedServer(old(server), https, defaults)
      ensures layout == ResolvedLayout(old(layout), templatingEngine, viewEngineList, defaults)
      ensures build == ResolvedBuild(old(build), defaults, layout.viewEngine, layout.cssCompiler, layout.jsCompiler)
    {
      build := build.(staticsSymlinksToPublic := ["images"]);
      ResolveDestination();
      ResolveServer();
      ResolveLayout();
      ResolveBuild();
    }

    /** The destination rule of `setParams`. */
    method ResolveDestination()
      modifies this`destination
      ensures destination == Destination(standardInstall, createDir, dirname, packageName)
    {
      if standardInstall == Str("true") {
        destination := Str(packageName);
      } else if Truthy(standardInstall) || Truthy(createDir) {
        destination := Or(standardInstall, dirname);
      } else {
        destination := Undefined;
      }
    }

    method ResolveServer()
      modifies this`server
      ensures server == ResolvedServer(old(server), https, defaults)
    {
      server := server.(httpPort := Or(server.httpPort, defaults.httpPort));
      server := server.(enableHTTPS := Or(https, defaults.httpsEnable));
      server := server.(httpsOnly := Or(server.httpsOnly, defaults.httpsOnly));
      server := server.(httpsPort := Or(server.httpsPort, defaults.httpsPort));
      server := server.(pfx := Bool(server.pfx == Str(".pfx")));
      server := server.(keyPath := Or(server.keyPath, defaults.keyPath));
      server := server.(passphrase := Or(server.passphrase, defaults.passphrase));
      server := server.(ca := Or(server.ca, defaults.ca));
      server := server.(requestCert := Or(server.requestCert, defaults.requestCert));
      server := server.(rejectUnauthorized := Or(server.rejectUnauthorized, defaults.rejectUnauthorized));
    }

    method ResolveLayout()
      modifies this`layout
      ensures layout == ResolvedLayout(old(layout), templatingEngine, viewEngineList, defaults)
    {
      layout := layout.(cssCompiler := Or(layout.cssCompiler, Str("default")));
      layout := layout.(jsCompiler := Or(layout.jsCompiler, Str("default")));
      layout := layout.(modelsPath := OrString(layout.modelsPath, defaults.modelsPath));
      layout := layout.(viewsPath := OrString(layout.viewsPath, defaults.viewsPath));
      layout := layout.(controllersPath := OrString(layout.controllersPath, defaults.controllersPath));
      if templatingEngine != Bool(false) {
        layout := layout.(viewEngine := Engines(ListOr(viewEngineList, defaults.viewEngine)));
      } else {
        layout := layout.(viewEngine := NoViewEngine);
      }
    }

    /** Teddy detection, the dependency manifest, the symlinks and the compiler blocks. */
    method ResolveBuild()
      requires WellFormed(defaults) && build.staticsSymlinksToPublic == ["images"]
      modifies this`build
      ensures build == ResolvedBuild(old(build), defaults, layout.viewEngine, layout.cssCompiler, layout.jsCompiler)
    {
      ResolveTeddy();
      AddCssParams();
      AddJsParams();
    }

    /** The manifest starts as the base bundle, extended by teddy's when teddy is used. */
    method ResolveTeddy()
      modifies this`build
      ensures build.staticsSymlinksToPublic == old(build.staticsSymlinksToPublic)
      ensures build.usesTeddy == (old(build.usesTeddy) || (layout.viewEngine.Engines? && MentionsTeddy(layout.viewEngine.entries)))
      ensures build.dependencies == defaults.dependencies + (if build.usesTeddy then defaults.teddy else map[])
      ensures build.cssCompilerParams == old(build.cssCompilerParams) && build.cssExt == old(build.cssExt)
      ensures build.cssSyntax == old(build.cssSyntax) && build.jsCompilerParams == old(build.jsCompilerParams)
    {
      build := build.(dependencies := defaults.dependencies);
      DetectTeddy();
      if build.usesTeddy {
        build := build.(dependencies := build.dependencies + defaults.teddy);
      } else {
        assert build.dependencies + map[] == build.dependencies;
      }
    }

    /** The `forEach` over the engine entries: teddy is used once some entry names it. */
    method DetectTeddy()
      modifies this`build
      ensures build == old(build).(usesTeddy := old(build.usesTeddy) || (layout.viewEngine.Engines? && MentionsTeddy(layout.viewEngine.entries)))
    {
      if layout.viewEngine != NoViewEngine && layout.viewEngine.Engines? {
        var entries := layout.viewEngine.entries;
        var i := 0;
        while i < |entries|
          invariant 0 <= i <= |entries|
          invariant build == old(build).(usesTeddy := old(build.usesTeddy) || exists j :: 0 <= j < i && Includes(entries[j], "teddy"))
        {
          if Includes(entries[i], "teddy") {
            build := build.(usesTeddy := true);
          }
          i := i + 1;
        }
      }
    }

    /** The CSS preprocessor block: its symlink entry, dependency bundle, options and script settings. */
    method AddCssParams()
      requires WellFormed(defaults)
      modifies this`build
      ensures var css := CssSection(defaults, layout.cssCompiler);
        var none := layout.cssCompiler == Str("none");
        build == old(build).(
          staticsSymlinksToPublic := old(build.staticsSymlinksToPublic) + [if none then "css" else "css: .build/css"],
          dependencies := old(build.dependencies) + Part(css),
          cssCompilerParams := if none then ParamsNone else if css.Some? then ParamsOf(css.value.options) else old(build.cssCompilerParams),
          cssExt := if none then Str("css") else if css.Some? then css.value.cssExt else old(build.cssExt),
          cssSyntax := if none then Str("") else if css.Some? then css.value.cssSyntax else old(build.cssSyntax))
    {
      if layout.cssCompiler != Str("none") {
        build := build.(staticsSymlinksToPublic := build.staticsSymlinksToPublic + ["css: .build/css"]);
        var section := CssSection(defaults, layout.cssCompiler);
        if section.Some? {
          build := build.(dependencies := build.dependencies + section.value.dependencies);
          build := build.(cssCompilerParams := ParamsOf(section.value.options));
          build := build.(cssExt := section.value.cssExt);
          build := build.(cssSyntax := section.value.cssSyntax);
        } else {
          assert build.dependencies + map[] == build.dependencies;
        }
      } else {
        build := build.(staticsSymlinksToPublic := build.staticsSymlinksToPublic + ["css"]);
        build := build.(cssCompilerParams := ParamsNone);
        build := build.(cssExt := Str("css"));
        build := build.(cssSyntax := Str(""));
        assert build.dependencies + map[] == build.dependencies;
      }
    }

    /** The JS compiler block: its symlink entry, dependency bundle and options. */
    method AddJsParams()
      requires WellFormed(defaults)
      modifies this`build
      ensures var js := JsSection(defaults, layout.jsCompiler);
        var none := layout.jsCompiler == Str("none");
        build == old(build).(
          staticsSymlinksToPublic := old(build.staticsSymlinksToPublic) + [if none then "js" else "js: .build/js"],
          dependencies := old(build.dependencies) + Part(js),
          jsCompilerParams := if none then ParamsNone else if js.Some? then ParamsOf(js.value.options) else old(build.jsCompilerParams))
    {
      if layout.jsCompiler != Str("none") {
        build := build.(staticsSymlinksToPublic := build.staticsSymlinksToPublic + ["js: .build/js"]);
        var section := JsSection(defaults, layout.jsCompiler);
        if section.Some? {
          build := build.(dependencies := build.dependencies + section.value.dependencies);
          build := build.(jsCompilerParams := ParamsOf(section.value.options));
        } else {
          assert build.dependencies + map[] == build.dependencies;
        }
      } else {
        build := build.(jsCompilerParams := ParamsNone);
        build := build.(staticsSymlinksToPublic := build.staticsSymlinksToPublic + ["js"]);
        assert build.dependencies + map[] == build.dependencies;
      }
    }

    /** The variables `package.json` is rendered with. */
    function ManifestOf(): Manifest
      reads this`packageName, this`server, this`layout, this`build
    {
      Manifest(packageName, build.dependencies, server.httpPort, server.enableHTTPS, server.httpsOnly, server.httpsPort,
               server.pfx, server.keyPath, server.passphrase, server.ca, server.requestCert, server.rejectUnauthorized,
               layout.modelsPath, layout.viewsPath, layout.viewEngine, layout.controllersPath,
               build.cssCompilerParams, build.jsCompilerParams, build.staticsSymlinksToPublic, build.cssExt, build.cssSyntax)
    }

    /** `writing`: issue the file operations section by section. */
    method Writing()
      modifies this`plan
      ensures plan == old(plan) + Plan(Truthy(generateSSL), build.usesTeddy, build.cssExt, appName,
                                      layout.modelsPath, layout.viewsPath, layout.controllersPath, ManifestOf())
    {
      ghost var p0 := plan;
      var m := ManifestOf();
      WriteCertificates();
      ghost var ops := CertificateOps(Truthy(generateSSL));
      WriteProjectFiles(m);
      AppendAssoc(p0, ops, ProjectOps(m));
      ops := ops + ProjectOps(m);
      WriteModels();
      AppendAssoc(p0, ops, ModelOps(build.usesTeddy, layout.modelsPath, appName));
      ops := ops + ModelOps(build.usesTeddy, layout.modelsPath, appName);
      WriteViews();
      AppendAssoc(p0, ops, ViewOps(build.usesTeddy, layout.viewsPath, appName));
      ops := ops + ViewOps(build.usesTeddy, layout.viewsPath, appName);
      WriteControllers();
      AppendAssoc(p0, ops, ControllerOps(build.usesTeddy, layout.controllersPath));
      ops := ops + ControllerOps(build.usesTeddy, layout.controllersPath);
      WriteStylesheets();
      AppendAssoc(p0, ops, StylesheetOps(build.cssExt));
      ops := ops + StylesheetOps(build.cssExt);
      WriteStatics();
      AppendAssoc(p0, ops, StaticOps());
    }

    method WriteCertificates()
      modifies this`plan
      ensures plan == old(plan) + CertificateOps(Truthy(generateSSL))
    {
      if Truthy(generateSSL) {
        plan := plan + [WritePem("public.pem", PublicKeyPem)];
        plan := plan + [WritePem("certPem.pem", CertificatePem)];
        plan := plan + [WritePem("privatePem.pem", PrivateKeyPem)];
      }
    }

    method WriteProjectFiles(m: Manifest)
      modifies this`plan
      ensures plan == old(plan) + ProjectOps(m)
    {
      plan := plan + [CopyTemplate(ManifestTemplate, ManifestPath, ManifestVars(m))];
      plan := plan + [CopyTemplate("_.stylelintrc.json", ".stylelintrc.json", NoVars)];
      plan := plan + [CopyTemplate("app.js", "app.js", NoVars)];
      plan := plan + [CopyFile("_.gitignore", ".gitignore")];
    }

    method WriteModels()
      modifies this`plan
      ensures plan == old(plan) + ModelOps(build.usesTeddy, layout.modelsPath, appName)
    {
      if build.usesTeddy {
        plan := plan + [CopyTemplate("mvc/models/teddy/global.js", Under(layout.modelsPath, "global.js"), AppNameVars(appName))];
      }
    }

    method WriteViews()
      modifies this`plan
      ensures plan == old(plan) + ViewOps(build.usesTeddy, layout.viewsPath, appName)
    {
      plan := plan + [CopyFile("mvc/views/robots.txt", Under(layout.viewsPath, "robots.txt"))];
      if build.usesTeddy {
        plan := plan + [CopyFile("mvc/views/teddy/layouts/main.html", Under(Under(layout.viewsPath, "layouts"), "main.html"))];
        plan := plan + [CopyFile("mvc/views/teddy/404.html", Under(layout.viewsPath, "404.html"))];
        plan := plan + [CopyFile("mvc/views/teddy/homepage.html", Under(layout.viewsPath, "homepage.html"))];
      } else {
        plan := plan + [CopyTemplate("mvc/views/vanilla/homepage.html", Under(layout.viewsPath, "homepage.html"), AppNameVars(appName))];
      }
    }

    method WriteControllers()
      modifies this`plan
      ensures plan == old(plan) + ControllerOps(build.usesTeddy, layout.controllersPath)
    {
      plan := plan + [CopyFile("mvc/controllers/robots.txt.js", Under(layout.controllersPath, "robots.txt.js"))];
      if build.usesTeddy {
        plan := plan + [CopyFile("mvc/controllers/teddy/404.js", Under(layout.controllersPath, "404.js"))];
        plan := plan + [CopyFile("mvc/controllers/teddy/homepage.js", Under(layout.controllersPath, "homepage.js"))];
      } else {
        plan := plan + [CopyFile("mvc/controllers/vanilla/homepage.js", Under(layout.controllersPath, "homepage.js"))];
      }
    }

    method WriteStylesheets()
      modifies this`plan
      ensures plan == old(plan) + StylesheetOps(build.cssExt)
    {
      if build.cssExt == Str("less") {
        plan := plan + [CopyFile("statics/css/less/styles.less", Under(CssDir, "styles.less"))];
        plan := plan + [CopyFile("statics/css/less/more.less", Under(CssDir, "more.less"))];
      } else if build.cssExt == Str("scss") {
        plan := plan + [CopyFile("statics/css/sass/styles.scss", Under(CssDir, "styles.scss"))];
        plan := plan + [CopyFile("statics/css/sass/more.scss", Under(CssDir, "more.scss"))];
      } else if build.cssExt == Str("css") {
        plan := plan + [CopyFile("statics/css/vanilla/styles.css", Under(CssDir, "styles.css"))];
      }
    }

    method WriteStatics()
      modifies this`plan
      ensures plan == old(plan) + StaticOps()
    {
      plan := plan + [CopyFile("statics/images/teddy.jpg", Under("statics/images", "teddy.jpg"))];
      plan := plan + [CopyFile("statics/images/favicon.ico", Under("statics/images", "favicon.ico"))];
      plan := plan + [CopyFile("statics/js/main.js", Under("statics/js", "main.js"))];
    }
  }

  /** The engine list `chooseViewEngine` leaves for a given run of prompt rounds. */
  function ChosenEngines(a: Answers, rounds: seq<EngineAnswers>): Option<seq<string>> {
    if Truthy(a.templatingEngine) then Some(EngineEntries(rounds)) else None
  }

  /** Whether `setParams` decides teddy is used: some resolved engine entry names it. */
  predicate TeddyChosen(d: Defaults, a: Answers, rounds: seq<EngineAnswers>) {
    var ve := ResolveViewEngine(a.templatingEngine, ChosenEngines(a, rounds), d.viewEngine);
    ve.Engines? && MentionsTeddy(ve.entries)
  }

  /**
   * One run of the generator: `_setAppName`, `chooseViewEngine`, `setParams`
   * and `writing` in that order, from a fresh generator holding the given
   * answers. The plan writes no path twice; it writes certificates exactly
   * when SSL generation was chosen; `package.json` carries the npm-safe name
   * and the merged dependency manifest; the teddy templates are copied
   * exactly when teddy was chosen.
   */
  method Generate(d: Defaults, a: Answers, name: Option<string>, rounds: seq<EngineAnswers>) returns (ops: seq<Op>)
    requires WellFormed(d)
    ensures forall i, j :: 0 <= i < j < |ops| ==> ops[i].dest != ops[j].dest
    ensures (exists i :: 0 <= i < |ops| && ops[i].WritePem?) <==> Truthy(a.generateSSL)
    ensures var k := if Truthy(a.generateSSL) then 3 else 0;
      && k < |ops|
      && ops[k].CopyTemplate? && ops[k].dest == ManifestPath && ops[k].vars.ManifestVars?
      && ops[k].vars.manifest.appName == PackageName(ResolveAppName(name, d.appName))
      && ops[k].vars.manifest.dependencies
         == Merge(DependencyBundles(d, TeddyChosen(d, a, rounds), Or(a.cssCompiler, Str("default")), Or(a.jsCompiler, Str("default"))))
    ensures CopiesFrom(ops, "mvc/views/teddy/homepage.html") <==> TeddyChosen(d, a, rounds)
    ensures CopiesFrom(ops, "mvc/views/vanilla/homepage.html") <==> !TeddyChosen(d, a, rounds)
  {
    var g := Configure(d, a, name, rounds);
    var m := g.ManifestOf();
    ghost var generateSSL, usesTeddy, cssExt := Truthy(g.generateSSL), g.build.usesTeddy, g.build.cssExt;
    ghost var appName, modelsPath, viewsPath, controllersPath := g.appName, g.layout.modelsPath, g.layout.viewsPath, g.layout.controllersPath;
    g.Writing();
    ops := g.plan;
    ghost var plan := Plan(generateSSL, usesTeddy, cssExt, appName, modelsPath, viewsPath, controllersPath, m);
    assert ops == plan by {
      assert [] + plan == plan;
    }
    PlanFacts(ops, generateSSL, usesTeddy, cssExt, appName, modelsPath, viewsPath, controllersPath, m);
  }

  /** A fresh generator that has run `_setAppName`, `chooseViewEngine` and `setParams`. */
  method Configure(d: Defaults, a: Answers, name: Option<string>, rounds: seq<EngineAnswers>) returns (g: RooseveltGenerator)
    requires WellFormed(d)
    ensures fresh(g)
    ensures g.plan == [] && g.generateSSL == a.generateSSL
    ensures g.appName == ResolveAppName(name, d.appName) && g.packageName == PackageName(g.appName)
    ensures g.destination == Destination(a.standardInstall, a.createDir, a.dirname, g.packageName)
    ensures g.build.usesTeddy == TeddyChosen(d, a, rounds)
    ensures g.build.dependencies
         == Merge(DependencyBundles(d, TeddyChosen(d, a, rounds), Or(a.cssCompiler, Str("default")), Or(a.jsCompiler, Str("default"))))
  {
    g := Prepare(d, a, name, rounds);
    ghost var b0 := g.build;
    g.SetParams();
    BuildDependencies(b0, d, g.layout.viewEngine, g.layout.cssCompiler, g.layout.jsCompiler);
  }

  /** A fresh generator that has run `_setAppName` and `chooseViewEngine`. */
  method Prepare(d: Defaults, a: Answers, name: Option<string>, rounds: seq<EngineAnswers>) returns (g: RooseveltGenerator)
    ensures fresh(g)
    ensures g.defaults == d && g.plan == [] && g.https == Undefined
    ensures g.templatingEngine == a.templatingEngine && g.viewEngineList == ChosenEngines(a, rounds)
    ensures g.standardInstall == a.standardInstall && g.createDir == a.createDir && g.dirname == a.dirname
    ensures g.appName == ResolveAppName(name, d.appName) && g.packageName == PackageName(g.appName)
    ensures g.generateSSL == a.generateSSL && g.server == a.server
    ensures g.layout == Layout(a.cssCompiler, a.jsCompiler, a.modelsPath, a.viewsPath, a.controllersPath, Unresolved)
    ensures !g.build.usesTeddy
  {
    g := new RooseveltGenerator(d, a);
    g.SetAppName(name);
    g.ChooseViewEngine(rounds);
    if Truthy(a.templatingEngine) {
      assert [] + EngineEntries(rounds) == EngineEntries(rounds);
    }
  }
}
