/**
 * The file operations of `writing`, in order: the three certificate files
 * when SSL generation was chosen, the project files, the MVC files of the
 * teddy or the vanilla family, one stylesheet set, and the static files.
 */
module Scaffold {
  import opened Js
  import opened Resolver

  /** The variables `package.json` is rendered with. */
  datatype Manifest = Manifest(
    appName: string,
    dependencies: map<string, string>,
    port: JsValue,
    enableHTTPS: JsValue,
    httpsOnly: JsValue,
    httpsPort: JsValue,
    pfx: JsValue,
    keyPath: JsValue,
    passphrase: JsValue,
    ca: JsValue,
    requestCert: JsValue,
    rejectUnauthorized: JsValue,
    modelsPath: string,
    viewsPath: string,
    viewEngine: ViewEngine,
    controllersPath: string,
    cssCompiler: CompilerParams,
    jsCompiler: CompilerParams,
    staticsSymlinksToPublic: seq<string>,
    cssExt: JsValue,
    cssSyntax: JsValue)

  /** The three artifacts of certificate generation; their contents are not modelled. */
  datatype Pem = PublicKeyPem | CertificatePem | PrivateKeyPem

  datatype Vars = NoVars | AppNameVars(appName: string) | ManifestVars(manifest: Manifest)

  /** `fs.write`, `fs.copyTpl` and `fs.copy`; destinations are relative to the destination root. */
  datatype Op =
    | WritePem(dest: string, pem: Pem)
    | CopyTemplate(template: string, dest: string, vars: Vars)
    | CopyFile(template: string, dest: string)

  /** `dir + '/' + name` */
  function Under(dir: string, name: string): string {
    dir + "/" + name
  }

  function CertificateOps(generateSSL: bool): seq<Op> {
    if generateSSL then
      [WritePem("public.pem", PublicKeyPem), WritePem("certPem.pem", CertificatePem), WritePem("privatePem.pem", PrivateKeyPem)]
    else []
  }

  const ManifestTemplate := "_package.json"
  const ManifestPath := "package.json"

  function ProjectOps(m: Manifest): seq<Op> {
    [ CopyTemplate(ManifestTemplate, ManifestPath, ManifestVars(m)),
      CopyTemplate("_.stylelintrc.json", ".stylelintrc.json", NoVars),
      CopyTemplate("app.js", "app.js", NoVars),
      CopyFile("_.gitignore", ".gitignore") ]
  }

  function ModelOps(usesTeddy: bool, modelsPath: string, appName: string): seq<Op> {
    if usesTeddy then [CopyTemplate("mvc/models/teddy/global.js", Under(modelsPath, "global.js"), AppNameVars(appName))]
    else []
  }

  function ViewOps(usesTeddy: bool, viewsPath: string, appName: string): seq<Op> {
    [CopyFile("mvc/views/robots.txt", Under(viewsPath, "robots.txt"))]
    + if usesTeddy then
        [ CopyFile("mvc/views/teddy/layouts/main.html", Under(Under(viewsPath, "layouts"), "main.html")),
          CopyFile("mvc/views/teddy/404.html", Under(viewsPath, "404.html")),
          CopyFile("mvc/views/teddy/homepage.html", Under(viewsPath, "homepage.html")) ]
      else
        [CopyTemplate("mvc/views/vanilla/homepage.html", Under(viewsPath, "homepage.html"), AppNameVars(appName))]
  }

  function ControllerOps(usesTeddy: bool, controllersPath: string): seq<Op> {
    [CopyFile("mvc/controllers/robots.txt.js", Under(controllersPath, "robots.txt.js"))]
    + if usesTeddy then
        [ CopyFile("mvc/controllers/teddy/404.js", Under(controllersPath, "404.js")),
          CopyFile("mvc/controllers/teddy/homepage.js", Under(controllersPath, "homepage.js")) ]
      else
        [CopyFile("mvc/controllers/vanilla/homepage.js", Under(controllersPath, "homepage.js"))]
  }

  const CssDir := "statics/css"

  function StylesheetOps(cssExt: JsValue): seq<Op> {
    if cssExt == Str("less") then
      [ CopyFile("statics/css/less/styles.less", Under(CssDir, "styles.less")),
        CopyFile("statics/css/less/more.less", Under(CssDir, "more.less")) ]
    else if cssExt == Str("scss") then
      [ CopyFile("statics/css/sass/styles.scss", Under(CssDir, "styles.scss")),
        CopyFile("statics/css/sass/more.scss", Under(CssDir, "more.scss")) ]
    else if cssExt == Str("css") then
      [CopyFile("statics/css/vanilla/styles.css", Under(CssDir, "styles.css"))]
    else []
  }

  function StaticOps(): seq<Op> {
    [ CopyFile("statics/images/teddy.jpg", Under("statics/images", "teddy.jpg")),
      CopyFile("statics/images/favicon.ico", Under("statics/images", "favicon.ico")),
      CopyFile("statics/js/main.js", Under("statics/js", "main.js")) ]
  }

  /** Everything `writing` does, in order. */
  function Plan(generateSSL: bool, usesTeddy: bool, cssExt: JsValue, appName: string,
                modelsPath: string, viewsPath: string, controllersPath: string, m: Manifest): seq<Op>
  {
    CertificateOps(generateSSL) + ProjectOps(m) + ModelOps(usesTeddy, modelsPath, appName)
    + ViewOps(usesTeddy, viewsPath, appName) + ControllerOps(usesTeddy, controllersPath)
    + StylesheetOps(cssExt) + StaticOps()
  }

  lemma AppendAssoc(a: seq<Op>, b: seq<Op>, c: seq<Op>)
    ensures a + b + c == a + (b + c)
  {
  }

  // ---- final file names ----

  /** The part of a path after its last `/`. */
  function BaseName(p: string): string {
    if p == [] || p[|p| - 1] == '/' then [] else BaseName(p[..|p| - 1]) + [p[|p| - 1]]
  }

  lemma {:induction false} BaseNameOfName(name: string)
    requires '/' !in name
    ensures BaseName(name) == name
  {
    if name != [] {
      var front := name[..|name| - 1];
      assert '/' !in front;
      BaseNameOfName(front);
      assert name == front + [name[|name| - 1]];
    }
  }

  lemma {:induction false} BaseNameUnder(dir: string, name: string)
    requires '/' !in name
    ensures BaseName(Under(dir, name)) == name
    decreases |name|
  {
    var p := Under(dir, name);
    if name == [] {
      assert p[|p| - 1] == '/';
    } else {
      var front := name[..|name| - 1];
      assert '/' !in front;
      assert p[..|p| - 1] == Under(dir, front);
      BaseNameUnder(dir, front);
      assert name == front + [name[|name| - 1]];
    }
  }

  function NamesOf(ops: seq<Op>): (names: seq<string>)
    ensures |names| == |ops|
    ensures forall i :: 0 <= i < |ops| ==> names[i] == BaseName(ops[i].dest)
  {
    seq(|ops|, i requires 0 <= i < |ops| => BaseName(ops[i].dest))
  }

  lemma NamesOfAppend(a: seq<Op>, b: seq<Op>)
    ensures NamesOf(a + b) == NamesOf(a) + NamesOf(b)
  {
  }

  predicate Distinct(s: seq<string>) {
    forall i, j :: 0 <= i < j < |s| ==> s[i] != s[j]
  }

  /** `s` repeats no element and draws every element from `names`. */
  predicate DrawnFrom(s: seq<string>, names: set<string>) {
    Distinct(s) && forall i :: 0 <= i < |s| ==> s[i] in names
  }

  /** `a + b` has no repeated element when neither has one and their elements come from disjoint sets. */
  lemma DistinctAppend(a: seq<string>, b: seq<string>, sa: set<string>, sb: set<string>)
    requires DrawnFrom(a, sa) && DrawnFrom(b, sb) && sa !! sb
    ensures DrawnFrom(a + b, sa + sb)
  {
    forall i, j | 0 <= i < j < |a + b| ensures (a + b)[i] != (a + b)[j] {
      if j < |a| {
      } else if i >= |a| {
        assert (a + b)[i] == b[i - |a|] && (a + b)[j] == b[j - |a|];
      } else {
        assert (a + b)[i] in sa && (a + b)[j] in sb;
      }
    }
  }

  // The final file names of each section, and the set each section draws from.

  const CertificateNames := {"public.pem", "certPem.pem", "privatePem.pem"}
  const ProjectNames := {"package.json", ".stylelintrc.json", "app.js", ".gitignore"}
  const ModelNames := {"global.js"}
  const ViewNames := {"robots.txt", "main.html", "404.html", "homepage.html"}
  const ControllerNames := {"robots.txt.js", "404.js", "homepage.js"}
  const StylesheetNames := {"styles.less", "more.less", "styles.scss", "more.scss", "styles.css"}
  const StaticNames := {"teddy.jpg", "favicon.ico", "main.js"}

  lemma ProjectNamesFresh()
    ensures CertificateNames !! ProjectNames
  {
  }

  lemma ModelNamesFresh()
    ensures CertificateNames + ProjectNames !! ModelNames
  {
  }

  lemma ViewNamesFresh()
    ensures CertificateNames + ProjectNames + ModelNames !! ViewNames
  {
  }

  lemma ControllerNamesFresh()
    ensures CertificateNames + ProjectNames + ModelNames + ViewNames !! ControllerNames
  {
  }

  lemma StylesheetNamesFresh()
    ensures CertificateNames + ProjectNames + ModelNames + ViewNames + ControllerNames !! StylesheetNames
  {
  }

  lemma StaticNamesFresh()
    ensures CertificateNames + ProjectNames + ModelNames + ViewNames + ControllerNames + StylesheetNames !! StaticNames
  {
  }

  function CertificateGroup(generateSSL: bool): seq<string> {
    if generateSSL then ["public.pem", "certPem.pem", "privatePem.pem"] else []
  }

  function ProjectGroup(): seq<string> {
    ["package.json", ".stylelintrc.json", "app.js", ".gitignore"]
  }

  function ModelGroup(usesTeddy: bool): seq<string> {
    if usesTeddy then ["global.js"] else []
  }

  function ViewGroup(usesTeddy: bool): seq<string> {
    ["robots.txt"] + if usesTeddy then ["main.html", "404.html", "homepage.html"] else ["homepage.html"]
  }

  function ControllerGroup(usesTeddy: bool): seq<string> {
    ["robots.txt.js"] + if usesTeddy then ["404.js", "homepage.js"] else ["homepage.js"]
  }

  function StylesheetGroup(cssExt: JsValue): seq<string> {
    if cssExt == Str("less") then ["styles.less", "more.less"]
    else if cssExt == Str("scss") then ["styles.scss", "more.scss"]
    else if cssExt == Str("css") then ["styles.css"]
    else []
  }

  function StaticGroup(): seq<string> {
    ["teddy.jpg", "favicon.ico", "main.js"]
  }

  lemma CertificateGroupDrawn(generateSSL: bool)
    ensures DrawnFrom(CertificateGroup(generateSSL), CertificateNames)
  {
  }

  lemma ProjectGroupDrawn()
    ensures DrawnFrom(ProjectGroup(), ProjectNames)
  {
  }

  lemma ModelGroupDrawn(usesTeddy: bool)
    ensures DrawnFrom(ModelGroup(usesTeddy), ModelNames)
  {
  }

  lemma ViewGroupDrawn(usesTeddy: bool)
    ensures DrawnFrom(ViewGroup(usesTeddy), ViewNames)
  {
  }

  lemma ControllerGroupDrawn(usesTeddy: bool)
    ensures DrawnFrom(ControllerGroup(usesTeddy), ControllerNames)
  {
  }

  lemma StylesheetGroupDrawn(cssExt: JsValue)
    ensures DrawnFrom(StylesheetGroup(cssExt), StylesheetNames)
  {
  }

  lemma StaticGroupDrawn()
    ensures DrawnFrom(StaticGroup(), StaticNames)
  {
  }

  /** The final file names the plan writes, in order. */
  function PlanNames(generateSSL: bool, usesTeddy: bool, cssExt: JsValue): seq<string> {
    CertificateGroup(generateSSL) + ProjectGroup() + ModelGroup(usesTeddy) + ViewGroup(usesTeddy)
    + ControllerGroup(usesTeddy) + StylesheetGroup(cssExt) + StaticGroup()
  }

  lemma PlanNamesDistinct(generateSSL: bool, usesTeddy: bool, cssExt: JsValue)
    ensures Distinct(PlanNames(generateSSL, usesTeddy, cssExt))
  {
    CertificateGroupDrawn(generateSSL);
    ProjectGroupDrawn();
    ModelGroupDrawn(usesTeddy);
    ViewGroupDrawn(usesTeddy);
    ControllerGroupDrawn(usesTeddy);
    StylesheetGroupDrawn(cssExt);
    StaticGroupDrawn();
    ProjectNamesFresh();
    ModelNamesFresh();
    ViewNamesFresh();
    ControllerNamesFresh();
    StylesheetNamesFresh();
    StaticNamesFresh();
    var g1 := CertificateGroup(generateSSL);
    var g2 := g1 + ProjectGroup();
    DistinctAppend(g1, ProjectGroup(), CertificateNames, ProjectNames);
    var s2 := CertificateNames + ProjectNames;
    var g3 := g2 + ModelGroup(usesTeddy);
    DistinctAppend(g2, ModelGroup(usesTeddy), s2, ModelNames);
    var s3 := s2 + ModelNames;
    var g4 := g3 + ViewGroup(usesTeddy);
    DistinctAppend(g3, ViewGroup(usesTeddy), s3, ViewNames);
    var s4 := s3 + ViewNames;
    var g5 := g4 + ControllerGroup(usesTeddy);
    DistinctAppend(g4, ControllerGroup(usesTeddy), s4, ControllerNames);
    var s5 := s4 + ControllerNames;
    var g6 := g5 + StylesheetGroup(cssExt);
    DistinctAppend(g5, StylesheetGroup(cssExt), s5, StylesheetNames);
    var s6 := s5 + StylesheetNames;
    DistinctAppend(g6, StaticGroup(), s6, StaticNames);
  }

  lemma CertificateNamesMatch(generateSSL: bool)
    ensures NamesOf(CertificateOps(generateSSL)) == CertificateGroup(generateSSL)
  {
    BaseNameOfName("public.pem");
    BaseNameOfName("certPem.pem");
    BaseNameOfName("privatePem.pem");
  }

  lemma ProjectNamesMatch(m: Manifest)
    ensures NamesOf(ProjectOps(m)) == ProjectGroup()
  {
    BaseNameOfName("package.json");
    BaseNameOfName(".stylelintrc.json");
    BaseNameOfName("app.js");
    BaseNameOfName(".gitignore");
  }

  lemma ModelNamesMatch(usesTeddy: bool, modelsPath: string, appName: string)
    ensures NamesOf(ModelOps(usesTeddy, modelsPath, appName)) == ModelGroup(usesTeddy)
  {
    BaseNameUnder(modelsPath, "global.js");
  }

  lemma ViewNamesMatch(usesTeddy: bool, viewsPath: string, appName: string)
    ensures NamesOf(ViewOps(usesTeddy, viewsPath, appName)) == ViewGroup(usesTeddy)
  {
    if usesTeddy {
      TeddyViewNames(viewsPath, appName);
    } else {
      VanillaViewNames(viewsPath, appName);
    }
  }

  lemma TeddyViewNames(viewsPath: string, appName: string)
    ensures NamesOf(ViewOps(true, viewsPath, appName)) == ViewGroup(true)
  {
    var ops := ViewOps(true, viewsPath, appName);
    BaseNameUnder(viewsPath, "robots.txt");
    BaseNameUnder(Under(viewsPath, "layouts"), "main.html");
    BaseNameUnder(viewsPath, "404.html");
    BaseNameUnder(viewsPath, "homepage.html");
    assert NamesOf(ops) == [NamesOf(ops)[0], NamesOf(ops)[1], NamesOf(ops)[2], NamesOf(ops)[3]];
  }

  lemma VanillaViewNames(viewsPath: string, appName: string)
    ensures NamesOf(ViewOps(false, viewsPath, appName)) == ViewGroup(false)
  {
    var ops := ViewOps(false, viewsPath, appName);
    BaseNameUnder(viewsPath, "robots.txt");
    BaseNameUnder(viewsPath, "homepage.html");
    assert NamesOf(ops) == [NamesOf(ops)[0], NamesOf(ops)[1]];
  }

  lemma ControllerNamesMatch(usesTeddy: bool, controllersPath: string)
    ensures NamesOf(ControllerOps(usesTeddy, controllersPath)) == ControllerGroup(usesTeddy)
  {
    var ops := ControllerOps(usesTeddy, controllersPath);
    BaseNameUnder(controllersPath, "robots.txt.js");
    BaseNameUnder(controllersPath, "homepage.js");
    if usesTeddy {
      BaseNameUnder(controllersPath, "404.js");
      assert NamesOf(ops) == [NamesOf(ops)[0], NamesOf(ops)[1], NamesOf(ops)[2]];
    } else {
      assert NamesOf(ops) == [NamesOf(ops)[0], NamesOf(ops)[1]];
    }
  }

  lemma StylesheetNamesMatch(cssExt: JsValue)
    ensures NamesOf(StylesheetOps(cssExt)) == StylesheetGroup(cssExt)
  {
    var ops := StylesheetOps(cssExt);
    if cssExt == Str("less") {
      BaseNameUnder(CssDir, "styles.less");
      BaseNameUnder(CssDir, "more.less");
      assert NamesOf(ops) == [NamesOf(ops)[0], NamesOf(ops)[1]];
    } else if cssExt == Str("scss") {
      BaseNameUnder(CssDir, "styles.scss");
      BaseNameUnder(CssDir, "more.scss");
      assert NamesOf(ops) == [NamesOf(ops)[0], NamesOf(ops)[1]];
    } else if cssExt == Str("css") {
      BaseNameUnder(CssDir, "styles.css");
      assert NamesOf(ops) == [NamesOf(ops)[0]];
    }
  }

  lemma StaticNamesMatch()
    ensures NamesOf(StaticOps()) == StaticGroup()
  {
    StaticNamesUnder("statics/images", "statics/js");
  }

  /** The static copies' names do not depend on the directories they land in. */
  lemma StaticNamesUnder(images: string, js: string)
    ensures NamesOf([CopyFile("statics/images/teddy.jpg", Under(images, "teddy.jpg")),
                     CopyFile("statics/images/favicon.ico", Under(images, "favicon.ico")),
                     CopyFile("statics/js/main.js", Under(js, "main.js"))]) == StaticGroup()
  {
    BaseNameUnder(images, "teddy.jpg");
    BaseNameUnder(images, "favicon.ico");
    BaseNameUnder(js, "main.js");
  }

  lemma PlanNamesMatch(generateSSL: bool, usesTeddy: bool, cssExt: JsValue, appName: string,
                       modelsPath: string, viewsPath: string, controllersPath: string, m: Manifest)
    ensures NamesOf(Plan(generateSSL, usesTeddy, cssExt, appName, modelsPath, viewsPath, controllersPath, m))
         == PlanNames(generateSSL, usesTeddy, cssExt)
  {
    CertificateNamesMatch(generateSSL);
    ProjectNamesMatch(m);
    ModelNamesMatch(usesTeddy, modelsPath, appName);
    ViewNamesMatch(usesTeddy, viewsPath, appName);
    ControllerNamesMatch(usesTeddy, controllersPath);
    StylesheetNamesMatch(cssExt);
    StaticNamesMatch();
    var c := CertificateOps(generateSSL);
    var p := ProjectOps(m);
    var mo := ModelOps(usesTeddy, modelsPath, appName);
    var v := ViewOps(usesTeddy, viewsPath, appName);
    var co := ControllerOps(usesTeddy, controllersPath);
    var st := StylesheetOps(cssExt);
    var sa := StaticOps();
    NamesOfAppend(c, p);
    NamesOfAppend(c + p, mo);
    NamesOfAppend(c + p + mo, v);
    NamesOfAppend(c + p + mo + v, co);
    NamesOfAppend(c + p + mo + v + co, st);
    NamesOfAppend(c + p + mo + v + co + st, sa);
  }

  /** No two operations of a plan write the same path: their final file names already differ. */
  lemma PlanDestinationsDistinct(generateSSL: bool, usesTeddy: bool, cssExt: JsValue, appName: string,
                                 modelsPath: string, viewsPath: string, controllersPath: string, m: Manifest)
    ensures var plan := Plan(generateSSL, usesTeddy, cssExt, appName, modelsPath, viewsPath, controllersPath, m);
      forall i, j :: 0 <= i < j < |plan| ==> plan[i].dest != plan[j].dest
  {
    var plan := Plan(generateSSL, usesTeddy, cssExt, appName, modelsPath, viewsPath, controllersPath, m);
    PlanNamesMatch(generateSSL, usesTeddy, cssExt, appName, modelsPath, viewsPath, controllersPath, m);
    PlanNamesDistinct(generateSSL, usesTeddy, cssExt);
    var names := NamesOf(plan);
    forall i, j | 0 <= i < j < |plan| ensures plan[i].dest != plan[j].dest {
      assert names[i] != names[j];
    }
  }

  // ---- what the plan contains ----

  /** Some copy in `ops` reads the template `t`. */
  predicate CopiesFrom(ops: seq<Op>, t: string) {
    exists i :: 0 <= i < |ops| && !ops[i].WritePem? && ops[i].template == t
  }

  lemma CopiesFromAppend(a: seq<Op>, b: seq<Op>, t: string)
    ensures CopiesFrom(a + b, t) <==> CopiesFrom(a, t) || CopiesFrom(b, t)
  {
    if CopiesFrom(a + b, t) {
      var i :| 0 <= i < |a + b| && !(a + b)[i].WritePem? && (a + b)[i].template == t;
      if i >= |a| {
        assert b[i - |a|] == (a + b)[i];
      }
    }
    if CopiesFrom(a, t) {
      var i :| 0 <= i < |a| && !a[i].WritePem? && a[i].template == t;
      assert (a + b)[i] == a[i];
    }
    if CopiesFrom(b, t) {
      var i :| 0 <= i < |b| && !b[i].WritePem? && b[i].template == t;
      assert (a + b)[|a| + i] == b[i];
    }
  }

  /** The templates each plan section reads. */
  function ProjectSources(): seq<string> {
    [ManifestTemplate, "_.stylelintrc.json", "app.js", "_.gitignore"]
  }

  function ModelSources(usesTeddy: bool): seq<string> {
    if usesTeddy then ["mvc/models/teddy/global.js"] else []
  }

  function ViewSources(usesTeddy: bool): seq<string> {
    ["mvc/views/robots.txt"]
    + if usesTeddy then ["mvc/views/teddy/layouts/main.html", "mvc/views/teddy/404.html", "mvc/views/teddy/homepage.html"]
      else ["mvc/views/vanilla/homepage.html"]
  }

  function ControllerSources(usesTeddy: bool): seq<string> {
    ["mvc/controllers/robots.txt.js"]
    + if usesTeddy then ["mvc/controllers/teddy/404.js", "mvc/controllers/teddy/homepage.js"]
      else ["mvc/controllers/vanilla/homepage.js"]
  }

  function StylesheetSources(cssExt: JsValue): seq<string> {
    if cssExt == Str("less") then ["statics/css/less/styles.less", "statics/css/less/more.less"]
    else if cssExt == Str("scss") then ["statics/css/sass/styles.scss", "statics/css/sass/more.scss"]
    else if cssExt == Str("css") then ["statics/css/vanilla/styles.css"]
    else []
  }

  function StaticSources(): seq<string> {
    ["statics/images/teddy.jpg", "statics/images/favicon.ico", "statics/js/main.js"]
  }

  /** Some section of a plan with these choices reads `t`. */
  predicate InSources(usesTeddy: bool, cssExt: JsValue, t: string) {
    || t in ProjectSources() || t in ModelSources(usesTeddy) || t in ViewSources(usesTeddy)
    || t in ControllerSources(usesTeddy) || t in StylesheetSources(cssExt) || t in StaticSources()
  }

  /** A section copies exactly from the templates its sources list names. */
  lemma SectionCopies(ops: seq<Op>, templates: seq<string>, t: string)
    requires |ops| == |templates|
    requires forall i :: 0 <= i < |ops| ==> !ops[i].WritePem? && ops[i].template == templates[i]
    ensures CopiesFrom(ops, t) <==> t in templates
  {
    if t in templates {
      var i :| 0 <= i < |templates| && templates[i] == t;
      assert !ops[i].WritePem? && ops[i].template == t;
    }
  }

  lemma NoCopies(ops: seq<Op>, t: string)
    requires forall i :: 0 <= i < |ops| ==> ops[i].WritePem?
    ensures !CopiesFrom(ops, t)
  {
  }

  lemma ProjectCopies(m: Manifest, t: string)
    ensures CopiesFrom(ProjectOps(m), t) <==> t in ProjectSources()
  {
    SectionCopies(ProjectOps(m), ProjectSources(), t);
  }

  lemma ModelCopies(usesTeddy: bool, modelsPath: string, appName: string, t: string)
    ensures CopiesFrom(ModelOps(usesTeddy, modelsPath, appName), t) <==> t in ModelSources(usesTeddy)
  {
    SectionCopies(ModelOps(usesTeddy, modelsPath, appName), ModelSources(usesTeddy), t);
  }

  lemma ViewCopies(usesTeddy: bool, viewsPath: string, appName: string, t: string)
    ensures CopiesFrom(ViewOps(usesTeddy, viewsPath, appName), t) <==> t in ViewSources(usesTeddy)
  {
    SectionCopies(ViewOps(usesTeddy, viewsPath, appName), ViewSources(usesTeddy), t);
  }

  lemma ControllerCopies(usesTeddy: bool, controllersPath: string, t: string)
    ensures CopiesFrom(ControllerOps(usesTeddy, controllersPath), t) <==> t in ControllerSources(usesTeddy)
  {
    SectionCopies(ControllerOps(usesTeddy, controllersPath), ControllerSources(usesTeddy), t);
  }

  lemma StylesheetSectionCopies(cssExt: JsValue, t: string)
    ensures CopiesFrom(StylesheetOps(cssExt), t) <==> t in StylesheetSources(cssExt)
  {
    SectionCopies(StylesheetOps(cssExt), StylesheetSources(cssExt), t);
  }

  lemma StaticCopies(t: string)
    ensures CopiesFrom(StaticOps(), t) <==> t in StaticSources()
  {
    SectionCopies(StaticOps(), StaticSources(), t);
  }

  /** The plan copies from `t` exactly when one of its sections lists `t`. */
  lemma PlanCopies(generateSSL: bool, usesTeddy: bool, cssExt: JsValue, appName: string,
                   modelsPath: string, viewsPath: string, controllersPath: string, m: Manifest, t: string)
    ensures CopiesFrom(Plan(generateSSL, usesTeddy, cssExt, appName, modelsPath, viewsPath, controllersPath, m), t)
      <==> InSources(usesTeddy, cssExt, t)
  {
    var c := CertificateOps(generateSSL);
    var p := ProjectOps(m);
    var mo := ModelOps(usesTeddy, modelsPath, appName);
    var v := ViewOps(usesTeddy, viewsPath, appName);
    var co := ControllerOps(usesTeddy, controllersPath);
    var ss := StylesheetOps(cssExt);
    var sa := StaticOps();
    NoCopies(c, t);
    ProjectCopies(m, t);
    ModelCopies(usesTeddy, modelsPath, appName, t);
    ViewCopies(usesTeddy, viewsPath, appName, t);
    ControllerCopies(usesTeddy, controllersPath, t);
    StylesheetSectionCopies(cssExt, t);
    StaticCopies(t);
    CopiesFromAppend(c, p, t);
    CopiesFromAppend(c + p, mo, t);
    CopiesFromAppend(c + p + mo, v, t);
    CopiesFromAppend(c + p + mo + v, co, t);
    CopiesFromAppend(c + p + mo + v + co, ss, t);
    CopiesFromAppend(c + p + mo + v + co + ss, sa, t);
  }

  const TeddyTemplates := ["mvc/models/teddy/global.js", "mvc/views/teddy/layouts/main.html", "mvc/views/teddy/404.html",
                            "mvc/views/teddy/homepage.html", "mvc/controllers/teddy/404.js", "mvc/controllers/teddy/homepage.js"]
  const VanillaTemplates := ["mvc/views/vanilla/homepage.html", "mvc/controllers/vanilla/homepage.js"]

  /** A teddy model, layout, view or controller is copied exactly when teddy is used. */
  lemma TeddyTemplateCopied(generateSSL: bool, usesTeddy: bool, cssExt: JsValue, appName: string,
                            modelsPath: string, viewsPath: string, controllersPath: string, m: Manifest, t: string)
    requires t in TeddyTemplates
    ensures CopiesFrom(Plan(generateSSL, usesTeddy, cssExt, appName, modelsPath, viewsPath, controllersPath, m), t) <==> usesTeddy
  {
    PlanCopies(generateSSL, usesTeddy, cssExt, appName, modelsPath, viewsPath, controllersPath, m, t);
    TeddySources(usesTeddy, cssExt, t);
  }

  lemma TeddySources(usesTeddy: bool, cssExt: JsValue, t: string)
    requires t in TeddyTemplates
    ensures InSources(usesTeddy, cssExt, t) <==> usesTeddy
  {
  }

  /** A vanilla view or controller is copied exactly when teddy is not used. */
  lemma VanillaTemplateCopied(generateSSL: bool, usesTeddy: bool, cssExt: JsValue, appName: string,
                              modelsPath: string, viewsPath: string, controllersPath: string, m: Manifest, t: string)
    requires t in VanillaTemplates
    ensures CopiesFrom(Plan(generateSSL, usesTeddy, cssExt, appName, modelsPath, viewsPath, controllersPath, m), t) <==> !usesTeddy
  {
    PlanCopies(generateSSL, usesTeddy, cssExt, appName, modelsPath, viewsPath, controllersPath, m, t);
    VanillaSources(usesTeddy, cssExt, t);
  }

  lemma VanillaSources(usesTeddy: bool, cssExt: JsValue, t: string)
    requires t in VanillaTemplates
    ensures InSources(usesTeddy, cssExt, t) <==> !usesTeddy
  {
  }

  /** The stylesheets of an extension are copied exactly when `cssExt` is that extension. */
  lemma StylesheetCopied(generateSSL: bool, usesTeddy: bool, cssExt: JsValue, appName: string,
                         modelsPath: string, viewsPath: string, controllersPath: string, m: Manifest, ext: string, t: string)
    requires ext in ["less", "scss", "css"] && t in StylesheetSources(Str(ext))
    ensures CopiesFrom(Plan(generateSSL, usesTeddy, cssExt, appName, modelsPath, viewsPath, controllersPath, m), t) <==> cssExt == Str(ext)
  {
    PlanCopies(generateSSL, usesTeddy, cssExt, appName, modelsPath, viewsPath, controllersPath, m, t);
    StylesheetSourcesOf(usesTeddy, cssExt, ext, t);
  }

  lemma StylesheetSourcesOf(usesTeddy: bool, cssExt: JsValue, ext: string, t: string)
    requires ext in ["less", "scss", "css"] && t in StylesheetSources(Str(ext))
    ensures InSources(usesTeddy, cssExt, t) <==> cssExt == Str(ext)
  {
    if ext == "less" {
      LessSources(usesTeddy, cssExt, t);
    } else if ext == "scss" {
      ScssSources(usesTeddy, cssExt, t);
    } else {
      CssSources(usesTeddy, cssExt, t);
    }
  }

  lemma LessSources(usesTeddy: bool, cssExt: JsValue, t: string)
    requires t in StylesheetSources(Str("less"))
    ensures InSources(usesTeddy, cssExt, t) <==> cssExt == Str("less")
  {
  }

  lemma ScssSources(usesTeddy: bool, cssExt: JsValue, t: string)
    requires t in StylesheetSources(Str("scss"))
    ensures InSources(usesTeddy, cssExt, t) <==> cssExt == Str("scss")
  {
  }

  lemma CssSources(usesTeddy: bool, cssExt: JsValue, t: string)
    requires t in StylesheetSources(Str("css"))
    ensures InSources(usesTeddy, cssExt, t) <==> cssExt == Str("css")
  {
  }

  /** Operations that only copy templates. */
  predicate OnlyCopies(ops: seq<Op>) {
    forall i :: 0 <= i < |ops| ==> !ops[i].WritePem?
  }

  lemma OnlyCopiesAppend(a: seq<Op>, b: seq<Op>)
    requires OnlyCopies(a) && OnlyCopies(b)
    ensures OnlyCopies(a + b)
  {
    forall i | 0 <= i < |a + b| ensures !(a + b)[i].WritePem? {
      if i >= |a| {
        assert (a + b)[i] == b[i - |a|];
      }
    }
  }

  /** Everything after the certificate files: `package.json` first. */
  function AfterCertificates(usesTeddy: bool, cssExt: JsValue, appName: string,
                             modelsPath: string, viewsPath: string, controllersPath: string, m: Manifest): (rest: seq<Op>)
    ensures OnlyCopies(rest)
    ensures rest != [] && rest[0] == CopyTemplate(ManifestTemplate, ManifestPath, ManifestVars(m))
  {
    var p := ProjectOps(m);
    var mo := ModelOps(usesTeddy, modelsPath, appName);
    var v := ViewOps(usesTeddy, viewsPath, appName);
    var co := ControllerOps(usesTeddy, controllersPath);
    var ss := StylesheetOps(cssExt);
    var sa := StaticOps();
    OnlyCopiesAppend(p, mo);
    OnlyCopiesAppend(p + mo, v);
    OnlyCopiesAppend(p + mo + v, co);
    OnlyCopiesAppend(p + mo + v + co, ss);
    OnlyCopiesAppend(p + mo + v + co + ss, sa);
    p + mo + v + co + ss + sa
  }

  /**
   * The certificate files are written exactly when SSL generation was chosen,
   * and then before anything else; `package.json` follows, rendered with the
   * manifest.
   */
  lemma CertificatesFirst(generateSSL: bool, usesTeddy: bool, cssExt: JsValue, appName: string,
                          modelsPath: string, viewsPath: string, controllersPath: string, m: Manifest)
    ensures var plan := Plan(generateSSL, usesTeddy, cssExt, appName, modelsPath, viewsPath, controllersPath, m);
      var k := if generateSSL then 3 else 0;
      && ((exists i :: 0 <= i < |plan| && plan[i].WritePem?) <==> generateSSL)
      && (generateSSL ==>
            && plan[0] == WritePem("public.pem", PublicKeyPem)
            && plan[1] == WritePem("certPem.pem", CertificatePem)
            && plan[2] == WritePem("privatePem.pem", PrivateKeyPem))
      && plan[k] == CopyTemplate(ManifestTemplate, ManifestPath, ManifestVars(m))
  {
    var plan := Plan(generateSSL, usesTeddy, cssExt, appName, modelsPath, viewsPath, controllersPath, m);
    var c := CertificateOps(generateSSL);
    var rest := AfterCertificates(usesTeddy, cssExt, appName, modelsPath, viewsPath, controllersPath, m);
    assert plan == c + rest by {
      var p := ProjectOps(m);
      var mo := ModelOps(usesTeddy, modelsPath, appName);
      var v := ViewOps(usesTeddy, viewsPath, appName);
      var co := ControllerOps(usesTeddy, controllersPath);
      var ss := StylesheetOps(cssExt);
      var sa := StaticOps();
      AppendAssoc(c, p + mo + v + co + ss, sa);
      AppendAssoc(c, p + mo + v + co, ss);
      AppendAssoc(c, p + mo + v, co);
      AppendAssoc(c, p + mo, v);
      AppendAssoc(c, p, mo);
    }
    assert plan[|c|] == rest[0];
    if generateSSL {
      assert plan[0] == c[0];
    } else {
      assert plan == rest;
    }
  }

  /** What a caller of `writing` relies on, for any plan: distinct destinations, certificates exactly when asked for and first, then `package.json`, and one homepage family. */
  lemma PlanFacts(ops: seq<Op>, generateSSL: bool, usesTeddy: bool, cssExt: JsValue, appName: string,
                  modelsPath: string, viewsPath: string, controllersPath: string, m: Manifest)
    requires ops == Plan(generateSSL, usesTeddy, cssExt, appName, modelsPath, viewsPath, controllersPath, m)
    ensures forall i, j :: 0 <= i < j < |ops| ==> ops[i].dest != ops[j].dest
    ensures (exists i :: 0 <= i < |ops| && ops[i].WritePem?) <==> generateSSL
    ensures var k := if generateSSL then 3 else 0;
      k < |ops| && ops[k] == CopyTemplate(ManifestTemplate, ManifestPath, ManifestVars(m))
    ensures CopiesFrom(ops, "mvc/views/teddy/homepage.html") <==> usesTeddy
    ensures CopiesFrom(ops, "mvc/views/vanilla/homepage.html") <==> !usesTeddy
  {
    PlanDestinationsDistinct(generateSSL, usesTeddy, cssExt, appName, modelsPath, viewsPath, controllersPath, m);
    CertificatesFirst(generateSSL, usesTeddy, cssExt, appName, modelsPath, viewsPath, controllersPath, m);
    TeddyTemplateCopied(generateSSL, usesTeddy, cssExt, appName, modelsPath, viewsPath, controllersPath, m,
                        "mvc/views/teddy/homepage.html");
    VanillaTemplateCopied(generateSSL, usesTeddy, cssExt, appName, modelsPath, viewsPath, controllersPath, m,
                          "mvc/views/vanilla/homepage.html");
  }
}
