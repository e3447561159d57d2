/**
 * The pure rules `setParams` applies while it resolves the configuration:
 * the destination directory, the view-engine list, teddy detection and the
 * static symlink list.
 */
module Resolver {
  import opened Js
  import opened Settings
  import opened Dependencies

  /** `viewEngine`: unset before `setParams`, `'none'`, or a list of `"<extension>: <module>"` entries. */
  datatype ViewEngine = Unresolved | NoViewEngine | Engines(entries: seq<string>)

  /** A compiler parameter block: unset, the string `'none'`, or a section's options object. */
  datatype CompilerParams = ParamsUnset | ParamsNone | ParamsOf(options: map<string, JsValue>)

  /**
   * The destination directory: the package name when the standard-install
   * option is the string `'true'`, otherwise that option when truthy,
   * otherwise `dirname` when `createDir`, otherwise unset.
   */
  function Destination(standardInstall: JsValue, createDir: JsValue, dirname: JsValue, packageName: string): (r: JsValue)
    ensures standardInstall == Str("true") ==> r == Str(packageName)
    ensures standardInstall != Str("true") && Truthy(standardInstall) ==> r == standardInstall
    ensures !Truthy(standardInstall) && Truthy(createDir) ==> r == dirname
    ensures !Truthy(standardInstall) && !Truthy(createDir) ==> r == Undefined
  {
    if standardInstall == Str("true") then Str(packageName)
    else if Truthy(standardInstall) || Truthy(createDir) then Or(standardInstall, dirname)
    else Undefined
  }

  /** `list || fallback` for an engine list: an array, even an empty one, is truthy. */
  function ListOr(list: Option<seq<string>>, fallback: seq<string>): seq<string> {
    match list
    case Some(l) => l
    case None => fallback
  }

  /** `templatingEngine !== false ? viewEngineList || defaults.viewEngine : 'none'` */
  function ResolveViewEngine(templatingEngine: JsValue, viewEngineList: Option<seq<string>>, fallback: seq<string>): (r: ViewEngine)
    ensures r == NoViewEngine <==> templatingEngine == Bool(false)
    ensures r != NoViewEngine ==> r.Engines?
    ensures r.Engines? && viewEngineList.Some? ==> r.entries == viewEngineList.value
    ensures r.Engines? && viewEngineList.None? ==> r.entries == fallback
  {
    if templatingEngine != Bool(false) then
      Engines(ListOr(viewEngineList, fallback))
    else NoViewEngine
  }

  /** One round of the view-engine prompt: the module name, its file extension, and whether to add another engine. */
  datatype EngineAnswers = EngineAnswers(
    templatingEngineName: string,
    templatingExtension: string,
    additionalTemplatingEngines: bool)

  /** The entry `chooseViewEngine` pushes for one round. */
  function EngineEntry(a: EngineAnswers): string {
    a.templatingExtension + ": " + a.templatingEngineName
  }

  /**
   * The entries pushed by `chooseViewEngine` and its recursive calls, given
   * the answers of the successive rounds: one entry per round, up to and
   * including the first round that declines another engine.
   */
  function EngineEntries(rounds: seq<EngineAnswers>): seq<string> {
    if rounds == [] then []
    else if rounds[0].additionalTemplatingEngines then [EngineEntry(rounds[0])] + EngineEntries(rounds[1..])
    else [EngineEntry(rounds[0])]
  }

  /**
   * One entry per round, in order; every round before the last included one
   * asked for another engine, and the prompting stops at the first round
   * that declines.
   */
  lemma {:induction false} EngineEntriesRounds(rounds: seq<EngineAnswers>)
    ensures var r := EngineEntries(rounds);
      && |r| <= |rounds|
      && (rounds != [] ==> |r| >= 1)
      && (forall i :: 0 <= i < |r| ==> r[i] == EngineEntry(rounds[i]))
      && (forall i :: 0 <= i < |r| - 1 ==> rounds[i].additionalTemplatingEngines)
      && (0 < |r| < |rounds| ==> !rounds[|r| - 1].additionalTemplatingEngines)
  {
    if rounds != [] && rounds[0].additionalTemplatingEngines {
      EngineEntriesRounds(rounds[1..]);
      var r := EngineEntries(rounds);
      var t := EngineEntries(rounds[1..]);
      assert r == [EngineEntry(rounds[0])] + t;
      forall i | 0 < i < |r| ensures r[i] == EngineEntry(rounds[i]) {
        assert r[i] == t[i - 1];
      }
    }
  }

  /** When some round declines another engine, the entries stop exactly at the first such round. */
  lemma {:induction false} EngineEntriesStopAtDecline(rounds: seq<EngineAnswers>, k: nat)
    requires k < |rounds| && !rounds[k].additionalTemplatingEngines
    requires forall i :: 0 <= i < k ==> rounds[i].additionalTemplatingEngines
    ensures |EngineEntries(rounds)| == k + 1
  {
    if k > 0 {
      EngineEntriesStopAtDecline(rounds[1..], k - 1);
    }
  }

  /** When no given round declines, every round contributes its entry and the list ends with the rounds. */
  lemma {:induction false} EngineEntriesRunOut(rounds: seq<EngineAnswers>)
    requires forall i :: 0 <= i < |rounds| ==> rounds[i].additionalTemplatingEngines
    ensures EngineEntries(rounds) == seq(|rounds|, i requires 0 <= i < |rounds| => EngineEntry(rounds[i]))
  {
    if rounds != [] {
      EngineEntriesRunOut(rounds[1..]);
    }
  }

  /** `sub` occurs in `s` at position `i`. */
  predicate OccursAt(s: string, sub: string, i: nat) {
    i + |sub| <= |s| && s[i..i + |sub|] == sub
  }

  /** `s.includes(sub)` */
  function Includes(s: string, sub: string): (b: bool)
    ensures b <==> exists i: nat :: OccursAt(s, sub, i)
    decreases |s|
  {
    if |s| < |sub| then false
    else if s[..|sub|] == sub then
      assert OccursAt(s, sub, 0);
      true
    else
      var rest := Includes(s[1..], sub);
      assert rest ==> exists i: nat :: OccursAt(s, sub, i) by {
        if rest {
          var i: nat :| OccursAt(s[1..], sub, i);
          assert s[i + 1..i + 1 + |sub|] == s[1..][i..i + |sub|];
          assert OccursAt(s, sub, i + 1);
        }
      }
      assert (exists i: nat :: OccursAt(s, sub, i)) ==> rest by {
        if exists i: nat :: OccursAt(s, sub, i) {
          var i: nat :| OccursAt(s, sub, i);
          assert i != 0;
          assert s[1..][i - 1..i - 1 + |sub|] == s[i..i + |sub|];
          assert OccursAt(s[1..], sub, i - 1);
        }
      }
      rest
  }

  /** Some engine entry names teddy. */
  predicate MentionsTeddy(entries: seq<string>) {
    exists i :: 0 <= i < |entries| && Includes(entries[i], "teddy")
  }

  /** `staticsSymlinksToPublic` once `setParams` has pushed the CSS and JS entries. */
  function StaticsSymlinks(cssCompiler: JsValue, jsCompiler: JsValue): (r: seq<string>)
    ensures |r| == 3 && r[0] == "images"
    ensures r[1] == (if cssCompiler != Str("none") then "css: .build/css" else "css")
    ensures r[2] == (if jsCompiler != Str("none") then "js: .build/js" else "js")
  {
    ["images"] + [if cssCompiler != Str("none") then "css: .build/css" else "css"]
               + [if jsCompiler != Str("none") then "js: .build/js" else "js"]
  }

  /** `answer || fallback`: a truthy answer is kept, any other is replaced by the fallback. */
  predicate AnswerOrDefault(resolved: JsValue, answer: JsValue, fallback: JsValue) {
    if Truthy(answer) then resolved == answer else resolved == fallback
  }

  /** The port and HTTPS settings `setParams` resolves. */
  datatype Server = Server(
    httpPort: JsValue,
    enableHTTPS: JsValue,
    httpsOnly: JsValue,
    httpsPort: JsValue,
    pfx: JsValue,
    keyPath: JsValue,
    passphrase: JsValue,
    ca: JsValue,
    requestCert: JsValue,
    rejectUnauthorized: JsValue)

  /** The server settings after `setParams`, from the answers, the `https` field and the defaults. */
  function ResolvedServer(s: Server, https: JsValue, d: Defaults): Server {
    Server(Or(s.httpPort, d.httpPort), Or(https, d.httpsEnable), Or(s.httpsOnly, d.httpsOnly),
           Or(s.httpsPort, d.httpsPort), Bool(s.pfx == Str(".pfx")), Or(s.keyPath, d.keyPath),
           Or(s.passphrase, d.passphrase), Or(s.ca, d.ca), Or(s.requestCert, d.requestCert),
           Or(s.rejectUnauthorized, d.rejectUnauthorized))
  }

  /**
   * Every answered setting is kept and every unanswered one takes its
   * default; the HTTPS switch comes from `https`; `pfx` becomes a boolean
   * that is true exactly when `.pfx` was chosen.
   */
  lemma ServerResolution(s: Server, https: JsValue, d: Defaults)
    ensures var r := ResolvedServer(s, https, d);
      && AnswerOrDefault(r.httpPort, s.httpPort, d.httpPort)
      && AnswerOrDefault(r.enableHTTPS, https, d.httpsEnable)
      && AnswerOrDefault(r.httpsOnly, s.httpsOnly, d.httpsOnly)
      && AnswerOrDefault(r.httpsPort, s.httpsPort, d.httpsPort)
      && r.pfx.Bool? && (r.pfx.b <==> s.pfx == Str(".pfx"))
      && AnswerOrDefault(r.keyPath, s.keyPath, d.keyPath)
      && AnswerOrDefault(r.passphrase, s.passphrase, d.passphrase)
      && AnswerOrDefault(r.ca, s.ca, d.ca)
      && AnswerOrDefault(r.requestCert, s.requestCert, d.requestCert)
      && AnswerOrDefault(r.rejectUnauthorized, s.rejectUnauthorized, d.rejectUnauthorized)
  {
  }

  /** The HTTPS answer of the prompt has no effect on the resolved settings. */
  lemma EnableAnswerIgnored(s: Server, https: JsValue, d: Defaults, answer: JsValue)
    ensures ResolvedServer(s.(enableHTTPS := answer), https, d) == ResolvedServer(s, https, d)
  {
  }

  /** The compilers, the MVC paths and the view engine. */
  datatype Layout = Layout(
    cssCompiler: JsValue,
    jsCompiler: JsValue,
    modelsPath: string,
    viewsPath: string,
    controllersPath: string,
    viewEngine: ViewEngine)

  /** `answer || fallback` for a string setting where undefined and empty behave alike. */
  predicate PathOrDefault(resolved: string, answer: string, fallback: string) {
    if answer != "" then resolved == answer else resolved == fallback
  }

  function ResolvedLayout(l: Layout, templatingEngine: JsValue, viewEngineList: Option<seq<string>>, d: Defaults): Layout {
    Layout(Or(l.cssCompiler, Str("default")), Or(l.jsCompiler, Str("default")),
           OrString(l.modelsPath, d.modelsPath), OrString(l.viewsPath, d.viewsPath),
           OrString(l.controllersPath, d.controllersPath),
           ResolveViewEngine(templatingEngine, viewEngineList, d.viewEngine))
  }

  /** Unanswered compilers become `'default'`, unanswered paths their defaults; the view engine follows `ResolveViewEngine`. */
  lemma LayoutResolution(l: Layout, templatingEngine: JsValue, viewEngineList: Option<seq<string>>, d: Defaults)
    ensures var r := ResolvedLayout(l, templatingEngine, viewEngineList, d);
      && AnswerOrDefault(r.cssCompiler, l.cssCompiler, Str("default"))
      && AnswerOrDefault(r.jsCompiler, l.jsCompiler, Str("default"))
      && Truthy(r.cssCompiler) && Truthy(r.jsCompiler)
      && PathOrDefault(r.modelsPath, l.modelsPath, d.modelsPath)
      && PathOrDefault(r.viewsPath, l.viewsPath, d.viewsPath)
      && PathOrDefault(r.controllersPath, l.controllersPath, d.controllersPath)
      && (r.viewEngine == NoViewEngine <==> templatingEngine == Bool(false))
  {
  }

  /** What `setParams` derives from the resolved settings. */
  datatype Build = Build(
    staticsSymlinksToPublic: seq<string>,
    dependencies: Bundle,
    usesTeddy: bool,
    cssCompilerParams: CompilerParams,
    cssExt: JsValue,
    cssSyntax: JsValue,
    jsCompilerParams: CompilerParams)

  /**
   * The derived state after `setParams`: teddy is used once an engine entry
   * names it, each bundle is merged over the previous ones, the chosen
   * sections supply the compiler options and the stylesheet settings, and a
   * compiler name no section answers to leaves its block as it was.
   */
  function ResolvedBuild(b: Build, d: Defaults, viewEngine: ViewEngine, cssCompiler: JsValue, jsCompiler: JsValue): Build
    requires WellFormed(d)
  {
    var teddy := b.usesTeddy || (viewEngine.Engines? && MentionsTeddy(viewEngine.entries));
    var css := CssSection(d, cssCompiler);
    var js := JsSection(d, jsCompiler);
    Build(
      StaticsSymlinks(cssCompiler, jsCompiler),
      d.dependencies + (if teddy then d.teddy else map[]) + Part(css) + Part(js),
      teddy,
      if cssCompiler == Str("none") then ParamsNone else if css.Some? then ParamsOf(css.value.options) else b.cssCompilerParams,
      if cssCompiler == Str("none") then Str("css") else if css.Some? then css.value.cssExt else b.cssExt,
      if cssCompiler == Str("none") then Str("") else if css.Some? then css.value.cssSyntax else b.cssSyntax,
      if jsCompiler == Str("none") then ParamsNone else if js.Some? then ParamsOf(js.value.options) else b.jsCompilerParams)
  }

  /** The manifest is the merge of the bundles in the order base, teddy, CSS, JS. */
  lemma BuildDependencies(b: Build, d: Defaults, viewEngine: ViewEngine, cssCompiler: JsValue, jsCompiler: JsValue)
    requires WellFormed(d)
    ensures var r := ResolvedBuild(b, d, viewEngine, cssCompiler, jsCompiler);
      r.dependencies == Merge(DependencyBundles(d, r.usesTeddy, cssCompiler, jsCompiler))
  {
    var r := ResolvedBuild(b, d, viewEngine, cssCompiler, jsCompiler);
    MergeOfBundles(d, r.usesTeddy, cssCompiler, jsCompiler);
  }

  /** Without a CSS preprocessor the app keeps plain `.css` stylesheets and links `css` directly. */
  lemma PlainCssWithoutPreprocessor(b: Build, d: Defaults, viewEngine: ViewEngine, jsCompiler: JsValue)
    requires WellFormed(d)
    ensures var r := ResolvedBuild(b, d, viewEngine, Str("none"), jsCompiler);
      && r.cssExt == Str("css") && r.cssSyntax == Str("") && r.cssCompilerParams == ParamsNone
      && r.staticsSymlinksToPublic[1] == "css"
  {
  }
}
