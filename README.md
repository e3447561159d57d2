# Roosevelt app generator: the decisions behind a scaffold

This project models the deterministic core of the Roosevelt app generator
(`generators/app/index.js`), the Yeoman generator that creates a new
Roosevelt web application. It models the following:

- the package name derived from the app name (`_setAppName`);
- the `validate` callbacks of the port, common-name and country prompts;
- the list of view engines that `chooseViewEngine` builds, one prompt round
  at a time;
- `setParams`, which resolves every answer against the defaults file. It
  picks the destination directory, detects teddy, assembles the dependency
  manifest from bundles, and fills in the compiler blocks and the static
  symlink list;
- `writing`, modelled as the ordered list of file operations it issues.

Modules:

- `Js`: JavaScript values, truthiness and `||`.
- `Slug`: the `_setAppName` string pipeline.
- `Validators`: the prompt callbacks.
- `Settings`: the defaults file, taken as a parameter record.
- `Dependencies`: `Object.assign` as a right-biased map merge.
- `Resolver`: the pure rules of `setParams` and `chooseViewEngine`.
- `Scaffold`: the plan of file operations and its properties.
- `Generator`: the generator object. It is a class whose methods update its
  fields in the order the source does. `Generate` runs one whole generation
  from the answers.

The code and its obvious description differ in four places, and the model
follows the code:

- The package name keeps 213 characters, not 214.
- The first slug step removes the first `_` anywhere in the name, not only a
  leading one. The pipeline is therefore not idempotent: `"__a"` gives `"_a"`,
  and `"_a"` gives `"a"`.
- The port pattern accepts `"0"`, although its message asks for 1 to 65535.
- `setParams` reads the HTTPS switch from `this.https`, which nothing in the
  generator assigns. The answer stored in `enableHTTPS` by the prompt is
  overwritten, so the switch always takes its default.

## Model

| member | source | states |
|---|---|---|
| Slug.ResolveAppName | generators/app/index.js:31-32 | the app name is the answer when it is non-empty, the default otherwise |
| Slug.StripDotOrUnderscore | generators/app/index.js:36 | a leading `.` is removed; otherwise the first `_` anywhere is removed (one character fewer, nothing before it is a `_`); with neither, the name is unchanged |
| Slug.CollapseWhitespace | generators/app/index.js:37 | the result has no whitespace, is no longer than its input, is empty exactly when the input is, and is the input itself when that has no whitespace |
| Slug.CollapseLeadingRun | generators/app/index.js:37 | a maximal run of whitespace of any length becomes exactly one `-` |
| Slug.CollapseKeeps | generators/app/index.js:37 | a character that is not whitespace is kept and the rest is collapsed on its own |
| Slug.TruncateFirstRun | generators/app/index.js:38 | the result is no longer than its input, and is the first 213 characters whenever the input has no line terminator |
| Slug.ToLowerAscii | generators/app/index.js:39 | same length, each character lower-cased when it is an ASCII capital and unchanged otherwise |
| Slug.PackageName | generators/app/index.js:35-39 | the package name: the `.`/`_` strip, the whitespace collapse, the 213-character cut and the lower-casing in that order; a computing function whose properties `Slug.PackageNameSafe` and `Slug.PackageNameOfShortLower` state |
| Slug.PackageNameSafe | generators/app/index.js:35-39 | the package name has no whitespace, at most 213 characters and no ASCII capital; it is the lower-cased 213-character prefix of the hyphenated name, and empty exactly when that is |
| Slug.PackageNameOfShortLower | generators/app/index.js:35-39 | a hyphenated name of at most 213 characters without capitals is the package name unchanged |
| Slug.DerivationOfUnderscoreUnderscoreA | generators/app/index.js:35-39 | `"__a"` becomes `"_a"` |
| Slug.DerivationOfUnderscoreA | generators/app/index.js:35-39 | `"_a"` becomes `"a"` |
| Slug.PackageNameNotIdempotent | generators/app/index.js:36 | deriving the package name twice can differ from deriving it once |
| Validators.ValidatePort | generators/app/index.js:139-144 | the port callback either accepts or rejects with the port message |
| Validators.PortPatternMeaning | generators/app/index.js:140 | the port pattern matches exactly the digit strings without leading zeros whose value is at most 65535 |
| Validators.PortValidatorAcceptsDecimals | generators/app/index.js:237-242 | the port callback accepts a string iff it is the decimal form of some n with 0 ≤ n ≤ 65535 |
| Validators.PortValidatorAcceptsZero | generators/app/index.js:140-141 | the callback accepts `"0"`, which its message excludes |
| Validators.ValidatePortInRange | generators/app/index.js:141 | the corrected callback either accepts or rejects with the port message |
| Validators.PortInRangeAcceptsDecimals | generators/app/index.js:140-141 | the corrected callback accepts a string iff it is the decimal form of some n with 1 ≤ n ≤ 65535 |
| Validators.ValidateCommonName | generators/app/index.js:172 | accepts iff the input is non-empty; otherwise rejects with `This is required` |
| Validators.ValidateCountry | generators/app/index.js:179-183 | accepts iff the input is exactly two characters in A–Z; otherwise rejects with the format message |
| Dependencies.Merge | generators/app/index.js:444-508 | successive `Object.assign` steps from an empty object; a computing function whose meaning `Dependencies.MergeLastWins` states |
| Dependencies.CssSection | generators/app/index.js:463-477 | `default` picks the section the defaults name as CSS compiler, `LESS` and `SASS` their sections, anything else none; its effect on the manifest is stated by `Dependencies.DependencyPrecedence` |
| Dependencies.JsSection | generators/app/index.js:493-501 | `default` picks the section the defaults name as JS compiler, `UglifyJS` and `Closure Compiler` their sections, anything else none; its effect on the manifest is stated by `Dependencies.DependencyPrecedence` |
| Dependencies.MergeLastWins | generators/app/index.js:444-508 | a key is in the merge of successive `Object.assign` steps iff some bundle holds it, and its value is that of the last bundle holding it |
| Dependencies.MergeOfBundles | generators/app/index.js:444-508 | the merge of the bundle list is base, then teddy when used, then the CSS section's bundle, then the JS section's, each absent one adding nothing |
| Dependencies.DependencyPrecedence | generators/app/index.js:444-508 | each manifest key comes from the JS bundle over the CSS bundle over teddy over the base, and a key none of them holds is absent |
| Dependencies.LessWithoutJsCompiler | generators/app/index.js:468-508 | with LESS and no JS compiler the manifest is base, teddy when used, and the LESS bundle |
| Resolver.Destination | generators/app/index.js:415-420 | the package name when the standard-install option is `'true'`; otherwise that option when truthy; otherwise `dirname` when `createDir`; otherwise unset |
| Resolver.ResolveViewEngine | generators/app/index.js:442 | `'none'` iff `templatingEngine === false`; otherwise the collected list, or the default list when none was collected |
| Resolver.EngineEntries | generators/app/index.js:370-408 | the entries pushed by the prompt and its recursive calls; a computing function whose properties `Resolver.EngineEntriesRounds` and `Resolver.EngineEntriesStopAtDecline` state |
| Resolver.EngineEntriesRounds | generators/app/index.js:370-408 | one `"<extension>: <name>"` entry per prompt round, in order; every round before the last one included asked for another engine; the rounds stop at the first that declines |
| Resolver.EngineEntriesStopAtDecline | generators/app/index.js:402-406 | when round k is the first to decline another engine, exactly k+1 entries are collected |
| Resolver.EngineEntriesRunOut | generators/app/index.js:402-406 | when every given round asks for another engine, one entry per round is collected and the list ends with the rounds |
| Resolver.Includes | generators/app/index.js:449 | `includes` holds iff the substring occurs at some position |
| Resolver.MentionsTeddy | generators/app/index.js:447-453 | some engine entry includes `teddy`; `Generator.RooseveltGenerator.DetectTeddy` is proved against it |
| Resolver.StaticsSymlinks | generators/app/index.js:414-508 | exactly three entries: `images`, then `css: .build/css` or `css`, then `js: .build/js` or `js`, each by whether its compiler is `'none'` |
| Resolver.ServerResolution | generators/app/index.js:424-435 | each port and HTTPS setting is its answer when truthy and its default otherwise; the HTTPS switch comes from `https`; `pfx` is a boolean, true iff `.pfx` was chosen |
| Resolver.EnableAnswerIgnored | generators/app/index.js:427 | the HTTPS answer of the prompt has no effect on the resolved settings |
| Resolver.ResolvedServer | generators/app/index.js:424-435 | the resolved server settings; a computing function whose meaning `Resolver.ServerResolution` and `Resolver.EnableAnswerIgnored` state |
| Resolver.LayoutResolution | generators/app/index.js:437-442 | unanswered compilers become `'default'`, unanswered MVC paths take their defaults, and the view engine is `'none'` iff `templatingEngine === false` |
| Resolver.ResolvedLayout | generators/app/index.js:437-442 | the resolved compilers, paths and view engine; a computing function whose meaning `Resolver.LayoutResolution` states |
| Resolver.BuildDependencies | generators/app/index.js:444-508 | the manifest `setParams` leaves is the right-biased merge of base, teddy when used, the CSS bundle and the JS bundle |
| Resolver.PlainCssWithoutPreprocessor | generators/app/index.js:479-486 | without a CSS preprocessor the stylesheet extension is `css`, the syntax empty, the block `'none'` and the symlink entry `css` |
| Resolver.ResolvedBuild | generators/app/index.js:444-508 | the state `setParams` derives; a computing function whose meaning `Resolver.BuildDependencies`, `Resolver.StaticsSymlinks` and `Resolver.PlainCssWithoutPreprocessor` state |
| Scaffold.CertificatesFirst | generators/app/index.js:511-595 | the three PEM files are written iff SSL generation was chosen, and then first; `package.json` comes next, rendered with the manifest |
| Scaffold.AfterCertificates | generators/app/index.js:569-720 | everything after the certificates only copies templates and starts with `package.json` |
| Scaffold.PlanNamesMatch | generators/app/index.js:569-720 | the final file names of the plan's destinations are, in order, the names of the section groups |
| Scaffold.PlanNamesDistinct | generators/app/index.js:511-720 | the final file names of the plan are pairwise distinct |
| Scaffold.PlanDestinationsDistinct | generators/app/index.js:511-720 | no two operations of the plan write the same destination |
| Scaffold.PlanCopies | generators/app/index.js:569-720 | the plan copies from a template iff some section it contains lists that template |
| Scaffold.TeddyTemplateCopied | generators/app/index.js:613-670 | each teddy model, layout, view and controller template is copied iff teddy is used |
| Scaffold.VanillaTemplateCopied | generators/app/index.js:644-676 | each vanilla view and controller template is copied iff teddy is not used |
| Scaffold.StylesheetCopied | generators/app/index.js:679-704 | the stylesheets of `less`, `scss` or `css` are copied iff `cssExt` is that extension, so at most one stylesheet set is copied |
| Scaffold.PlanFacts | generators/app/index.js:511-720 | for any plan: distinct destinations, certificates iff asked for, `package.json` right after them, and the teddy homepage iff teddy while the vanilla one iff not |
| Scaffold.Plan | generators/app/index.js:511-720 | the operations `writing` issues, section by section; a computing function whose properties `Scaffold.PlanFacts`, `Scaffold.PlanDestinationsDistinct` and `Scaffold.PlanCopies` state |
| Generator.RooseveltGenerator.SetAppName | generators/app/index.js:31-40 | the app name is the answer or the default, and the package name is derived from it |
| Generator.RooseveltGenerator.ChooseViewEngine | generators/app/index.js:370-408 | no change without a templating engine; otherwise the list (an empty one when unset) is extended by one entry per round until a round declines another engine |
| Generator.RooseveltGenerator.SetParams | generators/app/index.js:410-509 | the symlink list is first reset to `images`; then the destination, the server settings, the layout and the derived build state are those of the resolution rules |
| Generator.RooseveltGenerator.ResolveDestination | generators/app/index.js:415-420 | the destination follows the standard-install, `createDir` and `dirname` rule |
| Generator.RooseveltGenerator.ResolveServer | generators/app/index.js:424-435 | the server settings become their resolved values |
| Generator.RooseveltGenerator.ResolveLayout | generators/app/index.js:437-442 | the compilers, the MVC paths and the view engine become their resolved values |
| Generator.RooseveltGenerator.ResolveBuild | generators/app/index.js:444-508 | the symlinks, the manifest, teddy and the compiler blocks become their resolved values |
| Generator.RooseveltGenerator.ResolveTeddy | generators/app/index.js:444-456 | the symlink list and the compiler blocks are unchanged; teddy is used iff it already was or an engine entry names it; the manifest is the base bundle, with teddy's merged over it when used |
| Generator.RooseveltGenerator.DetectTeddy | generators/app/index.js:447-453 | the `forEach` sets teddy iff some entry includes `teddy`, and changes nothing else |
| Generator.RooseveltGenerator.AddCssParams | generators/app/index.js:459-488 | the CSS entry is pushed, the chosen section's bundle merged, and the block, extension and syntax set; `'none'` gives `css`, `'none'`, `css` and empty, and an unknown name leaves them as they were |
| Generator.RooseveltGenerator.AddJsParams | generators/app/index.js:489-508 | the JS entry is pushed, the chosen section's bundle merged and the block set; `'none'` gives `js` and `'none'`, and an unknown name leaves the block as it was |
| Generator.RooseveltGenerator.Writing | generators/app/index.js:511-720 | the plan is extended by exactly the certificate, project, model, view, controller, stylesheet and static operations, in that order |
| Generator.RooseveltGenerator.WriteCertificates | generators/app/index.js:512-567 | the three PEM writes are appended iff SSL generation was chosen |
| Generator.RooseveltGenerator.WriteProjectFiles | generators/app/index.js:569-610 | `package.json`, `.stylelintrc.json`, `app.js` and `.gitignore` are appended |
| Generator.RooseveltGenerator.ManifestOf | generators/app/index.js:572-594 | the variables `package.json` is rendered with: each of the 21 `Manifest` fields is the resolved generator field the source names there (the package name, the merged dependencies, the ten server settings, the MVC paths and view engine, the compiler blocks, the symlinks, `cssExt` and `cssSyntax`); `Generator.Generate` states its name and dependencies for a whole run |
| Generator.RooseveltGenerator.WriteModels | generators/app/index.js:612-621 | the teddy global model is appended iff teddy is used |
| Generator.RooseveltGenerator.WriteViews | generators/app/index.js:623-653 | `robots.txt` and then the teddy layout, 404 page and homepage, or else the vanilla homepage, are appended |
| Generator.RooseveltGenerator.WriteControllers | generators/app/index.js:655-677 | the robots controller and then the teddy 404 and homepage controllers, or else the vanilla homepage controller, are appended |
| Generator.RooseveltGenerator.WriteStylesheets | generators/app/index.js:679-704 | the stylesheet set of `cssExt` is appended, and nothing for any other extension |
| Generator.RooseveltGenerator.WriteStatics | generators/app/index.js:706-719 | the image and script files are appended |
| Generator.Prepare | generators/app/index.js:31-408 | a fresh generator holding the answers (install option, `createDir`, `dirname`, SSL choice, server settings, compilers and paths), with the app name and package name of `_setAppName` and the engine list of `chooseViewEngine` |
| Generator.Configure | generators/app/index.js:410-509 | after `setParams`, the app name, the package name, the destination, the teddy flag and the dependency manifest are those the answers determine |
| Generator.Generate | generators/app/index.js:31-720 | a whole run: no destination is written twice; PEM files iff SSL generation was chosen; `package.json` carries the derived package name and the merged manifest; the teddy homepage is copied iff teddy was chosen, the vanilla one iff not |

## Left out

- The prompts and their Promise plumbing (`start`, `dir`, `mode`, `customize`, `generateSSLCerts`, `HTTPS`, `statics`, `mvc`): their answers are inputs (`Answers`, the name answer, the engine rounds). The validators are modelled on their own and not wired to the prompts.
- The spreading of prompt responses onto the generator (lines 217-220 and 286-289): the affected settings are explicit fields.
- Key and certificate generation with node-forge (lines 513-562): a foreign cryptographic library. Only the three PEM writes are recorded, with opaque contents.
- Template rendering and the file system (`copyTpl`, `copy`, `fs.write`): each call is an operation record with its template, its destination and its variables.
- The `destinationRoot` call (line 422): the destination is computed and stored, but it has no effect.
- `install` and `end`: dependency installation and closing messages only.
- The contents of `templates/defaults.json`: it is a parameter record. `WellFormed` requires that the sections `setParams` looks up by name exist. The source would throw on a missing `defaults[...]` section.
- Unicode case mapping in `toLowerCase`: only ASCII capitals are lowered.
- Slug.TruncateFirstRun: counts its 213 in Unicode scalar values, while the source's regular expression, having no `u` flag, counts UTF-16 code units. A name with characters above U+FFFF is therefore cut at a different place, and `Slug.PackageNameSafe` bounds the length in scalar values, not in the UTF-16 units of JavaScript's `length`. Dafny strings are sequences of scalar values, so the split of such a character into two surrogates is not modelled.
- Slug.PackageNameSafe: its 213-character bound and its prefix are counted in Unicode scalar values, not in UTF-16 code units, for the reason given in the line above.
- The aliasing at line 444: `Object.assign(this.dependencies, ...)` mutates the shared `defaults.dependencies` object. The model builds a fresh map each time.
- Generator.RooseveltGenerator.ChooseViewEngine: the answers of all prompt rounds are given up front as a sequence. The model does not capture that a round is only asked after the previous one. When the given rounds run out, the list stops there even if the last round asked for another engine, where the source would prompt again; `Resolver.EngineEntriesRunOut` states that case.
- Grouping of fields: the port and HTTPS settings, the compilers and MVC paths, and the state `setParams` derives are three record fields of the class rather than 23 separate fields (10 server, 6 layout and 7 build members). Each update changes one member of one record.
- Undefined versus empty string: MVC paths and the app name are strings, and `""` stands for both undefined and empty. `x || default` treats the two alike. Other answers keep the distinction through `JsValue`.

## Findings

| source | as written | input that shows it | evidently intended | confidence | as-written member | corrected member |
|---|---|---|---|---|---|---|
| generators/app/index.js:140 | the last alternative `[0-9]` of the port pattern admits `0` | `"0"` is accepted by the HTTP and HTTPS port callbacks | accept the ports 1 to 65535, as the message at line 141 says (last alternative `[1-9]`) | not executed | Validators.PortValidatorAcceptsZero | Validators.PortInRangeAcceptsDecimals |
