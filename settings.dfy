/**
 * The generator's defaults file, `templates/defaults.json`, taken as a
 * parameter: only the entries the resolver and the planner read.
 */
module Settings {
  import opened Js

  /** A compiler section of the defaults file: its dependency bundle, its options block and, for CSS, its script settings. */
  datatype Section = Section(
    dependencies: map<string, string>,
    options: map<string, JsValue>,
    cssExt: JsValue,
    cssSyntax: JsValue)

  datatype Defaults = Defaults(
    appName: string,
    httpPort: JsValue,
    httpsEnable: JsValue,
    httpsOnly: JsValue,
    httpsPort: JsValue,
    keyPath: JsValue,
    passphrase: JsValue,
    ca: JsValue,
    requestCert: JsValue,
    rejectUnauthorized: JsValue,
    modelsPath: string,
    viewsPath: string,
    controllersPath: string,
    viewEngine: seq<string>,
    dependencies: map<string, string>,
    teddy: map<string, string>,
    defaultCSSCompiler: string,
    defaultJSCompiler: string,
    sections: map<string, Section>)

  const LessSection := "rooseveltLess"
  const SassSection := "rooseveltSass"
  const UglifySection := "rooseveltUglify"
  const ClosureSection := "rooseveltClosure"

  /** Every section the resolver looks up by name is present. */
  predicate WellFormed(d: Defaults) {
    && d.defaultCSSCompiler in d.sections
    && d.defaultJSCompiler in d.sections
    && LessSection in d.sections
    && SassSection in d.sections
    && UglifySection in d.sections
    && ClosureSection in d.sections
  }
}
