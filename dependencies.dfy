/**
 * The dependency manifest of the generated app: the base bundle, then the
 * teddy bundle, then the bundle of the chosen CSS compiler, then that of the
 * chosen JS compiler, each merged over the previous ones (`Object.assign`),
 * so that a later bundle wins on a shared key.
 */
module Dependencies {
  import opened Js
  import opened Settings

  type Bundle = map<string, string>

  /** `Object.assign(target, b1, b2, ...)` from the empty object: a right-biased fold. */
  function Merge(bundles: seq<Bundle>): Bundle {
    if bundles == [] then map[] else Merge(bundles[..|bundles| - 1]) + bundles[|bundles| - 1]
  }

  lemma MergeAppend(bundles: seq<Bundle>, b: Bundle)
    ensures Merge(bundles + [b]) == Merge(bundles) + b
  {
    assert (bundles + [b])[..|bundles|] == bundles;
  }

  /** `i` is the last bundle that holds `k`. */
  predicate LastHolder(bundles: seq<Bundle>, k: string, i: int) {
    && 0 <= i < |bundles|
    && k in bundles[i]
    && forall j :: i < j < |bundles| ==> k !in bundles[j]
  }

  /** A key is in the merge iff some bundle holds it, and its value is that of the last bundle holding it. */
  lemma {:induction false} MergeLastWins(bundles: seq<Bundle>, k: string)
    ensures k in Merge(bundles) <==> exists i :: 0 <= i < |bundles| && k in bundles[i]
    ensures forall i :: LastHolder(bundles, k, i) ==> k in Merge(bundles) && Merge(bundles)[k] == bundles[i][k]
  {
    if bundles != [] {
      var n := |bundles| - 1;
      var front := bundles[..n];
      MergeLastWins(front, k);
      assert forall i :: 0 <= i < n ==> front[i] == bundles[i];
      forall i | LastHolder(bundles, k, i)
        ensures k in Merge(bundles) && Merge(bundles)[k] == bundles[i][k]
      {
        if i < n {
          assert LastHolder(front, k, i);
        }
      }
    }
  }

  /** The CSS section `setParams` selects for a resolved `cssCompiler`; `'none'` and unknown names select none. */
  function CssSection(d: Defaults, compiler: JsValue): Option<Section>
    requires WellFormed(d)
  {
    if compiler == Str("default") then Some(d.sections[d.defaultCSSCompiler])
    else if compiler == Str("LESS") then Some(d.sections[LessSection])
    else if compiler == Str("SASS") then Some(d.sections[SassSection])
    else None
  }

  /** The JS section `setParams` selects for a resolved `jsCompiler`. */
  function JsSection(d: Defaults, compiler: JsValue): Option<Section>
    requires WellFormed(d)
  {
    if compiler == Str("default") then Some(d.sections[d.defaultJSCompiler])
    else if compiler == Str("UglifyJS") then Some(d.sections[UglifySection])
    else if compiler == Str("Closure Compiler") then Some(d.sections[ClosureSection])
    else None
  }

  function BundleOf(section: Option<Section>): seq<Bundle> {
    match section
    case Some(s) => [s.dependencies]
    case None => []
  }

  /** The bundles merged into `dependencies`, in merge order. */
  function DependencyBundles(d: Defaults, usesTeddy: bool, css: JsValue, js: JsValue): seq<Bundle>
    requires WellFormed(d)
  {
    [d.dependencies] + (if usesTeddy then [d.teddy] else []) + BundleOf(CssSection(d, css)) + BundleOf(JsSection(d, js))
  }

  function Part(section: Option<Section>): Bundle {
    match section
    case Some(s) => s.dependencies
    case None => map[]
  }

  lemma MergeOptional(bundles: seq<Bundle>, section: Option<Section>)
    ensures Merge(bundles + BundleOf(section)) == Merge(bundles) + Part(section)
  {
    match section
    case Some(s) =>
      MergeAppend(bundles, s.dependencies);
    case None =>
      assert bundles + BundleOf(section) == bundles;
      assert Merge(bundles) + map[] == Merge(bundles);
  }

  lemma MergeBaseAndTeddy(d: Defaults, usesTeddy: bool)
    ensures Merge([d.dependencies] + (if usesTeddy then [d.teddy] else []))
         == d.dependencies + (if usesTeddy then d.teddy else map[])
  {
    var base := [d.dependencies];
    assert Merge(base) == d.dependencies by { assert base[..0] == []; }
    if usesTeddy {
      MergeAppend(base, d.teddy);
    } else {
      assert base + [] == base;
      assert d.dependencies + map[] == d.dependencies;
    }
  }

  /** The assembled manifest is base, then teddy, then CSS, then JS, each absent bundle adding nothing. */
  lemma MergeOfBundles(d: Defaults, usesTeddy: bool, css: JsValue, js: JsValue)
    requires WellFormed(d)
    ensures Merge(DependencyBundles(d, usesTeddy, css, js))
         == d.dependencies + (if usesTeddy then d.teddy else map[]) + Part(CssSection(d, css)) + Part(JsSection(d, js))
  {
    var front := [d.dependencies] + (if usesTeddy then [d.teddy] else []);
    MergeBaseAndTeddy(d, usesTeddy);
    MergeOptional(front, CssSection(d, css));
    MergeOptional(front + BundleOf(CssSection(d, css)), JsSection(d, js));
  }

  /**
   * Which bundle each key of the manifest comes from: the JS bundle over the
   * CSS bundle over teddy over the base; a key no merged bundle holds is not
   * in the manifest.
   */
  lemma DependencyPrecedence(d: Defaults, usesTeddy: bool, css: JsValue, js: JsValue, k: string)
    requires WellFormed(d)
    ensures var deps := Merge(DependencyBundles(d, usesTeddy, css, js));
      var t := if usesTeddy then d.teddy else map[];
      var c := Part(CssSection(d, css));
      var j := Part(JsSection(d, js));
      && (k in deps <==> k in d.dependencies || k in t || k in c || k in j)
      && (k in j ==> deps[k] == j[k])
      && (k !in j && k in c ==> deps[k] == c[k])
      && (k !in j && k !in c && k in t ==> deps[k] == t[k])
      && (k !in j && k !in c && k !in t && k in d.dependencies ==> deps[k] == d.dependencies[k])
  {
    MergeOfBundles(d, usesTeddy, css, js);
  }

  /** The LESS bundle without a JS compiler: base, teddy when used, LESS, and no JS section key. */
  lemma LessWithoutJsCompiler(d: Defaults, usesTeddy: bool)
    requires WellFormed(d)
    ensures Merge(DependencyBundles(d, usesTeddy, Str("LESS"), Str("none")))
         == d.dependencies + (if usesTeddy then d.teddy else map[]) + d.sections[LessSection].dependencies
  {
    MergeOfBundles(d, usesTeddy, Str("LESS"), Str("none"));
  }
}
