/**
 * The flags rollup.config.js derives once, at load time, from four
 * environment variables: ROLLUP_WATCH, BUNDLING, PRERENDER and NODE_ENV.
 */
module BuildFlags {
  import opened JsValues

  /** The two values `bundling` can take: 'dynamic' (code-split ES modules) or 'bundle' (one IIFE file). */
  datatype Bundling = Dynamic | Bundle

  /** The four environment lookups the derivation reads. */
  datatype ProcessEnv = ProcessEnv(rollupWatch: EnvValue, bundling: EnvValue, prerender: EnvValue, nodeEnv: EnvValue)

  /** The derived flags, computed once and never re-read. */
  datatype BuildEnvironment = BuildEnvironment(production: bool, bundling: Bundling, shouldPrerender: JsValue, mode: string)

  /** `!process.env.ROLLUP_WATCH`: production unless the watch signal is a non-empty string. */
  function Production(rollupWatch: EnvValue): (r: bool)
    ensures r <==> rollupWatch == Undefined || rollupWatch == Defined("")
  {
    !EnvTruthy(rollupWatch)
  }

  /**
   * `process.env.BUNDLING || production ? 'dynamic' : 'bundle'`, which parses as
   * `(BUNDLING || production) ? ...`: the value of BUNDLING is never looked at.
   */
  function BundlingOf(bundling: EnvValue, production: bool): (r: Bundling)
    ensures r == Dynamic <==> production || (bundling.Defined? && |bundling.text| > 0)
    ensures r == Bundle <==> !production && (bundling == Undefined || bundling == Defined(""))
  {
    assert bundling.Defined? && bundling.text == "" ==> bundling == Defined("");
    if EnvTruthy(bundling) || production then Dynamic else Bundle
  }

  /** A defined PRERENDER is kept as the raw string; otherwise `!!production`. */
  function ShouldPrerender(prerender: EnvValue, production: bool): (r: JsValue)
    ensures prerender.Defined? ==> r.JsString? && r.s == prerender.text
    ensures prerender == Undefined ==> r.JsBool?
    ensures Truthy(r) <==> if prerender.Defined? then prerender.text != "" else production
  {
    if prerender.Defined? then JsString(prerender.text) else JsBool(production)
  }

  /** `process.env.NODE_ENV || 'development'`. */
  function Mode(nodeEnv: EnvValue): (r: string)
    ensures r != ""
    ensures nodeEnv.Defined? && nodeEnv.text != "" ==> r == nodeEnv.text
    ensures nodeEnv == Undefined || nodeEnv == Defined("") ==> r == "development"
  {
    if EnvTruthy(nodeEnv) then nodeEnv.text else "development"
  }

  /** All four flags, as rollup.config.js computes them from the process environment. */
  function Derive(env: ProcessEnv): (r: BuildEnvironment)
    ensures r.production <==> !EnvTruthy(env.rollupWatch)
    ensures r.bundling == Dynamic <==> EnvTruthy(env.bundling) || !EnvTruthy(env.rollupWatch)
    ensures Truthy(r.shouldPrerender) <==>
      if env.prerender.Defined? then env.prerender.text != "" else !EnvTruthy(env.rollupWatch)
    ensures r.shouldPrerender ==
      if env.prerender.Defined? then JsString(env.prerender.text) else JsBool(!EnvTruthy(env.rollupWatch))
    ensures r.mode == if EnvTruthy(env.nodeEnv) then env.nodeEnv.text else "development"
    ensures r.mode != ""
  {
    var production := Production(env.rollupWatch);
    BuildEnvironment(production, BundlingOf(env.bundling, production),
                     ShouldPrerender(env.prerender, production), Mode(env.nodeEnv))
  }

  /** BUNDLING=bundle does not select the single bundle: any non-empty value selects 'dynamic'. */
  lemma BundleOverrideSelectsDynamic(env: ProcessEnv)
    requires env.bundling == Defined("bundle")
    ensures Derive(env).bundling == Dynamic
  {
  }

  /** 'bundle' is chosen only in watch mode with BUNDLING unset or empty. */
  lemma BundleOnlyInWatchMode(env: ProcessEnv)
    ensures Derive(env).bundling == Bundle <==> EnvTruthy(env.rollupWatch) && !EnvTruthy(env.bundling)
  {
  }

  /** PRERENDER=false is a non-empty string and therefore enables prerendering. */
  lemma PrerenderFalseEnables(env: ProcessEnv)
    requires env.prerender == Defined("false")
    ensures Truthy(Derive(env).shouldPrerender)
  {
  }
}
