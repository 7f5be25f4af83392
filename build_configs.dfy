/**
 * The list of Rollup configurations rollup.config.js exports: the bundled
 * configuration always, the code-split one when bundling is 'dynamic', and a
 * prerender plugin pushed onto the plugin list of the last of them.
 */
module BuildConfigs {
  import opened JsValues
  import opened BuildFlags
  import EnvReplace
  import HtmlTemplate

  const DistDir: string := "dist"
  const BuildDir: string := DistDir + "/build"

  /** The transform the copy plugin applies to `static/__index.html`. */
  datatype Transform = BundledScript | DynamicScript

  function ApplyTransform(t: Transform, contents: string): string
  {
    match t
    case BundledScript => HtmlTemplate.BundledTransform(contents)
    case DynamicScript => HtmlTemplate.DynamicTransform(contents)
  }

  /**
   * The plugins, as opaque tags carrying the options that vary between builds.
   * Absent stands for the `false` that `condition && plugin()` leaves in the
   * array when the condition fails; Rollup skips it.
   */
  datatype Plugin =
    | Alias
    | Copy(transform: Transform)
    | Svelte(dev: bool)
    | Replace(values: map<string, string>)
    | Resolve
    | CommonJs
    | Terser
    | Serve
    | Livereload(watchDir: string)
    | Prerender
    | Absent

  /** The `output` a configuration passes to `createConfig`. */
  datatype OutputOptions = OutputOptions(format: string, file: Option<string>, dir: Option<string>)

  /** The argument of `createConfig`. */
  datatype ConfigOptions = ConfigOptions(inlineDynamicImports: bool, output: OutputOptions, plugins: seq<Plugin>)

  /** The `output` of a finished configuration: the defaults, then the caller's fields spread over them. */
  datatype Output = Output(name: string, sourcemap: bool, format: string, file: Option<string>, dir: Option<string>)

  /** One Rollup configuration; `clearScreen` is its `watch.clearScreen`. */
  datatype Config = Config(inlineDynamicImports: bool, input: string, output: Output, plugins: seq<Plugin>, clearScreen: bool)

  /** `inlineDynamicImports ? bundledTransform : dynamicTransform`. */
  function TransformFor(inlineDynamicImports: bool): (t: Transform)
    ensures t == BundledScript <==> inlineDynamicImports
    ensures t == DynamicScript <==> !inlineDynamicImports
  {
    if inlineDynamicImports then BundledScript else DynamicScript
  }

  /** The plugins every configuration starts with, in order. */
  function CommonPlugins(production: bool, table: map<string, string>, inlineDynamicImports: bool): (ps: seq<Plugin>)
    ensures |ps| == 7 && Prerender !in ps && Serve !in ps
    ensures Terser in ps <==> production
    ensures ps[1] == Copy(BundledScript) <==> inlineDynamicImports
  {
    [Alias, Copy(TransformFor(inlineDynamicImports)), Svelte(!production), Replace(table),
     Resolve, CommonJs, if production then Terser else Absent]
  }

  /** `createConfig({ output, inlineDynamicImports, plugins })`, with `table` standing for `valuesEnvToReplace()`. */
  function CreateConfig(production: bool, table: map<string, string>, options: ConfigOptions): (c: Config)
    ensures c.inlineDynamicImports == options.inlineDynamicImports
    ensures c.input == "src/main.js" && !c.clearScreen
    ensures c.output == Output("app", true, options.output.format, options.output.file, options.output.dir)
    ensures c.plugins == CommonPlugins(production, table, options.inlineDynamicImports) + options.plugins
  {
    var output := Output("app", true, options.output.format, options.output.file, options.output.dir);
    Config(options.inlineDynamicImports, "src/main.js", output,
           CommonPlugins(production, table, options.inlineDynamicImports) + options.plugins, false)
  }

  /** `bundledConfig`: one IIFE file, with the dev server and live reload outside production. */
  function BundledOptions(production: bool): (o: ConfigOptions)
    ensures o.inlineDynamicImports
    ensures o.output == OutputOptions("iife", Some("dist/build/bundle.js"), None)
    ensures |o.plugins| == 2
    ensures Serve in o.plugins <==> !production
    ensures Livereload("dist") in o.plugins <==> !production
    ensures Prerender !in o.plugins && Terser !in o.plugins
  {
    assert BuildDir + "/bundle.js" == "dist/build/bundle.js";
    ConfigOptions(true, OutputOptions("iife", Some(BuildDir + "/bundle.js"), None),
                  [if production then Absent else Serve, if production then Absent else Livereload(DistDir)])
  }

  /** `dynamicConfig`: a directory of ES modules, with live reload outside production. */
  function DynamicOptions(production: bool): (o: ConfigOptions)
    ensures !o.inlineDynamicImports
    ensures o.output == OutputOptions("esm", None, Some("dist/build"))
    ensures |o.plugins| == 1
    ensures Livereload("dist") in o.plugins <==> !production
    ensures Serve !in o.plugins && Prerender !in o.plugins && Terser !in o.plugins
  {
    assert BuildDir == "dist/build";
    ConfigOptions(false, OutputOptions("esm", None, Some(BuildDir)),
                  [if production then Absent else Livereload(DistDir)])
  }

  /** The configurations before any prerender plugin is attached (lines 139-140). */
  function Jobs(env: BuildEnvironment, table: map<string, string>): (jobs: seq<Config>)
    ensures |jobs| == if env.bundling == Dynamic then 2 else 1
    ensures forall k :: 0 <= k < |jobs| ==> Prerender !in jobs[k].plugins
  {
    var bundled := CreateConfig(env.production, table, BundledOptions(env.production));
    if env.bundling == Dynamic then [bundled, CreateConfig(env.production, table, DynamicOptions(env.production))]
    else [bundled]
  }

  /** Pushes `p` onto the plugin list of the last configuration. */
  function PushOntoLast(cs: seq<Config>, p: Plugin): (r: seq<Config>)
    requires |cs| > 0
    ensures |r| == |cs| && r[..|r| - 1] == cs[..|cs| - 1]
    ensures r[|r| - 1] == cs[|cs| - 1].(plugins := cs[|cs| - 1].plugins + [p])
  {
    var last := cs[|cs| - 1];
    cs[..|cs| - 1] + [last.(plugins := last.plugins + [p])]
  }

  /** The exported `configs` array. */
  function Configs(env: BuildEnvironment, table: map<string, string>): (cs: seq<Config>)
    ensures |cs| == |Jobs(env, table)|
    ensures forall k :: 0 <= k < |cs| - 1 ==> cs[k] == Jobs(env, table)[k]
    ensures !Truthy(env.shouldPrerender) ==> cs == Jobs(env, table)
    ensures Truthy(env.shouldPrerender) ==>
      cs[|cs| - 1] == Jobs(env, table)[|cs| - 1].(plugins := Jobs(env, table)[|cs| - 1].plugins + [Prerender])
  {
    var jobs := Jobs(env, table);
    if Truthy(env.shouldPrerender) then PushOntoLast(jobs, Prerender) else jobs
  }

  /** One configuration when bundling is 'bundle', two when it is 'dynamic'; the bundled one comes first. */
  lemma ConfigsShape(env: BuildEnvironment, table: map<string, string>)
    ensures var cs := Configs(env, table);
      && (|cs| == 1 <==> env.bundling == Bundle)
      && (|cs| == 2 <==> env.bundling == Dynamic)
      && cs[0].inlineDynamicImports && cs[0].output.format == "iife"
      && cs[0].output.file == Some("dist/build/bundle.js") && cs[0].output.dir == None
      && (|cs| == 2 ==> !cs[1].inlineDynamicImports && cs[1].output.format == "esm"
                        && cs[1].output.dir == Some("dist/build") && cs[1].output.file == None)
  {
    var cs, jobs := Configs(env, table), Jobs(env, table);
    assert BuildDir == "dist/build" && BuildDir + "/bundle.js" == "dist/build/bundle.js";
    assert cs[0].output == jobs[0].output;
    if |cs| == 2 {
      assert cs[1].output == jobs[1].output;
    }
  }

  /** Each configuration's plugin list is createConfig's, with the prerender plugin appended to the last one only. */
  lemma LastConfigGetsPrerender(env: BuildEnvironment, table: map<string, string>, k: nat)
    requires k < |Configs(env, table)|
    ensures var cs, jobs := Configs(env, table), Jobs(env, table);
      cs[k].inlineDynamicImports == jobs[k].inlineDynamicImports && cs[k].output == jobs[k].output
      && cs[k].plugins == jobs[k].plugins + if Truthy(env.shouldPrerender) && k == |cs| - 1 then [Prerender] else []
  {
  }

  /**
   * The prerender plugin appears exactly once, in the last configuration, when
   * shouldPrerender is truthy, and in no configuration otherwise.
   */
  lemma PrerenderOnLastOnly(env: BuildEnvironment, table: map<string, string>, k: nat)
    requires k < |Configs(env, table)|
    ensures var cs := Configs(env, table);
      multiset(cs[k].plugins)[Prerender] == if Truthy(env.shouldPrerender) && k == |cs| - 1 then 1 else 0
  {
    var jobs := Jobs(env, table);
    LastConfigGetsPrerender(env, table, k);
    assert multiset(jobs[k].plugins)[Prerender] == 0;
  }

  /**
   * Every configuration's plugins start with alias, copy, svelte, replace,
   * resolve, commonjs and terser-or-absent, in that order, then its own extras;
   * the copy transform is bundledTransform exactly when dynamic imports are inlined.
   */
  lemma PluginOrder(env: BuildEnvironment, table: map<string, string>, k: nat)
    requires k < |Configs(env, table)|
    ensures var c := Configs(env, table)[k];
      && |c.plugins| >= 7
      && c.plugins[..7] == CommonPlugins(env.production, table, c.inlineDynamicImports)
      && (c.plugins[1] == Copy(BundledScript) <==> c.inlineDynamicImports)
      && (Terser in c.plugins <==> env.production)
  {
    var cs := Configs(env, table);
    var options := if k == 0 then BundledOptions(env.production) else DynamicOptions(env.production);
    var common := CommonPlugins(env.production, table, options.inlineDynamicImports);
    var extras := options.plugins + if Truthy(env.shouldPrerender) && k == |cs| - 1 then [Prerender] else [];
    JobPlugins(env, table, k);
    LastConfigGetsPrerender(env, table, k);
    assert cs[k].plugins == common + extras;
    assert Terser !in extras;
    assert cs[k].plugins[..7] == common;
  }

  /**
   * The copy plugin of the bundled configuration rewrites `__index.html` with
   * bundledTransform, that of the code-split configuration with dynamicTransform.
   */
  lemma ConfigTemplateTransform(env: BuildEnvironment, table: map<string, string>, k: nat, contents: string)
    requires k < |Configs(env, table)|
    ensures var c := Configs(env, table)[k];
      && |c.plugins| > 1 && c.plugins[1].Copy?
      && ApplyTransform(c.plugins[1].transform, contents) ==
         if k == 0 then HtmlTemplate.BundledTransform(contents) else HtmlTemplate.DynamicTransform(contents)
  {
    var options := if k == 0 then BundledOptions(env.production) else DynamicOptions(env.production);
    JobPlugins(env, table, k);
    LastConfigGetsPrerender(env, table, k);
    PluginOrder(env, table, k);
    assert Configs(env, table)[k].inlineDynamicImports == options.inlineDynamicImports;
  }

  /** The k-th job is createConfig of bundledConfig (k = 0) or of dynamicConfig (k = 1). */
  lemma JobPlugins(env: BuildEnvironment, table: map<string, string>, k: nat)
    requires k < |Jobs(env, table)|
    ensures var options := if k == 0 then BundledOptions(env.production) else DynamicOptions(env.production);
      Jobs(env, table)[k] == CreateConfig(env.production, table, options)
  {
  }

  /**
   * A production build with no overrides: two configurations, minified, no
   * dev server or live reload, and the prerender plugin on the code-split one only.
   */
  lemma ProductionBuild(penv: ProcessEnv, table: map<string, string>)
    requires penv.rollupWatch == Undefined && penv.bundling == Undefined && penv.prerender == Undefined
    ensures var cs := Configs(Derive(penv), table);
      && |cs| == 2
      && Prerender !in cs[0].plugins && multiset(cs[1].plugins)[Prerender] == 1
      && Terser in cs[0].plugins && Terser in cs[1].plugins
      && Serve !in cs[0].plugins && Serve !in cs[1].plugins
      && Livereload(DistDir) !in cs[0].plugins && Livereload(DistDir) !in cs[1].plugins
  {
    ProductionPlugins(penv, table);
    var cs := Configs(Derive(penv), table);
    var p0 := [Alias, Copy(BundledScript), Svelte(false), Replace(table), Resolve, CommonJs, Terser, Absent, Absent];
    var p1 := [Alias, Copy(DynamicScript), Svelte(false), Replace(table), Resolve, CommonJs, Terser, Absent, Prerender];
    assert cs[0].plugins == p0 && cs[1].plugins == p1;
    assert forall q :: q in p0 ==> !q.Livereload? && !q.Serve? && !q.Prerender?;
    assert forall q :: q in p1 ==> !q.Livereload? && !q.Serve?;
    assert multiset(p1)[Prerender] == 1 by {
      assert p1 == p1[..8] + [Prerender];
      assert Prerender !in p1[..8];
    }
  }

  /** The two plugin lists of a production build with no overrides. */
  lemma ProductionPlugins(penv: ProcessEnv, table: map<string, string>)
    requires penv.rollupWatch == Undefined && penv.bundling == Undefined && penv.prerender == Undefined
    ensures var cs := Configs(Derive(penv), table);
      && |cs| == 2
      && cs[0].plugins == [Alias, Copy(BundledScript), Svelte(false), Replace(table), Resolve, CommonJs, Terser, Absent, Absent]
      && cs[1].plugins == [Alias, Copy(DynamicScript), Svelte(false), Replace(table), Resolve, CommonJs, Terser, Absent, Prerender]
  {
    var env := Derive(penv);
    assert env.production && env.bundling == Dynamic && Truthy(env.shouldPrerender);
    JobPlugins(env, table, 0);
    JobPlugins(env, table, 1);
    LastConfigGetsPrerender(env, table, 0);
    LastConfigGetsPrerender(env, table, 1);
  }

  /**
   * A development build (watch mode) with no overrides: one IIFE configuration,
   * not minified, with the dev server and live reload and no prerender plugin.
   */
  lemma DevelopmentBuild(penv: ProcessEnv, table: map<string, string>)
    requires EnvTruthy(penv.rollupWatch) && penv.bundling == Undefined && penv.prerender == Undefined
    requires penv.nodeEnv == Undefined
    ensures var env := Derive(penv); var cs := Configs(env, table);
      && env.mode == "development"
      && |cs| == 1 && cs[0].output.format == "iife"
      && Prerender !in cs[0].plugins && Terser !in cs[0].plugins
      && Serve in cs[0].plugins && Livereload(DistDir) in cs[0].plugins
  {
    var env := Derive(penv);
    var cs := Configs(env, table);
    assert cs[0].plugins == CommonPlugins(false, table, true) + [Serve, Livereload(DistDir)];
  }

  /** A configuration object; only its plugin list is ever changed after creation. */
  class ConfigObject {
    const inlineDynamicImports: bool
    const input: string
    const output: Output
    var plugins: seq<Plugin>
    const clearScreen: bool

    function Value(): Config
      reads this
    {
      Config(inlineDynamicImports, input, output, plugins, clearScreen)
    }

    constructor (c: Config)
      ensures Value() == c
    {
      inlineDynamicImports, input, output := c.inlineDynamicImports, c.input, c.output;
      plugins, clearScreen := c.plugins, c.clearScreen;
    }

    /** `this.plugins.push(p)`. */
    method PushPlugin(p: Plugin)
      modifies this
      ensures Value() == old(Value()).(plugins := old(plugins) + [p])
    {
      plugins := plugins + [p];
    }
  }

  /**
   * Lines 139-141: create the bundled configuration, push the code-split one
   * when bundling is 'dynamic', then push the prerender plugin onto the object
   * popped from a copy of the array, which is the array's own last element.
   */
  method AssembleConfigs(env: BuildEnvironment, envVars: map<string, string>) returns (configs: seq<ConfigObject>)
    ensures forall k :: 0 <= k < |configs| ==> fresh(configs[k])
    ensures forall j, k :: 0 <= j < k < |configs| ==> configs[j] != configs[k]
    ensures |configs| == |Configs(env, EnvReplace.SubstitutionTable(envVars))|
    ensures forall k :: 0 <= k < |configs| ==>
      configs[k].Value() == Configs(env, EnvReplace.SubstitutionTable(envVars))[k]
  {
    var table := EnvReplace.ValuesEnvToReplace(envVars);
    ghost var jobs := Jobs(env, table);
    var bundled := new ConfigObject(CreateConfig(env.production, table, BundledOptions(env.production)));
    configs := [bundled];
    if env.bundling == Dynamic {
      table := EnvReplace.ValuesEnvToReplace(envVars);
      var dynamic := new ConfigObject(CreateConfig(env.production, table, DynamicOptions(env.production)));
      configs := configs + [dynamic];
    }
    assert |configs| == |jobs| && forall k :: 0 <= k < |configs| ==> configs[k].Value() == jobs[k];
    if Truthy(env.shouldPrerender) {
      var copy := configs;
      var last := copy[|copy| - 1];
      copy := copy[..|copy| - 1];
      last.PushPlugin(Prerender);
    }
  }
}
