# Build-configuration derivation of a Svelte/Rollup scaffold, in Dafny

This project models `rollup.config.js`, the one file of the scaffold with
behaviour of its own. At load time that file:

1. derives four flags from the environment: `production`, `bundling`,
   `shouldPrerender` and `mode`;
2. turns the parsed `.env.<mode>` file into the replace plugin's table, mapping
   `process.env.KEY` to the value written as a JSON string literal;
3. builds one Rollup configuration, the single IIFE bundle, and a second one,
   the code-split ES-module build, when bundling is `'dynamic'`; then, when
   `shouldPrerender` is truthy, it pushes a prerender plugin onto the plugin
   list of the last configuration. As written, line 62 reads the undeclared `projectRootDir` and throws before any
   configuration exists; the model assumes that name is bound (see "Left out");
4. installs a copy-plugin transform that puts the strategy's `<script>` tags in
   place of the `__SCRIPT__` placeholder of `static/__index.html`;
5. defines two `writeBundle` hooks: `serve()` starts the static server at most
   once per plugin instance, and `prerender()` starts the export job after every
   write.

Modules, one per file:

- `JsValues` (js_values.dfy): environment lookups (`undefined` or a string) and
  JavaScript truthiness.
- `BuildFlags` (build_flags.dfy): the flag derivation, with the source's operator
  precedence and truthiness kept as written.
- `JsonString` (json_string.dfy): `JSON.stringify` on a string, following
  QuoteJSONString in ECMA-262. It is paired with a decoder for JSON string
  literals (section 7 of RFC 8259) and proved to round-trip.
- `EnvReplace` (env_replace.dfy): `valuesEnvToReplace` as a loop that fills an
  accumulator, proved equal to a specification map. The map's entries and size
  are proved separately.
- `HtmlTemplate` (html_template.dfy): `String.prototype.replace` with a string
  pattern, and the two transforms built on it.
- `BuildConfigs` (build_configs.dfy): the plugin tags, `createConfig`, and the
  exported list as a specification function. A `ConfigObject` class holds the
  one field the source mutates, the plugin list. A method builds the list the
  way lines 139-141 do, including the push through the element returned by
  `[...configs].pop()`.
- `WriteHooks` (write_hooks.dfy): the two hooks as classes. Each spawn is
  recorded in a log.

## Behaviour that differs from what the names suggest

The model follows the code in each case:

- `BUNDLING || production ? 'dynamic' : 'bundle'` parses as
  `(BUNDLING || production) ? …`. Any non-empty `BUNDLING`, including `bundle`,
  selects `'dynamic'` and so yields two configurations, although one might
  expect `BUNDLING=bundle` to give the single bundle (`BundleOverrideSelectsDynamic`,
  `BundleOnlyInWatchMode`).
- `production` is `!ROLLUP_WATCH`, so an empty `ROLLUP_WATCH` still means
  production. Only truthiness matters, not presence.
- A defined `PRERENDER` is kept as the raw string, so `PRERENDER=false` enables
  prerendering (`PrerenderFalseEnables`).
- `prerender().writeBundle` has no latch. It spawns the export job after every
  write while `shouldPrerender` is truthy. Only `serve()` is started at most
  once (`WatchRebuilds`).
- The flags are computed before `dotenv.config()` runs (line 27). A `.env` file
  therefore cannot set `ROLLUP_WATCH`, `BUNDLING`, `PRERENDER` or `NODE_ENV`.

## Model

| member | source | states |
|---|---|---|
| `BuildFlags.Production` | rollup.config.js:18 | production holds exactly when ROLLUP_WATCH is unset or empty |
| `BuildFlags.BundlingOf` | rollup.config.js:19 | 'dynamic' exactly when BUNDLING is non-empty, whatever its value, or in production; 'bundle' exactly when BUNDLING is unset or empty outside production |
| `BuildFlags.ShouldPrerender` | rollup.config.js:20-23 | a defined PRERENDER is kept as the raw string, otherwise the production boolean; truthy iff PRERENDER is non-empty, or, when unset, iff production |
| `BuildFlags.Mode` | rollup.config.js:25 | NODE_ENV when non-empty, otherwise "development"; never empty |
| `BuildFlags.Derive` | rollup.config.js:18-25 | all four flags in terms of the raw environment lookups: production iff ROLLUP_WATCH is unset or empty; 'dynamic' iff BUNDLING is non-empty or production; shouldPrerender the raw PRERENDER string when defined, else the production boolean; mode NODE_ENV when non-empty, else "development" |
| `BuildFlags.BundleOverrideSelectsDynamic` | rollup.config.js:19 | BUNDLING=bundle selects 'dynamic' |
| `BuildFlags.BundleOnlyInWatchMode` | rollup.config.js:18-19 | 'bundle' is chosen iff ROLLUP_WATCH is non-empty and BUNDLING is unset or empty |
| `BuildFlags.PrerenderFalseEnables` | rollup.config.js:20-23 | PRERENDER=false makes shouldPrerender truthy |
| `JsonString.Quote` | rollup.config.js:35 | the JSON text of a value starts and ends with a double quote |
| `JsonString.UnescapeEscape` | rollup.config.js:35 | decoding the escaped body of the literal gives back the value |
| `JsonString.QuoteRoundTrip` | rollup.config.js:35 | every quoted value is a valid JSON string literal that decodes to exactly the value |
| `JsonString.QuoteInjective` | rollup.config.js:35 | distinct values give distinct literals |
| `JsonString.QuotePlain` | rollup.config.js:35 | a value with no quote, backslash or control character is written between double quotes unchanged |
| `EnvReplace.Target` | rollup.config.js:35 | the table key for KEY is "process.env." followed by KEY |
| `EnvReplace.SubstitutionTableEntries` | rollup.config.js:33-38 | every key of the file has the entry process.env.KEY holding its quoted value, and every entry comes from a key of the file |
| `EnvReplace.SubstitutionTableAt` | rollup.config.js:35 | the entry under process.env.KEY holds the quoted value of KEY |
| `EnvReplace.SubstitutionTableInsert` | rollup.config.js:34-37 | one more file entry adds exactly its own table entry under a key not already present |
| `EnvReplace.SubstitutionTableSize` | rollup.config.js:33-38 | the table has exactly as many entries as the file has keys |
| `EnvReplace.ValuesEnvToReplace` | rollup.config.js:33-38 | the reduce loop, taking keys in any order, yields the specification table, of the file's size |
| `EnvReplace.SingleEntryTable` | rollup.config.js:33-38 | a one-entry file such as API_URL=https://x.test yields exactly process.env.API_URL mapped to the value in double quotes |
| `HtmlTemplate.IndexOf` | rollup.config.js:173-174 | the result is the first position at or after `from` where the pattern occurs, or None when there is none |
| `HtmlTemplate.ReplaceFirst` | rollup.config.js:173-178 | the text is unchanged when the pattern does not occur; otherwise only the first occurrence is replaced |
| `HtmlTemplate.BundledTransform` | rollup.config.js:172-179 | the first `__SCRIPT__` becomes the deferred bundle.js script tag; a template without the placeholder is unchanged |
| `HtmlTemplate.DynamicTransform` | rollup.config.js:181-189 | the first `__SCRIPT__` becomes the module and nomodule loader tags; a template without the placeholder is unchanged |
| `HtmlTemplate.MarkupsAvoidToken` | rollup.config.js:172-189 | neither markup contains a character of the placeholder |
| `HtmlTemplate.ReplaceFirstAt` | rollup.config.js:173-178 | when the first occurrence is at `i`, the replacement is spliced in at exactly `i` |
| `HtmlTemplate.LaterOccurrenceSurvives` | rollup.config.js:172-189 | an occurrence after the first survives the replacement, shifted by the length difference; both transforms are this replacement with `__SCRIPT__` |
| `HtmlTemplate.TransformsConsumeSolePlaceholder` | rollup.config.js:172-189 | a template with exactly one placeholder has none left after either transform |
| `BuildConfigs.TransformFor` | rollup.config.js:47 | bundledTransform exactly when dynamic imports are inlined, dynamicTransform exactly when they are not |
| `BuildConfigs.BundledOptions` | rollup.config.js:121-128 | inlined dynamic imports, iife into dist/build/bundle.js with no dir, two plugin slots, the dev server and live reload present iff not production |
| `BuildConfigs.DynamicOptions` | rollup.config.js:130-137 | no inlining, esm into the directory dist/build with no file, one plugin slot, live reload present iff not production, no dev server |
| `BuildConfigs.CommonPlugins` | rollup.config.js:57-112 | seven leading plugins, with terser present iff production and the copy transform bundledTransform iff dynamic imports are inlined |
| `BuildConfigs.CreateConfig` | rollup.config.js:46-119 | input src/main.js, output name app with sourcemaps and the caller's format, file and dir, watch.clearScreen false, then the common plugins followed by the caller's |
| `BuildConfigs.Jobs` | rollup.config.js:121-140 | one configuration for 'bundle', two for 'dynamic', and no prerender plugin yet |
| `BuildConfigs.ConfigTemplateTransform` | rollup.config.js:47-76 | the copy plugin of the first configuration rewrites the template with bundledTransform, that of the second with dynamicTransform |
| `BuildConfigs.JobPlugins` | rollup.config.js:139-140 | the first configuration is createConfig(bundledConfig), the second createConfig(dynamicConfig) |
| `BuildConfigs.PushOntoLast` | rollup.config.js:141 | the last configuration gains the plugin at the end of its list and every earlier one is unchanged |
| `BuildConfigs.Configs` | rollup.config.js:139-141 | the same number of configurations as created; all but the last are exactly as created; when shouldPrerender is truthy the last is as created with the prerender plugin appended, and nothing changes when it is falsy |
| `BuildConfigs.ConfigsShape` | rollup.config.js:121-140 | length 1 iff 'bundle', length 2 iff 'dynamic'; element 0 is iife with inlined dynamic imports writing dist/build/bundle.js; element 1 is esm writing into dist/build |
| `BuildConfigs.LastConfigGetsPrerender` | rollup.config.js:141 | each configuration keeps createConfig's plugins, with the prerender plugin appended to the last one only and only when shouldPrerender is truthy |
| `BuildConfigs.PrerenderOnLastOnly` | rollup.config.js:141 | the prerender plugin occurs exactly once in the last configuration when shouldPrerender is truthy, and nowhere else |
| `BuildConfigs.PluginOrder` | rollup.config.js:47-113 | every configuration starts with the seven common plugins in order; terser occurs iff production; the copy transform is bundledTransform iff dynamic imports are inlined |
| `BuildConfigs.ProductionBuild` | rollup.config.js:18-141 | with no overrides and no watch signal: two minified configurations, no dev server or live reload in either, and the prerender plugin exactly once on the second and not on the first |
| `BuildConfigs.ProductionPlugins` | rollup.config.js:18-141 | with no overrides and no watch signal, the two plugin lists in full: the seven common plugins with terser, then Absent for the dev-server and live-reload slots, and prerender last on the second |
| `BuildConfigs.DevelopmentBuild` | rollup.config.js:18-141 | in watch mode with no overrides: mode development, one iife configuration with dev server and live reload, no terser and no prerender |
| `BuildConfigs.ConfigObject.constructor` | rollup.config.js:49-118 | the new object holds exactly the given configuration |
| `BuildConfigs.ConfigObject.PushPlugin` | rollup.config.js:141 | the plugin list gains the plugin at its end and nothing else changes |
| `BuildConfigs.AssembleConfigs` | rollup.config.js:139-141 | fresh, distinct objects, as many as the specified list, each holding the specified configuration at its position; the push through the popped element reaches the array's own last configuration |
| `WriteHooks.ServePlugin.constructor` | rollup.config.js:144-146 | a new instance has not started and has spawned nothing |
| `WriteHooks.ServePlugin.WriteBundle` | rollup.config.js:147-155 | the first call spawns `npm run serve` and sets the latch; later calls spawn nothing; an instance never spawns more than once |
| `WriteHooks.PrerenderPlugin.constructor` | rollup.config.js:159-161 | a new instance has spawned nothing and sees the given shouldPrerender |
| `WriteHooks.PrerenderPlugin.WriteBundle` | rollup.config.js:161-168 | every call spawns `npm run export` when shouldPrerender is truthy, with no latch |
| `WriteHooks.WatchRebuilds` | rollup.config.js:144-170 | over n writes the server is spawned once if n > 0, and the export job n times when shouldPrerender is truthy, otherwise never |

## Left out

- `projectRootDir` (line 62) is never declared in rollup.config.js. Evaluating
  `path.resolve(projectRootDir, 'src')` throws a ReferenceError while
  `createConfig` builds its plugin array, so as written the first call (line
  139) throws and the file exports no configuration. The model assumes the name
  is bound: `CreateConfig`, `Configs` and `AssembleConfigs` describe the file
  as it would behave with a defined root directory, and the throw is not
  modelled.
- The `plugins = []` default of `createConfig` (line 46): both callers pass
  `plugins`, so `CreateConfig` takes the list as a required argument.

- Deleting the output directory (`del.sync`, line 44): filesystem I/O. The
  clear-then-populate guarantee is not modelled.
- Reading and parsing the environment file (`fs.readFileSync`, `dotenv.parse`,
  `dotenv.config`, lines 27-31): I/O and a third-party parser. The parsed map is
  an input, so the path `.env.<mode>` and the fatal error for a missing file are
  not modelled.
- Child processes (lines 150-153, 163-166): each spawn is a log entry, not a
  process.
- Plugin internals of alias, copy, svelte, svelte-preprocess, replace, resolve,
  commonjs, terser and livereload: third-party libraries, kept as tags. This
  includes the alias replacement path (line 62, which refers to an undefined
  `projectRootDir`), the copy targets, the CSS write callback (lines 86-88), the
  `dedupe` predicate and the module-level `customResolver`.
- `contents.toString()` in the transforms: the template is taken as a string of
  Unicode scalar values. Byte decoding is not modelled.
- `GetSubstitution` in `String.prototype.replace`: neither markup contains `$`,
  so the replacement is always inserted literally, as modelled.
- `JsonString.Quote`: Dafny characters are Unicode scalar values, so the lone
  surrogates that JSON.stringify escapes as `\uDXXX` cannot occur. The decoder
  refuses surrogate escapes, which never arise from `Quote`.
- Rollup's own handling of the configurations (running them, skipping `false`
  plugins, the watch loop): the host program. `WatchRebuilds` stands in for
  repeated `writeBundle` calls.
- src/main.js (mounting the app component) and src/pages/index.spec.js (a
  rendering test): no logic of the build configuration.
