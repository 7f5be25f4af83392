/**
 * The `writeBundle` hooks of the two local plugins: `serve()`, which starts the
 * static server at most once per plugin instance, and `prerender()`, which starts
 * the export job after every write while shouldPrerender is truthy. Spawning a
 * child process is recorded as an entry in the plugin's spawn log.
 */
module WriteHooks {
  import opened JsValues

  /** A `child_process.spawn(command, args, { shell })` call; stdio is always ignore/inherit/inherit. */
  datatype Spawn = Spawn(command: string, args: seq<string>, shell: bool)

  const ServeSpawn: Spawn := Spawn("npm", ["run", "serve"], true)
  const ExportSpawn: Spawn := Spawn("npm", ["run", "export"], true)

  /** The object `serve()` returns, with the `started` flag its closure captures. */
  class ServePlugin {
    var started: bool
    var spawned: seq<Spawn>

    /** The latch is set exactly when the one server process has been spawned. */
    ghost predicate Valid()
      reads this
    {
      spawned == if started then [ServeSpawn] else []
    }

    constructor ()
      ensures Valid() && !started && spawned == []
    {
      started, spawned := false, [];
    }

    method WriteBundle()
      requires Valid()
      modifies this
      ensures Valid() && started && |spawned| == 1
      ensures old(started) ==> spawned == old(spawned)
      ensures !old(started) ==> spawned == old(spawned) + [ServeSpawn]
    {
      if !started {
        started := true;
        spawned := spawned + [ServeSpawn];
      }
    }
  }

  /** The object `prerender()` returns; it reads the module-level shouldPrerender on every call. */
  class PrerenderPlugin {
    const shouldPrerender: JsValue
    var spawned: seq<Spawn>

    constructor (shouldPrerender: JsValue)
      ensures this.shouldPrerender == shouldPrerender && spawned == []
    {
      this.shouldPrerender, spawned := shouldPrerender, [];
    }

    method WriteBundle()
      modifies this
      ensures spawned == old(spawned) + if Truthy(shouldPrerender) then [ExportSpawn] else []
    {
      if Truthy(shouldPrerender) {
        spawned := spawned + [ExportSpawn];
      }
    }
  }

  function Repeat(s: Spawn, n: nat): (r: seq<Spawn>)
    ensures |r| == n && forall k :: 0 <= k < n ==> r[k] == s
  {
    if n == 0 then [] else Repeat(s, n - 1) + [s]
  }

  /**
   * Watch mode: Rollup calls `writeBundle` on both plugins after each of
   * `writes` rebuilds. The server is spawned once, on the first write; the
   * export job on every write when shouldPrerender is truthy.
   */
  method WatchRebuilds(shouldPrerender: JsValue, writes: nat) returns (serveSpawns: seq<Spawn>, exportSpawns: seq<Spawn>)
    ensures serveSpawns == if writes == 0 then [] else [ServeSpawn]
    ensures exportSpawns == if Truthy(shouldPrerender) then Repeat(ExportSpawn, writes) else []
  {
    var serve := new ServePlugin();
    var prerender := new PrerenderPlugin(shouldPrerender);
    var done := 0;
    while done < writes
      invariant 0 <= done <= writes
      invariant serve.Valid() && serve.started == (done > 0)
      invariant prerender.shouldPrerender == shouldPrerender
      invariant prerender.spawned == if Truthy(shouldPrerender) then Repeat(ExportSpawn, done) else []
    {
      serve.WriteBundle();
      prerender.WriteBundle();
      done := done + 1;
    }
    serveSpawns, exportSpawns := serve.spawned, prerender.spawned;
  }
}
