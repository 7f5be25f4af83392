/**
 * `valuesEnvToReplace`: the table handed to the replace plugin, mapping
 * `process.env.KEY` to the JSON-quoted value of KEY in the parsed `.env.<mode>` file.
 */
module EnvReplace {
  import JsonString

  const Prefix: string := "process.env."

  /** The source text a reference to KEY reads as. */
  function Target(key: string): (k: string)
    ensures |k| == |Prefix| + |key| && k[..|Prefix|] == Prefix && k[|Prefix|..] == key
  {
    Prefix + key
  }

  lemma TargetInjective(a: string, b: string)
    requires Target(a) == Target(b)
    ensures a == b
  {
    assert a == Target(a)[|Prefix|..];
  }

  /** The substitution table for a parsed environment file. */
  function SubstitutionTable(env: map<string, string>): map<string, string>
  {
    map k | k in (set key | key in env :: Target(key)) :: JsonString.Quote(env[k[|Prefix|..]])
  }

  /**
   * Every key of the file has its entry, under `process.env.KEY`, holding the
   * quoted value; every entry of the table comes from a key of the file.
   */
  lemma SubstitutionTableEntries(env: map<string, string>)
    ensures forall key :: key in env ==>
      Target(key) in SubstitutionTable(env) && SubstitutionTable(env)[Target(key)] == JsonString.Quote(env[key])
    ensures forall k :: k in SubstitutionTable(env) ==>
      exists key :: key in env && k == Target(key)
  {
  }

  /** The table's keys are exactly the targets of the file's keys. */
  lemma SubstitutionTableKeys(env: map<string, string>)
    ensures SubstitutionTable(env).Keys == set key | key in env :: Target(key)
  {
  }

  /** The entry under a key's target holds that key's quoted value. */
  lemma SubstitutionTableAt(env: map<string, string>, key: string)
    requires key in env
    ensures Target(key) in SubstitutionTable(env)
    ensures SubstitutionTable(env)[Target(key)] == JsonString.Quote(env[key])
  {
    assert Target(key)[|Prefix|..] == key;
  }

  /** A key not in the file has no entry, and adding it adds exactly its target to the keys. */
  lemma InsertKeys(env: map<string, string>, key: string, value: string)
    requires key !in env
    ensures Target(key) !in SubstitutionTable(env)
    ensures SubstitutionTable(env[key := value]).Keys == SubstitutionTable(env).Keys + {Target(key)}
  {
    SubstitutionTableKeys(env);
    SubstitutionTableKeys(env[key := value]);
    forall other | other in env ensures Target(other) != Target(key) {
      assert Target(other)[|Prefix|..] == other;
    }
  }

  /** Adding a key leaves the entries of the other keys as they were. */
  lemma InsertKeepsEntries(env: map<string, string>, key: string, value: string)
    requires key !in env
    ensures forall k :: k in SubstitutionTable(env) ==>
      k in SubstitutionTable(env[key := value]) && SubstitutionTable(env[key := value])[k] == SubstitutionTable(env)[k]
  {
    SubstitutionTableKeys(env);
    forall k | k in SubstitutionTable(env)
      ensures k in SubstitutionTable(env[key := value]) && SubstitutionTable(env[key := value])[k] == SubstitutionTable(env)[k]
    {
      var other :| other in env && k == Target(other);
      SubstitutionTableAt(env, other);
      SubstitutionTableAt(env[key := value], other);
    }
  }

  /** Adding one entry to the file adds exactly its substitution to the table. */
  lemma SubstitutionTableInsert(env: map<string, string>, key: string, value: string)
    requires key !in env
    ensures Target(key) !in SubstitutionTable(env)
    ensures SubstitutionTable(env[key := value]) == SubstitutionTable(env)[Target(key) := JsonString.Quote(value)]
  {
    var before, after := SubstitutionTable(env), SubstitutionTable(env[key := value]);
    InsertKeys(env, key, value);
    InsertKeepsEntries(env, key, value);
    SubstitutionTableAt(env[key := value], key);
    UpdateExtends(after, before, Target(key), JsonString.Quote(value));
  }

  /** A map with one key more than `b`, agreeing with `b` elsewhere, is `b` updated at that key. */
  lemma UpdateExtends<K, V>(a: map<K, V>, b: map<K, V>, k0: K, v0: V)
    requires a.Keys == b.Keys + {k0} && k0 in a && a[k0] == v0
    requires forall k :: k in b ==> k in a && a[k] == b[k]
    ensures a == b[k0 := v0]
  {
  }

  /** The table has exactly as many entries as the file has keys. */
  lemma {:induction false} SubstitutionTableSize(env: map<string, string>)
    ensures |SubstitutionTable(env)| == |env|
    decreases |env|
  {
    if env != map[] {
      var key :| key in env;
      var rest := env - {key};
      assert env == rest[key := env[key]];
      assert |rest| == |env| - 1 by {
        assert rest.Keys == env.Keys - {key};
      }
      SubstitutionTableSize(rest);
      SubstitutionTableInsert(rest, key, env[key]);
    }
  }

  /** Taking one more key of `env` out of the set still to visit extends the visited part by that key. */
  lemma VisitOne(env: map<string, string>, remaining: set<string>, key: string)
    requires remaining <= env.Keys && key in remaining
    ensures key !in env - remaining
    ensures env - (remaining - {key}) == (env - remaining)[key := env[key]]
  {
  }

  /**
   * `Object.entries(ENV_VARS).reduce(...)`: fills an accumulator one key at a
   * time. Keys are taken in any order; the resulting table is the same.
   */
  method ValuesEnvToReplace(env: map<string, string>) returns (acc: map<string, string>)
    ensures acc == SubstitutionTable(env)
    ensures |acc| == |env|
  {
    acc := map[];
    var remaining := env.Keys;
    assert env - remaining == map[];
    while remaining != {}
      invariant remaining <= env.Keys
      invariant acc == SubstitutionTable(env - remaining)
      decreases remaining
    {
      var key :| key in remaining;
      VisitOne(env, remaining, key);
      SubstitutionTableInsert(env - remaining, key, env[key]);
      acc := acc[Target(key) := JsonString.Quote(env[key])];
      remaining := remaining - {key};
    }
    assert env - remaining == env;
    SubstitutionTableSize(env);
  }

  /**
   * A file with one entry KEY=VALUE, where VALUE needs no escaping (such as
   * `API_URL=https://x.test`), yields exactly `process.env.KEY` mapped to the
   * value between double quotes.
   */
  lemma SingleEntryTable(key: string, value: string)
    requires forall k :: 0 <= k < |value| ==> JsonString.Plain(value[k])
    ensures SubstitutionTable(map[key := value]) == map[Prefix + key := "\"" + value + "\""]
  {
    var empty: map<string, string> := map[];
    assert SubstitutionTable(empty) == map[];
    SubstitutionTableInsert(empty, key, value);
    assert empty[key := value] == map[key := value];
    JsonString.QuotePlain(value);
  }
}
