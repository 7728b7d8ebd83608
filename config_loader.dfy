/**
 * The layered configuration: a base (internal) configuration and a user one,
 * merged key by key so that the user's values take precedence, with nested
 * dictionaries merged recursively; and safe lookup of a nested key path.
 */
module Config {
  import opened Wrappers

  /** A loaded YAML value: null, a non-dictionary value, or a dictionary. */
  datatype ConfigValue = Null | Scalar(text: string) | Dict(entries: map<string, ConfigValue>)

  /** Key `k` holds a dictionary on both sides, so the two are merged rather than replaced. */
  predicate BothDicts(base: map<string, ConfigValue>, overrides: map<string, ConfigValue>, k: string) {
    k in base && k in overrides && base[k].Dict? && overrides[k].Dict?
  }

  /** The recursive merge of `overrides` into `base`, as a value. */
  function Merged(base: map<string, ConfigValue>, overrides: map<string, ConfigValue>): (m: map<string, ConfigValue>)
    ensures m.Keys == base.Keys + overrides.Keys
    ensures forall k :: k in base && k !in overrides ==> m[k] == base[k]
    ensures forall k :: k in overrides && !BothDicts(base, overrides, k) ==> m[k] == overrides[k]
    ensures forall k :: BothDicts(base, overrides, k) ==> m[k].Dict?
    decreases Dict(overrides)
  {
    map k | k in base.Keys + overrides.Keys ::
      if BothDicts(base, overrides, k) then Dict(Merged(base[k].entries, overrides[k].entries))
      else if k in overrides then overrides[k]
      else base[k]
  }

  /** The value reached from `v` by following `path` through dictionaries, if every step exists. */
  function Resolve(v: ConfigValue, path: seq<string>): (r: Option<ConfigValue>)
    ensures path == [] ==> r == Some(v)
    ensures path != [] && r.Some? ==> v.Dict? && path[0] in v.entries
    ensures path != [] && !(v.Dict? && path[0] in v.entries) ==> r == None
    decreases |path|
  {
    if path == [] then Some(v)
    else if v.Dict? && path[0] in v.entries then Resolve(v.entries[path[0]], path[1..])
    else None
  }

  class ConfigLoader {
    var configInterna: map<string, ConfigValue>
    var configUsuario: map<string, ConfigValue>
    var config: map<string, ConfigValue>

    /** `__init__`, with both configurations already loaded. */
    constructor(configInterna: map<string, ConfigValue>, configUsuario: map<string, ConfigValue>)
      ensures this.configInterna == configInterna && this.configUsuario == configUsuario
      ensures config == Merged(configInterna, configUsuario)
    {
      this.configInterna := configInterna;
      this.configUsuario := configUsuario;
      new;
      config := CombinarConfiguraciones();
    }

    /**
     * `deep_update`: every key of either side is in the result; a key only in `base`
     * keeps its base value; an override replaces the base value unless both are
     * dictionaries, which are merged recursively. `base` is a value and is not changed.
     */
    static method DeepUpdate(base: map<string, ConfigValue>, overrides: map<string, ConfigValue>)
      returns (result: map<string, ConfigValue>)
      ensures result == Merged(base, overrides)
      ensures result.Keys == base.Keys + overrides.Keys
      ensures forall k :: k in base && k !in overrides ==> result[k] == base[k]
      ensures forall k :: k in overrides && !BothDicts(base, overrides, k) ==> result[k] == overrides[k]
      ensures forall k :: BothDicts(base, overrides, k) ==>
        result[k] == Dict(Merged(base[k].entries, overrides[k].entries))
      decreases Dict(overrides)
    {
      ghost var merged := Merged(base, overrides);
      result := base;
      var pending := overrides.Keys;
      while pending != {}
        invariant pending <= overrides.Keys
        invariant result.Keys == base.Keys + (overrides.Keys - pending)
        invariant forall k :: k in result && k in pending ==> result[k] == base[k]
        invariant forall k :: k in result && k !in pending ==> result[k] == merged[k]
        decreases pending
      {
        var k :| k in pending;
        var v := overrides[k];
        if k in result && result[k].Dict? && v.Dict? {
          var nested := DeepUpdate(result[k].entries, v.entries);
          result := result[k := Dict(nested)];
        } else {
          result := result[k := v];
        }
        pending := pending - {k};
      }
    }

    /** `_combinar_configuraciones`: the base itself for an empty user configuration, else the merge. */
    method CombinarConfiguraciones() returns (r: map<string, ConfigValue>)
      ensures configUsuario == map[] ==> r == configInterna
      ensures r == Merged(configInterna, configUsuario)
    {
      var cngInternaCopy := configInterna;
      if configUsuario != map[] {
        cngInternaCopy := DeepUpdate(cngInternaCopy, configUsuario);
        return cngInternaCopy;
      }
      MergedWithEmpty(configInterna);
      return configInterna;
    }

    /**
     * `get_config`: the value at the nested key path `claves` when every step is an
     * existing key of a dictionary (the whole configuration for the empty path), and
     * `porDefecto` as soon as a key is missing or a step meets a non-dictionary.
     */
    method GetConfig(claves: seq<string>, porDefecto: ConfigValue) returns (r: ConfigValue)
      ensures claves == [] ==> r == Dict(config)
      ensures Resolve(Dict(config), claves).Some? ==> r == Resolve(Dict(config), claves).value
      ensures Resolve(Dict(config), claves).None? ==> r == porDefecto
    {
      var actual := Dict(config);
      for i := 0 to |claves|
        invariant Resolve(Dict(config), claves) == Resolve(actual, claves[i..])
      {
        assert claves[i..][1..] == claves[i + 1..];
        if actual.Dict? && claves[i] in actual.entries {
          actual := actual.entries[claves[i]];
        } else {
          return porDefecto;
        }
      }
      return actual;
    }
  }

  /** Merging an empty override changes nothing. */
  lemma MergedWithEmpty(base: map<string, ConfigValue>)
    ensures Merged(base, map[]) == base
  {
  }

  /** Merging a configuration into itself gives it back. */
  lemma {:induction false} MergedWithSelf(c: map<string, ConfigValue>)
    ensures Merged(c, c) == c
    decreases Dict(c)
  {
    forall k | k in c ensures Merged(c, c)[k] == c[k] {
      if c[k].Dict? {
        MergedWithSelf(c[k].entries);
      }
    }
  }

  /** Applying the same overrides twice is the same as applying them once. */
  lemma {:induction false} MergedIdempotent(base: map<string, ConfigValue>, overrides: map<string, ConfigValue>)
    ensures Merged(Merged(base, overrides), overrides) == Merged(base, overrides)
    decreases Dict(overrides)
  {
    var m := Merged(base, overrides);
    forall k | k in m ensures Merged(m, overrides)[k] == m[k] {
      if k in overrides && overrides[k].Dict? {
        if BothDicts(base, overrides, k) {
          MergedIdempotent(base[k].entries, overrides[k].entries);
        } else {
          MergedWithSelf(overrides[k].entries);
        }
      }
    }
  }

  /**
   * The user's value wins: a non-dictionary value the user configuration holds at a
   * key path is what the merged configuration holds there.
   */
  lemma {:induction false} UserLeafWins(base: map<string, ConfigValue>, overrides: map<string, ConfigValue>, path: seq<string>)
    requires path != []
    requires Resolve(Dict(overrides), path).Some? && !Resolve(Dict(overrides), path).value.Dict?
    ensures Resolve(Dict(Merged(base, overrides)), path) == Resolve(Dict(overrides), path)
    decreases |path|
  {
    var k := path[0];
    if BothDicts(base, overrides, k) && |path| > 1 {
      UserLeafWins(base[k].entries, overrides[k].entries, path[1..]);
    }
  }

  /** Looking up `p + q` is looking up `p` and then `q` from there. */
  lemma {:induction false} ResolveAppend(v: ConfigValue, p: seq<string>, q: seq<string>)
    ensures Resolve(v, p + q) == if Resolve(v, p).Some? then Resolve(Resolve(v, p).value, q) else None
    decreases |p|
  {
    if p == [] {
      assert p + q == q;
    } else {
      assert (p + q)[0] == p[0] && (p + q)[1..] == p[1..] + q;
      if v.Dict? && p[0] in v.entries {
        ResolveAppend(v.entries[p[0]], p[1..], q);
      }
    }
  }
}
