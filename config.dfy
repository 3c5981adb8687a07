/** The configuration loader of www/config.py: `merge(defaults, override)` overlays an
    override tree on the default tree, and the module-level code applies it to the
    optional `config_override` module. */
module Config {
  import opened Results

  /** A configuration value: the values the configuration tables use. */
  datatype ConfigValue =
    | Null
    | Bool(b: bool)
    | Int(i: int)
    | Str(s: string)
    | List(elems: seq<ConfigValue>)
    | Dict(entries: map<string, ConfigValue>)

  /** Every way `merge` can fail raises `TypeError`. */
  datatype ConfigError = TypeError

  /** `k` occurs in `s` at index `i`. */
  predicate OccursAt(k: string, s: string, i: nat)
  {
    i + |k| <= |s| && s[i..i + |k|] == k
  }

  /** `k in s` on two strings: a substring test. */
  function IsSubstring(k: string, s: string): (b: bool)
    ensures b <==> exists i: nat :: OccursAt(k, s, i)
    decreases |s|
  {
    if k <= s then
      assert OccursAt(k, s, 0);
      true
    else if |s| == 0 then false
    else
      var b := IsSubstring(k, s[1..]);
      assert forall i: nat :: OccursAt(k, s, i) ==> i > 0 && OccursAt(k, s[1..], i - 1) by {
        forall i: nat | OccursAt(k, s, i) ensures i > 0 && OccursAt(k, s[1..], i - 1) {
          assert s[1..][i - 1..i - 1 + |k|] == s[i..i + |k|];
        }
      }
      assert forall i: nat :: OccursAt(k, s[1..], i) ==> OccursAt(k, s, i + 1) by {
        forall i: nat | OccursAt(k, s[1..], i) ensures OccursAt(k, s, i + 1) {
          assert s[1..][i..i + |k|] == s[i + 1..i + 1 + |k|];
        }
      }
      b
  }

  /** `k in override`: dict membership, a substring test on a string, element membership
      on a list; any other value is not a container. */
  function Contains(o: ConfigValue, k: string): (r: Result<bool, ConfigError>)
    ensures r.Err? <==> !(o.Dict? || o.Str? || o.List?)
    ensures o.Dict? ==> r == Ok(k in o.entries)
  {
    match o
    case Dict(entries) => Ok(k in entries)
    case Str(s) => Ok(IsSubstring(k, s))
    case List(elems) => Ok(Str(k) in elems)
    case _ => Err(TypeError)
  }

  /** `override[k]` with a string key: only a dict can be subscripted so. */
  function Index(o: ConfigValue, k: string): (r: Result<ConfigValue, ConfigError>)
    requires o.Dict? ==> k in o.entries
    ensures r.Ok? <==> o.Dict?
    ensures o.Dict? ==> r == Ok(o.entries[k])
  {
    if o.Dict? then Ok(o.entries[k]) else Err(TypeError)
  }

  /** What `merge(defaults, override)` returns: one entry per key of `defaults`, or the
      `TypeError` one of them raises. Every error is the same, so the order in which the
      keys are visited does not change the outcome. */
  function Merged(defaults: map<string, ConfigValue>, override: ConfigValue): Result<map<string, ConfigValue>, ConfigError>
    decreases Dict(defaults), 0
  {
    if exists k :: k in defaults && Entry(k, defaults[k], override).Err? then Err(TypeError)
    else Ok(map k | k in defaults :: Entry(k, defaults[k], override).value)
  }

  /** The value one iteration of the loop stores under `k`. */
  function Entry(k: string, v: ConfigValue, override: ConfigValue): Result<ConfigValue, ConfigError>
    decreases v, 1
  {
    match Contains(override, k)
    case Err(e) => Err(e)
    case Ok(false) => Ok(v)
    case Ok(true) =>
      match Index(override, k)
      case Err(e) => Err(e)
      case Ok(o) =>
        if v.Dict? then
          match Merged(v.entries, o)
          case Ok(m) => Ok(Dict(m))
          case Err(e) => Err(e)
        else Ok(o)
  }

  /** `merge(defaults, override)`: fills a fresh dict key by key, recursing where the
      default is a dict; neither argument is changed. */
  method Merge(defaults: map<string, ConfigValue>, override: ConfigValue)
    returns (r: Result<map<string, ConfigValue>, ConfigError>)
    ensures r == Merged(defaults, override)
    decreases Dict(defaults)
  {
    var acc: map<string, ConfigValue> := map[];
    var todo := defaults.Keys;
    while todo != {}
      invariant todo <= defaults.Keys
      invariant acc.Keys == defaults.Keys - todo
      invariant forall k :: k in acc ==> Entry(k, defaults[k], override) == Ok(acc[k])
      decreases |todo|
    {
      var k :| k in todo;
      var v := defaults[k];
      var contained := Contains(override, k);
      if contained.Err? {
        assert Entry(k, v, override).Err?;
        return Err(TypeError);
      }
      if contained.value {
        var o := Index(override, k);
        if o.Err? {
          assert Entry(k, v, override).Err?;
          return Err(TypeError);
        }
        if v.Dict? {
          var sub := Merge(v.entries, o.value);
          if sub.Err? {
            assert Entry(k, v, override).Err?;
            return Err(TypeError);
          }
          acc := acc[k := Dict(sub.value)];
        } else {
          acc := acc[k := o.value];
        }
      } else {
        acc := acc[k := v];
      }
      todo := todo - {k};
    }
    assert forall k :: k in defaults ==> Entry(k, defaults[k], override) == Ok(acc[k]);
    assert acc == map k | k in defaults :: Entry(k, defaults[k], override).value;
    r := Ok(acc);
  }

  // ---------------------------------------------------------------------------------
  // What the merge promises.

  /** A successful merge keeps exactly the keys of `defaults`: keys only in the override
      are dropped. With a dict override, a key missing from it keeps its default, a key
      whose default is not a dict takes the override value, and a key whose default is a
      dict gets the merge of the two. */
  lemma MergedEntries(defaults: map<string, ConfigValue>, override: map<string, ConfigValue>)
    requires Merged(defaults, Dict(override)).Ok?
    ensures var m := Merged(defaults, Dict(override)).value;
      && m.Keys == defaults.Keys
      && (forall k :: k in defaults && k !in override ==> m[k] == defaults[k])
      && (forall k :: k in defaults && k in override && !defaults[k].Dict? ==> m[k] == override[k])
      && (forall k :: k in defaults && k in override && defaults[k].Dict? ==>
            m[k].Dict? && Merged(defaults[k].entries, override[k]) == Ok(m[k].entries))
  {
    var m := Merged(defaults, Dict(override)).value;
    forall k | k in defaults
      ensures Entry(k, defaults[k], Dict(override)) == Ok(m[k])
    {
    }
  }

  /** The merge fails exactly when some key's entry fails. */
  lemma MergedFails(defaults: map<string, ConfigValue>, override: ConfigValue)
    ensures Merged(defaults, override).Err? <==>
            exists k :: k in defaults && Entry(k, defaults[k], override).Err?
  {
  }

  /** An override that is not a container (`None`, a bool, a number) makes any non-empty
      default table raise. */
  lemma ScalarOverrideRaises(defaults: map<string, ConfigValue>, override: ConfigValue)
    requires override.Null? || override.Bool? || override.Int?
    requires defaults != map[]
    ensures Merged(defaults, override) == Err(TypeError)
  {
    var k :| k in defaults;
    assert Entry(k, defaults[k], override).Err?;
  }

  /** An empty override leaves the defaults as they are. */
  lemma MergeEmpty(defaults: map<string, ConfigValue>)
    ensures Merged(defaults, Dict(map[])) == Ok(defaults)
  {
    forall k | k in defaults
      ensures Entry(k, defaults[k], Dict(map[])) == Ok(defaults[k])
    {
    }
    assert defaults == map k | k in defaults :: Entry(k, defaults[k], Dict(map[])).value;
  }

  /** An override shaped like the defaults: a dict, with a dict wherever the default
      holds a dict. */
  predicate Compatible(defaults: map<string, ConfigValue>, override: ConfigValue)
    decreases Dict(defaults), 0
  {
    override.Dict? &&
    forall k :: k in defaults && k in override.entries && defaults[k].Dict? ==>
      CompatibleEntry(defaults[k], override.entries[k])
  }

  predicate CompatibleEntry(v: ConfigValue, o: ConfigValue)
    decreases v, 1
  {
    v.Dict? && Compatible(v.entries, o)
  }

  /** Such an override always merges. */
  lemma {:induction false} CompatibleMerges(defaults: map<string, ConfigValue>, override: ConfigValue)
    requires Compatible(defaults, override)
    ensures Merged(defaults, override).Ok?
    decreases Dict(defaults)
  {
    forall k | k in defaults
      ensures Entry(k, defaults[k], override).Ok?
    {
      var v := defaults[k];
      if k in override.entries && v.Dict? {
        assert CompatibleEntry(v, override.entries[k]);
        CompatibleMerges(v.entries, override.entries[k]);
      }
    }
  }

  /** Merging a configuration with itself gives it back unchanged. */
  lemma {:induction false} MergeSelf(defaults: map<string, ConfigValue>)
    ensures Merged(defaults, Dict(defaults)) == Ok(defaults)
    decreases Dict(defaults)
  {
    forall k | k in defaults
      ensures Entry(k, defaults[k], Dict(defaults)) == Ok(defaults[k])
    {
      var v := defaults[k];
      if v.Dict? {
        MergeSelf(v.entries);
      }
    }
    assert defaults == map k | k in defaults :: Entry(k, defaults[k], Dict(defaults)).value;
  }

  // ---------------------------------------------------------------------------------
  // Loading the configuration.

  /** The module-level code as written: `configs` is the default table; when the
      override module imports, `merge` is called and its result dropped, so only its
      `TypeError` can escape. `None` stands for the `ImportError` that is swallowed. */
  function LoadedConfigs(defaults: map<string, ConfigValue>, override: Option<ConfigValue>): (r: Result<map<string, ConfigValue>, ConfigError>)
    ensures r.Ok? ==> r.value == defaults
  {
    match override
    case None => Ok(defaults)
    case Some(o) =>
      match Merged(defaults, o)
      case Err(e) => Err(e)
      case Ok(_) => Ok(defaults)
  }

  /** The evident intent: `configs = merge(configs, config_override.configs)`. */
  function MergedConfigs(defaults: map<string, ConfigValue>, override: Option<ConfigValue>): (r: Result<map<string, ConfigValue>, ConfigError>)
    ensures override.None? ==> r == Ok(defaults)
    ensures override.Some? ==> r == Merged(defaults, override.value)
  {
    match override
    case None => Ok(defaults)
    case Some(o) => Merged(defaults, o)
  }

  /** Both agree on whether loading raises; they differ in what is loaded. */
  lemma LoadedFailsLikeMerged(defaults: map<string, ConfigValue>, override: Option<ConfigValue>)
    ensures LoadedConfigs(defaults, override).Err? <==> MergedConfigs(defaults, override).Err?
  {
  }

  /** `debug = True` by default, `debug = False` in the override: as written the
      override is ignored; as intended it wins. */
  lemma OverrideIgnored()
    ensures LoadedConfigs(map["debug" := Bool(true)], Some(Dict(map["debug" := Bool(false)])))
            == Ok(map["debug" := Bool(true)])
    ensures MergedConfigs(map["debug" := Bool(true)], Some(Dict(map["debug" := Bool(false)])))
            == Ok(map["debug" := Bool(false)])
  {
    var d := map["debug" := Bool(true)];
    var o := Dict(map["debug" := Bool(false)]);
    assert Entry("debug", Bool(true), o) == Ok(Bool(false));
    assert forall k :: k in d ==> k == "debug";
    assert (map k | k in d :: Entry(k, d[k], o).value) == map["debug" := Bool(false)];
  }
}
