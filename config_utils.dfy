/**
 * Configuration handling of module/utils.py: the project-root walk, the
 * reshaping of a YAML config by read_config, the provider parameters of
 * create_data_providers and the symbol-to-name map of create_symbol_mapper.
 * YAML values are modelled with Python's own `in`, `[]` and truthiness on
 * each kind of value, so that a config of an unexpected shape fails where
 * the code fails.
 */
module ConfigUtils {
  import opened Wrappers
  import opened Calendar
  import opened Paths
  import opened Frames

  /**
   * A value yaml.safe_load produces. A mapping keeps its keys in insertion
   * order next to its entries.
   */
  datatype Value =
    | Null
    | Bool(b: bool)
    | Int(i: int)
    | Float(f: real)
    | Str(s: string)
    | List(items: seq<Value>)
    | Dict(keys: seq<string>, entries: map<string, Value>)

  /** The exceptions the functions raise, by kind. */
  datatype ConfigError =
    | ConfigNotFound   // FileNotFoundError for the config file
    | YamlError        // a file that is not valid YAML
    | RootNotFound     // ValueError: no ancestor holds .git
    | TypeError        // an operation on a value of the wrong kind
    | AttributeError   // a method the value's kind lacks (pop on a string)
    | KeyError
    | NameMissing      // ValueError: no 'name' in data_pipelines
    | NoItems          // ValueError: neither 'stocks' nor 'companies'
    | NoModule         // NotImplementedError: no 'module' in data_pipelines
    | ImportFailed     // ImportError or AttributeError from load_module

  /** What opening and parsing a file gives. */
  datatype FileRead = Missing | Malformed | Loaded(content: Value)

  const Empty: Value := Dict([], map[])

  /** bool(v). */
  predicate Truthy(v: Value) {
    match v
    case Null => false
    case Bool(b) => b
    case Int(i) => i != 0
    case Float(f) => f != 0.0
    case Str(s) => s != ""
    case List(items) => items != []
    case Dict(_, entries) => |entries| > 0
  }

  /** sub occurs in s starting at index i. */
  predicate OccursAt(sub: string, s: string, i: int) {
    0 <= i && i + |sub| <= |s| && s[i..i + |sub|] == sub
  }

  /** sub occurs in s. */
  predicate IsSubstring(sub: string, s: string) {
    exists i :: 0 <= i <= |s| - |sub| && OccursAt(sub, s, i)
  }

  /** key in v: a key of a mapping, a substring of a string, an element of a list; TypeError otherwise. */
  function In(key: string, v: Value): Result<bool, ConfigError> {
    match v
    case Dict(_, entries) => Success(key in entries)
    case Str(s) => Success(IsSubstring(key, s))
    case List(items) => Success(Str(key) in items)
    case _ => Failure(TypeError)
  }

  /** v[key]: only a mapping can be indexed by a string. */
  function Get(v: Value, key: string): (r: Result<Value, ConfigError>)
    ensures r.Success? <==> v.Dict? && key in v.entries
    ensures r.Success? ==> r.value == v.entries[key]
    ensures r.Failure? ==> r.error == (if v.Dict? then KeyError else TypeError)
  {
    match v
    case Dict(_, entries) => if key in entries then Success(entries[key]) else Failure(KeyError)
    case _ => Failure(TypeError)
  }

  /** d.get(key, default) on a mapping. */
  function GetOr(d: Value, key: string, default: Value): Value
    requires d.Dict?
  {
    if key in d.entries then d.entries[key] else default
  }

  /** d[key] = value on a mapping: a new key goes last. */
  function SetKey(d: Value, key: string, value: Value): (r: Value)
    requires d.Dict?
    ensures r.Dict? && r.entries == d.entries[key := value]
  {
    Dict(if key in d.entries then d.keys else d.keys + [key], d.entries[key := value])
  }

  /** d.pop(key) on a mapping: the mapping without the key. */
  function PopKey(d: Value, key: string): (r: Value)
    requires d.Dict?
    ensures r.Dict? && r.entries == d.entries - {key}
  {
    Dict(Filter(d.keys, (k: string) => k != key), d.entries - {key})
  }

  /** for x in v: the elements of a list, the characters of a string, the keys of a mapping. */
  function Elements(v: Value): Result<seq<Value>, ConfigError> {
    match v
    case List(items) => Success(items)
    case Str(s) => Success(MapSeq(s, (c: char) => Str([c])))
    case Dict(keys, _) => Success(MapSeq(keys, (k: string) => Str(k)))
    case _ => Failure(TypeError)
  }

  /**
   * A loop that appends what each element yields, in order, and stops at the
   * first element whose step raises.
   */
  function Collect<T, U>(xs: seq<T>, step: T -> Result<seq<U>, ConfigError>): Result<seq<U>, ConfigError> {
    if xs == [] then Success([])
    else
      var front := Collect(xs[..|xs| - 1], step);
      if front.Failure? then front
      else
        var last := step(xs[|xs| - 1]);
        if last.Failure? then Failure(last.error) else Success(front.value + last.value)
  }

  /** Once a prefix raises, the whole loop raises the same way. */
  lemma {:induction false} CollectFailureSticks<T, U>(xs: seq<T>, k: int, step: T -> Result<seq<U>, ConfigError>)
    requires 0 <= k <= |xs| && Collect(xs[..k], step).Failure?
    ensures Collect(xs, step) == Collect(xs[..k], step)
    decreases |xs|
  {
    if k == |xs| {
      assert xs[..k] == xs;
    } else {
      var front := xs[..|xs| - 1];
      assert front[..k] == xs[..k];
      CollectFailureSticks(front, k, step);
    }
  }

  /** Whatever a successful loop collects was yielded by one of its elements. */
  lemma {:induction false} CollectMember<T, U>(xs: seq<T>, step: T -> Result<seq<U>, ConfigError>, y: U)
    requires Collect(xs, step).Success? && y in Collect(xs, step).value
    ensures exists i :: 0 <= i < |xs| && step(xs[i]).Success? && y in step(xs[i]).value
    decreases |xs|
  {
    var front := xs[..|xs| - 1];
    var last := step(xs[|xs| - 1]);
    if y in Collect(front, step).value {
      CollectMember(front, step, y);
      var i :| 0 <= i < |front| && step(front[i]).Success? && y in step(front[i]).value;
      assert front[i] == xs[i];
    } else {
      assert y in last.value;
    }
  }

  /** A step's optional result as the zero or one elements it yields. */
  function AsSeq<U>(r: Result<Option<U>, ConfigError>): Result<seq<U>, ConfigError> {
    match r
    case Failure(e) => Failure(e)
    case Success(None) => Success([])
    case Success(Some(x)) => Success([x])
  }

  // ---- find_project_root ----

  /** os.path.exists(os.path.join(p, ".git")), against the paths that exist. */
  predicate HasGit(p: string, existing: set<string>) {
    Join(p, ".git") in existing
  }

  /** p, its parent, its parent's parent, ... up to the path that is its own parent. */
  function Ancestors(p: string): (r: seq<string>)
    ensures |r| > 0 && r[0] == p
    decreases |p|
  {
    var parent := Dirname(p);
    if parent == p then [p] else [p] + Ancestors(parent)
  }

  /** The nearest of the ancestors that holds .git. */
  function ProjectRoot(p: string, existing: set<string>): Option<string>
    decreases |p|
  {
    if HasGit(p, existing) then Some(p)
    else if Dirname(p) == p then None
    else ProjectRoot(Dirname(p), existing)
  }

  /**
   * find_project_root: walk up from the start until a directory holds .git;
   * raise once the parent of a directory is the directory itself.
   */
  method FindProjectRoot(start: string, existing: set<string>) returns (r: Result<string, ConfigError>)
    ensures r.Success? <==> ProjectRoot(start, existing).Some?
    ensures r.Success? ==> r.value == ProjectRoot(start, existing).value
    ensures r.Failure? ==> r.error == RootNotFound
  {
    var current := start;
    while true
      invariant ProjectRoot(current, existing) == ProjectRoot(start, existing)
      decreases |current|
    {
      if Join(current, ".git") in existing {
        return Success(current);
      }
      var parent := Dirname(current);
      if parent == current {
        return Failure(RootNotFound);
      }
      current := parent;
    }
  }

  predicate NoneHasGit(a: seq<string>, existing: set<string>) {
    forall i :: 0 <= i < |a| ==> !HasGit(a[i], existing)
  }

  /** root is the first of a that holds .git. */
  predicate FirstWithGit(a: seq<string>, existing: set<string>, root: string) {
    exists i :: 0 <= i < |a| && a[i] == root && HasGit(a[i], existing) && NoneHasGit(a[..i], existing)
  }

  /** Below the top, the ancestors are the path followed by its parent's ancestors. */
  lemma AncestorsStep(p: string)
    requires Dirname(p) != p
    ensures Ancestors(p) == [p] + Ancestors(Dirname(p))
  {
  }

  /** A prefix without .git stays so when a path without .git is put in front. */
  lemma NoneHasGitCons(p: string, rest: seq<string>, i: nat, existing: set<string>)
    requires !HasGit(p, existing) && i <= |rest| && NoneHasGit(rest[..i], existing)
    ensures NoneHasGit(([p] + rest)[..i + 1], existing)
  {
    assert ([p] + rest)[..i + 1] == [p] + rest[..i];
  }

  /** The walk fails exactly when none of the ancestors holds .git. */
  lemma {:induction false} ProjectRootNone(p: string, existing: set<string>)
    ensures ProjectRoot(p, existing).None? <==> NoneHasGit(Ancestors(p), existing)
    decreases |p|
  {
    var a := Ancestors(p);
    if !HasGit(p, existing) && Dirname(p) != p {
      var parent := Dirname(p);
      ProjectRootNone(parent, existing);
      AncestorsStep(p);
      var rest := Ancestors(parent);
      if NoneHasGit(rest, existing) {
        forall i | 0 <= i < |a| ensures !HasGit(a[i], existing) {
          if i > 0 {
            assert a[i] == rest[i - 1];
          }
        }
      } else {
        var k :| 0 <= k < |rest| && HasGit(rest[k], existing);
        assert a[k + 1] == rest[k];
      }
    } else if HasGit(p, existing) {
      assert HasGit(a[0], existing);
    } else {
      assert a == [p];
    }
  }

  /** When the walk succeeds it returns the first of the ancestors that holds .git. */
  lemma {:induction false} ProjectRootFirst(p: string, existing: set<string>)
    requires ProjectRoot(p, existing).Some?
    ensures FirstWithGit(Ancestors(p), existing, ProjectRoot(p, existing).value)
    decreases |p|
  {
    var a := Ancestors(p);
    if HasGit(p, existing) {
      assert HasGit(a[0], existing) && a[..0] == [];
    } else {
      var parent := Dirname(p);
      ProjectRootFirst(parent, existing);
      AncestorsStep(p);
      var rest := Ancestors(parent);
      var root := ProjectRoot(parent, existing).value;
      var i :| 0 <= i < |rest| && rest[i] == root && HasGit(rest[i], existing) && NoneHasGit(rest[..i], existing);
      NoneHasGitCons(p, rest, i, existing);
      assert a[i + 1] == root;
    }
  }

  /** os.path.abspath: the normalised join with the working directory. */
  function AbsPath(cwd: string, p: string): string {
    NormPath(Join(cwd, p))
  }

  // ---- read_config ----

  /** The config read_config returns: its strategy, algorithm and data_pipelines sections. */
  datatype Config = Config(strategy: Value, algorithm: Value, pipelines: Value)

  /**
   * The sections as the code reshapes them (strategy, algorithm,
   * data_pipelines): a data_pipelines nested in strategy is popped out of it,
   * a top-level one takes precedence, and a falsy one becomes {}.
   */
  function Sections(config: Value): Result<Config, ConfigError> {
    var hasStrategy := In("strategy", config);
    if hasStrategy.Failure? then Failure(hasStrategy.error)
    else
      var moved: Result<(Value, Value), ConfigError> :=
        if !hasStrategy.value then Success((Empty, Empty))
        else
          var s := Get(config, "strategy");
          if s.Failure? then Failure(s.error)
          else
            var nested := In("data_pipelines", s.value);
            if nested.Failure? then Failure(nested.error)
            else if !nested.value then Success((s.value, Empty))
            else if s.value.Str? then Failure(AttributeError)
            else if !s.value.Dict? then Failure(TypeError)
            else Success((PopKey(s.value, "data_pipelines"), s.value.entries["data_pipelines"]));
      if moved.Failure? then Failure(moved.error)
      else
        var hasAlgorithm := In("algorithm", config);
        if hasAlgorithm.Failure? then Failure(hasAlgorithm.error)
        else
          var algorithm := if hasAlgorithm.value then Get(config, "algorithm") else Success(Empty);
          if algorithm.Failure? then Failure(algorithm.error)
          else
            var hasPipelines := In("data_pipelines", config);
            if hasPipelines.Failure? then Failure(hasPipelines.error)
            else
              var pipelines := if hasPipelines.value then Get(config, "data_pipelines") else Success(moved.value.1);
              if pipelines.Failure? then Failure(pipelines.error)
              else Success(Config(moved.value.0, algorithm.value, if Truthy(pipelines.value) then pipelines.value else Empty))
  }

  /**
   * base_path: the normalised join of the project root and the configured
   * path when there is one, project_root/data otherwise.
   */
  function WithBasePath(dp: Value, root: string): (r: Result<Value, ConfigError>)
    ensures r.Success? ==> r.value.Dict?
  {
    var has := In("base_path", dp);
    if has.Failure? then Failure(has.error)
    else if !dp.Dict? then Failure(TypeError)
    else if has.value then
      var bp := dp.entries["base_path"];
      if bp.Str? then Success(SetKey(dp, "base_path", Str(NormPath(Join(root, bp.s)))))
      else Failure(TypeError)
    else Success(SetKey(dp, "base_path", Str(Join(root, "data"))))
  }

  /**
   * stocks_file, read relative to the config file's directory: a missing file
   * or one without a stocks key leaves stocks alone, a mapping with one
   * replaces it; a file that does not parse, or holds no mapping, raises.
   */
  function WithStocks(dp: Value, configPath: string, load: string -> FileRead): Result<Value, ConfigError>
    requires dp.Dict?
  {
    if "stocks_file" !in dp.entries then Success(dp)
    else
      var sf := dp.entries["stocks_file"];
      if !sf.Str? then Failure(TypeError)
      else
        match load(Join(Dirname(configPath), sf.s))
        case Missing => Success(dp)
        case Malformed => Failure(YamlError)
        case Loaded(v) =>
          if !v.Dict? then Failure(TypeError)
          else if "stocks" in v.entries then Success(SetKey(dp, "stocks", v.entries["stocks"]))
          else Success(dp)
  }

  /** read_config once the config file is loaded and the project root found. */
  function Reshaped(config: Value, root: string, configPath: string, load: string -> FileRead): Result<Config, ConfigError> {
    var sections := Sections(config);
    if sections.Failure? then Failure(sections.error)
    else
      var dp := WithBasePath(sections.value.pipelines, root);
      if dp.Failure? then Failure(dp.error)
      else
        var dp2 := WithStocks(dp.value, configPath, load);
        if dp2.Failure? then Failure(dp2.error)
        else Success(sections.value.(pipelines := dp2.value))
  }

  /**
   * read_config: load the file, find the project root from the directory of
   * its absolute path, then rebuild the config section by section into
   * new_config, which it mutates.
   */
  method ReadConfig(configPath: string, cwd: string, existing: set<string>, load: string -> FileRead)
    returns (r: Result<Config, ConfigError>)
    ensures load(configPath).Missing? ==> r == Failure(ConfigNotFound)
    ensures load(configPath).Malformed? ==> r == Failure(YamlError)
    ensures load(configPath).Loaded? ==>
      var root := ProjectRoot(Dirname(AbsPath(cwd, configPath)), existing);
      r == if root.None? then Failure(RootNotFound) else Reshaped(load(configPath).content, root.value, configPath, load)
  {
    var file := load(configPath);
    if file.Missing? {
      return Failure(ConfigNotFound);
    }
    if file.Malformed? {
      return Failure(YamlError);
    }
    var config := file.content;
    var found := FindProjectRoot(Dirname(AbsPath(cwd, configPath)), existing);
    if found.Failure? {
      return Failure(found.error);
    }
    var root := found.value;
    var newConfig := Config(Empty, Empty, Empty);
    var sections := Sections(config);
    if sections.Failure? {
      return Failure(sections.error);
    }
    newConfig := sections.value;
    var dp := WithBasePath(newConfig.pipelines, root);
    if dp.Failure? {
      return Failure(dp.error);
    }
    newConfig := newConfig.(pipelines := dp.value);
    var dp2 := WithStocks(newConfig.pipelines, configPath, load);
    if dp2.Failure? {
      return Failure(dp2.error);
    }
    newConfig := newConfig.(pipelines := dp2.value);
    return Success(newConfig);
  }

  /** A config whose top level, and strategy section when there is one, are mappings. */
  predicate MappingConfig(config: Value) {
    config.Dict? && ("strategy" in config.entries ==> config.entries["strategy"].Dict?)
  }

  /** The data_pipelines section before the falsy check: top level first, then the one nested in strategy. */
  function PipelinesSource(config: Value): Value
    requires MappingConfig(config)
  {
    if "data_pipelines" in config.entries then config.entries["data_pipelines"]
    else if "strategy" in config.entries && "data_pipelines" in config.entries["strategy"].entries then
      config.entries["strategy"].entries["data_pipelines"]
    else Empty
  }

  /**
   * For a mapping config the reshaping succeeds: strategy loses its nested
   * data_pipelines, algorithm is copied, and data_pipelines comes from the top
   * level when present, else from strategy, and is {} when falsy.
   */
  lemma SectionsOfMapping(config: Value)
    requires MappingConfig(config)
    ensures Sections(config).Success?
    ensures var c := Sections(config).value;
      var src := PipelinesSource(config);
      c.strategy.Dict?
      && c.strategy.entries == (if "strategy" in config.entries then config.entries["strategy"].entries - {"data_pipelines"} else map[])
      && c.algorithm == (if "algorithm" in config.entries then config.entries["algorithm"] else Empty)
      && c.pipelines == (if Truthy(src) then src else Empty)
  {
    if "strategy" in config.entries {
      var st := config.entries["strategy"];
      if "data_pipelines" !in st.entries {
        assert st.entries - {"data_pipelines"} == st.entries;
      }
    }
  }

  /** The data_pipelines section that comes out is never falsy unless it is the empty mapping. */
  lemma SectionsPipelinesTruthy(config: Value)
    requires Sections(config).Success?
    ensures Truthy(Sections(config).value.pipelines) || Sections(config).value.pipelines == Empty
  {
  }

  /** A top-level data_pipelines takes precedence over the one nested in strategy. */
  lemma TopLevelPipelinesWin(config: Value)
    requires MappingConfig(config) && "data_pipelines" in config.entries
    requires Truthy(config.entries["data_pipelines"])
    ensures Sections(config).Success? && Sections(config).value.pipelines == config.entries["data_pipelines"]
  {
    SectionsOfMapping(config);
  }

  /** A YAML file holding a number, a boolean or nothing (an empty file loads as None) raises TypeError. */
  lemma SectionsOfScalar(config: Value)
    requires !config.Dict? && !config.List? && !config.Str?
    ensures Sections(config) == Failure(TypeError)
  {
  }

  /**
   * A YAML file holding a string is searched by substring: it raises
   * TypeError when one of the section names occurs in it, and otherwise
   * yields three empty sections.
   */
  lemma SectionsOfString(s: string)
    ensures IsSubstring("strategy", s) || IsSubstring("algorithm", s) || IsSubstring("data_pipelines", s) ==>
      Sections(Str(s)) == Failure(TypeError)
    ensures !IsSubstring("strategy", s) && !IsSubstring("algorithm", s) && !IsSubstring("data_pipelines", s) ==>
      Sections(Str(s)) == Success(Config(Empty, Empty, Empty))
  {
  }

  /** A string strategy that mentions data_pipelines cannot be popped from: AttributeError. */
  lemma StrategyStringRaises(config: Value, s: string)
    requires config.Dict? && "strategy" in config.entries && config.entries["strategy"] == Str(s)
    requires IsSubstring("data_pipelines", s)
    ensures Sections(config) == Failure(AttributeError)
  {
  }

  /**
   * base_path is set in every success: the configured string joined to the
   * root and normalised, or root/data when absent; any other kind of value
   * raises, and no other key changes.
   */
  lemma BasePathRule(dp: Value, root: string)
    requires dp.Dict?
    ensures WithBasePath(dp, root).Success? <==> ("base_path" !in dp.entries || dp.entries["base_path"].Str?)
    ensures WithBasePath(dp, root).Success? ==>
      var bp := if "base_path" in dp.entries then NormPath(Join(root, dp.entries["base_path"].s)) else Join(root, "data");
      WithBasePath(dp, root).value.entries == dp.entries["base_path" := Str(bp)]
  {
  }

  /**
   * stocks changes only when the stocks file opens, holds a mapping, and has a
   * stocks key, and then takes that value; every other key is kept.
   */
  lemma StocksRule(dp: Value, configPath: string, load: string -> FileRead)
    requires dp.Dict?
    ensures var r := WithStocks(dp, configPath, load);
      r.Success? ==> r.value.Dict? && forall k :: k in dp.entries && k != "stocks" ==> k in r.value.entries && r.value.entries[k] == dp.entries[k]
    ensures var r := WithStocks(dp, configPath, load);
      r.Success? && r.value != dp ==>
        "stocks_file" in dp.entries && dp.entries["stocks_file"].Str?
        && var f := load(Join(Dirname(configPath), dp.entries["stocks_file"].s));
        f.Loaded? && f.content.Dict? && "stocks" in f.content.entries
        && r.value.entries == dp.entries["stocks" := f.content.entries["stocks"]]
    ensures var r := WithStocks(dp, configPath, load);
      r.Failure? ==> r.error == TypeError || r.error == YamlError
  {
  }

  /** Every config read_config returns has a data_pipelines mapping with a string base_path. */
  lemma ReshapedHasBasePath(config: Value, root: string, configPath: string, load: string -> FileRead)
    requires Reshaped(config, root, configPath, load).Success?
    ensures var dp := Reshaped(config, root, configPath, load).value.pipelines;
      dp.Dict? && "base_path" in dp.entries && dp.entries["base_path"].Str?
  {
    var sections := Sections(config).value;
    var dp := WithBasePath(sections.pipelines, root).value;
    StocksRule(dp, configPath, load);
  }

  // ---- create_data_providers ----

  /** A provider constructed as provider_class(symbol_or_query, **params), its class named cls. */
  datatype Provider = Provider(cls: Value, target: Value, params: map<string, Value>)

  /** The constructor parameters read for each provider name. */
  function ParamKeys(name: Value): seq<string> {
    if name == Str("YahooFinance") then ["interval", "period", "start_date", "end_date", "raise_errors", "keepna", "timeout"]
    else if name == Str("NaverNews") then ["display", "start", "raise_errors", "timeout", "start_date", "end_date"]
    else ["interval", "start_date", "end_date"]
  }

  /** item.get(k, data_pipelines.get(k, None)), with an end_date of "TODAY" replaced by today's date. */
  function Resolve(item: Value, dp: Value, k: string, today: Date): Value
    requires item.Dict? && dp.Dict? && Valid(today)
  {
    var v := GetOr(item, k, GetOr(dp, k, Null));
    if k == "end_date" && v == Str("TODAY") then Str(Format(today)) else v
  }

  /** The parameters of one provider: one per key. */
  function ParamsOf(item: Value, dp: Value, keys: seq<string>, today: Date): map<string, Value>
    requires item.Dict? && dp.Dict? && Valid(today)
  {
    map k | k in keys :: Resolve(item, dp, k, today)
  }

  /**
   * One item of the list: the provider for its symbol, else its query; none
   * when it has neither. `in` and `[]` on an item that is not a mapping raise
   * as Python does.
   */
  function ProviderOf(item: Value, dp: Value, cls: Value, keys: seq<string>, today: Date): Result<Option<Provider>, ConfigError>
    requires dp.Dict? && Valid(today)
  {
    var hasSymbol := In("symbol", item);
    if hasSymbol.Failure? then Failure(hasSymbol.error)
    else
      var target :=
        if hasSymbol.value then Get(item, "symbol")
        else
          var hasQuery := In("query", item);
          if hasQuery.Failure? then Failure(hasQuery.error)
          else if hasQuery.value then Get(item, "query")
          else Success(Null);
      if target.Failure? then Failure(target.error)
      else if !hasSymbol.value && !In("query", item).value then Success(None)
      else Success(Some(Provider(cls, target.value, ParamsOf(item, dp, keys, today))))
  }

  /** The providers of the items, in item order; the first failing item raises. */
  function ProvidersOf(items: seq<Value>, dp: Value, cls: Value, keys: seq<string>, today: Date): Result<seq<Provider>, ConfigError>
    requires dp.Dict? && Valid(today)
  {
    Collect(items, ProviderStep(dp, cls, keys, today))
  }

  /** The step of the item loop. */
  function ProviderStep(dp: Value, cls: Value, keys: seq<string>, today: Date): Value -> Result<seq<Provider>, ConfigError>
    requires dp.Dict? && Valid(today)
  {
    (item: Value) => AsSeq(ProviderOf(item, dp, cls, keys, today))
  }

  /**
   * create_data_providers on the data_pipelines section: name is required,
   * stocks is read before companies, the provider class is loaded from
   * module (resolves says whether importing module and reading the class
   * named name succeeds), and each item is turned into a provider.
   */
  function DataProviders(dp: Value, resolves: (Value, Value) -> bool, today: Date): Result<seq<Provider>, ConfigError>
    requires Valid(today)
  {
    var hasName := In("name", dp);
    if hasName.Failure? then Failure(hasName.error)
    else if !hasName.value then Failure(NameMissing)
    else
      var name := Get(dp, "name");
      if name.Failure? then Failure(name.error)
      else
        var items := if "stocks" in dp.entries then Success(dp.entries["stocks"])
          else if "companies" in dp.entries then Success(dp.entries["companies"])
          else Failure(NoItems);
        if items.Failure? then Failure(items.error)
        else if "module" !in dp.entries then Failure(NoModule)
        else if !resolves(dp.entries["module"], name.value) then Failure(ImportFailed)
        else
          var elements := Elements(items.value);
          if elements.Failure? then Failure(elements.error)
          else ProvidersOf(elements.value, dp, name.value, ParamKeys(name.value), today)
  }

  /**
   * create_data_providers: the loop over the items, and for each item the
   * loop over the parameter keys that fills provider_params.
   */
  method CreateDataProviders(config: Config, resolves: (Value, Value) -> bool, today: Date)
    returns (r: Result<seq<Provider>, ConfigError>)
    requires Valid(today)
    ensures r == DataProviders(config.pipelines, resolves, today)
  {
    var dp := config.pipelines;
    var hasName := In("name", dp);
    if hasName.Failure? {
      return Failure(hasName.error);
    }
    if !hasName.value {
      return Failure(NameMissing);
    }
    var name := Get(dp, "name");
    if name.Failure? {
      return Failure(name.error);
    }
    var items: Value;
    if "stocks" in dp.entries {
      items := dp.entries["stocks"];
    } else if "companies" in dp.entries {
      items := dp.entries["companies"];
    } else {
      return Failure(NoItems);
    }
    if "module" !in dp.entries {
      return Failure(NoModule);
    }
    if !resolves(dp.entries["module"], name.value) {
      return Failure(ImportFailed);
    }
    var keys := ParamKeys(name.value);
    var elements := Elements(items);
    if elements.Failure? {
      return Failure(elements.error);
    }
    r := MakeProviders(elements.value, dp, name.value, keys, today);
  }

  /** The body of the item loop: pick symbol or query, then fill provider_params key by key. */
  method ProviderForItem(item: Value, dp: Value, cls: Value, keys: seq<string>, today: Date)
    returns (r: Result<Option<Provider>, ConfigError>)
    requires dp.Dict? && Valid(today)
    ensures r == ProviderOf(item, dp, cls, keys, today)
  {
    var hasSymbol := In("symbol", item);
    if hasSymbol.Failure? {
      return Failure(hasSymbol.error);
    }
    var target: Value;
    if hasSymbol.value {
      var t := Get(item, "symbol");
      if t.Failure? {
        return Failure(t.error);
      }
      target := t.value;
    } else {
      var hasQuery := In("query", item);
      if hasQuery.Failure? {
        return Failure(hasQuery.error);
      }
      if !hasQuery.value {
        return Success(None);
      }
      var t := Get(item, "query");
      if t.Failure? {
        return Failure(t.error);
      }
      target := t.value;
    }
    var params := BuildParams(item, dp, keys, today);
    return Success(Some(Provider(cls, target, params)));
  }

  /** The loop over param_keys that fills provider_params. */
  method BuildParams(item: Value, dp: Value, keys: seq<string>, today: Date) returns (params: map<string, Value>)
    requires item.Dict? && dp.Dict? && Valid(today)
    ensures params == ParamsOf(item, dp, keys, today)
  {
    params := map[];
    for j := 0 to |keys|
      invariant params == ParamsOf(item, dp, keys[..j], today)
    {
      var v := GetOr(item, keys[j], GetOr(dp, keys[j], Null));
      if keys[j] == "end_date" && v == Str("TODAY") {
        v := Str(Format(today));
      }
      ParamsOfSnoc(item, dp, keys, j, today);
      params := params[keys[j] := v];
    }
    assert keys[..|keys|] == keys;
  }

  /** One more key adds its resolved value. */
  lemma ParamsOfSnoc(item: Value, dp: Value, keys: seq<string>, j: int, today: Date)
    requires item.Dict? && dp.Dict? && Valid(today) && 0 <= j < |keys|
    ensures ParamsOf(item, dp, keys[..j + 1], today) == ParamsOf(item, dp, keys[..j], today)[keys[j] := Resolve(item, dp, keys[j], today)]
  {
    assert keys[..j + 1] == keys[..j] + [keys[j]];
  }

  /** The loop over the items: providers in item order, stopping at the first item that raises. */
  method MakeProviders(all: seq<Value>, dp: Value, cls: Value, keys: seq<string>, today: Date)
    returns (r: Result<seq<Provider>, ConfigError>)
    requires dp.Dict? && Valid(today)
    ensures r == ProvidersOf(all, dp, cls, keys, today)
  {
    var providers: seq<Provider> := [];
    for i := 0 to |all|
      invariant ProvidersOf(all[..i], dp, cls, keys, today) == Success(providers)
    {
      assert all[..i + 1][..i] == all[..i];
      var made := ProviderForItem(all[i], dp, cls, keys, today);
      assert ProviderStep(dp, cls, keys, today)(all[..i + 1][i]) == AsSeq(made);
      if made.Failure? {
        CollectFailureSticks(all, i + 1, ProviderStep(dp, cls, keys, today));
        return Failure(made.error);
      }
      assert Collect(all[..i + 1], ProviderStep(dp, cls, keys, today)) == Success(providers + AsSeq(made).value);
      if made.value.Some? {
        providers := providers + [made.value.value];
      } else {
        assert providers + AsSeq(made).value == providers;
      }
    }
    assert all[..|all|] == all;
    return Success(providers);
  }

  /** A name is required: without one nothing else is looked at. */
  lemma NameRequired(dp: Value, resolves: (Value, Value) -> bool, today: Date)
    requires Valid(today) && dp.Dict? && "name" !in dp.entries
    ensures DataProviders(dp, resolves, today) == Failure(NameMissing)
  {
  }

  /** With a name but neither stocks nor companies there is nothing to build providers from. */
  lemma ItemsRequired(dp: Value, resolves: (Value, Value) -> bool, today: Date)
    requires Valid(today) && dp.Dict? && "name" in dp.entries
    requires "stocks" !in dp.entries && "companies" !in dp.entries
    ensures DataProviders(dp, resolves, today) == Failure(NoItems)
  {
  }

  /** An item that yields a provider: a mapping with a symbol or a query. */
  predicate HasTarget(item: Value) {
    item.Dict? && ("symbol" in item.entries || "query" in item.entries)
  }

  /** The symbol when the item has one, the query otherwise. */
  function TargetOf(item: Value): Value
    requires HasTarget(item)
  {
    if "symbol" in item.entries then item.entries["symbol"] else item.entries["query"]
  }

  /** The provider a mapping item with a target becomes. */
  function ProviderFrom(item: Value, dp: Value, cls: Value, keys: seq<string>, today: Date): Provider {
    if HasTarget(item) && dp.Dict? && Valid(today) then Provider(cls, TargetOf(item), ParamsOf(item, dp, keys, today))
    else Provider(cls, Null, map[])
  }

  predicate AllMappings(items: seq<Value>) {
    forall i :: 0 <= i < |items| ==> items[i].Dict?
  }

  /** ProviderFrom for fixed pipeline settings. */
  function Build(dp: Value, cls: Value, keys: seq<string>, today: Date): Value -> Provider {
    (item: Value) => ProviderFrom(item, dp, cls, keys, today)
  }

  /** One mapping item: a provider when it has a target, nothing otherwise. */
  lemma StepOfMapping(x: Value, dp: Value, cls: Value, keys: seq<string>, today: Date)
    requires dp.Dict? && Valid(today) && x.Dict?
    ensures ProviderStep(dp, cls, keys, today)(x) == Success(if HasTarget(x) then [Build(dp, cls, keys, today)(x)] else [])
  {
  }

  /**
   * For a list of mappings the loop never raises: items with neither symbol
   * nor query are skipped, symbol wins over query, and the providers come out
   * in item order.
   */
  lemma {:induction false} ProvidersOfMappings(items: seq<Value>, dp: Value, cls: Value, keys: seq<string>, today: Date)
    requires dp.Dict? && Valid(today) && AllMappings(items)
    ensures ProvidersOf(items, dp, cls, keys, today) == Success(MapSeq(Filter(items, HasTarget), Build(dp, cls, keys, today)))
  {
    if items != [] {
      var front := items[..|items| - 1];
      var x := items[|items| - 1];
      assert items == front + [x];
      assert AllMappings(front);
      ProvidersOfMappings(front, dp, cls, keys, today);
      StepOfMapping(x, dp, cls, keys, today);
      FilterMapSnoc(front, x, HasTarget, Build(dp, cls, keys, today));
    }
  }

  /**
   * Each parameter takes the item's value, else the pipeline's, else None;
   * an end_date of "TODAY" is replaced by a date that parses back to today.
   */
  lemma ResolvePrecedence(item: Value, dp: Value, k: string, today: Date)
    requires item.Dict? && dp.Dict? && Valid(today)
    ensures var v := if k in item.entries then item.entries[k] else if k in dp.entries then dp.entries[k] else Null;
      Resolve(item, dp, k, today) == (if k == "end_date" && v == Str("TODAY") then Str(Format(today)) else v)
    ensures k == "end_date" && Resolve(item, dp, k, today) != GetOr(item, k, GetOr(dp, k, Null)) ==>
      Resolve(item, dp, k, today).Str? && ParseIso(Resolve(item, dp, k, today).s) == Some(today)
    ensures k != "end_date" ==> Resolve(item, dp, k, today) == GetOr(item, k, GetOr(dp, k, Null))
  {
    FormatRoundTrip(today);
  }

  /** Every provider gets exactly the parameters its name selects. */
  lemma ParamsDomain(item: Value, dp: Value, keys: seq<string>, today: Date)
    requires item.Dict? && dp.Dict? && Valid(today)
    ensures ParamsOf(item, dp, keys, today).Keys == set k | k in keys
  {
  }

  /** Two pipeline sections that agree on the parameter keys give the same providers. */
  lemma {:induction false} ProvidersOfSameDefaults(items: seq<Value>, dp1: Value, dp2: Value, cls: Value, keys: seq<string>, today: Date)
    requires dp1.Dict? && dp2.Dict? && Valid(today)
    requires forall k :: k in keys ==> GetOr(dp1, k, Null) == GetOr(dp2, k, Null)
    ensures ProvidersOf(items, dp1, cls, keys, today) == ProvidersOf(items, dp2, cls, keys, today)
  {
    if items != [] {
      var front := items[..|items| - 1];
      var x := items[|items| - 1];
      ProvidersOfSameDefaults(front, dp1, dp2, cls, keys, today);
      if x.Dict? {
        assert ParamsOf(x, dp1, keys, today) == ParamsOf(x, dp2, keys, today) by {
          forall k | k in keys ensures Resolve(x, dp1, k, today) == Resolve(x, dp2, k, today) {
            assert GetOr(dp1, k, Null) == GetOr(dp2, k, Null);
          }
        }
      }
      assert ProviderStep(dp1, cls, keys, today)(x) == ProviderStep(dp2, cls, keys, today)(x);
    }
  }

  /** When stocks is present, companies is never read: whatever it holds, the providers are the same. */
  lemma CompaniesIgnoredWithStocks(dp: Value, companies: Value, resolves: (Value, Value) -> bool, today: Date)
    requires Valid(today) && dp.Dict? && "stocks" in dp.entries
    ensures DataProviders(dp, resolves, today) == DataProviders(SetKey(dp, "companies", companies), resolves, today)
  {
    var dp2 := SetKey(dp, "companies", companies);
    if "name" in dp.entries {
      var name := dp.entries["name"];
      var keys := ParamKeys(name);
      forall k | k in keys ensures GetOr(dp, k, Null) == GetOr(dp2, k, Null) {
      }
      var items := Elements(dp.entries["stocks"]);
      if items.Success? {
        ProvidersOfSameDefaults(items.value, dp, dp2, name, keys, today);
      }
    }
  }

  // ---- create_symbol_mapper ----

  /** A value that can be a dict key: lists and mappings are unhashable. */
  predicate Hashable(v: Value) {
    !v.List? && !v.Dict?
  }

  /**
   * One entry of a stocks list: (symbol, full_name) when both keys are in it,
   * nothing otherwise; indexing a non-mapping, or keying the dict on an
   * unhashable symbol, raises TypeError.
   */
  function EntryPair(d: Value): Result<Option<(Value, Value)>, ConfigError> {
    var hasSymbol := In("symbol", d);
    if hasSymbol.Failure? then Failure(hasSymbol.error)
    else if !hasSymbol.value then Success(None)
    else
      var hasName := In("full_name", d);
      if hasName.Failure? then Failure(hasName.error)
      else if !hasName.value then Success(None)
      else
        var full := Get(d, "full_name");
        if full.Failure? then Failure(full.error)
        else if !Hashable(d.entries["symbol"]) then Failure(TypeError)
        else Success(Some((d.entries["symbol"], full.value)))
  }

  /** The step of the entry loop. */
  function EntryYield(d: Value): Result<seq<(Value, Value)>, ConfigError> {
    AsSeq(EntryPair(d))
  }

  /**
   * The pairs one config contributes: those of its data_pipelines stocks list
   * when it has one, none otherwise.
   */
  function ConfigPairs(config: Value): Result<seq<(Value, Value)>, ConfigError> {
    var hasPipelines := In("data_pipelines", config);
    if hasPipelines.Failure? then Failure(hasPipelines.error)
    else if !hasPipelines.value then Success([])
    else
      var dp := Get(config, "data_pipelines");
      if dp.Failure? then Failure(dp.error)
      else
        var hasStocks := In("stocks", dp.value);
        if hasStocks.Failure? then Failure(hasStocks.error)
        else if !hasStocks.value then Success([])
        else
          var info := Get(dp.value, "stocks");
          if info.Failure? then Failure(info.error)
          else
            var entries := Elements(info.value);
            if entries.Failure? then Failure(entries.error)
            else Collect(entries.value, EntryYield)
  }

  /** symbol_mapper[k] = v for each pair in turn, starting from m. */
  function Fold(m: map<Value, Value>, ps: seq<(Value, Value)>): map<Value, Value> {
    if ps == [] then m else Fold(m, ps[..|ps| - 1])[ps[|ps| - 1].0 := ps[|ps| - 1].1]
  }

  /** The assignments of some pairs applied to m, or the exception they raise. */
  function Extend(m: map<Value, Value>, ps: Result<seq<(Value, Value)>, ConfigError>): Result<map<Value, Value>, ConfigError> {
    if ps.Failure? then Failure(ps.error) else Success(Fold(m, ps.value))
  }

  /** What create_symbol_mapper returns for a list of configs. */
  function SymbolMapper(configs: seq<Value>): Result<map<Value, Value>, ConfigError> {
    Extend(map[], Collect(configs, ConfigPairs))
  }

  /** Assigning two runs of pairs is assigning the first, then the second. */
  lemma {:induction false} FoldAppend(m: map<Value, Value>, ps: seq<(Value, Value)>, qs: seq<(Value, Value)>)
    ensures Fold(m, ps + qs) == Fold(Fold(m, ps), qs)
    decreases |qs|
  {
    if qs == [] {
      assert ps + qs == ps;
    } else {
      var init := qs[..|qs| - 1];
      assert (ps + qs)[..|ps + qs| - 1] == ps + init;
      FoldAppend(m, ps, init);
    }
  }

  /**
   * create_symbol_mapper: for each config, when data_pipelines is in it and
   * stocks is in that, add the entries of the stocks list.
   */
  method CreateSymbolMapper(configs: seq<Value>) returns (r: Result<map<Value, Value>, ConfigError>)
    ensures r == SymbolMapper(configs)
  {
    var mapper: map<Value, Value> := map[];
    ghost var ps: seq<(Value, Value)> := [];
    for i := 0 to |configs|
      invariant Collect(configs[..i], ConfigPairs) == Success(ps) && mapper == Fold(map[], ps)
    {
      assert configs[..i + 1][..i] == configs[..i];
      var next := AddConfig(mapper, configs[i]);
      if next.Failure? {
        CollectFailureSticks(configs, i + 1, ConfigPairs);
        return Failure(next.error);
      }
      FoldAppend(map[], ps, ConfigPairs(configs[i]).value);
      ps := ps + ConfigPairs(configs[i]).value;
      mapper := next.value;
    }
    assert configs[..|configs|] == configs;
    return Success(mapper);
  }

  /** The body of the config loop: the short-circuit guard, then the entry loop. */
  method AddConfig(mapper: map<Value, Value>, config: Value) returns (r: Result<map<Value, Value>, ConfigError>)
    ensures r == Extend(mapper, ConfigPairs(config))
  {
    var hasPipelines := In("data_pipelines", config);
    if hasPipelines.Failure? {
      return Failure(hasPipelines.error);
    }
    if !hasPipelines.value {
      return Success(mapper);
    }
    var dp := Get(config, "data_pipelines");
    if dp.Failure? {
      return Failure(dp.error);
    }
    var hasStocks := In("stocks", dp.value);
    if hasStocks.Failure? {
      return Failure(hasStocks.error);
    }
    if !hasStocks.value {
      return Success(mapper);
    }
    var info := Get(dp.value, "stocks");
    if info.Failure? {
      return Failure(info.error);
    }
    var entries := Elements(info.value);
    if entries.Failure? {
      return Failure(entries.error);
    }
    r := AddEntries(mapper, entries.value);
  }

  /** The loop over a stocks list: assign symbol to full_name for each complete entry. */
  method AddEntries(mapper: map<Value, Value>, entries: seq<Value>) returns (r: Result<map<Value, Value>, ConfigError>)
    ensures r == Extend(mapper, Collect(entries, EntryYield))
  {
    var m := mapper;
    ghost var qs: seq<(Value, Value)> := [];
    for j := 0 to |entries|
      invariant Collect(entries[..j], EntryYield) == Success(qs) && m == Fold(mapper, qs)
    {
      assert entries[..j + 1][..j] == entries[..j];
      var d := entries[j];
      var hasSymbol := In("symbol", d);
      if hasSymbol.Failure? {
        CollectFailureSticks(entries, j + 1, EntryYield);
        return Failure(hasSymbol.error);
      }
      if hasSymbol.value {
        var hasName := In("full_name", d);
        if hasName.Failure? {
          CollectFailureSticks(entries, j + 1, EntryYield);
          return Failure(hasName.error);
        }
        if hasName.value {
          var full := Get(d, "full_name");
          if full.Failure? {
            CollectFailureSticks(entries, j + 1, EntryYield);
            return Failure(full.error);
          }
          var symbol := d.entries["symbol"];
          if !Hashable(symbol) {
            CollectFailureSticks(entries, j + 1, EntryYield);
            return Failure(TypeError);
          }
          m := m[symbol := full.value];
        }
      }
      FoldAppend(mapper, qs, EntryYield(d).value);
      qs := qs + EntryYield(d).value;
    }
    assert entries[..|entries|] == entries;
    return Success(m);
  }

  /** The keys of the mapper are exactly the symbols of the pairs. */
  lemma {:induction false} FoldKeys(ps: seq<(Value, Value)>, k: Value)
    ensures k in Fold(map[], ps) <==> exists i :: 0 <= i < |ps| && ps[i].0 == k
  {
    if ps != [] {
      var init := ps[..|ps| - 1];
      FoldKeys(init, k);
      if exists i :: 0 <= i < |init| && init[i].0 == k {
        var i :| 0 <= i < |init| && init[i].0 == k;
        assert ps[i] == init[i];
      }
      if exists i :: 0 <= i < |ps| && ps[i].0 == k {
        var i :| 0 <= i < |ps| && ps[i].0 == k;
        if i < |init| {
          assert init[i] == ps[i];
        }
      }
    }
  }

  /** Later entries override earlier ones: a symbol maps to the full_name of its last pair. */
  lemma {:induction false} FoldLastWins(ps: seq<(Value, Value)>, i: int)
    requires 0 <= i < |ps|
    requires forall j :: i < j < |ps| ==> ps[j].0 != ps[i].0
    ensures ps[i].0 in Fold(map[], ps) && Fold(map[], ps)[ps[i].0] == ps[i].1
  {
    var init := ps[..|ps| - 1];
    if i < |ps| - 1 {
      forall j | i < j < |init| ensures init[j].0 != init[i].0 {
        assert init[j] == ps[j];
      }
      FoldLastWins(init, i);
      assert init[i] == ps[i];
    }
  }

  /** config holds a stocks entry that is a mapping with this symbol and full_name. */
  predicate ListsEntry(config: Value, symbol: Value, fullName: Value) {
    config.Dict? && "data_pipelines" in config.entries
    && var dp := config.entries["data_pipelines"];
    dp.Dict? && "stocks" in dp.entries
    && var entries := Elements(dp.entries["stocks"]);
    entries.Success?
    && (exists d :: d in entries.value && d.Dict? && "symbol" in d.entries && "full_name" in d.entries
          && d.entries["symbol"] == symbol && d.entries["full_name"] == fullName)
  }

  /** Every pair a config contributes comes from one of its entries that has both keys. */
  lemma PairFromEntry(config: Value, p: (Value, Value))
    requires ConfigPairs(config).Success? && p in ConfigPairs(config).value
    ensures ListsEntry(config, p.0, p.1)
  {
    var dp := config.entries["data_pipelines"];
    var entries := Elements(dp.entries["stocks"]).value;
    CollectMember(entries, EntryYield, p);
    var j :| 0 <= j < |entries| && EntryYield(entries[j]).Success? && p in EntryYield(entries[j]).value;
    assert entries[j] in entries;
  }

  /**
   * The mapper holds only symbols of complete entries, each mapped to the
   * full_name of such an entry with that symbol.
   */
  lemma MapperFromCompleteEntries(configs: seq<Value>, k: Value)
    requires SymbolMapper(configs).Success? && k in SymbolMapper(configs).value
    ensures exists i :: 0 <= i < |configs| && ListsEntry(configs[i], k, SymbolMapper(configs).value[k])
  {
    var ps := Collect(configs, ConfigPairs).value;
    FoldKeys(ps, k);
    var i :| 0 <= i < |ps| && ps[i].0 == k;
    while i + 1 < |ps| && exists j :: i < j < |ps| && ps[j].0 == k
      invariant 0 <= i < |ps| && ps[i].0 == k
      decreases |ps| - i
    {
      var j :| i < j < |ps| && ps[j].0 == k;
      i := j;
    }
    FoldLastWins(ps, i);
    CollectMember(configs, ConfigPairs, ps[i]);
    var c :| 0 <= c < |configs| && ConfigPairs(configs[c]).Success? && ps[i] in ConfigPairs(configs[c]).value;
    PairFromEntry(configs[c], ps[i]);
  }
}
