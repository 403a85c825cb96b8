/**
 * ConfigBuilder: gathers the generator's configuration objects, fills in
 * defaults for the ones the caller left out, derives the output paths and
 * loads the table list on first use.
 */
module GeneratorConfig {
  import opened Configs

  // ---------------------------------------------------------------------
  // Irregular table names
  // ---------------------------------------------------------------------

  /**
   * The characters of the REGX character class
   * [~!/@#$%^&*()+\\\[\]|{};:'",<.>?] : 28 punctuation characters.
   */
  const REGEX_CHARS: set<char> :=
    {'~', '!', '/', '@', '#', '$', '%', '^', '&', '*', '(', ')', '+', '\\',
     '[', ']', '|', '{', '}', ';', ':', '\'', '\"', ',', '<', '.', '>', '?'}

  /**
   * How the Java literal of REGX reads once unescaped: the backslash, both square
   * brackets, '^' (not first in the class) and a single '&' are literal members;
   * '_', '-', '=', '`' and the space are not in the class.
   */
  lemma RegexClassBoundary()
    ensures '\\' in REGEX_CHARS && '[' in REGEX_CHARS && ']' in REGEX_CHARS
    ensures '^' in REGEX_CHARS && '&' in REGEX_CHARS
    ensures '_' !in REGEX_CHARS && '-' !in REGEX_CHARS && '=' !in REGEX_CHARS
    ensures '`' !in REGEX_CHARS && ' ' !in REGEX_CHARS
  {
  }

  /** Every character of s belongs to the REGX class. */
  ghost predicate AllRegexChars(s: string)
  {
    forall k :: 0 <= k < |s| ==> s[k] in REGEX_CHARS
  }

  /**
   * Matcher.find() for the pattern "class+": some non-empty stretch of the
   * name consists of class characters only.
   */
  ghost predicate RegexFinds(s: string)
  {
    exists i, j :: 0 <= i < j <= |s| && AllRegexChars(s[i..j])
  }

  /**
   * matcherRegTable: a table name is treated as a pattern of table names when
   * it contains any character of the class. Scans the name left to right.
   */
  function MatcherRegTable(tableName: string): (r: bool)
    ensures r <==> exists i :: 0 <= i < |tableName| && tableName[i] in REGEX_CHARS
  {
    if tableName == [] then false
    else if tableName[0] in REGEX_CHARS then true
    else
      var r := MatcherRegTable(tableName[1..]);
      assert forall i :: 1 <= i < |tableName| ==> tableName[i] == tableName[1..][i - 1];
      r
  }

  /** The scan agrees with the regular-expression search it replaces, in both directions. */
  lemma MatcherRegTableIsRegexFind(tableName: string)
    ensures MatcherRegTable(tableName) <==> RegexFinds(tableName)
  {
    if MatcherRegTable(tableName) {
      var i :| 0 <= i < |tableName| && tableName[i] in REGEX_CHARS;
      assert AllRegexChars(tableName[i..i + 1]);
    }
    if RegexFinds(tableName) {
      var i, j :| 0 <= i < j <= |tableName| && AllRegexChars(tableName[i..j]);
      assert tableName[i..j][0] == tableName[i];
    }
  }

  /** Letters, digits, '_' and '-': what ordinary table names are made of. */
  predicate IsPlainNameChar(c: char)
  {
    ('a' <= c <= 'z') || ('A' <= c <= 'Z') || ('0' <= c <= '9') || c == '_' || c == '-'
  }

  /** A name made only of plain characters (the empty name included) is never a pattern. */
  lemma PlainNameIsNotRegex(tableName: string)
    requires forall i :: 0 <= i < |tableName| ==> IsPlainNameChar(tableName[i])
    ensures !MatcherRegTable(tableName)
  {
  }

  /** A name is a pattern exactly when one of its two halves is. */
  lemma MatcherRegTableConcat(a: string, b: string)
    ensures MatcherRegTable(a + b) <==> MatcherRegTable(a) || MatcherRegTable(b)
  {
    var ab := a + b;
    if MatcherRegTable(a) {
      var i :| 0 <= i < |a| && a[i] in REGEX_CHARS;
      assert ab[i] == a[i];
    }
    if MatcherRegTable(b) {
      var i :| 0 <= i < |b| && b[i] in REGEX_CHARS;
      assert ab[|a| + i] == b[i];
    }
    if MatcherRegTable(ab) {
      var i :| 0 <= i < |ab| && ab[i] in REGEX_CHARS;
      if i < |a| {
        assert a[i] == ab[i];
      } else {
        assert b[i - |a|] == ab[i];
      }
    }
  }

  // ---------------------------------------------------------------------
  // Output paths
  // ---------------------------------------------------------------------

  /**
   * Map.putAll: every key of `entries` takes its new value, every other key of
   * `m` keeps its old one, and no key is removed.
   */
  function PutAll<K, V>(m: map<K, V>, entries: map<K, V>): (r: map<K, V>)
    ensures r.Keys == m.Keys + entries.Keys
    ensures forall k :: k in entries ==> r[k] == entries[k]
    ensures forall k :: k in m && k !in entries ==> r[k] == m[k]
  {
    m + entries
  }

  /** Merging the same entries again changes nothing: a repeated refresh is harmless. */
  lemma PutAllIdempotent<K, V>(m: map<K, V>, entries: map<K, V>)
    ensures PutAll(PutAll(m, entries), entries) == PutAll(m, entries)
  {
  }

  /** Merging into an empty map yields exactly the merged entries, as in the constructor. */
  lemma PutAllIntoEmpty<K, V>(entries: map<K, V>)
    ensures PutAll(map[], entries) == entries
  {
  }

  /**
   * PathInfoHandler(global, template, package).getPathInfo(): how a path is
   * derived for each output file is not part of this model.
   */
  type PathInfoHandler = (GlobalConfig, TemplateConfig, PackageSettings) -> map<OutputFile, string>

  /** What GeneratorBuilder hands out for each configuration the caller left null. */
  datatype Defaults = Defaults(
    strategy: StrategyConfig,
    global: GlobalConfig,
    template: TemplateConfig,
    package: PackageSettings,
    injection: InjectionConfig)

  /** The part of the builder the modelled table query sees. */
  datatype Settings = Settings(
    dataSource: DataSourceConfig,
    strategy: StrategyConfig,
    global: GlobalConfig,
    template: TemplateConfig,
    package: PackageSettings,
    injection: InjectionConfig)

  // ---------------------------------------------------------------------
  // The builder
  // ---------------------------------------------------------------------

  class ConfigBuilder {
    const templateConfig: TemplateConfig
    var tableInfoList: seq<TableInfo>
    var pathInfo: map<OutputFile, string>
    var strategyConfig: StrategyConfig
    var globalConfig: GlobalConfig
    var injectionConfig: InjectionConfig
    const packageConfig: PackageConfig
    const dataSourceConfig: DataSourceConfig
    var multiModule: bool
    /** The path derivation this builder uses. */
    const pathInfoOf: PathInfoHandler
    /** How many times the table list has been queried from the database. */
    ghost var queryCount: nat

    /**
     * Stores the data source as given, substitutes a default for every other
     * configuration that is null, and derives the output paths from the
     * stored global, template and package configurations.
     */
    constructor (packageConfig: PackageConfig?, dataSourceConfig: DataSourceConfig,
                 strategyConfig: Option<StrategyConfig>, templateConfig: Option<TemplateConfig>,
                 globalConfig: Option<GlobalConfig>, injectionConfig: Option<InjectionConfig>,
                 defaults: Defaults, pathInfoOf: PathInfoHandler)
      ensures this.dataSourceConfig == dataSourceConfig
      ensures strategyConfig.Some? ==> this.strategyConfig == strategyConfig.value
      ensures strategyConfig.None? ==> this.strategyConfig == defaults.strategy
      ensures globalConfig.Some? ==> this.globalConfig == globalConfig.value
      ensures globalConfig.None? ==> this.globalConfig == defaults.global
      ensures templateConfig.Some? ==> this.templateConfig == templateConfig.value
      ensures templateConfig.None? ==> this.templateConfig == defaults.template
      ensures packageConfig != null ==> this.packageConfig == packageConfig
      ensures packageConfig == null ==> fresh(this.packageConfig) && this.packageConfig.settings == defaults.package
      ensures injectionConfig.Some? ==> this.injectionConfig == injectionConfig.value
      ensures injectionConfig.None? ==> this.injectionConfig == defaults.injection
      ensures this.pathInfoOf == pathInfoOf
      ensures pathInfo == pathInfoOf(this.globalConfig, this.templateConfig, this.packageConfig.settings)
      ensures tableInfoList == [] && !multiModule && queryCount == 0
    {
      var package: PackageConfig;
      if packageConfig != null {
        package := packageConfig;
      } else {
        package := new PackageConfig(defaults.package);
      }
      this.dataSourceConfig := dataSourceConfig;
      this.strategyConfig := strategyConfig.GetOr(defaults.strategy);
      this.globalConfig := globalConfig.GetOr(defaults.global);
      this.templateConfig := templateConfig.GetOr(defaults.template);
      this.packageConfig := package;
      this.injectionConfig := injectionConfig.GetOr(defaults.injection);
      this.pathInfoOf := pathInfoOf;
      tableInfoList := [];
      multiModule := false;
      queryCount := 0;
      pathInfo := map[];
      new;
      pathInfo := PutAll(pathInfo, pathInfoOf(this.globalConfig, this.templateConfig, package.settings));
    }

    /** The configuration as the table query sees it. */
    function CurrentSettings(): Settings
      reads this, packageConfig
    {
      Settings(dataSourceConfig, strategyConfig, globalConfig, templateConfig,
               packageConfig.settings, injectionConfig)
    }

    // The three setters may write only their own field (see the frames) and return this.

    method SetStrategyConfig(strategyConfig: StrategyConfig) returns (self: ConfigBuilder)
      modifies this`strategyConfig
      ensures self == this && this.strategyConfig == strategyConfig
    {
      this.strategyConfig := strategyConfig;
      self := this;
    }

    method SetGlobalConfig(globalConfig: GlobalConfig) returns (self: ConfigBuilder)
      modifies this`globalConfig
      ensures self == this && this.globalConfig == globalConfig
    {
      this.globalConfig := globalConfig;
      self := this;
    }

    method SetInjectionConfig(injectionConfig: InjectionConfig) returns (self: ConfigBuilder)
      modifies this`injectionConfig
      ensures self == this && this.injectionConfig == injectionConfig
    {
      this.injectionConfig := injectionConfig;
      self := this;
    }

    /**
     * getTableInfoList: a list already loaded is returned as it is and the
     * database is not consulted; an empty one is replaced by what the query
     * returns (which may again be empty, so the next call queries again).
     */
    method GetTableInfoList(queryTables: Settings -> seq<TableInfo>) returns (tables: seq<TableInfo>)
      modifies this`tableInfoList, this`queryCount
      ensures tables == tableInfoList
      ensures old(tableInfoList) != [] ==>
                tableInfoList == old(tableInfoList) && queryCount == old(queryCount)
      ensures old(tableInfoList) == [] ==>
                tableInfoList == queryTables(CurrentSettings()) && queryCount == old(queryCount) + 1
    {
      if tableInfoList == [] {
        var tableInfos := queryTables(CurrentSettings());
        queryCount := queryCount + 1;
        if tableInfos != [] {
          tableInfoList := tableInfoList + tableInfos;
        }
      }
      tables := tableInfoList;
    }

    /**
     * refreshPathInfo: the paths derived from the current configuration are
     * merged into the path map; keys the derivation does not produce keep their
     * old paths and no key is lost.
     */
    method RefreshPathInfo()
      modifies this`pathInfo
      ensures pathInfo == PutAll(old(pathInfo), pathInfoOf(globalConfig, templateConfig, packageConfig.settings))
      ensures old(pathInfo).Keys <= pathInfo.Keys
    {
      pathInfo := PutAll(pathInfo, pathInfoOf(globalConfig, templateConfig, packageConfig.settings));
    }

    /**
     * refreshConfig: multi-module mode is on exactly when the package's module
     * name is "*"; only then is the package re-derived for `moduleName` (by
     * `refreshPackageInfo`) and the paths refreshed from it.
     */
    method RefreshConfig(moduleName: string, refreshPackageInfo: (PackageSettings, string) -> PackageSettings)
      modifies this`multiModule, this`pathInfo, packageConfig
      ensures multiModule <==> old(packageConfig.ModuleName()) == STAR
      ensures !multiModule ==>
                pathInfo == old(pathInfo) && packageConfig.settings == old(packageConfig.settings)
      ensures multiModule ==>
                && packageConfig.settings == refreshPackageInfo(old(packageConfig.settings), moduleName)
                && pathInfo == PutAll(old(pathInfo), pathInfoOf(globalConfig, templateConfig, packageConfig.settings))
    {
      multiModule := STAR == packageConfig.ModuleName();
      if multiModule {
        packageConfig.RefreshPackageInfo(moduleName, refreshPackageInfo);
        RefreshPathInfo();
      }
    }
  }
}
