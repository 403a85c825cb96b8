# MyBatis-Plus generator configuration: ConfigBuilder and Mapper

A Dafny model of two parts of the MyBatis-Plus code generator's configuration layer.

- `ConfigBuilder` collects the package, data-source, strategy, template, global and injection configurations that the later file-rendering stage needs.
  - It substitutes a default for each optional configuration left null.
  - It derives the output path of every artifact kind (the "path info" map) and merges later refreshes into that map.
  - When the package's module name is the wildcard `"*"`, it switches to multi-module mode and re-derives the package for each table's module.
  - It loads the list of tables from the database whenever the list is asked for while it is still empty.
  - It decides whether a table name is a pattern of table names rather than a plain name: a name is a pattern when it contains one of 28 punctuation characters.
- `Mapper` holds the settings for generated mapper interfaces and XML files, with documented defaults. `Mapper.Builder` changes one setting per call on one shared `Mapper` object, and `get()` returns that same object.

Files:

- `configs.dfy` (module `Configs`): the collaborator configuration types. They are opaque, except the package configuration's module name.
- `config_builder.dfy` (module `GeneratorConfig`): the table-name check, the `putAll` merge and the `ConfigBuilder` class.
- `mapper.dfy` (module `MapperConfig`): the `Mapper` and `Builder` classes and the algebra of builder calls.

The final configuration fields of `ConfigBuilder` (`templateConfig`, `packageConfig` and `dataSourceConfig`) are Dafny `const`s, so they can never be reassigned after construction. The final collections `tableInfoList` and `pathInfo` are held as `seq` and `map` values in `var` fields. The methods that the source uses to change them in place (`addAll`, `putAll`) replace those values instead. Each setter's `modifies` clause names only the field it writes, so Dafny checks that nothing else changes.

The builder's effect on a `Mapper` is described by the value `Mapper.Value()` and the function `Apply(value, call)`. Lemmas about `Apply` cover pairs of consecutive calls: repeating a call with the same argument changes nothing, the second of two calls to the same setter wins, and calls to different setters commute. Lemmas about `ApplyAll` cover any chain of calls: the last call that writes a field decides its value, and a field that no call writes keeps its value.

## Model

| member | source | states |
|---|---|---|
| `GeneratorConfig.MatcherRegTable` | mybatis-plus-generator/src/main/java/com/baomidou/mybatisplus/generator/config/builder/ConfigBuilder.java:115-117 | true exactly when some character of the table name belongs to the REGX class |
| `GeneratorConfig.MatcherRegTableIsRegexFind` | mybatis-plus-generator/src/main/java/com/baomidou/mybatisplus/generator/config/builder/ConfigBuilder.java:70 | the character scan agrees, in both directions, with a `find()` of the pattern `[...]+` (some non-empty run of class characters exists) |
| `GeneratorConfig.RegexClassBoundary` | mybatis-plus-generator/src/main/java/com/baomidou/mybatisplus/generator/config/builder/ConfigBuilder.java:70 | the class read from the escaped Java literal contains the backslash, `[`, `]`, `^` and `&` as literal characters; it does not contain `_`, `-`, `=`, the backquote or the space |
| `Configs.Option.GetOr` | mybatis-plus-generator/src/main/java/com/baomidou/mybatisplus/generator/config/builder/ConfigBuilder.java:100-104 | `Optional.ofNullable(x).orElseGet(d)`: a present value is kept; a missing value becomes the default |
| `GeneratorConfig.PlainNameIsNotRegex` | mybatis-plus-generator/src/main/java/com/baomidou/mybatisplus/generator/config/builder/ConfigBuilder.java:115-117 | a name made only of letters, digits, `_` and `-` is never a pattern; this includes the empty name |
| `GeneratorConfig.MatcherRegTableConcat` | mybatis-plus-generator/src/main/java/com/baomidou/mybatisplus/generator/config/builder/ConfigBuilder.java:115-117 | the concatenation of two names is a pattern exactly when at least one of them is |
| `GeneratorConfig.PutAll` | mybatis-plus-generator/src/main/java/com/baomidou/mybatisplus/generator/config/builder/ConfigBuilder.java:178 | after a merge, the keys are the union of the old and new keys; merged keys have their new values; other keys keep their old values |
| `GeneratorConfig.PutAllIdempotent` | mybatis-plus-generator/src/main/java/com/baomidou/mybatisplus/generator/config/builder/ConfigBuilder.java:176-179 | merging the same derived paths a second time changes nothing |
| `GeneratorConfig.PutAllIntoEmpty` | mybatis-plus-generator/src/main/java/com/baomidou/mybatisplus/generator/config/builder/ConfigBuilder.java:105 | merging into the fresh empty map yields exactly the derived paths |
| `GeneratorConfig.ConfigBuilder.constructor` | mybatis-plus-generator/src/main/java/com/baomidou/mybatisplus/generator/config/builder/ConfigBuilder.java:96-106 | the data source is stored as given; each of the other five configurations is stored as given when non-null and replaced by its default when null (a null package gets a fresh default object); the path map equals the handler's paths for the stored global, template and package configs; the table list is empty; multi-module mode is off |
| `GeneratorConfig.ConfigBuilder.SetStrategyConfig` | mybatis-plus-generator/src/main/java/com/baomidou/mybatisplus/generator/config/builder/ConfigBuilder.java:120-123 | only the strategy configuration changes, to the argument; returns the builder itself |
| `GeneratorConfig.ConfigBuilder.SetGlobalConfig` | mybatis-plus-generator/src/main/java/com/baomidou/mybatisplus/generator/config/builder/ConfigBuilder.java:126-129 | only the global configuration changes, to the argument; returns the builder itself |
| `GeneratorConfig.ConfigBuilder.SetInjectionConfig` | mybatis-plus-generator/src/main/java/com/baomidou/mybatisplus/generator/config/builder/ConfigBuilder.java:132-135 | only the injection configuration changes, to the argument; returns the builder itself |
| `GeneratorConfig.ConfigBuilder.GetTableInfoList` | mybatis-plus-generator/src/main/java/com/baomidou/mybatisplus/generator/config/builder/ConfigBuilder.java:143-152 | a non-empty list is returned unchanged and no query is made; an empty list becomes the query's answer for the current configuration, which may be empty again, and exactly one query is counted; the result is the stored list |
| `GeneratorConfig.ConfigBuilder.RefreshPathInfo` | mybatis-plus-generator/src/main/java/com/baomidou/mybatisplus/generator/config/builder/ConfigBuilder.java:176-179 | the path map becomes the old map merged with the paths derived from the current global, template and package configs; no key is removed |
| `GeneratorConfig.ConfigBuilder.RefreshConfig` | mybatis-plus-generator/src/main/java/com/baomidou/mybatisplus/generator/config/builder/ConfigBuilder.java:163-172 | multi-module mode is on exactly when the package's module name was `"*"`; when it is off, the package and the path map are unchanged; when it is on, the package is re-derived for the module name and the freshly derived paths are merged into the path map |
| `Configs.PackageConfig.RefreshPackageInfo` | mybatis-plus-generator/src/main/java/com/baomidou/mybatisplus/generator/config/builder/ConfigBuilder.java:168 | the package object's state is replaced in place by the re-derivation for the module name |
| `MapperConfig.Mapper.constructor` | mybatis-plus-generator/src/main/java/com/baomidou/mybatisplus/generator/config/builder/Mapper.java:31-72 | a new Mapper has super class SUPER_MAPPER_CLASS; baseResultMap, baseColumnList and enableXmlCache are all false; the mapper file for entity `e` is `e + MAPPER` and the XML file is `e + XML` |
| `MapperConfig.DefaultMapperFileName` | mybatis-plus-generator/src/main/java/com/baomidou/mybatisplus/generator/config/builder/Mapper.java:65 | the default mapper file name starts with the entity name and ends with MAPPER, and has no other characters |
| `MapperConfig.DefaultXmlFileName` | mybatis-plus-generator/src/main/java/com/baomidou/mybatisplus/generator/config/builder/Mapper.java:72 | the default XML file name starts with the entity name and ends with XML, and has no other characters |
| `MapperConfig.DefaultConvertersInjective` | mybatis-plus-generator/src/main/java/com/baomidou/mybatisplus/generator/config/builder/Mapper.java:65-72 | under the default converters, distinct entity names get distinct mapper file names and distinct XML file names |
| `MapperConfig.Builder.constructor` | mybatis-plus-generator/src/main/java/com/baomidou/mybatisplus/generator/config/builder/Mapper.java:101-105 | a new builder keeps the strategy config and owns a fresh Mapper holding the defaults |
| `MapperConfig.Apply` | mybatis-plus-generator/src/main/java/com/baomidou/mybatisplus/generator/config/builder/Mapper.java:113-186 | one builder call puts its argument into the field it writes and leaves every other field as it was |
| `MapperConfig.ApplyIdempotent` | mybatis-plus-generator/src/main/java/com/baomidou/mybatisplus/generator/config/builder/Mapper.java:136-162 | calling a setter twice with the same argument has the same effect as calling it once |
| `MapperConfig.ApplyLastWins` | mybatis-plus-generator/src/main/java/com/baomidou/mybatisplus/generator/config/builder/Mapper.java:113-186 | of two calls to the same setter, the second call's value wins |
| `MapperConfig.ApplyCommutes` | mybatis-plus-generator/src/main/java/com/baomidou/mybatisplus/generator/config/builder/Mapper.java:113-186 | calls to two different setters can be made in either order with the same result |
| `MapperConfig.LastWriteMovesToEnd` | mybatis-plus-generator/src/main/java/com/baomidou/mybatisplus/generator/config/builder/Mapper.java:113-186 | in any chain of calls, a call that no later call overrides can be moved to the end without changing the result |
| `MapperConfig.LastWriteHolds` | mybatis-plus-generator/src/main/java/com/baomidou/mybatisplus/generator/config/builder/Mapper.java:113-186 | after any chain of calls, a field holds the argument of the last call that wrote it |
| `MapperConfig.UnwrittenFieldKept` | mybatis-plus-generator/src/main/java/com/baomidou/mybatisplus/generator/config/builder/Mapper.java:37-72 | a field that no call in a chain writes keeps its value; for a new builder, that value is its default |
| `MapperConfig.Builder.SuperClass` | mybatis-plus-generator/src/main/java/com/baomidou/mybatisplus/generator/config/builder/Mapper.java:113-116 | the shared Mapper's super class becomes the argument; nothing else changes; returns the builder itself |
| `MapperConfig.Builder.SuperClassOf` | mybatis-plus-generator/src/main/java/com/baomidou/mybatisplus/generator/config/builder/Mapper.java:125-127 | same effect as `SuperClass` called with the class's name |
| `MapperConfig.Builder.BaseResultMap` | mybatis-plus-generator/src/main/java/com/baomidou/mybatisplus/generator/config/builder/Mapper.java:136-139 | only baseResultMap changes, to the argument; returns the builder itself |
| `MapperConfig.Builder.BaseColumnList` | mybatis-plus-generator/src/main/java/com/baomidou/mybatisplus/generator/config/builder/Mapper.java:148-151 | only baseColumnList changes, to the argument; returns the builder itself |
| `MapperConfig.Builder.EnableXmlCache` | mybatis-plus-generator/src/main/java/com/baomidou/mybatisplus/generator/config/builder/Mapper.java:159-162 | only enableXmlCache changes, to the argument; returns the builder itself |
| `MapperConfig.Builder.ConvertMapperFileName` | mybatis-plus-generator/src/main/java/com/baomidou/mybatisplus/generator/config/builder/Mapper.java:171-174 | only the mapper-file converter changes, to the argument; returns the builder itself |
| `MapperConfig.Builder.ConvertXmlFileName` | mybatis-plus-generator/src/main/java/com/baomidou/mybatisplus/generator/config/builder/Mapper.java:183-186 | only the XML-file converter changes, to the argument; returns the builder itself |
| `MapperConfig.Builder.FormatMapperFileName` | mybatis-plus-generator/src/main/java/com/baomidou/mybatisplus/generator/config/builder/Mapper.java:196-198 | only the mapper-file converter changes; it now maps entity `e` to `String.format(e, format)`, the source's argument order, in which the entity name is the format string (see Findings); the XML converter is unchanged; returns the builder itself |
| `MapperConfig.Builder.FormatXmlFileName` | mybatis-plus-generator/src/main/java/com/baomidou/mybatisplus/generator/config/builder/Mapper.java:207-209 | only the XML-file converter changes; it now maps entity `e` to `String.format(e, format)`, the source's argument order (see Findings); the mapper converter is unchanged; returns the builder itself |
| `MapperConfig.Builder.Get` | mybatis-plus-generator/src/main/java/com/baomidou/mybatisplus/generator/config/builder/Mapper.java:211-213 | returns the very Mapper object the setters write, so later setter calls are visible through it |
| `MapperConfig.FormatConverterAsWritten` | mybatis-plus-generator/src/main/java/com/baomidou/mybatisplus/generator/config/builder/Mapper.java:197 | the converter installed by `formatMapperFileName` and `formatXmlFileName` (lines 197 and 208): entity `e` maps to `String.format(e, format)` |
| `MapperConfig.FormatConverter` | mybatis-plus-generator/src/main/java/com/baomidou/mybatisplus/generator/config/builder/Mapper.java:196-209 | the converter the methods' documentation describes: entity `e` maps to `String.format(format, e)` |
| `MapperConfig.FormatAsWrittenIgnoresFormat` | mybatis-plus-generator/src/main/java/com/baomidou/mybatisplus/generator/config/builder/Mapper.java:196-209 | with the arguments in the source's order, an entity name without `%` comes back unchanged whatever the format, so a `"%s" + suffix` format never adds its suffix |
| `MapperConfig.FormatConverterMatchesDefaults` | mybatis-plus-generator/src/main/java/com/baomidou/mybatisplus/generator/config/builder/Mapper.java:196-209 | with the intended order, the formats `"%s" + MAPPER` and `"%s" + XML` reproduce the default converters |

## Left out

- Getters (`getTemplateConfig`, `getPathInfo`, `getStrategyConfig`, `getGlobalConfig`, `getInjectionConfig`, `getPackageConfig`, `getDataSourceConfig`, `isMultiModule`, and the `Mapper` getters) are plain reads of the model's fields.
- `getPathInfo` and `getTableInfoList` return the live Java collections. The model keeps these collections as `map` and `seq` values, so a caller changing the returned collection directly (aliasing) is not captured.
- The table query (`IDatabaseQuery.DefaultDatabaseQuery`) is JDBC I/O. It is a function parameter of `GetTableInfoList`. The source passes the whole builder to the query; the model passes only the six configurations (`Settings`), not the path map, the multi-module flag or the table list. A ghost counter records when it runs.
- `PathInfoHandler` is not part of this model. Its `getPathInfo()` is the builder's `pathInfoOf` function of the global, template and package configurations.
- `GeneratorBuilder`'s default configurations are not part of this model. They are a `Defaults` record passed to the constructor.
- `PackageConfig.refreshPackageInfo` is not part of this model. It is a state-update function parameter.
- The contents of the strategy, global, template, injection, data-source and table objects are opaque types. Only the package's module name is spelled out.
- The Java regular-expression engine is replaced by a character-set scan. `MatcherRegTableIsRegexFind` ties the scan to the meaning of `find()` for the pattern.
- `String.format` (java.util.Formatter) is a `Formatter` parameter. The Findings lemmas assume only two documented behaviours: text without `%` is copied and surplus arguments are ignored; `%s` followed by plain text yields the argument followed by that text.
- `Formatter` is a total function. `java.util.Formatter` throws an exception when the format string has a malformed `%` directive. Under the source's argument order, the format string is the entity name, so an entity name such as `"a%q"` makes the converter throw. The model does not capture that exception.
- `Class.getName()` reflection is reduced to a `JavaClass` record carrying its name.
- `ConstVal` is not part of this model. Its constants are gathered in `Configs`: `SUPER_MAPPER_CLASS`, `MAPPER`, `XML` and `STAR` carry the values of the MyBatis-Plus distribution. No proof relies on the value of `SUPER_MAPPER_CLASS`. `FormatConverterMatchesDefaults` does rely on the values of `MAPPER` and `XML`: it uses the fact that neither contains `%`.
- `BaseBuilder`'s own methods, the other strategy sub-builders, template rendering and file output are out of scope.
- Java `null` is not modelled for any reference-typed argument: every such parameter is a plain Dafny value. This covers the `@NotNull` parameters (the `ConfigBuilder` setters' arguments, the constructor's `dataSourceConfig`, which Java would store as null, `matcherRegTable`'s `tableName`, for which `REGX.matcher(null)` throws a NullPointerException, `superClass(Class)`, `convertMapperFileName` and `convertXmlFileName`). It also covers the un-annotated parameters, for which Java accepts null: `Mapper.Builder.superClass(String)`, `formatMapperFileName(String)`, `formatXmlFileName(String)`, `ConfigBuilder.refreshConfig(String)` and the `Mapper.Builder` constructor's `strategyConfig`. For example, `superClass(null)` would store a null super class, which `getSuperClass()` then returns; the model's `string` cannot represent that.

## Findings

| source | as written | input that shows it | evidently intended | confidence | as-written member | corrected member |
|---|---|---|---|---|---|---|
| mybatis-plus-generator/src/main/java/com/baomidou/mybatisplus/generator/config/builder/Mapper.java:196-209 | the converter is `String.format(entityName, format)`: the entity name is used as the format string and the user's format becomes an ignored surplus argument; `FormatAsWrittenIgnoresFormat` proves that the suffix is never added | entity `"User"` with `formatMapperFileName("%sMapper")` names the mapper file `"User"`, not `"UserMapper"` | `String.format(format, entityName)`; `FormatConverterMatchesDefaults` proves that `"%s" + MAPPER` and `"%s" + XML` then reproduce the default converters; the builder methods of this model keep the order as written | high; not executed | `MapperConfig.FormatConverterAsWritten` | `MapperConfig.FormatConverter` |
