/**
 * The configuration objects that the generator's ConfigBuilder aggregates.
 * Their contents are owned by other parts of the generator, so they appear
 * here as opaque values; only the package configuration's module name is
 * looked at by the builder and is therefore spelled out.
 */
module Configs {

  /** A value that Java allows to be null. */
  datatype Option<T> = None | Some(value: T) {
    /** Optional.ofNullable(this).orElseGet(() -> default) */
    function GetOr(default: T): (r: T)
      ensures Some? ==> r == value
      ensures None? ==> r == default
    {
      match this
      case Some(v) => v
      case None => default
    }
  }

  /** Naming and per-artifact generation rules (StrategyConfig). */
  type StrategyConfig(==)
  /** Output directory, author, dates and similar global switches (GlobalConfig). */
  type GlobalConfig(==)
  /** Locations of the code-generation templates (TemplateConfig). */
  type TemplateConfig(==)
  /** User-supplied extra template variables and files (InjectionConfig). */
  type InjectionConfig(==)
  /** JDBC connection settings (DataSourceConfig). */
  type DataSourceConfig(==)
  /** One introspected database table (TableInfo). */
  type TableInfo(==)
  /** The kind of an artifact the generator writes (OutputFile). */
  type OutputFile(==)
  /** Everything in a package configuration besides its module name. */
  type PackageDetails(==)

  // Constants of ConstVal.

  /** The wildcard module name: "generate every table, one module per table". */
  const STAR: string := "*"
  /** The mapper interface generated mappers extend. */
  const SUPER_MAPPER_CLASS: string := "com.baomidou.mybatisplus.core.mapper.BaseMapper"
  /** Suffix of a default mapper file name. */
  const MAPPER: string := "Mapper"
  /** Suffix of a default mapper XML file name. */
  const XML: string := "Xml"

  /** The state of a PackageConfig object. */
  datatype PackageSettings = PackageSettings(moduleName: string, details: PackageDetails)

  /**
   * A PackageConfig object. The builder keeps a final reference to one and
   * updates it in place when it switches to a table's module, so it is a class.
   */
  class PackageConfig {
    var settings: PackageSettings

    constructor (settings: PackageSettings)
      ensures this.settings == settings
    {
      this.settings := settings;
    }

    /** getModuleName() */
    function ModuleName(): string
      reads this
    {
      settings.moduleName
    }

    /**
     * refreshPackageInfo(moduleName): how the package layout is re-derived for a
     * module is not part of this model, so the update is a parameter.
     */
    method RefreshPackageInfo(moduleName: string, refresh: (PackageSettings, string) -> PackageSettings)
      modifies this
      ensures settings == refresh(old(settings), moduleName)
    {
      settings := refresh(settings, moduleName);
    }
  }
}
