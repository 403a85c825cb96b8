/**
 * Mapper: the generator's settings for the mapper interface and its XML file,
 * with documented defaults, assembled through Mapper.Builder, whose every call
 * overwrites one setting of a shared Mapper object and returns the builder.
 */
module MapperConfig {
  import opened Configs

  /** ConverterFileName: entity name to output file name. */
  type ConverterFileName = string -> string

  /** A java.lang.Class, of which only getName() is used. */
  datatype JavaClass = JavaClass(name: string)

  /** The default mapper file name: the entity name followed by MAPPER. */
  function DefaultMapperFileName(entityName: string): (r: string)
    ensures |r| == |entityName| + |MAPPER|
    ensures r[..|entityName|] == entityName && r[|entityName|..] == MAPPER
  {
    entityName + MAPPER
  }

  /** The default XML file name: the entity name followed by XML. */
  function DefaultXmlFileName(entityName: string): (r: string)
    ensures |r| == |entityName| + |XML|
    ensures r[..|entityName|] == entityName && r[|entityName|..] == XML
  {
    entityName + XML
  }

  /** Appending a fixed suffix keeps distinct entity names distinct. */
  lemma SuffixedNamesDistinct(e1: string, e2: string, suffix: string)
    ensures e1 + suffix == e2 + suffix ==> e1 == e2
  {
    if e1 + suffix == e2 + suffix {
      assert |e1| == |e2|;
      assert e1 == (e1 + suffix)[..|e1|];
      assert e2 == (e2 + suffix)[..|e2|];
    }
  }

  /** The default converters never give two entities the same mapper or XML file. */
  lemma DefaultConvertersInjective(e1: string, e2: string)
    requires e1 != e2
    ensures DefaultMapperFileName(e1) != DefaultMapperFileName(e2)
    ensures DefaultXmlFileName(e1) != DefaultXmlFileName(e2)
  {
    SuffixedNamesDistinct(e1, e2, MAPPER);
    SuffixedNamesDistinct(e1, e2, XML);
  }

  // ---------------------------------------------------------------------
  // The settings as a value, and the effect of one builder call on it
  // ---------------------------------------------------------------------

  /** The six settings of a Mapper. */
  datatype MapperValue = MapperValue(
    superClass: string,
    baseResultMap: bool,
    baseColumnList: bool,
    enableXmlCache: bool,
    converterMapperFileName: ConverterFileName,
    converterXmlFileName: ConverterFileName)

  /** A Mapper as it is created: the defaults of its field initialisers. */
  function DefaultMapper(): MapperValue
  {
    MapperValue(SUPER_MAPPER_CLASS, false, false, false, DefaultMapperFileName, DefaultXmlFileName)
  }

  /** Which setting a builder call writes. */
  datatype Field = SuperClassField | BaseResultMapField | BaseColumnListField
                 | EnableXmlCacheField | MapperFileNameField | XmlFileNameField

  /** One builder call with its argument. */
  datatype Setting =
    | SetSuperClass(name: string)
    | SetBaseResultMap(baseResultMap: bool)
    | SetBaseColumnList(baseColumnList: bool)
    | SetEnableXmlCache(enableXmlCache: bool)
    | SetMapperFileName(mapperConverter: ConverterFileName)
    | SetXmlFileName(xmlConverter: ConverterFileName)
  {
    function Writes(): Field
    {
      match this
      case SetSuperClass(_) => SuperClassField
      case SetBaseResultMap(_) => BaseResultMapField
      case SetBaseColumnList(_) => BaseColumnListField
      case SetEnableXmlCache(_) => EnableXmlCacheField
      case SetMapperFileName(_) => MapperFileNameField
      case SetXmlFileName(_) => XmlFileNameField
    }
  }

  /** v and w hold the same value in field f. */
  ghost predicate SameIn(v: MapperValue, w: MapperValue, f: Field)
  {
    match f
    case SuperClassField => v.superClass == w.superClass
    case BaseResultMapField => v.baseResultMap == w.baseResultMap
    case BaseColumnListField => v.baseColumnList == w.baseColumnList
    case EnableXmlCacheField => v.enableXmlCache == w.enableXmlCache
    case MapperFileNameField => v.converterMapperFileName == w.converterMapperFileName
    case XmlFileNameField => v.converterXmlFileName == w.converterXmlFileName
  }

  /** v holds the argument of call s in the field s writes. */
  ghost predicate Holds(v: MapperValue, s: Setting)
  {
    match s
    case SetSuperClass(name) => v.superClass == name
    case SetBaseResultMap(b) => v.baseResultMap == b
    case SetBaseColumnList(b) => v.baseColumnList == b
    case SetEnableXmlCache(b) => v.enableXmlCache == b
    case SetMapperFileName(c) => v.converterMapperFileName == c
    case SetXmlFileName(c) => v.converterXmlFileName == c
  }

  /** The effect of one builder call on the settings. */
  function Apply(v: MapperValue, s: Setting): (r: MapperValue)
    ensures Holds(r, s)
    ensures forall f :: f != s.Writes() ==> SameIn(r, v, f)
  {
    match s
    case SetSuperClass(name) => v.(superClass := name)
    case SetBaseResultMap(b) => v.(baseResultMap := b)
    case SetBaseColumnList(b) => v.(baseColumnList := b)
    case SetEnableXmlCache(b) => v.(enableXmlCache := b)
    case SetMapperFileName(c) => v.(converterMapperFileName := c)
    case SetXmlFileName(c) => v.(converterXmlFileName := c)
  }

  /** Calling a setter twice with the same argument is the same as calling it once. */
  lemma ApplyIdempotent(v: MapperValue, s: Setting)
    ensures Apply(Apply(v, s), s) == Apply(v, s)
  {
  }

  /** Of two calls to the same setter, the second one wins. */
  lemma ApplyLastWins(v: MapperValue, s: Setting, t: Setting)
    requires s.Writes() == t.Writes()
    ensures Apply(Apply(v, s), t) == Apply(v, t)
  {
  }

  /** Calls to different setters do not interfere, so their order does not matter. */
  lemma ApplyCommutes(v: MapperValue, s: Setting, t: Setting)
    requires s.Writes() != t.Writes()
    ensures Apply(Apply(v, s), t) == Apply(Apply(v, t), s)
  {
  }

  /** The settings after a chain of builder calls, made in order. */
  function ApplyAll(v: MapperValue, calls: seq<Setting>): MapperValue
  {
    if calls == [] then v else Apply(ApplyAll(v, calls[..|calls| - 1]), calls[|calls| - 1])
  }

  /**
   * Last write wins over a whole chain: a call that no later call overrides
   * can be moved to the end of the chain without changing the result.
   */
  lemma {:induction false} LastWriteMovesToEnd(v: MapperValue, before: seq<Setting>, s: Setting, after: seq<Setting>)
    requires forall i :: 0 <= i < |after| ==> after[i].Writes() != s.Writes()
    ensures ApplyAll(v, before + [s] + after) == Apply(ApplyAll(v, before + after), s)
  {
    if after == [] {
      assert (before + [s])[..|before|] == before;
      assert before + [s] + after == before + [s];
      assert before + after == before;
    } else {
      var rest, t := after[..|after| - 1], after[|after| - 1];
      assert before + [s] + after == (before + [s] + rest) + [t];
      assert (before + [s] + after)[..|before + [s] + after| - 1] == before + [s] + rest;
      assert before + after == (before + rest) + [t];
      assert (before + after)[..|before + after| - 1] == before + rest;
      LastWriteMovesToEnd(v, before, s, rest);
      ApplyCommutes(ApplyAll(v, before + rest), s, t);
    }
  }

  /** The last call of a chain that writes a field decides that field's value. */
  lemma LastWriteHolds(v: MapperValue, before: seq<Setting>, s: Setting, after: seq<Setting>)
    requires forall i :: 0 <= i < |after| ==> after[i].Writes() != s.Writes()
    ensures Holds(ApplyAll(v, before + [s] + after), s)
  {
    LastWriteMovesToEnd(v, before, s, after);
  }

  /** A field that no call of a chain writes keeps its value (for a new builder: its default). */
  lemma {:induction false} UnwrittenFieldKept(v: MapperValue, calls: seq<Setting>, f: Field)
    requires forall i :: 0 <= i < |calls| ==> calls[i].Writes() != f
    ensures SameIn(ApplyAll(v, calls), v, f)
  {
    if calls != [] {
      UnwrittenFieldKept(v, calls[..|calls| - 1], f);
    }
  }

  // ---------------------------------------------------------------------
  // The mutable objects
  // ---------------------------------------------------------------------

  class Mapper {
    var superClass: string
    var baseResultMap: bool
    var baseColumnList: bool
    var enableXmlCache: bool
    var converterMapperFileName: ConverterFileName
    var converterXmlFileName: ConverterFileName

    /** The settings this object currently holds. */
    ghost function Value(): MapperValue
      reads this
    {
      MapperValue(superClass, baseResultMap, baseColumnList, enableXmlCache,
                  converterMapperFileName, converterXmlFileName)
    }

    /** The private constructor, with the field initialisers' defaults. */
    constructor ()
      ensures Value() == DefaultMapper()
      ensures superClass == SUPER_MAPPER_CLASS && !baseResultMap && !baseColumnList && !enableXmlCache
      ensures forall e :: converterMapperFileName(e) == e + MAPPER && converterXmlFileName(e) == e + XML
    {
      superClass := SUPER_MAPPER_CLASS;
      baseResultMap := false;
      baseColumnList := false;
      enableXmlCache := false;
      converterMapperFileName := DefaultMapperFileName;
      converterXmlFileName := DefaultXmlFileName;
    }
  }

  /**
   * Mapper.Builder: each setter writes one field of the one Mapper the builder
   * owns (its frame names that field alone) and returns the builder itself.
   */
  class Builder {
    /** Kept by the BaseBuilder superclass. */
    const strategyConfig: StrategyConfig
    const mapper: Mapper

    constructor (strategyConfig: StrategyConfig)
      ensures this.strategyConfig == strategyConfig
      ensures fresh(mapper) && mapper.Value() == DefaultMapper()
    {
      this.strategyConfig := strategyConfig;
      mapper := new Mapper();
    }

    method SuperClass(superClass: string) returns (self: Builder)
      modifies mapper`superClass
      ensures self == this
      ensures mapper.Value() == Apply(old(mapper.Value()), SetSuperClass(superClass))
    {
      mapper.superClass := superClass;
      self := this;
    }

    /** superClass(Class): the same as superClass with the class's name. */
    method SuperClassOf(superClass: JavaClass) returns (self: Builder)
      modifies mapper`superClass
      ensures self == this
      ensures mapper.Value() == Apply(old(mapper.Value()), SetSuperClass(superClass.name))
    {
      self := SuperClass(superClass.name);
    }

    method BaseResultMap(baseResultMap: bool) returns (self: Builder)
      modifies mapper`baseResultMap
      ensures self == this
      ensures mapper.Value() == Apply(old(mapper.Value()), SetBaseResultMap(baseResultMap))
    {
      mapper.baseResultMap := baseResultMap;
      self := this;
    }

    method BaseColumnList(baseColumnList: bool) returns (self: Builder)
      modifies mapper`baseColumnList
      ensures self == this
      ensures mapper.Value() == Apply(old(mapper.Value()), SetBaseColumnList(baseColumnList))
    {
      mapper.baseColumnList := baseColumnList;
      self := this;
    }

    method EnableXmlCache(enableXmlCache: bool) returns (self: Builder)
      modifies mapper`enableXmlCache
      ensures self == this
      ensures mapper.Value() == Apply(old(mapper.Value()), SetEnableXmlCache(enableXmlCache))
    {
      mapper.enableXmlCache := enableXmlCache;
      self := this;
    }

    method ConvertMapperFileName(converter: ConverterFileName) returns (self: Builder)
      modifies mapper`converterMapperFileName
      ensures self == this
      ensures mapper.Value() == Apply(old(mapper.Value()), SetMapperFileName(converter))
    {
      mapper.converterMapperFileName := converter;
      self := this;
    }

    method ConvertXmlFileName(converter: ConverterFileName) returns (self: Builder)
      modifies mapper`converterXmlFileName
      ensures self == this
      ensures mapper.Value() == Apply(old(mapper.Value()), SetXmlFileName(converter))
    {
      mapper.converterXmlFileName := converter;
      self := this;
    }

    /**
     * formatMapperFileName: the mapper file name becomes String.format(entityName,
     * format), with the arguments in the order the source passes them (the entity
     * name is the format string); the XML converter is untouched.
     */
    method FormatMapperFileName(format: string, stringFormat: Formatter) returns (self: Builder)
      modifies mapper`converterMapperFileName
      ensures self == this
      ensures mapper.Value() == Apply(old(mapper.Value()), SetMapperFileName(FormatConverterAsWritten(stringFormat, format)))
      ensures forall e :: mapper.converterMapperFileName(e) == stringFormat(e, format)
    {
      self := ConvertMapperFileName(FormatConverterAsWritten(stringFormat, format));
    }

    /**
     * formatXmlFileName: the XML file name becomes String.format(entityName,
     * format), with the arguments in the order the source passes them; the
     * mapper converter is untouched.
     */
    method FormatXmlFileName(format: string, stringFormat: Formatter) returns (self: Builder)
      modifies mapper`converterXmlFileName
      ensures self == this
      ensures mapper.Value() == Apply(old(mapper.Value()), SetXmlFileName(FormatConverterAsWritten(stringFormat, format)))
      ensures forall e :: mapper.converterXmlFileName(e) == stringFormat(e, format)
    {
      self := ConvertXmlFileName(FormatConverterAsWritten(stringFormat, format));
    }

    /** get(): the very object the setters write, not a copy. */
    method Get() returns (m: Mapper)
      ensures m == mapper
    {
      m := mapper;
    }
  }

  // ---------------------------------------------------------------------
  // String.format and the file-name format converters
  // ---------------------------------------------------------------------

  /** String.format(format, arg) with one argument; java.util.Formatter is not part of this model. */
  type Formatter = (string, string) -> string

  /** The format "%s" followed by plain text. */
  function SuffixFormat(suffix: string): string
  {
    "%s" + suffix
  }

  /** Formatter behaviour: a format without '%' is copied as it is and surplus arguments are ignored. */
  ghost predicate CopiesPlainText(stringFormat: Formatter)
  {
    forall text, arg :: '%' !in text ==> stringFormat(text, arg) == text
  }

  /** Formatter behaviour: "%s" followed by plain text is the argument followed by that text. */
  ghost predicate SubstitutesString(stringFormat: Formatter)
  {
    forall suffix, arg :: '%' !in suffix ==> stringFormat(SuffixFormat(suffix), arg) == arg + suffix
  }

  /** The converter as the source writes it: String.format(entityName, format). */
  function FormatConverterAsWritten(stringFormat: Formatter, format: string): (c: ConverterFileName)
    ensures forall entityName :: c(entityName) == stringFormat(entityName, format)
  {
    entityName => stringFormat(entityName, format)
  }

  /**
   * The converter as intended, with the format as the format string:
   * String.format(format, entityName). The builder methods keep the source's order.
   */
  function FormatConverter(stringFormat: Formatter, format: string): (c: ConverterFileName)
    ensures forall entityName :: c(entityName) == stringFormat(format, entityName)
  {
    entityName => stringFormat(format, entityName)
  }

  /**
   * As written, the format is ignored: for an entity name without '%' the file
   * is named after the entity alone, so formatMapperFileName("%sMapper") names
   * entity "User"'s mapper file "User" instead of "UserMapper".
   */
  lemma FormatAsWrittenIgnoresFormat(stringFormat: Formatter, suffix: string, entityName: string)
    requires CopiesPlainText(stringFormat)
    requires '%' !in entityName && suffix != []
    ensures FormatConverterAsWritten(stringFormat, SuffixFormat(suffix))(entityName) == entityName
    ensures FormatConverterAsWritten(stringFormat, SuffixFormat(suffix))(entityName) != entityName + suffix
  {
  }

  /**
   * As intended, formatMapperFileName("%s" + MAPPER) and formatXmlFileName("%s" + XML)
   * reproduce the default converters.
   */
  lemma FormatConverterMatchesDefaults(stringFormat: Formatter, entityName: string)
    requires SubstitutesString(stringFormat)
    ensures FormatConverter(stringFormat, SuffixFormat(MAPPER))(entityName) == DefaultMapperFileName(entityName)
    ensures FormatConverter(stringFormat, SuffixFormat(XML))(entityName) == DefaultXmlFileName(entityName)
  {
    assert '%' !in MAPPER && '%' !in XML;
  }
}
