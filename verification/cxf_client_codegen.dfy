/**
 The Apache CXF JAX-RS client backend of the code generator: its state as an
 immutable record, its constants, and its constructor.

 The constructor first runs the base generator's constructor, whose code is
 not part of this model; `Construct` therefore takes the tables the base
 constructor installed and applies the backend's own writes on top of them.
 */
module CxfClientCodegen {
  import opened MapWrites

  /** A value in the option map: a string from the command line or a boolean written back. */
  datatype Value = Str(s: string) | Flag(b: bool)

  /** The shared option map (`additionalProperties`). */
  type Options = map<string, Value>

  /** The option map together with the backend's feature flags. */
  datatype Config = Config(
    additionalProperties: Options,
    useBeanValidation: bool,
    useGenericResponse: bool,
    useGzipFeatureForTests: bool,
    useLoggingFeatureForTests: bool,
    useJackson: bool,
    useJSR367: bool)

  /** The type and import tables and the documentation templates. */
  datatype Tables = Tables(
    typeMapping: Table,
    importMapping: Table,
    modelDocTemplateFiles: Table,
    apiDocTemplateFiles: Table)

  /** An auxiliary file: template name, target folder, target file name. */
  datatype SupportingFile = SupportingFile(templateFile: string, folder: string, destinationFilename: string)

  /** The generator's state. */
  datatype Codegen = Codegen(config: Config, tables: Tables, supportingFiles: seq<SupportingFile>)

  /** What the base constructor leaves behind before the backend's own constructor body runs. */
  datatype BaseState = BaseState(additionalProperties: Options, tables: Tables, supportingFiles: seq<SupportingFile>)

  const UseBeanValidationKey := "useBeanValidation"
  const UseGenericResponseKey := "useGenericResponse"
  const UseGzipFeatureForTestsKey := "useGzipFeatureForTests"
  const UseLoggingFeatureForTestsKey := "useLoggingFeatureForTests"
  const JsonMappingModeKey := "jsonMapping"

  /** The keys that JSON-mapping resolution writes back. */
  const JacksonKey := "jackson"
  const Jsr367Key := "jsr367"

  /** The mode names the resolution compares the option against. */
  const JacksonMode := "jackson"
  const Jsr367Mode := "jsr367"

  /** The name the command-line option advertises for JSON-B annotations. */
  const JsonbMode := "jsonb"

  /** The one supporting file the backend declares: the build descriptor. */
  const PomFile := SupportingFile("pom.mustache", "", "pom.xml")

  /** The constructor's writes to each base table, in source order. */
  const ModelDocWrites := [Remove("model_doc.mustache")]
  const ApiDocWrites := [Remove("api_doc.mustache")]
  const TypeMappingWrites := [Put("date", "LocalDate")]
  const ImportMappingWrites := [Put("LocalDate", "org.joda.time.LocalDate")]

  /** The feature flags hold their field initialisers. */
  predicate InitialFlags(c: Config) {
    && !c.useBeanValidation
    && !c.useGenericResponse
    && !c.useGzipFeatureForTests
    && !c.useLoggingFeatureForTests
    && c.useJackson
    && !c.useJSR367
  }

  /** Exactly one JSON-mapping mode is active. */
  predicate ExactlyOneJsonMode(c: Config) {
    c.useJackson != c.useJSR367
  }

  /** The public setters: each replaces one flag and nothing else. */
  function SetUseBeanValidation(c: Config, v: bool): (r: Config)
    ensures r.useBeanValidation == v
    ensures r.(useBeanValidation := c.useBeanValidation) == c
  {
    c.(useBeanValidation := v)
  }

  function SetUseGzipFeatureForTests(c: Config, v: bool): (r: Config)
    ensures r.useGzipFeatureForTests == v
    ensures r.(useGzipFeatureForTests := c.useGzipFeatureForTests) == c
  {
    c.(useGzipFeatureForTests := v)
  }

  function SetUseLoggingFeatureForTests(c: Config, v: bool): (r: Config)
    ensures r.useLoggingFeatureForTests == v
    ensures r.(useLoggingFeatureForTests := c.useLoggingFeatureForTests) == c
  {
    c.(useLoggingFeatureForTests := v)
  }

  function SetUseGenericResponse(c: Config, v: bool): (r: Config)
    ensures r.useGenericResponse == v
    ensures r.(useGenericResponse := c.useGenericResponse) == c
  {
    c.(useGenericResponse := v)
  }

  /** Setting a flag to the value it already has changes nothing, and of two
      calls of the same setter only the later one is visible. */
  lemma SettersOverwrite(c: Config, a: bool, b: bool)
    ensures SetUseBeanValidation(c, c.useBeanValidation) == c
    ensures SetUseBeanValidation(SetUseBeanValidation(c, a), b) == SetUseBeanValidation(c, b)
    ensures SetUseGzipFeatureForTests(c, c.useGzipFeatureForTests) == c
    ensures SetUseGzipFeatureForTests(SetUseGzipFeatureForTests(c, a), b) == SetUseGzipFeatureForTests(c, b)
    ensures SetUseLoggingFeatureForTests(c, c.useLoggingFeatureForTests) == c
    ensures SetUseLoggingFeatureForTests(SetUseLoggingFeatureForTests(c, a), b) == SetUseLoggingFeatureForTests(c, b)
    ensures SetUseGenericResponse(c, c.useGenericResponse) == c
    ensures SetUseGenericResponse(SetUseGenericResponse(c, a), b) == SetUseGenericResponse(c, b)
  {
  }

  /** The setters never touch the option map or the JSON-mapping mode. */
  lemma SettersKeepOptionsAndJsonMode(c: Config, v: bool)
    ensures forall r :: r in [SetUseBeanValidation(c, v), SetUseGzipFeatureForTests(c, v),
                              SetUseLoggingFeatureForTests(c, v), SetUseGenericResponse(c, v)] ==>
              r.additionalProperties == c.additionalProperties && r.useJackson == c.useJackson && r.useJSR367 == c.useJSR367
  {
  }

  /** The backend's constructor: field initialisers, then the table overrides
      applied on top of whatever the base constructor installed. */
  function Construct(base: BaseState): (r: Codegen)
    ensures InitialFlags(r.config) && ExactlyOneJsonMode(r.config)
    ensures r.config.additionalProperties == base.additionalProperties
    ensures r.supportingFiles == base.supportingFiles
    ensures "date" in r.tables.typeMapping && r.tables.typeMapping["date"] == "LocalDate"
    ensures forall k :: k != "date" ==> SameEntry(base.tables.typeMapping, r.tables.typeMapping, k)
    ensures "LocalDate" in r.tables.importMapping && r.tables.importMapping["LocalDate"] == "org.joda.time.LocalDate"
    ensures forall k :: k != "LocalDate" ==> SameEntry(base.tables.importMapping, r.tables.importMapping, k)
    ensures "model_doc.mustache" !in r.tables.modelDocTemplateFiles
    ensures forall k :: k != "model_doc.mustache" ==>
              SameEntry(base.tables.modelDocTemplateFiles, r.tables.modelDocTemplateFiles, k)
    ensures "api_doc.mustache" !in r.tables.apiDocTemplateFiles
    ensures forall k :: k != "api_doc.mustache" ==>
              SameEntry(base.tables.apiDocTemplateFiles, r.tables.apiDocTemplateFiles, k)
  {
    var config := Config(
      additionalProperties := base.additionalProperties,
      useBeanValidation := false,
      useGenericResponse := false,
      useGzipFeatureForTests := false,
      useLoggingFeatureForTests := false,
      useJackson := true,
      useJSR367 := false);
    var tables := Tables(
      typeMapping := Apply(base.tables.typeMapping, TypeMappingWrites),
      importMapping := Apply(base.tables.importMapping, ImportMappingWrites),
      modelDocTemplateFiles := Apply(base.tables.modelDocTemplateFiles, ModelDocWrites),
      apiDocTemplateFiles := Apply(base.tables.apiDocTemplateFiles, ApiDocWrites));
    Codegen(config, tables, base.supportingFiles)
  }
}
