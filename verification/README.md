# CXF JAX-RS client backend of swagger-codegen, modelled in Dafny

`JavaCXFClientCodegen` is the code-generator backend that emits a Java JAX-RS
client for Apache CXF. It extends the generic Java generator
(`AbstractJavaCodegen`); this project models its constructor, `processOpts`,
`addOperationToGroup`, `postProcessModelProperty` and the four setters, as pure
Dafny over immutable records:

- **Construction** (`map_writes.dfy`, `cxf_client_codegen.dfy`): the feature
  flags' initial values, and the backend's own `put`/`remove` calls on the type
  mapping, import mapping and documentation-template tables the base
  constructor built. Table writes are modelled as an ordered list of writes
  whose meaning is "the last write to a key decides it".
- **Option processing** (`process_opts.dfy`): the blocks of `processOpts` that
  read the option map (`additionalProperties`), set the backend's flags and
  write booleans back into the map; the choice of JSON-mapping mode; clearing
  the supporting files and declaring the optional `pom.xml`.
- **Operation grouping and model post-processing** (`post_processing.dfy`):
  the subresource-operation flag, and the removal of four annotation imports.
- **Setters** (`cxf_client_codegen.dfy`): each replaces one flag.

The constructor and the three hooks (`processOpts`, `addOperationToGroup`,
`postProcessModelProperty`) first call the base class's version, whose code is
not part of this model. Each of them here therefore starts from the state the
base step leaves and applies only the backend's own statements. The setters
call no base method.

How the base class parses a present option as a boolean is the parameter
`conv: Value -> bool`. An absent option reads as `false` and is not written
back; that is the behaviour of the base helpers the code relies on, which are
not part of this model. Whether `pom.xml` already exists in the output folder
is the parameter `pomExists`.

The option processing is proved against a declarative contract, `Resolved`,
made of one predicate per block. The contract pins the result down completely
(`ResolvedIsDeterministic`). Two consequences follow. A freshly constructed
generator ends with exactly one JSON-mapping mode active, whatever the options
say (`FreshRunHasExactlyOneJsonMode`). And re-running resolution on its own
written-back output changes nothing (`ResolutionIsIdempotent`), provided the
parser reads a written-back boolean as itself.

The JSON-mapping block is modelled with both guards exactly as written:

- The first guard is "the option equals `jackson`, or it is absent".
- The second guard is "the option equals `jsr367`, or it is absent".

The `else if` makes the branches exclusive, so at most one runs. The second
guard's "or absent" half can never decide anything, because that guard is only
reached when the option is present; the guard reduces to "equals `jsr367`"
(`SecondGuardAbsenceIsDead`). Any other value, and any non-string value, leaves both
flags and both keys as they were. The block therefore cannot switch both
modes on or both off: it keeps exactly one mode active whenever exactly one
was active before, and the constructor starts with exactly one.

The command-line option advertises the mode names `jackson` and `jsonb`
(lines 85-86). The block, however, tests for `jackson` and `jsr367`. An option
value of `jsonb` therefore selects nothing and keeps the current mode
(`AdvertisedJsonbKeepsCurrentMode`). This is modelled as written.

The code does not write every resolved option back into the option map:

- bean validation is written back only when its option is present;
- generic response is written back only when the flag ends up true;
- an unrecognised JSON-mapping value writes neither mode key;
- a test feature whose option is absent is reset to false and not written back.

`ResolvedIsWrittenBack` states what the map does agree with afterwards.

## Model

Source paths are relative to the repository root; all rows cite
`modules/swagger-codegen/src/main/java/io/swagger/codegen/languages/JavaCXFClientCodegen.java`.

| member | source | states |
|---|---|---|
| MapWrites.Step | modules/swagger-codegen/src/main/java/io/swagger/codegen/languages/JavaCXFClientCodegen.java:66-72 | one `put` makes its key map to its value, one `remove` deletes its key, and every other key keeps its entry |
| MapWrites.Apply | modules/swagger-codegen/src/main/java/io/swagger/codegen/languages/JavaCXFClientCodegen.java:66-72 | a run of table writes agrees with the reference meaning `LastWrite`: a key no write touches keeps its entry, a key whose last write is a `put` holds that value, a key whose last write is a `remove` is absent |
| MapWrites.LastWrite | modules/swagger-codegen/src/main/java/io/swagger/codegen/languages/JavaCXFClientCodegen.java:66-72 | the write it returns touches the key and no write after it does; when it returns none, no write touches the key |
| CxfClientCodegen.Construct | modules/swagger-codegen/src/main/java/io/swagger/codegen/languages/JavaCXFClientCodegen.java:35-72 | the flags start at their initialisers (Jackson on, everything else off, so exactly one JSON mode); `date` maps to `LocalDate`, `LocalDate` imports `org.joda.time.LocalDate`, the two doc templates are gone, and every other table entry, the option map and the supporting files are the base constructor's |
| CxfClientCodegen.SetUseBeanValidation | modules/swagger-codegen/src/main/java/io/swagger/codegen/languages/JavaCXFClientCodegen.java:174-177 | the bean-validation flag takes the given value and nothing else changes |
| CxfClientCodegen.SetUseGzipFeatureForTests | modules/swagger-codegen/src/main/java/io/swagger/codegen/languages/JavaCXFClientCodegen.java:179-182 | the gzip test-feature flag takes the given value and nothing else changes |
| CxfClientCodegen.SetUseLoggingFeatureForTests | modules/swagger-codegen/src/main/java/io/swagger/codegen/languages/JavaCXFClientCodegen.java:184-187 | the logging test-feature flag takes the given value and nothing else changes |
| CxfClientCodegen.SetUseGenericResponse | modules/swagger-codegen/src/main/java/io/swagger/codegen/languages/JavaCXFClientCodegen.java:189-192 | the generic-response flag takes the given value and nothing else changes |
| CxfClientCodegen.SettersOverwrite | modules/swagger-codegen/src/main/java/io/swagger/codegen/languages/JavaCXFClientCodegen.java:174-192 | setting a flag to its current value is a no-op, and of two calls of one setter only the later is visible |
| CxfClientCodegen.SettersKeepOptionsAndJsonMode | modules/swagger-codegen/src/main/java/io/swagger/codegen/languages/JavaCXFClientCodegen.java:174-192 | no setter touches the option map or the JSON-mapping flags |
| CxfProcessOpts.ConvertPropertyToBoolean | modules/swagger-codegen/src/main/java/io/swagger/codegen/languages/JavaCXFClientCodegen.java:103 | an absent option reads false, a present one reads as the parser says |
| CxfProcessOpts.ConvertPropertyToBooleanAndWriteBack | modules/swagger-codegen/src/main/java/io/swagger/codegen/languages/JavaCXFClientCodegen.java:123-124 | the boolean read is returned and, only when the option was present, written back in its place; an absent option stays absent and every other option is untouched |
| CxfProcessOpts.ResolveBeanValidation | modules/swagger-codegen/src/main/java/io/swagger/codegen/languages/JavaCXFClientCodegen.java:97-100 | with the option present, the flag becomes the parsed value and the option is replaced by that boolean; with it absent, nothing changes at all |
| CxfProcessOpts.ResolveGenericResponse | modules/swagger-codegen/src/main/java/io/swagger/codegen/languages/JavaCXFClientCodegen.java:102-108 | the flag becomes the parsed option when present and otherwise keeps its value; the option is written back as `true` exactly when the flag ends up true, and the map is unchanged otherwise |
| CxfProcessOpts.SecondGuardAbsenceIsDead | modules/swagger-codegen/src/main/java/io/swagger/codegen/languages/JavaCXFClientCodegen.java:110-115 | whenever the second JSON-mapping guard is evaluated, its "absent" half is false, so it holds exactly when the option equals `jsr367` |
| CxfProcessOpts.ResolveJsonMapping | modules/swagger-codegen/src/main/java/io/swagger/codegen/languages/JavaCXFClientCodegen.java:110-120 | an absent option or `jackson` turns Jackson on and JSR-367 off and writes `jackson=true, jsr367=false`; `jsr367` does the opposite; any other value changes nothing; no other option or flag is touched |
| CxfProcessOpts.ResolveFlags | modules/swagger-codegen/src/main/java/io/swagger/codegen/languages/JavaCXFClientCodegen.java:97-108 | the two flag blocks together satisfy both blocks' contracts and write no other key |
| CxfProcessOpts.ResolveTestFeatures | modules/swagger-codegen/src/main/java/io/swagger/codegen/languages/JavaCXFClientCodegen.java:123-124 | each test-feature flag is true exactly when its option is present and parses true (an absent option resets the flag to false), and a present option is replaced by that boolean |
| CxfProcessOpts.FlagsSurvive | modules/swagger-codegen/src/main/java/io/swagger/codegen/languages/JavaCXFClientCodegen.java:97-124 | the JSON-mapping and test-feature blocks do not disturb what the flag blocks wrote |
| CxfProcessOpts.JsonMappingSurvives | modules/swagger-codegen/src/main/java/io/swagger/codegen/languages/JavaCXFClientCodegen.java:97-124 | the JSON-mapping block sees the option as the caller passed it, and the test-feature blocks do not disturb what it wrote |
| CxfProcessOpts.TestFeaturesSeeOriginal | modules/swagger-codegen/src/main/java/io/swagger/codegen/languages/JavaCXFClientCodegen.java:97-124 | the test-feature blocks read their options as the caller passed them |
| CxfProcessOpts.OthersSurvive | modules/swagger-codegen/src/main/java/io/swagger/codegen/languages/JavaCXFClientCodegen.java:97-124 | no block touches an option outside the six keys the blocks write |
| CxfProcessOpts.ResolveOptions | modules/swagger-codegen/src/main/java/io/swagger/codegen/languages/JavaCXFClientCodegen.java:97-124 | the blocks run in source order meet every block's contract relative to the options as passed in, leave all other options alone, and keep exactly one JSON mode active if exactly one was |
| CxfProcessOpts.WriteOptional | modules/swagger-codegen/src/main/java/io/swagger/codegen/languages/JavaCXFClientCodegen.java:129 | a file already present in the output folder is not declared; otherwise it is appended after the existing list |
| CxfProcessOpts.WriteOptionalAddsAtMostOnce | modules/swagger-codegen/src/main/java/io/swagger/codegen/languages/JavaCXFClientCodegen.java:129 | declaring an optional file keeps every existing file and adds the new one once when it is not present, not at all when it is |
| CxfProcessOpts.ProcessOpts | modules/swagger-codegen/src/main/java/io/swagger/codegen/languages/JavaCXFClientCodegen.java:93-131 | the configuration is resolved as above, the tables are untouched, and the supporting files are exactly the `pom.xml` descriptor when it does not exist yet and empty when it does |
| CxfProcessOpts.ResolvedIsDeterministic | modules/swagger-codegen/src/main/java/io/swagger/codegen/languages/JavaCXFClientCodegen.java:97-124 | the resolution contract determines the whole resulting configuration, option map included |
| CxfProcessOpts.FreshRunHasExactlyOneJsonMode | modules/swagger-codegen/src/main/java/io/swagger/codegen/languages/JavaCXFClientCodegen.java:110-120 | starting from the constructor's flags (lines 43-45), exactly one of Jackson and JSR-367 is active after option processing, for every option map |
| CxfProcessOpts.AdvertisedJsonbKeepsCurrentMode | modules/swagger-codegen/src/main/java/io/swagger/codegen/languages/JavaCXFClientCodegen.java:110-120 | the mode name `jsonb`, which line 86 advertises, selects no mode: both flags and both mode keys are left as they were |
| CxfProcessOpts.ResolvedIsWrittenBack | modules/swagger-codegen/src/main/java/io/swagger/codegen/languages/JavaCXFClientCodegen.java:97-124 | after resolution the option map agrees with every flag the blocks write back: bean validation and the test features when present, generic response when true |
| CxfProcessOpts.ResolvedIsFixedPoint | modules/swagger-codegen/src/main/java/io/swagger/codegen/languages/JavaCXFClientCodegen.java:97-124 | a resolved configuration satisfies the resolution contract with respect to itself |
| CxfProcessOpts.ResolutionIsIdempotent | modules/swagger-codegen/src/main/java/io/swagger/codegen/languages/JavaCXFClientCodegen.java:97-124 | resolving again from the written-back options yields the same configuration, for any parser that reads a boolean as itself |
| CxfPostProcessing.AddOperationToGroup | modules/swagger-codegen/src/main/java/io/swagger/codegen/languages/JavaCXFClientCodegen.java:147-150 | an operation is marked as a subresource operation exactly when its path, as the base step leaves it, is non-empty; all its other fields are kept |
| CxfPostProcessing.AddOperationToGroupIsIdempotent | modules/swagger-codegen/src/main/java/io/swagger/codegen/languages/JavaCXFClientCodegen.java:149 | marking an already marked operation changes nothing |
| CxfPostProcessing.SubresourceScenarios | modules/swagger-codegen/src/main/java/io/swagger/codegen/languages/JavaCXFClientCodegen.java:149 | path `/{id}` gives a subresource operation, the empty path does not |
| CxfPostProcessing.RemoveEach | modules/swagger-codegen/src/main/java/io/swagger/codegen/languages/JavaCXFClientCodegen.java:155-158 | removing names one after another leaves exactly the imports that are not among the names |
| CxfPostProcessing.PostProcessModelProperty | modules/swagger-codegen/src/main/java/io/swagger/codegen/languages/JavaCXFClientCodegen.java:153-159 | none of the four annotation imports remains, every other import is kept exactly, and the model's names are unchanged |
| CxfPostProcessing.StrippingCleanModelIsNoOp | modules/swagger-codegen/src/main/java/io/swagger/codegen/languages/JavaCXFClientCodegen.java:155-158 | a model without any of the four imports is returned unchanged |
| CxfPostProcessing.PostProcessModelPropertyIsIdempotent | modules/swagger-codegen/src/main/java/io/swagger/codegen/languages/JavaCXFClientCodegen.java:153-159 | post-processing a model twice is the same as once |

## Left out

- The `super` calls at the head of the constructor, `processOpts`, `addOperationToGroup` and `postProcessModelProperty` belong to the base generator, which is not part of this model. Each operation starts from the state the base step leaves.
- ConvertPropertyToBoolean: the base helper's parsing of a present value is the parameter `conv`, and its absent-key result (`false`, no write-back) is the base helper's behaviour, assumed here rather than derived, because that code is not part of this model.
- WriteOptional: the file-system probe for an existing `pom.xml` is the parameter `present` (`pomExists` in `ProcessOpts`).
- The constructor's scalar settings (source folder, packages, artifact id, date library, output folder, template directory; lines 51-61 and 74) and the command-line option declarations (lines 76-88) are plain assignments with no behaviour to prove. The only part used is the mode name `jsonb` from line 86.
- `getName`, `getTag` and `getHelp` (lines 133-144 and 168-172) return constants.
- `postProcessOperations` (lines 161-166) delegates to the base class and to a static helper of `AbstractJavaJAXRSServerCodegen`, neither part of this model.
- Java `null`: option values and `co.path` are assumed non-null. A null path would make line 149 throw, and a present option whose value is null takes neither JSON guard at lines 110 and 115 and makes the base parser throw; `Value` and `string` cannot express either case.
- The logger (line 25) is never used by the modelled code.
- AddOperationToGroup: the base step's insertion into the tag's operation list is base-class behaviour. The model reads `co.path` as the base step leaves it; whether that path is relative to the group's base path depends on base-class code that is not part of this model, so no such reading is assumed.
- CodegenOperation and CodegenModel carry the fields the backend touches (`path`, `subresourceOperation`, `imports`) plus a few others kept only so that the contracts can say nothing else changes; the remaining fields of the base records are left out.
