/**
 Option processing of the CXF client backend (`processOpts`).

 The backend's `processOpts` first runs the base class's option processing,
 whose code is not part of this model: `ProcessOpts` starts from the state
 that step leaves behind. How the base class parses a present option value as
 a boolean is the parameter `conv`. Each block of the source is one method
 here, run in source order, so that every block's contract is stated and
 proved on its own.
 */
module CxfProcessOpts {
  import opened MapWrites
  import opened CxfClientCodegen

  /** Reads an option as a boolean; an absent option reads false. */
  function ConvertPropertyToBoolean(p: Options, key: string, conv: Value -> bool): (b: bool)
    ensures key !in p ==> !b
    ensures key in p ==> b == conv(p[key])
  {
    key in p && conv(p[key])
  }

  /** Reads an option as a boolean and, when it was present, writes the boolean back. */
  method ConvertPropertyToBooleanAndWriteBack(p: Options, key: string, conv: Value -> bool) returns (b: bool, q: Options)
    ensures b == (key in p && conv(p[key]))
    ensures key in p ==> key in q && q[key] == Flag(b)
    ensures key !in p ==> key !in q
    ensures forall k :: k != key ==> SameEntry(p, q, k)
  {
    b := ConvertPropertyToBoolean(p, key, conv);
    q := p;
    if key in p {
      q := p[key := Flag(b)];
    }
  }

  /** Bean validation: resolved and written back only when the option is present. */
  method ResolveBeanValidation(c: Config, conv: Value -> bool) returns (r: Config)
    ensures UseBeanValidationKey in c.additionalProperties ==>
              && r.useBeanValidation == conv(c.additionalProperties[UseBeanValidationKey])
              && UseBeanValidationKey in r.additionalProperties
              && r.additionalProperties[UseBeanValidationKey] == Flag(r.useBeanValidation)
    ensures UseBeanValidationKey !in c.additionalProperties ==> r == c
    ensures r.(useBeanValidation := c.useBeanValidation, additionalProperties := c.additionalProperties) == c
    ensures forall k :: k != UseBeanValidationKey ==> SameEntry(c.additionalProperties, r.additionalProperties, k)
  {
    r := c;
    if UseBeanValidationKey in c.additionalProperties {
      var b, p := ConvertPropertyToBooleanAndWriteBack(c.additionalProperties, UseBeanValidationKey, conv);
      r := SetUseBeanValidation(c.(additionalProperties := p), b);
    }
  }

  /** Generic response: the flag changes only when the option is present, and
      it is written back only when the resulting flag is true. */
  method ResolveGenericResponse(c: Config, conv: Value -> bool) returns (r: Config)
    ensures r.useGenericResponse ==
              if UseGenericResponseKey in c.additionalProperties
              then conv(c.additionalProperties[UseGenericResponseKey]) else c.useGenericResponse
    ensures r.useGenericResponse ==>
              UseGenericResponseKey in r.additionalProperties && r.additionalProperties[UseGenericResponseKey] == Flag(true)
    ensures !r.useGenericResponse ==> r.additionalProperties == c.additionalProperties
    ensures r.(useGenericResponse := c.useGenericResponse, additionalProperties := c.additionalProperties) == c
    ensures forall k :: k != UseGenericResponseKey ==> SameEntry(c.additionalProperties, r.additionalProperties, k)
  {
    r := c;
    if UseGenericResponseKey in r.additionalProperties {
      r := SetUseGenericResponse(r, ConvertPropertyToBoolean(r.additionalProperties, UseGenericResponseKey, conv));
    }
    if r.useGenericResponse {
      r := r.(additionalProperties := r.additionalProperties[UseGenericResponseKey := Flag(r.useGenericResponse)]);
    }
  }

  /** The first guard of the JSON-mapping choice, as written: the option equals
      "jackson" or is absent. */
  predicate JacksonGuard(p: Options) {
    (JsonMappingModeKey in p && p[JsonMappingModeKey] == Str(JacksonMode)) || JsonMappingModeKey !in p
  }

  /** The second guard, as written: the option equals "jsr367" or is absent. */
  predicate Jsr367Guard(p: Options) {
    (JsonMappingModeKey in p && p[JsonMappingModeKey] == Str(Jsr367Mode)) || JsonMappingModeKey !in p
  }

  /** The three outcomes the JSON-mapping choice can have. */
  datatype JsonChoice = ChooseJackson | ChooseJsr367 | KeepCurrent

  /** Reference classification of the option, independent of how the guards are written. */
  function RequestedJsonChoice(p: Options): JsonChoice {
    if JsonMappingModeKey !in p then ChooseJackson
    else match p[JsonMappingModeKey]
      case Str(m) =>
        if m == JacksonMode then ChooseJackson
        else if m == Jsr367Mode then ChooseJsr367
        else KeepCurrent
      case Flag(_) => KeepCurrent
  }

  /** The absence test in the second guard never decides anything: the second
      guard is only reached when the first is false, and then the option is present. */
  lemma SecondGuardAbsenceIsDead(p: Options)
    ensures !JacksonGuard(p) ==> (Jsr367Guard(p) <==> JsonMappingModeKey in p && p[JsonMappingModeKey] == Str(Jsr367Mode))
  {
  }

  /** JSON mapping, with both guards as written. */
  method ResolveJsonMapping(c: Config) returns (r: Config)
    ensures RequestedJsonChoice(c.additionalProperties) == ChooseJackson ==>
              && r.useJackson && !r.useJSR367
              && JacksonKey in r.additionalProperties && r.additionalProperties[JacksonKey] == Flag(true)
              && Jsr367Key in r.additionalProperties && r.additionalProperties[Jsr367Key] == Flag(false)
    ensures RequestedJsonChoice(c.additionalProperties) == ChooseJsr367 ==>
              && !r.useJackson && r.useJSR367
              && JacksonKey in r.additionalProperties && r.additionalProperties[JacksonKey] == Flag(false)
              && Jsr367Key in r.additionalProperties && r.additionalProperties[Jsr367Key] == Flag(true)
    ensures RequestedJsonChoice(c.additionalProperties) == KeepCurrent ==> r == c
    ensures r.(useJackson := c.useJackson, useJSR367 := c.useJSR367, additionalProperties := c.additionalProperties) == c
    ensures KeepsOthers(c.additionalProperties, r.additionalProperties, {JacksonKey, Jsr367Key})
  {
    var p := c.additionalProperties;
    if JacksonGuard(p) {
      r := c.(additionalProperties := p[JacksonKey := Flag(true)][Jsr367Key := Flag(false)],
              useJackson := true, useJSR367 := false);
    } else if Jsr367Guard(p) {
      r := c.(additionalProperties := p[JacksonKey := Flag(false)][Jsr367Key := Flag(true)],
              useJackson := false, useJSR367 := true);
    } else {
      r := c;
    }
  }

  /** The keys option resolution may write. */
  const WrittenKeys := {UseBeanValidationKey, UseGenericResponseKey, JacksonKey, Jsr367Key,
                        UseGzipFeatureForTestsKey, UseLoggingFeatureForTestsKey}

  /** Bean validation is read, and written back, only when its option is present. */
  predicate BeanValidationResolved(c: Config, conv: Value -> bool, r: Config) {
    var p, q := c.additionalProperties, r.additionalProperties;
    && r.useBeanValidation == (if UseBeanValidationKey in p then conv(p[UseBeanValidationKey]) else c.useBeanValidation)
    && (UseBeanValidationKey in p ==> UseBeanValidationKey in q && q[UseBeanValidationKey] == Flag(r.useBeanValidation))
    && (UseBeanValidationKey !in p ==> UseBeanValidationKey !in q)
  }

  /** Generic response is read when its option is present and written back only when true. */
  predicate GenericResponseResolved(c: Config, conv: Value -> bool, r: Config) {
    var p, q := c.additionalProperties, r.additionalProperties;
    && r.useGenericResponse == (if UseGenericResponseKey in p then conv(p[UseGenericResponseKey]) else c.useGenericResponse)
    && (r.useGenericResponse ==> UseGenericResponseKey in q && q[UseGenericResponseKey] == Flag(true))
    && (!r.useGenericResponse ==> SameEntry(p, q, UseGenericResponseKey))
  }

  /** An absent option or "jackson" selects Jackson, "jsr367" selects JSR-367,
      and any other value keeps both flags and writes neither key. */
  predicate JsonMappingResolved(c: Config, r: Config) {
    var p, q := c.additionalProperties, r.additionalProperties;
    && (RequestedJsonChoice(p) == ChooseJackson ==>
          && r.useJackson && !r.useJSR367
          && JacksonKey in q && q[JacksonKey] == Flag(true) && Jsr367Key in q && q[Jsr367Key] == Flag(false))
    && (RequestedJsonChoice(p) == ChooseJsr367 ==>
          && !r.useJackson && r.useJSR367
          && JacksonKey in q && q[JacksonKey] == Flag(false) && Jsr367Key in q && q[Jsr367Key] == Flag(true))
    && (RequestedJsonChoice(p) == KeepCurrent ==>
          && r.useJackson == c.useJackson && r.useJSR367 == c.useJSR367
          && SameEntry(p, q, JacksonKey) && SameEntry(p, q, Jsr367Key))
  }

  /** A test feature reads false when its option is absent, and is written back when present. */
  predicate TestFeatureResolved(p: Options, q: Options, key: string, conv: Value -> bool, flag: bool) {
    && flag == (key in p && conv(p[key]))
    && (key in p ==> key in q && q[key] == Flag(flag))
    && (key !in p ==> key !in q)
  }

  /** Every option resolution does not write is left alone. */
  ghost predicate OtherOptionsKept(c: Config, r: Config) {
    KeepsOthers(c.additionalProperties, r.additionalProperties, WrittenKeys)
  }

  /** What option resolution promises, relating the configuration `c` before it
      to the configuration `r` after it. */
  ghost predicate Resolved(c: Config, conv: Value -> bool, r: Config) {
    && BeanValidationResolved(c, conv, r)
    && GenericResponseResolved(c, conv, r)
    && JsonMappingResolved(c, r)
    && TestFeatureResolved(c.additionalProperties, r.additionalProperties, UseGzipFeatureForTestsKey, conv, r.useGzipFeatureForTests)
    && TestFeatureResolved(c.additionalProperties, r.additionalProperties, UseLoggingFeatureForTestsKey, conv, r.useLoggingFeatureForTests)
    && OtherOptionsKept(c, r)
  }

  /** The two flag blocks: bean validation, then generic response. */
  method ResolveFlags(c: Config, conv: Value -> bool) returns (r: Config)
    ensures BeanValidationResolved(c, conv, r)
    ensures GenericResponseResolved(c, conv, r)
    ensures r.(useBeanValidation := c.useBeanValidation, useGenericResponse := c.useGenericResponse,
               additionalProperties := c.additionalProperties) == c
    ensures KeepsOthers(c.additionalProperties, r.additionalProperties, {UseBeanValidationKey, UseGenericResponseKey})
  {
    var c1 := ResolveBeanValidation(c, conv);
    r := ResolveGenericResponse(c1, conv);
    assert SameEntry(c.additionalProperties, c1.additionalProperties, UseGenericResponseKey);
    assert SameEntry(c1.additionalProperties, r.additionalProperties, UseBeanValidationKey);
    forall k | k != UseBeanValidationKey && k != UseGenericResponseKey
      ensures SameEntry(c.additionalProperties, r.additionalProperties, k)
    {
      assert SameEntry(c.additionalProperties, c1.additionalProperties, k);
      assert SameEntry(c1.additionalProperties, r.additionalProperties, k);
    }
  }

  /** The two test-feature blocks: gzip, then logging. */
  method ResolveTestFeatures(c: Config, conv: Value -> bool) returns (r: Config)
    ensures TestFeatureResolved(c.additionalProperties, r.additionalProperties, UseGzipFeatureForTestsKey, conv, r.useGzipFeatureForTests)
    ensures TestFeatureResolved(c.additionalProperties, r.additionalProperties, UseLoggingFeatureForTestsKey, conv, r.useLoggingFeatureForTests)
    ensures r.(useGzipFeatureForTests := c.useGzipFeatureForTests, useLoggingFeatureForTests := c.useLoggingFeatureForTests,
               additionalProperties := c.additionalProperties) == c
    ensures KeepsOthers(c.additionalProperties, r.additionalProperties, {UseGzipFeatureForTestsKey, UseLoggingFeatureForTestsKey})
  {
    var gzip, p1 := ConvertPropertyToBooleanAndWriteBack(c.additionalProperties, UseGzipFeatureForTestsKey, conv);
    var logging, p2 := ConvertPropertyToBooleanAndWriteBack(p1, UseLoggingFeatureForTestsKey, conv);
    r := SetUseLoggingFeatureForTests(SetUseGzipFeatureForTests(c.(additionalProperties := p2), gzip), logging);
    assert SameEntry(c.additionalProperties, p1, UseLoggingFeatureForTestsKey);
    assert SameEntry(p1, p2, UseGzipFeatureForTestsKey);
    forall k | k != UseGzipFeatureForTestsKey && k != UseLoggingFeatureForTestsKey
      ensures SameEntry(c.additionalProperties, r.additionalProperties, k)
    {
      assert SameEntry(c.additionalProperties, p1, k) && SameEntry(p1, p2, k);
    }
  }

  /** Every option outside `keys` has the same entry in `p` and `q`. */
  ghost predicate KeepsOthers(p: Options, q: Options, keys: set<string>) {
    forall k :: k !in keys ==> SameEntry(p, q, k)
  }

  /** The flag blocks' results survive the later blocks, which write other keys. */
  lemma FlagsSurvive(c: Config, conv: Value -> bool, c1: Config, c2: Config, r: Config)
    requires BeanValidationResolved(c, conv, c1) && GenericResponseResolved(c, conv, c1)
    requires KeepsOthers(c1.additionalProperties, c2.additionalProperties, {JacksonKey, Jsr367Key})
    requires KeepsOthers(c2.additionalProperties, r.additionalProperties, {UseGzipFeatureForTestsKey, UseLoggingFeatureForTestsKey})
    requires r.useBeanValidation == c1.useBeanValidation && r.useGenericResponse == c1.useGenericResponse
    ensures BeanValidationResolved(c, conv, r) && GenericResponseResolved(c, conv, r)
  {
    var p1, p2, q := c1.additionalProperties, c2.additionalProperties, r.additionalProperties;
    assert SameEntry(p1, p2, UseBeanValidationKey) && SameEntry(p2, q, UseBeanValidationKey);
    assert SameEntry(p1, p2, UseGenericResponseKey) && SameEntry(p2, q, UseGenericResponseKey);
  }

  /** The JSON-mapping block sees the option as it was, and its result survives the test-feature blocks. */
  lemma JsonMappingSurvives(c: Config, c1: Config, c2: Config, r: Config)
    requires KeepsOthers(c.additionalProperties, c1.additionalProperties, {UseBeanValidationKey, UseGenericResponseKey})
    requires c1.useJackson == c.useJackson && c1.useJSR367 == c.useJSR367
    requires JsonMappingResolved(c1, c2)
    requires KeepsOthers(c2.additionalProperties, r.additionalProperties, {UseGzipFeatureForTestsKey, UseLoggingFeatureForTestsKey})
    requires r.useJackson == c2.useJackson && r.useJSR367 == c2.useJSR367
    ensures JsonMappingResolved(c, r)
  {
    var p, p1, p2, q := c.additionalProperties, c1.additionalProperties, c2.additionalProperties, r.additionalProperties;
    assert SameEntry(p, p1, JsonMappingModeKey);
    assert RequestedJsonChoice(p1) == RequestedJsonChoice(p);
    assert SameEntry(p, p1, JacksonKey) && SameEntry(p, p1, Jsr367Key);
    assert SameEntry(p2, q, JacksonKey) && SameEntry(p2, q, Jsr367Key);
  }

  /** The test-feature blocks read the options as they were. */
  lemma TestFeaturesSeeOriginal(c: Config, conv: Value -> bool, c1: Config, c2: Config, r: Config)
    requires KeepsOthers(c.additionalProperties, c1.additionalProperties, {UseBeanValidationKey, UseGenericResponseKey})
    requires KeepsOthers(c1.additionalProperties, c2.additionalProperties, {JacksonKey, Jsr367Key})
    requires TestFeatureResolved(c2.additionalProperties, r.additionalProperties, UseGzipFeatureForTestsKey, conv, r.useGzipFeatureForTests)
    requires TestFeatureResolved(c2.additionalProperties, r.additionalProperties, UseLoggingFeatureForTestsKey, conv, r.useLoggingFeatureForTests)
    ensures TestFeatureResolved(c.additionalProperties, r.additionalProperties, UseGzipFeatureForTestsKey, conv, r.useGzipFeatureForTests)
    ensures TestFeatureResolved(c.additionalProperties, r.additionalProperties, UseLoggingFeatureForTestsKey, conv, r.useLoggingFeatureForTests)
  {
    var p, p1, p2 := c.additionalProperties, c1.additionalProperties, c2.additionalProperties;
    assert SameEntry(p, p1, UseGzipFeatureForTestsKey) && SameEntry(p1, p2, UseGzipFeatureForTestsKey);
    assert SameEntry(p, p1, UseLoggingFeatureForTestsKey) && SameEntry(p1, p2, UseLoggingFeatureForTestsKey);
  }

  /** No block touches an option outside the written keys. */
  lemma OthersSurvive(p: Options, p1: Options, p2: Options, q: Options)
    requires KeepsOthers(p, p1, {UseBeanValidationKey, UseGenericResponseKey})
    requires KeepsOthers(p1, p2, {JacksonKey, Jsr367Key})
    requires KeepsOthers(p2, q, {UseGzipFeatureForTestsKey, UseLoggingFeatureForTestsKey})
    ensures KeepsOthers(p, q, WrittenKeys)
  {
    forall k | k !in WrittenKeys
      ensures SameEntry(p, q, k)
    {
      assert SameEntry(p, p1, k) && SameEntry(p1, p2, k) && SameEntry(p2, q, k);
    }
  }

  /** The option blocks of `processOpts`, in source order. */
  method ResolveOptions(c: Config, conv: Value -> bool) returns (r: Config)
    ensures BeanValidationResolved(c, conv, r)
    ensures GenericResponseResolved(c, conv, r)
    ensures JsonMappingResolved(c, r)
    ensures TestFeatureResolved(c.additionalProperties, r.additionalProperties, UseGzipFeatureForTestsKey, conv, r.useGzipFeatureForTests)
    ensures TestFeatureResolved(c.additionalProperties, r.additionalProperties, UseLoggingFeatureForTestsKey, conv, r.useLoggingFeatureForTests)
    ensures OtherOptionsKept(c, r)
    ensures ExactlyOneJsonMode(c) ==> ExactlyOneJsonMode(r)
  {
    var c1 := ResolveFlags(c, conv);
    var c2 := ResolveJsonMapping(c1);
    r := ResolveTestFeatures(c2, conv);
    FlagsSurvive(c, conv, c1, c2, r);
    JsonMappingSurvives(c, c1, c2, r);
    TestFeaturesSeeOriginal(c, conv, c1, c2, r);
    OthersSurvive(c.additionalProperties, c1.additionalProperties, c2.additionalProperties, r.additionalProperties);
  }

  /** A supporting file that is added only when its target does not exist yet;
      `present` is the file-system probe. */
  function WriteOptional(files: seq<SupportingFile>, f: SupportingFile, present: bool): (r: seq<SupportingFile>)
    ensures present ==> r == files
    ensures !present ==> |r| == |files| + 1 && r[|files|] == f && r[..|files|] == files
  {
    if present then files else files + [f]
  }

  /** An optional file adds at most one occurrence of itself and removes nothing. */
  lemma WriteOptionalAddsAtMostOnce(files: seq<SupportingFile>, f: SupportingFile, present: bool)
    ensures multiset(WriteOptional(files, f, present)) == multiset(files) + (if present then multiset{} else multiset{f})
  {
  }

  /** The backend's `processOpts` after the base step: the option blocks, then
      the supporting files are cleared and the build descriptor is declared
      unless `pomExists` says it is already in the output folder. */
  method ProcessOpts(s: Codegen, conv: Value -> bool, pomExists: bool) returns (r: Codegen)
    ensures Resolved(s.config, conv, r.config)
    ensures ExactlyOneJsonMode(s.config) ==> ExactlyOneJsonMode(r.config)
    ensures r.supportingFiles == if pomExists then [] else [PomFile]
    ensures r.tables == s.tables
  {
    var config := ResolveOptions(s.config, conv);
    r := Codegen(config, s.tables, WriteOptional([], PomFile, pomExists));
  }

  /** The resolution contract leaves no freedom: it determines the resulting configuration. */
  lemma ResolvedIsDeterministic(c: Config, conv: Value -> bool, r1: Config, r2: Config)
    requires Resolved(c, conv, r1) && Resolved(c, conv, r2)
    ensures r1 == r2
  {
    var p, q1, q2 := c.additionalProperties, r1.additionalProperties, r2.additionalProperties;
    forall k
      ensures SameEntry(q1, q2, k)
    {
      if k == UseBeanValidationKey || k == UseGzipFeatureForTestsKey || k == UseLoggingFeatureForTestsKey {
      } else if k == UseGenericResponseKey {
        if !r1.useGenericResponse {
          assert SameEntry(p, q1, k) && SameEntry(p, q2, k);
        }
      } else if k == JacksonKey || k == Jsr367Key {
        if RequestedJsonChoice(p) == KeepCurrent {
          assert SameEntry(p, q1, k) && SameEntry(p, q2, k);
        }
      } else {
        assert SameEntry(p, q1, k) && SameEntry(p, q2, k);
      }
    }
    assert q1 == q2 by {
      forall k
        ensures k in q1 <==> k in q2
        ensures k in q1 ==> q1[k] == q2[k]
      {
        assert SameEntry(q1, q2, k);
      }
    }
  }

  /** In a freshly constructed generator exactly one JSON-mapping mode is
      active after option processing, whatever the options say. */
  lemma FreshRunHasExactlyOneJsonMode(base: BaseState, conv: Value -> bool, r: Config)
    requires Resolved(Construct(base).config, conv, r)
    ensures ExactlyOneJsonMode(r)
  {
  }

  /** The name the command line advertises for JSON-B selects no mode: the
      flags keep their values and neither mode key is written. */
  lemma AdvertisedJsonbKeepsCurrentMode(c: Config, conv: Value -> bool, r: Config)
    requires JsonMappingModeKey in c.additionalProperties && c.additionalProperties[JsonMappingModeKey] == Str(JsonbMode)
    requires Resolved(c, conv, r)
    ensures r.useJackson == c.useJackson && r.useJSR367 == c.useJSR367
    ensures SameEntry(c.additionalProperties, r.additionalProperties, JacksonKey)
    ensures SameEntry(c.additionalProperties, r.additionalProperties, Jsr367Key)
  {
    assert RequestedJsonChoice(c.additionalProperties) == KeepCurrent;
  }

  /** The option map agrees with every flag that option processing writes back. */
  predicate WrittenBack(c: Config) {
    && (UseBeanValidationKey in c.additionalProperties ==>
          c.additionalProperties[UseBeanValidationKey] == Flag(c.useBeanValidation))
    && (c.useGenericResponse ==>
          UseGenericResponseKey in c.additionalProperties && c.additionalProperties[UseGenericResponseKey] == Flag(true))
    && (UseGzipFeatureForTestsKey in c.additionalProperties ==>
          c.additionalProperties[UseGzipFeatureForTestsKey] == Flag(c.useGzipFeatureForTests))
    && (UseLoggingFeatureForTestsKey in c.additionalProperties ==>
          c.additionalProperties[UseLoggingFeatureForTestsKey] == Flag(c.useLoggingFeatureForTests))
  }

  lemma ResolvedIsWrittenBack(c: Config, conv: Value -> bool, r: Config)
    requires Resolved(c, conv, r)
    ensures WrittenBack(r)
  {
  }

  /** A boolean parser that reads a written-back boolean as itself. */
  ghost predicate ReadsFlagsBack(conv: Value -> bool) {
    forall b: bool :: conv(Flag(b)) == b
  }

  /** Write-back makes option resolution a fixed point: resolving a second
      time, from what the first pass wrote back, changes nothing. */
  lemma ResolutionIsIdempotent(c: Config, conv: Value -> bool, r: Config, r2: Config)
    requires ReadsFlagsBack(conv)
    requires Resolved(c, conv, r) && Resolved(r, conv, r2)
    ensures r2 == r
  {
    ResolvedIsFixedPoint(c, conv, r);
    ResolvedIsDeterministic(r, conv, r2, r);
  }

  /** A resolved configuration resolves to itself. */
  lemma ResolvedIsFixedPoint(c: Config, conv: Value -> bool, r: Config)
    requires ReadsFlagsBack(conv)
    requires Resolved(c, conv, r)
    ensures Resolved(r, conv, r)
  {
    var p, q := c.additionalProperties, r.additionalProperties;
    assert SameEntry(p, q, JsonMappingModeKey);
    assert RequestedJsonChoice(q) == RequestedJsonChoice(p);
    if UseGenericResponseKey in q && !r.useGenericResponse {
      assert SameEntry(p, q, UseGenericResponseKey);
    }
  }
}
