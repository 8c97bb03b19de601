/**
 The CXF client backend's hooks into the base generator's post-processing:
 marking an operation as a subresource operation while operations are grouped,
 and stripping annotation imports from a data model.

 Both hooks first call the base class's version, whose code is not part of
 this model; each function here takes the operation or model as the base step
 leaves it and applies the backend's own statements.
 */
module CxfPostProcessing {

  /** A prepared operation. The backend reads `path`, as the base step leaves
      it, and writes `subresourceOperation`; the other fields are kept so that
      the contracts can say nothing else changes. */
  datatype CodegenOperation = CodegenOperation(
    operationId: string,
    httpMethod: string,
    path: string,
    baseName: string,
    subresourceOperation: bool)

  /** A data model. The backend touches only `imports`; the names are kept so
      that the contracts can say nothing else changes. */
  datatype CodegenModel = CodegenModel(name: string, classname: string, imports: set<string>)

  /** The annotation imports a CXF client model does not use, in the order they are removed. */
  const StrippedImports := ["ApiModelProperty", "ApiModel", "JsonSerialize", "ToStringSerializer"]

  /** The backend's part of grouping an operation: an operation is a
      subresource operation exactly when its path is non-empty. */
  function AddOperationToGroup(co: CodegenOperation): (r: CodegenOperation)
    ensures r.subresourceOperation <==> |co.path| > 0
    ensures r.operationId == co.operationId && r.httpMethod == co.httpMethod
    ensures r.path == co.path && r.baseName == co.baseName
  {
    co.(subresourceOperation := co.path != "")
  }

  /** Marking is recomputed from the path alone, so it is idempotent. */
  lemma AddOperationToGroupIsIdempotent(co: CodegenOperation)
    ensures AddOperationToGroup(AddOperationToGroup(co)) == AddOperationToGroup(co)
  {
  }

  /** An operation whose path, as the base step leaves it, is "/{id}" is a
      subresource operation; one whose path is empty is not. */
  lemma SubresourceScenarios(co: CodegenOperation)
    ensures AddOperationToGroup(co.(path := "/{id}")).subresourceOperation
    ensures !AddOperationToGroup(co.(path := "")).subresourceOperation
  {
  }

  // ---------------------------------------------------------------------------
  // Model post-processing
  // ---------------------------------------------------------------------------

  /** The set of elements of a list of names. */
  function Elements(names: seq<string>): set<string> {
    set i | 0 <= i < |names| :: names[i]
  }

  /** Removes each name in turn, as a run of `imports.remove(name)` calls does. */
  function RemoveEach(imports: set<string>, names: seq<string>): (r: set<string>)
    ensures r == imports - Elements(names)
    decreases |names|
  {
    if names == [] then imports
    else
      assert Elements(names) == {names[0]} + Elements(names[1..]);
      RemoveEach(imports - {names[0]}, names[1..])
  }

  /** The backend's part of property post-processing: strips the
      annotation imports a CXF client does not use. */
  function PostProcessModelProperty(model: CodegenModel): (r: CodegenModel)
    ensures forall n :: n in StrippedImports ==> n !in r.imports
    ensures forall n :: n !in StrippedImports ==> (n in r.imports <==> n in model.imports)
    ensures r.name == model.name && r.classname == model.classname
  {
    model.(imports := RemoveEach(model.imports, StrippedImports))
  }

  /** Removing names that are not there is a no-op. */
  lemma StrippingCleanModelIsNoOp(model: CodegenModel)
    requires forall n :: n in StrippedImports ==> n !in model.imports
    ensures PostProcessModelProperty(model) == model
  {
    assert PostProcessModelProperty(model).imports == model.imports;
  }

  /** Stripping twice is the same as stripping once. */
  lemma PostProcessModelPropertyIsIdempotent(model: CodegenModel)
    ensures PostProcessModelProperty(PostProcessModelProperty(model)) == PostProcessModelProperty(model)
  {
    StrippingCleanModelIsNoOp(PostProcessModelProperty(model));
  }
}
