/**
 * The structures the swagger-codegen library hands to the Kill Bill generators, reduced to the
 * fields that the enrichment rules read or write. Values the library treats as immutable are
 * datatypes; objects whose fields the generators overwrite in place are classes.
 */
module Codegen {
  import opened Wrappers

  /** A CodegenProperty: one property of a model, or the item type of a container. */
  datatype Property = Property(
    name: string,
    isEnum: bool,
    isContainer: bool,
    isBoolean: bool,
    enumValues: Option<seq<string>>,        // `_enum`, the enum literals, null when absent
    datatypeWithEnum: Option<string>,
    items: Option<Property>,                // the item type of a container
    isInherited: bool,
    vendorExtensions: map<string, bool>)

  /** Where a parameter is sent, and whether the API requires it. */
  datatype Location = Location(isQueryParam: bool, isHeaderParam: bool, required: bool)

  /** Whether a parameter is a container, and of which kind. */
  datatype Shape = Shape(isContainer: bool, isListContainer: bool, isMapContainer: bool)

  /** The type flags of a parameter. */
  datatype Kind = Kind(
    isEnum: bool,
    isLong: bool,
    isInteger: bool,
    isDouble: bool,
    isFloat: bool,
    isBoolean: bool,
    isDate: bool,
    isDateTime: bool,
    isUuid: bool)

  /** The fields of a CodegenParameter that the rules read or write. */
  datatype ParamData = ParamData(
    baseName: Option<string>,
    paramName: string,
    dataType: Option<string>,
    baseType: Option<string>,
    datatypeWithEnum: Option<string>,
    enumName: Option<string>,
    dataFormat: Option<string>,
    defaultValue: Option<string>,
    location: Location,
    shape: Shape,
    kind: Kind,
    items: Option<Property>)

  /**
   * A CodegenParameter object. Its identity matters: an operation's `bodyParam` is the same object
   * as the body parameter in its `allParams` list, so a write through one is seen through the other.
   */
  class Parameter {
    var data: ParamData
  }

  /** The data of a list of parameter objects, as it is now. */
  function Datas(ps: seq<Parameter>): (ds: seq<ParamData>)
    reads ps
    ensures |ds| == |ps|
  {
    if ps == [] then [] else [ps[0].data] + Datas(ps[1..])
  }

  /** Entry i of the data is the data of parameter object i. */
  lemma {:induction false} DatasAt(ps: seq<Parameter>, i: int)
    requires 0 <= i < |ps|
    ensures Datas(ps)[i] == ps[i].data
    decreases |ps|
  {
    if i > 0 {
      DatasAt(ps[1..], i - 1);
    }
  }

  /** The data of a possibly-null parameter object. */
  function DataOf(p: Parameter?): (d: Option<ParamData>)
    reads p
    ensures d.Some? <==> p != null
  {
    if p == null then None else Some(p.data)
  }

  /** A CodegenOperation, as swagger-codegen's own post-processing leaves it. */
  datatype Operation = Operation(
    httpMethod: Option<string>,
    returnType: Option<string>,
    returnBaseType: Option<string>,
    returnContainer: Option<string>,
    produces: Option<seq<map<string, string>>>,
    isListContainer: bool,
    isMapContainer: bool,
    bodyParam: Parameter?,
    allParams: seq<Parameter>,
    bodyParams: seq<Parameter>,
    pathParams: seq<Parameter>,
    queryParams: seq<Parameter>,
    formParams: seq<Parameter>)

  /** `p` is none of the parameter objects an operation refers to. */
  predicate Outside(p: Parameter, o: Operation) {
    && p != o.bodyParam
    && p !in o.allParams && p !in o.bodyParams && p !in o.pathParams && p !in o.queryParams && p !in o.formParams
  }

  /** The body parameter objects of a list of operations: the only ones the generators overwrite. */
  function BodyParams(ops: seq<Operation>): (r: set<Parameter>)
    ensures forall i :: 0 <= i < |ops| && ops[i].bodyParam != null ==> ops[i].bodyParam in r
  {
    if ops == [] then {}
    else (if ops[0].bodyParam == null then {} else {ops[0].bodyParam}) + BodyParams(ops[1..])
  }

  /**
   * swagger-codegen builds fresh parameter objects for every operation, so the body parameter of
   * one operation is never a parameter of another.
   */
  predicate SeparateOperations(ops: seq<Operation>) {
    forall i, j :: 0 <= i < |ops| && 0 <= j < |ops| ==> Apart(ops, i, j)
  }

  /** The body parameter of operation j, if any, is none of the parameters of another operation i. */
  predicate Apart(ops: seq<Operation>, i: int, j: int)
    requires 0 <= i < |ops| && 0 <= j < |ops|
  {
    i != j && ops[j].bodyParam != null ==> Outside(ops[j].bodyParam, ops[i])
  }

  /** The data of an operation's parameter objects: its body parameter and its five parameter lists. */
  datatype OperationParams = OperationParams(
    body: Option<ParamData>,
    allParams: seq<ParamData>,
    bodyParams: seq<ParamData>,
    pathParams: seq<ParamData>,
    queryParams: seq<ParamData>,
    formParams: seq<ParamData>)

  /** The data of an operation's parameter objects, as it is now. */
  function Params(o: Operation): OperationParams
    reads o.bodyParam, o.allParams, o.bodyParams, o.pathParams, o.queryParams, o.formParams
  {
    OperationParams(DataOf(o.bodyParam), Datas(o.allParams), Datas(o.bodyParams), Datas(o.pathParams),
                    Datas(o.queryParams), Datas(o.formParams))
  }

  /** Recording the parameter data of one more operation keeps `seen` the data of the operations so far. */
  lemma SeenSnoc(ops: seq<Operation>, seen: seq<OperationParams>, params: OperationParams, i: nat)
    requires i < |ops| && |seen| == i
    requires forall j {:trigger Params(ops[j])} :: 0 <= j < i ==> Params(ops[j]) == seen[j]
    requires params == Params(ops[i])
    ensures forall j {:trigger Params(ops[j])} :: 0 <= j < i + 1 ==> Params(ops[j]) == (seen + [params])[j]
  {
  }

  /** The data of an operation's parameter objects is as it was when only an object outside it changed. */
  twostate lemma ParamsFrame(o: Operation, new changed: Parameter?)
    requires changed == null || Outside(changed, o)
    requires forall p: Parameter :: old(allocated(p)) && p != changed ==> p.data == old(p.data)
    ensures Params(o) == old(Params(o))
  {
    DatasFrame(o.allParams, changed);
    DatasFrame(o.bodyParams, changed);
    DatasFrame(o.pathParams, changed);
    DatasFrame(o.queryParams, changed);
    DatasFrame(o.formParams, changed);
  }

  /**
   * When only the body parameter object of operation i changed, the operations before it keep
   * their parameter data and the ones after it keep their body.
   */
  twostate lemma OthersKept(ops: seq<Operation>, new i: nat, new seen: seq<OperationParams>)
    requires SeparateOperations(ops) && i < |ops| && |seen| == i
    requires forall j :: 0 <= j < i ==> old(Params(ops[j])) == seen[j]
    requires forall p: Parameter :: old(allocated(p)) && p != ops[i].bodyParam ==> p.data == old(p.data)
    ensures forall j :: 0 <= j < i ==> Params(ops[j]) == seen[j]
    ensures forall j :: i < j < |ops| ==> DataOf(ops[j].bodyParam) == old(DataOf(ops[j].bodyParam))
  {
    forall j | 0 <= j < |ops| && j != i
      ensures ops[i].bodyParam == null || Outside(ops[i].bodyParam, ops[j])
    {
      assert Apart(ops, j, i);
    }
    forall j | 0 <= j < i
      ensures Params(ops[j]) == seen[j]
    {
      ParamsFrame(ops[j], ops[i].bodyParam);
    }
  }

  /** The data of parameter objects that were not changed is as it was. */
  twostate lemma {:induction false} DatasFrame(ps: seq<Parameter>, new changed: Parameter?)
    requires changed !in ps
    requires forall p: Parameter :: old(allocated(p)) && p != changed ==> p.data == old(p.data)
    ensures Datas(ps) == old(Datas(ps))
    decreases |ps|
  {
    if ps != [] {
      DatasFrame(ps[1..], changed);
    }
  }

  /** The data of the body parameters of a list of operations. */
  function BodyDatas(ops: seq<Operation>): (ds: seq<Option<ParamData>>)
    reads BodyParams(ops)
    ensures |ds| == |ops|
    ensures forall i :: 0 <= i < |ops| ==> ds[i] == DataOf(ops[i].bodyParam)
  {
    if ops == [] then [] else [DataOf(ops[0].bodyParam)] + BodyDatas(ops[1..])
  }

  /** The part of a CodegenModel that post-processing may change. */
  datatype ModelState = ModelState(
    vars: seq<Property>,
    imports: set<string>,
    parent: Option<string>,
    vendorExtensions: map<string, bool>)

  /** A CodegenModel object, updated in place by model post-processing. */
  class Model {
    const name: string
    var vars: seq<Property>
    var imports: set<string>
    var parent: Option<string>
    var vendorExtensions: map<string, bool>

    function State(): ModelState
      reads this
    {
      ModelState(vars, imports, parent, vendorExtensions)
    }
  }

  /**
   * The `imports` list of the template data. swagger-codegen and the generator only ever add
   * single-entry maps {"import": <name>}, so each entry is kept as its value, which may be null.
   */
  type Imports = seq<Option<string>>

  /** The `imports` list object, which the Java generator appends to. */
  class ImportList {
    var entries: Imports
  }
}
