/**
 * KillbillPythonGenerator: the Python client generator. Its operations and parameters are
 * enriched by the same rules as the Java client's, except that a POST or PUT body that is any
 * container takes its collection wrapper type, that an array return type is always pluralized,
 * that no import is added, that no parameter conversion can raise, and that parameter names lose
 * their `x_killbill_` marker. It also renders Python type declarations for properties.
 */
module KillbillPython {
  import opened Wrappers
  import opened JavaLang
  import opened Codegen
  import opened Enrichment
  import KillbillJava

  // ---------------------------------------------------------------------------------------------
  // Names.

  /** The generator's reserved words, placeholders left from the generator template. */
  const ReservedWords: set<string> := {"sample1", "sample2"}

  /** The marker the header parameters of the Kill Bill API carry in their Python names. */
  const KillbillMarker := "x_killbill_"

  /** escapeReservedWord: a leading underscore. */
  function EscapeReservedWord(name: string): (r: string)
    ensures |r| == |name| + 1 && r[0] == '_' && r[1..] == name
  {
    "_" + name
  }

  /** An escaped name is never a reserved word, so escaping is needed once only. */
  lemma EscapedNotReserved(name: string)
    ensures EscapeReservedWord(name) !in ReservedWords
  {
    var r := EscapeReservedWord(name);
    assert r[0] != "sample1"[0] && r[0] != "sample2"[0];
  }

  /** Two names escape to the same name only when they are the same name. */
  lemma EscapeInjective(a: string, b: string)
    requires EscapeReservedWord(a) == EscapeReservedWord(b)
    ensures a == b
  {
    assert a == EscapeReservedWord(a)[1..];
  }

  /**
   * The parameter name the ExtendedCodegenParameter constructor keeps: every occurrence of
   * `x_killbill_` deleted, in a single left-to-right pass, when the name contains one.
   */
  function StripKillbillMarker(paramName: string): (r: string)
    ensures !Contains(paramName, KillbillMarker) ==> r == paramName
    ensures Contains(paramName, KillbillMarker) ==> |r| <= |paramName| - |KillbillMarker|
  {
    if Contains(paramName, KillbillMarker) then
      RemovePresent(paramName, KillbillMarker);
      Remove(paramName, KillbillMarker)
    else paramName
  }

  /** The `contains` test is redundant: the name is always the result of `replace`. */
  lemma StripIsRemove(paramName: string)
    ensures StripKillbillMarker(paramName) == Remove(paramName, KillbillMarker)
  {
    if !Contains(paramName, KillbillMarker) {
      RemoveAbsent(paramName, KillbillMarker);
    }
  }

  /** A name made of the marker and a marker-free rest becomes that rest. */
  lemma StripLeadingMarker(rest: string)
    requires !Contains(rest, KillbillMarker)
    ensures StripKillbillMarker(KillbillMarker + rest) == rest
  {
    var s := KillbillMarker + rest;
    assert OccursAt(s, KillbillMarker, 0);
    assert s[..|KillbillMarker|] == KillbillMarker;
    assert s[|KillbillMarker|..] == rest;
    RemoveAbsent(rest, KillbillMarker);
  }

  // ---------------------------------------------------------------------------------------------
  // Parameter enrichment (ExtendedCodegenParameter).

  /** An ExtendedCodegenParameter of the Python generator: the copied parameter and its two flags. */
  datatype ExtendedParameter = ExtendedParameter(
    param: ParamData,
    isMandatoryParam: bool,
    isQueryPluginProperty: bool)

  /** The ExtendedCodegenParameter constructor. It cannot raise. */
  function EnrichParameter(p: ParamData): (r: ExtendedParameter)
  {
    ExtendedParameter(CopyParameter(p).(paramName := StripKillbillMarker(p.paramName)),
                      IsMandatoryParam(p), IsQueryPluginProperty(p))
  }

  /**
   * The enriched parameter is the shared copy with its name stripped of the marker, and the
   * mandatory and plugin flags of the shared rules.
   */
  lemma EnrichParameterSpec(p: ParamData)
    ensures EnrichParameter(p).param.(paramName := p.paramName) == CopyParameter(p)
    ensures EnrichParameter(p).param.paramName == Remove(p.paramName, KillbillMarker)
    ensures EnrichParameter(p).isMandatoryParam == IsMandatoryParam(p)
    ensures EnrichParameter(p).isQueryPluginProperty == IsQueryPluginProperty(p)
  {
    CopyParameterSpec(p);
    StripIsRemove(p.paramName);
  }

  /**
   * Where the Java constructor does not raise, the two generators enrich a parameter alike, but
   * for the parameter name and the Java default-value literal.
   */
  lemma EnrichParameterLikeJava(p: ParamData)
    requires KillbillJava.EnrichParameter(p).Success?
    ensures var j := KillbillJava.EnrichParameter(p).value;
      && j.param == EnrichParameter(p).param.(paramName := p.paramName)
      && j.isMandatoryParam == EnrichParameter(p).isMandatoryParam
      && j.isQueryPluginProperty == EnrichParameter(p).isQueryPluginProperty
  {
    KillbillJava.EnrichParameterSpec(p);
    EnrichParameterSpec(p);
  }

  /** Each element of `es` is the enrichment of the parameter at the same position. */
  predicate Enriched(ps: seq<ParamData>, es: seq<ExtendedParameter>) {
    |es| == |ps| && forall k :: 0 <= k < |ps| ==> es[k] == EnrichParameter(ps[k])
  }

  /**
   * convertToExtendedCodegenParam: an extended parameter for each parameter, in order. It only
   * reads the parameters, so it is given their data.
   */
  method ConvertToExtendedCodegenParam(input: seq<ParamData>) returns (r: seq<ExtendedParameter>)
    ensures Enriched(input, r)
  {
    r := [];
    var i := 0;
    while i < |input|
      invariant 0 <= i <= |input| && |r| == i
      invariant forall k :: 0 <= k < i ==> r[k] == EnrichParameter(input[k])
    {
      r := r + [EnrichParameter(input[i])];
      i := i + 1;
    }
  }

  // ---------------------------------------------------------------------------------------------
  // Operation enrichment (ExtendedCodegenOperation).

  /** The fields the Python ExtendedCodegenOperation constructor computes. */
  datatype ExtendedFlags = ExtendedFlags(
    verbs: Verbs,
    isStream: bool,
    hasNonRequiredDefaultQueryParams: bool,
    returnType: Option<string>)

  /** A container body submitted by POST or PUT, whatever its base type. */
  predicate RewritesBody(verbs: Verbs, body: ParamData) {
    (verbs.isPost || verbs.isPut) && body.shape.isContainer
  }

  /** The body parameter after the constructor: a container body takes its collection wrapper type. */
  function BodyAfter(verbs: Verbs, body: ParamData): (r: ParamData)
    ensures RewritesBody(verbs, body) ==> r.dataType == Some(FormatArg(body.baseType) + "s")
    ensures r.(dataType := body.dataType) == body
    ensures !RewritesBody(verbs, body) ==> r == body
  {
    if RewritesBody(verbs, body) then body.(dataType := Some(Pluralize(body.baseType))) else body
  }

  /** A container body without a base type is declared as `nulls`. */
  lemma NullBaseTypeBody(verbs: Verbs, body: ParamData)
    requires verbs.isPost && body.shape.isContainer && body.baseType.None?
    ensures BodyAfter(verbs, body).dataType == Some("nulls")
  {
    assert FormatArg(body.baseType) + "s" == "nulls";
  }

  /**
   * The Java generator rewrites a body only when its base type is a registered model; on such a
   * body the two generators agree, and the Python one also rewrites every other container body.
   */
  lemma BodyAfterLikeJava(verbs: Verbs, body: ParamData, allModels: set<string>)
    ensures body.baseType.Some? && body.baseType.value in allModels ==>
      KillbillJava.BodyAfter(verbs, body, allModels) == BodyAfter(verbs, body)
    ensures KillbillJava.BodyAfter(verbs, body, allModels) != body ==> BodyAfter(verbs, body) != body
  {
  }

  /** The return type: an array return is declared as its base type followed by `s`, even a null one. */
  function ReturnType(o: Operation): (r: Option<string>)
    ensures o.returnContainer == Some("array") ==> r == Some(FormatArg(o.returnBaseType) + "s")
    ensures o.returnContainer != Some("array") ==> r == o.returnType
  {
    if o.returnContainer.Some? && o.returnContainer.value == "array" then Some(Pluralize(o.returnBaseType))
    else o.returnType
  }

  /** An array of a known base type gets the same return type from both generators; of an unknown one, `nulls` here. */
  lemma ReturnTypeLikeJava(o: Operation, body: Option<ParamData>, queryParams: seq<ParamData>, allModels: set<string>)
    requires KillbillJava.OperationFlags(o, body, queryParams, allModels).Success?
    ensures o.returnBaseType.Some? ==>
      KillbillJava.OperationFlags(o, body, queryParams, allModels).value.returnType == ReturnType(o)
    ensures o.returnContainer == Some("array") && o.returnBaseType.None? ==> ReturnType(o) == Some("nulls")
  {
    if o.returnContainer == Some("array") && o.returnBaseType.None? {
      assert FormatArg(o.returnBaseType) + "s" == "nulls";
    }
  }

  /** The flags the constructor computes from the operation and its query parameter data. */
  function OperationFlags(o: Operation, queryParams: seq<ParamData>): (r: Result<ExtendedFlags, Exception>)
  {
    match IsStream(o.produces)
    case Failure(e) => Failure(e)
    case Success(stream) =>
      Success(ExtendedFlags(VerbFlags(o.httpMethod), stream, HasNonRequiredDefaultQueryParams(queryParams), ReturnType(o)))
  }

  /**
   * The constructor raises, with a NullPointerException, exactly when the Java generator's does, and
   * otherwise agrees with it on the verbs, isStream and hasNonRequiredDefaultQueryParams, whatever the
   * body and the registered models.
   */
  lemma OperationFlagsLikeJava(o: Operation, queryParams: seq<ParamData>, body: Option<ParamData>, allModels: set<string>)
    ensures OperationFlags(o, queryParams).Success? <==> KillbillJava.OperationFlags(o, body, queryParams, allModels).Success?
    ensures OperationFlags(o, queryParams).Failure? ==> OperationFlags(o, queryParams).error == NullPointer
    ensures var (r, j) := (OperationFlags(o, queryParams), KillbillJava.OperationFlags(o, body, queryParams, allModels));
      r.Success? ==>
        && r.value.verbs == j.value.verbs
        && r.value.isStream == j.value.isStream
        && r.value.hasNonRequiredDefaultQueryParams == j.value.hasNonRequiredDefaultQueryParams
  {
  }

  /** An ExtendedCodegenOperation after postProcessOperations has converted its parameter lists. */
  datatype ExtendedOperation = ExtendedOperation(
    flags: ExtendedFlags,
    bodyParam: Parameter?,
    allParams: seq<ExtendedParameter>,
    bodyParams: seq<ExtendedParameter>,
    pathParams: seq<ExtendedParameter>,
    queryParams: seq<ExtendedParameter>,
    formParams: seq<ExtendedParameter>)

  /** Every parameter list of `e` is the enrichment of the matching list. */
  predicate ConvertedLists(e: ExtendedOperation, params: OperationParams) {
    && Enriched(params.allParams, e.allParams)
    && Enriched(params.bodyParams, e.bodyParams)
    && Enriched(params.pathParams, e.pathParams)
    && Enriched(params.queryParams, e.queryParams)
    && Enriched(params.formParams, e.formParams)
  }

  /**
   * What postProcessOperations promises about one operation whose body parameter held `before`
   * and whose parameter objects hold `params` afterwards: the flags the constructor computes, the
   * same body parameter object, now holding the body as the constructor rewrote it, and parameter
   * lists that are the enrichments of the lists as the constructor left them.
   */
  predicate ProcessedFrom(o: Operation, before: Option<ParamData>, params: OperationParams, e: ExtendedOperation) {
    && OperationFlags(o, params.queryParams) == Success(e.flags)
    && e.bodyParam == o.bodyParam
    && (params.body.Some? <==> before.Some?)
    && (before.Some? ==> params.body.value == BodyAfter(e.flags.verbs, before.value))
    && ConvertedLists(e, params)
  }

  /** ProcessedFrom, for the parameter objects as they are now. */
  ghost predicate Processed(o: Operation, before: Option<ParamData>, e: ExtendedOperation)
    reads o.bodyParam, o.allParams, o.bodyParams, o.pathParams, o.queryParams, o.formParams
  {
    ProcessedFrom(o, before, Params(o), e)
  }

  /**
   * The ExtendedCodegenOperation constructor: computes the flags and rewrites a container body to
   * its collection wrapper type on the shared body parameter object, before isStream can raise.
   */
  method NewExtendedOperation(o: Operation) returns (r: Result<ExtendedFlags, Exception>)
    modifies o.bodyParam
    ensures r == OperationFlags(o, Datas(o.queryParams))
    ensures o.bodyParam != null ==> o.bodyParam.data == BodyAfter(VerbFlags(o.httpMethod), old(o.bodyParam.data))
  {
    var verbs := VerbFlags(o.httpMethod);
    if (verbs.isPost || verbs.isPut) && o.bodyParam != null && o.bodyParam.data.shape.isContainer {
      o.bodyParam.data := o.bodyParam.data.(dataType := Some(Pluralize(o.bodyParam.data.baseType)));
    }
    var returnType := o.returnType;
    if o.returnContainer.Some? && o.returnContainer.value == "array" {
      returnType := Some(Pluralize(o.returnBaseType));
    }
    var stream := IsStream(o.produces);
    if stream.Failure? {
      return Failure(stream.error);
    }
    r := Success(ExtendedFlags(verbs, stream.value, HasNonRequiredDefaultQueryParams(Datas(o.queryParams)), returnType));
  }

  /** Converts the five parameter lists of an extended operation. */
  method ConvertLists(lists: OperationParams, bodyParam: Parameter?, flags: ExtendedFlags) returns (r: ExtendedOperation)
    ensures r.flags == flags && r.bodyParam == bodyParam && ConvertedLists(r, lists)
  {
    var allParams := ConvertToExtendedCodegenParam(lists.allParams);
    var bodyParams := ConvertToExtendedCodegenParam(lists.bodyParams);
    var pathParams := ConvertToExtendedCodegenParam(lists.pathParams);
    var queryParams := ConvertToExtendedCodegenParam(lists.queryParams);
    var formParams := ConvertToExtendedCodegenParam(lists.formParams);
    r := ExtendedOperation(flags, bodyParam, allParams, bodyParams, pathParams, queryParams, formParams);
  }

  /**
   * One iteration of postProcessOperations: build the extended operation and convert its five
   * parameter lists. The body is rewritten even when the constructor then raises.
   */
  method ExtendOperation(o: Operation) returns (r: Result<ExtendedOperation, Exception>)
    modifies o.bodyParam
    ensures r.Success? ==> Processed(o, old(DataOf(o.bodyParam)), r.value)
    ensures r.Failure? <==> IsStream(o.produces).Failure?
    ensures r.Failure? ==> r.error == NullPointer
    ensures o.bodyParam != null ==> o.bodyParam.data == BodyAfter(VerbFlags(o.httpMethod), old(o.bodyParam.data))
  {
    var flags := NewExtendedOperation(o);
    OperationFlagsLikeJava(o, Datas(o.queryParams), None, {});
    if flags.Failure? {
      return Failure(flags.error);
    }
    var e := ConvertLists(Params(o), o.bodyParam, flags.value);
    r := Success(e);
  }

  /** The first n operations were processed from their recorded bodies into the recorded parameter data. */
  predicate Done(ops: seq<Operation>, bodies: seq<Option<ParamData>>, seen: seq<OperationParams>,
                 exts: seq<ExtendedOperation>, n: nat)
  {
    && n <= |ops| && n <= |bodies| && n <= |seen| && n <= |exts|
    && forall j :: 0 <= j < n ==> ProcessedFrom(ops[j], bodies[j], seen[j], exts[j])
  }

  lemma DoneSnoc(ops: seq<Operation>, bodies: seq<Option<ParamData>>, seen: seq<OperationParams>,
                 exts: seq<ExtendedOperation>, params: OperationParams, e: ExtendedOperation, n: nat)
    requires n == |seen| == |exts| && n < |ops| && n < |bodies|
    requires Done(ops, bodies, seen, exts, n)
    requires ProcessedFrom(ops[n], bodies[n], params, e)
    ensures Done(ops, bodies, seen + [params], exts + [e], n + 1)
  {
    forall j | 0 <= j < n + 1
      ensures ProcessedFrom(ops[j], bodies[j], (seen + [params])[j], (exts + [e])[j])
    {
      if j < n {
        assert (exts + [e])[j] == exts[j] && (seen + [params])[j] == seen[j];
      }
    }
  }

  /** Processed, for every operation, once the loop is over. */
  lemma AllProcessed(ops: seq<Operation>, bodies: seq<Option<ParamData>>, seen: seq<OperationParams>,
                     exts: seq<ExtendedOperation>)
    requires |bodies| == |ops|
    requires |seen| == |exts| == |ops| && forall j {:trigger Params(ops[j])} :: 0 <= j < |ops| ==> Params(ops[j]) == seen[j]
    requires Done(ops, bodies, seen, exts, |ops|)
    ensures forall j :: 0 <= j < |ops| ==> Processed(ops[j], bodies[j], exts[j])
  {
    forall j | 0 <= j < |ops|
      ensures Processed(ops[j], bodies[j], exts[j])
    {
      assert Params(ops[j]) == seen[j];
    }
  }

  /** No operation before n has a first produced entry without a media type. */
  predicate StreamsKnown(ops: seq<Operation>, n: nat)
    requires n <= |ops|
  {
    forall j :: 0 <= j < n ==> IsStream(ops[j].produces).Success?
  }

  /**
   * The loop body of postProcessOperations for operation i. Only the body parameter object of
   * that operation changes, so the operations before it stay processed and every later one
   * keeps its body.
   */
  method ExtendNext(ops: seq<Operation>, i: nat, ghost bodies: seq<Option<ParamData>>,
                    ghost seen: seq<OperationParams>, exts: seq<ExtendedOperation>)
    returns (r: Result<seq<ExtendedOperation>, Exception>, ghost seenAfter: seq<OperationParams>)
    requires SeparateOperations(ops) && i < |ops| == |bodies| && |seen| == i == |exts|
    requires forall j :: i <= j < |ops| ==> DataOf(ops[j].bodyParam) == bodies[j]
    requires forall j {:trigger Params(ops[j])} :: 0 <= j < i ==> Params(ops[j]) == seen[j]
    requires Done(ops, bodies, seen, exts, i)
    modifies ops[i].bodyParam
    ensures r.Failure? <==> IsStream(ops[i].produces).Failure?
    ensures r.Failure? ==> r.error == NullPointer
    ensures r.Success? ==> |r.value| == i + 1 && |seenAfter| == i + 1
    ensures r.Success? ==> forall j :: i + 1 <= j < |ops| ==> DataOf(ops[j].bodyParam) == bodies[j]
    ensures r.Success? ==> forall j {:trigger Params(ops[j])} :: 0 <= j < i + 1 ==> Params(ops[j]) == seenAfter[j]
    ensures r.Success? ==> Done(ops, bodies, seenAfter, r.value, i + 1)
  {
    var o := ops[i];
    var ext := ExtendOperation(o);
    if ext.Failure? {
      return Failure(ext.error), seen;
    }
    assert forall p: Parameter :: old(allocated(p)) && p != o.bodyParam ==> p.data == old(p.data);
    OthersKept(ops, i, seen);
    seenAfter := seen + [Params(o)];
    SeenSnoc(ops, seen, Params(o), i);
    DoneSnoc(ops, bodies, seen, exts, Params(o), ext.value, i);
    r := Success(exts + [ext.value]);
  }

  /**
   * The loop of postProcessOperations: operation by operation, with the parameter data each one
   * had when it was processed recorded in `seen`. It stops at the first operation whose
   * constructor raises.
   */
  method ExtendAll(ops: seq<Operation>, ghost bodies: seq<Option<ParamData>>)
    returns (r: Result<seq<ExtendedOperation>, Exception>, ghost seen: seq<OperationParams>)
    requires SeparateOperations(ops) && bodies == BodyDatas(ops)
    modifies BodyParams(ops)
    ensures r.Success? <==> StreamsKnown(ops, |ops|)
    ensures r.Failure? ==> r.error == NullPointer
    ensures r.Success? ==> |r.value| == |seen| == |ops|
    ensures r.Success? ==> forall j {:trigger Params(ops[j])} :: 0 <= j < |ops| ==> Params(ops[j]) == seen[j]
    ensures r.Success? ==> Done(ops, bodies, seen, r.value, |ops|)
  {
    var exts: seq<ExtendedOperation> := [];
    seen := [];
    var i := 0;
    while i < |ops|
      invariant 0 <= i <= |ops| && |exts| == i && |seen| == i
      invariant StreamsKnown(ops, i)
      invariant forall j :: i <= j < |ops| ==> DataOf(ops[j].bodyParam) == bodies[j]
      invariant forall j {:trigger Params(ops[j])} :: 0 <= j < i ==> Params(ops[j]) == seen[j]
      invariant Done(ops, bodies, seen, exts, i)
    {
      var next;
      next, seen := ExtendNext(ops, i, bodies, seen, exts);
      if next.Failure? {
        return Failure(next.error), seen;
      }
      exts := next.value;
      i := i + 1;
    }
    r := Success(exts);
  }

  /**
   * postProcessOperations, after swagger-codegen's own post-processing: each operation in turn
   * becomes an extended operation whose parameter lists are converted. It raises exactly when
   * some operation's first produced entry has no media type.
   */
  method PostProcessOperations(ops: seq<Operation>) returns (r: Result<seq<ExtendedOperation>, Exception>)
    requires SeparateOperations(ops)
    modifies BodyParams(ops)
    ensures r.Success? <==> forall i :: 0 <= i < |ops| ==> IsStream(ops[i].produces).Success?
    ensures r.Failure? ==> r.error == NullPointer
    ensures r.Success? ==> |r.value| == |ops|
    ensures r.Success? ==> forall i :: 0 <= i < |ops| ==> Processed(ops[i], old(DataOf(ops[i].bodyParam)), r.value[i])
  {
    ghost var bodies := BodyDatas(ops);
    ghost var seen;
    r, seen := ExtendAll(ops, bodies);
    if r.Success? {
      AllProcessed(ops, bodies, seen, r.value);
    }
  }

  // ---------------------------------------------------------------------------------------------
  // Type declarations.

  /**
   * A swagger property, as far as the type declaration looks at it: its swagger type (the one the
   * superclass, swagger-codegen's PythonClientCodegen, gives it) and, for a container, its item
   * property; any other property carries the declaration the superclass gives it.
   */
  datatype SwaggerProperty =
    | ArrayProperty(swaggerType: string, items: SwaggerProperty)
    | MapProperty(swaggerType: string, additionalProperties: SwaggerProperty)
    | OtherProperty(swaggerType: string, declaration: string)

  /** The generator settings the type rendering uses; toModelName is the superclass's. */
  datatype TypeSettings = TypeSettings(
    typeMapping: map<string, string>,
    languageSpecificPrimitives: set<string>,
    toModelName: string -> string)

  /** getSwaggerType: the mapped type, if there is a mapping, as a model name; the primitive test picks the same result. */
  function GetSwaggerType(s: TypeSettings, p: SwaggerProperty): (r: string)
  {
    var swaggerType := p.swaggerType;
    if swaggerType in s.typeMapping then
      var mapped := s.typeMapping[swaggerType];
      if mapped in s.languageSpecificPrimitives then s.toModelName(mapped) else s.toModelName(mapped)
    else s.toModelName(swaggerType)
  }

  /** The type mapping is applied first, then the model naming; which types are primitives does not matter. */
  lemma GetSwaggerTypeSpec(s: TypeSettings, p: SwaggerProperty, primitives: set<string>)
    ensures GetSwaggerType(s, p) ==
      s.toModelName(if p.swaggerType in s.typeMapping then s.typeMapping[p.swaggerType] else p.swaggerType)
    ensures GetSwaggerType(s.(languageSpecificPrimitives := primitives), p) == GetSwaggerType(s, p)
  {
  }

  /** getTypeDeclaration: `T[item]` for an array, `T[String, value]` for a map, where T is the swagger type. */
  function GetTypeDeclaration(s: TypeSettings, p: SwaggerProperty): (r: string)
    ensures !p.OtherProperty? ==>
      var t := GetSwaggerType(s, p);
      |r| > |t| + 1 && r[..|t| + 1] == t + "[" && r[|r| - 1] == ']'
  {
    match p
    case ArrayProperty(_, items) => GetSwaggerType(s, p) + "[" + GetTypeDeclaration(s, items) + "]"
    case MapProperty(_, values) => GetSwaggerType(s, p) + "[String, " + GetTypeDeclaration(s, values) + "]"
    case OtherProperty(_, declaration) => declaration
  }

  /** The number of containers around the innermost property. */
  function ContainerDepth(p: SwaggerProperty): nat {
    match p
    case ArrayProperty(_, items) => 1 + ContainerDepth(items)
    case MapProperty(_, values) => 1 + ContainerDepth(values)
    case OtherProperty(_, _) => 0
  }

  /** The property at the bottom of nested containers. */
  function Innermost(p: SwaggerProperty): (r: SwaggerProperty)
    ensures r.OtherProperty?
  {
    match p
    case ArrayProperty(_, items) => Innermost(items)
    case MapProperty(_, values) => Innermost(values)
    case OtherProperty(_, _) => p
  }

  /** n closing brackets. */
  function Closing(n: nat): (r: string)
    ensures |r| == n && forall i :: 0 <= i < n ==> r[i] == ']'
  {
    seq(n, _ => ']')
  }

  /** A declaration ends with the innermost property's declaration and one closing bracket per container. */
  lemma {:induction false} TypeDeclarationEnd(s: TypeSettings, p: SwaggerProperty)
    decreases p, 1
    ensures var d := GetTypeDeclaration(s, p);
      var tail := Innermost(p).declaration + Closing(ContainerDepth(p));
      |tail| <= |d| && d[|d| - |tail|..] == tail
  {
    match p
    case OtherProperty(_, _) =>
    case ArrayProperty(_, inner) =>
      EndAfterInner(s, p, inner, "[");
    case MapProperty(_, inner) =>
      EndAfterInner(s, p, inner, "[String, ");
  }

  /** The step of TypeDeclarationEnd: a container whose declaration closes around its inner one. */
  lemma {:induction false} EndAfterInner(s: TypeSettings, p: SwaggerProperty, inner: SwaggerProperty, open: string)
    requires !p.OtherProperty? && inner < p
    requires ContainerDepth(p) == ContainerDepth(inner) + 1 && Innermost(p) == Innermost(inner)
    requires GetTypeDeclaration(s, p) == GetSwaggerType(s, p) + open + GetTypeDeclaration(s, inner) + "]"
    ensures var d := GetTypeDeclaration(s, p);
      var tail := Innermost(p).declaration + Closing(ContainerDepth(p));
      |tail| <= |d| && d[|d| - |tail|..] == tail
    decreases p, 0
  {
    TypeDeclarationEnd(s, inner);
    SuffixStep(GetTypeDeclaration(s, p), GetSwaggerType(s, p) + open, GetTypeDeclaration(s, inner),
               Innermost(inner).declaration, ContainerDepth(inner));
  }

  /** A declaration closed around one that ends with `declaration` and n brackets ends with one bracket more. */
  lemma SuffixStep(d: string, pre: string, di: string, declaration: string, n: nat)
    requires d == pre + di + "]"
    requires |declaration + Closing(n)| <= |di| && di[|di| - |declaration + Closing(n)|..] == declaration + Closing(n)
    ensures var tail := declaration + Closing(n + 1); |tail| <= |d| && d[|d| - |tail|..] == tail
  {
    ClosingTail(declaration, n);
    SuffixClose(pre, di, declaration + Closing(n));
  }

  /** Closing a string whose suffix is `ti` gives a string whose suffix is `ti` closed. */
  lemma SuffixClose(pre: string, di: string, ti: string)
    requires |ti| <= |di| && di[|di| - |ti|..] == ti
    ensures var d := pre + di + "]"; |ti| + 1 <= |d| && d[|d| - (|ti| + 1)..] == ti + "]"
  {
    var d := pre + di + "]";
    assert d[|d| - (|ti| + 1)..] == di[|di| - |ti|..] + "]";
  }

  /** One more closing bracket after a declaration. */
  lemma ClosingTail(declaration: string, n: nat)
    ensures declaration + Closing(n + 1) == declaration + Closing(n) + "]"
  {
    assert Closing(n + 1) == Closing(n) + "]";
    assert declaration + (Closing(n) + "]") == declaration + Closing(n) + "]";
  }

  /** A map of lists of strings, with Java-style mapped names. */
  lemma MapOfListsDeclaration()
    ensures var s := TypeSettings(map["array" := "List", "map" := "Map", "string" := "String"], {"String"}, n => n);
      GetTypeDeclaration(s, MapProperty("map", ArrayProperty("array", OtherProperty("string", "String")))) ==
      "Map[String, List[String]]"
  {
    var s := TypeSettings(map["array" := "List", "map" := "Map", "string" := "String"], {"String"}, n => n);
    var list := ArrayProperty("array", OtherProperty("string", "String"));
    assert GetSwaggerType(s, list) == "List";
    assert GetTypeDeclaration(s, list) == "List" + "[" + "String" + "]";
    assert GetSwaggerType(s, MapProperty("map", list)) == "Map";
    assert "Map" + "[String, " + ("List" + "[" + "String" + "]") + "]" == "Map[String, List[String]]";
  }
}
