/**
 * The enrichment rules that the Java and the Python generators share word for word: the HTTP
 * verb flags, the streaming and default-query-parameter flags of an operation, the
 * `pluginProperty` collapse, the date/uuid flags and the mandatory-parameter rule.
 */
module Enrichment {
  import opened Wrappers
  import opened JavaLang
  import opened Codegen

  const PluginPropertyName := "pluginProperty"
  const PluginPropertyType := "Map<String, String>"
  const OctetStream := "application/octet-stream"
  const MediaTypeKey := "mediaType"

  /** The five verb flags of an extended operation. */
  datatype Verbs = Verbs(isGet: bool, isPost: bool, isPut: bool, isDelete: bool, isOptions: bool)

  /** At most one of the verb flags is set. */
  predicate AtMostOneVerb(v: Verbs) {
    && !(v.isGet && (v.isPost || v.isPut || v.isDelete || v.isOptions))
    && !(v.isPost && (v.isPut || v.isDelete || v.isOptions))
    && !(v.isPut && (v.isDelete || v.isOptions))
    && !(v.isDelete && v.isOptions)
  }

  /** The verb flags: each is a case-insensitive comparison of the HTTP method with one verb. */
  function VerbFlags(httpMethod: Option<string>): (v: Verbs)
    ensures httpMethod.None? ==> v == Verbs(false, false, false, false, false)
    ensures httpMethod == Some("POST") || httpMethod == Some("post") ==> v.isPost
  {
    Verbs(EqualsIgnoreCase("GET", httpMethod), EqualsIgnoreCase("POST", httpMethod),
          EqualsIgnoreCase("PUT", httpMethod), EqualsIgnoreCase("DELETE", httpMethod),
          EqualsIgnoreCase("OPTIONS", httpMethod))
  }

  /** No HTTP method sets two verb flags. */
  lemma VerbFlagsExclusive(httpMethod: Option<string>)
    ensures AtMostOneVerb(VerbFlags(httpMethod))
  {
    var v := VerbFlags(httpMethod);
    assert IsUpperWord("GET") && IsUpperWord("PUT");
    if v.isGet && v.isPut {
      EqualsIgnoreCaseUnique("GET", "PUT", httpMethod);
    }
  }

  /**
   * isStream: the first produced media type is exactly application/octet-stream. A first entry
   * without a media type makes `get("mediaType").equals(..)` dereference null.
   */
  function IsStream(produces: Option<seq<map<string, string>>>): (r: Result<bool, Exception>)
    ensures r.Failure? <==> produces.Some? && produces.value != [] && MediaTypeKey !in produces.value[0]
    ensures r.Failure? ==> r.error == NullPointer
    ensures r == Success(true) <==>
      produces.Some? && produces.value != [] && MediaTypeKey in produces.value[0] &&
      produces.value[0][MediaTypeKey] == OctetStream
  {
    if produces.None? || produces.value == [] then Success(false)
    else if MediaTypeKey !in produces.value[0] then Failure(NullPointer)
    else Success(produces.value[0][MediaTypeKey] == OctetStream)
  }

  /** A query parameter that is optional and carries a default value. */
  predicate IsNonRequiredWithDefault(p: ParamData) {
    !p.location.required && p.defaultValue.Some?
  }

  /** hasNonRequiredDefaultQueryParams: `Iterables.any` over the query parameters. */
  function HasNonRequiredDefaultQueryParams(queryParams: seq<ParamData>): (r: bool)
    ensures r <==> exists i :: 0 <= i < |queryParams| && IsNonRequiredWithDefault(queryParams[i])
  {
    if queryParams == [] then false
    else IsNonRequiredWithDefault(queryParams[0]) || HasNonRequiredDefaultQueryParams(queryParams[1..])
  }

  /** `String.format("%ss", base)`: the collection wrapper name; a null base gives "nulls". */
  function Pluralize(base: Option<string>): (r: string)
    ensures |r| >= 1 && r[|r| - 1] == 's' && r[..|r| - 1] == FormatArg(base)
  {
    FormatArg(base) + "s"
  }

  /** A repeated `pluginProperty` query parameter, which the clients take as a key/value map. */
  predicate IsQueryPluginProperty(p: ParamData) {
    p.baseName == Some(PluginPropertyName) && p.location.isQueryParam && p.shape.isListContainer
  }

  /**
   * The parameter as the Extended constructors copy it: the `pluginProperty` list becomes a map,
   * and a `date`, `date-time` or `uuid` format (in any case) sets the matching flag.
   */
  function CopyParameter(p: ParamData): (r: ParamData)
  {
    var plugin := IsQueryPluginProperty(p);
    p.(dataType := if plugin then Some(PluginPropertyType) else p.dataType,
       kind := p.kind.(isDate := p.kind.isDate || EqualsIgnoreCase("date", p.dataFormat),
                       isDateTime := p.kind.isDateTime || EqualsIgnoreCase("date-time", p.dataFormat),
                       isUuid := p.kind.isUuid || EqualsIgnoreCase("uuid", p.dataFormat)),
       shape := p.shape.(isListContainer := p.shape.isListContainer && !plugin,
                         isMapContainer := p.shape.isMapContainer || plugin))
  }

  /** The copy collapses a `pluginProperty` list into a map, sets the date/uuid flags from the format, and changes nothing else. */
  lemma CopyParameterSpec(p: ParamData)
    ensures var r := CopyParameter(p);
      IsQueryPluginProperty(p) ==> r.dataType == Some(PluginPropertyType) && r.shape.isMapContainer && !r.shape.isListContainer
    ensures var r := CopyParameter(p);
      !IsQueryPluginProperty(p) ==> r.dataType == p.dataType && r.shape == p.shape
    ensures CopyParameter(p).kind.isDate <==> p.kind.isDate || EqualsIgnoreCase("date", p.dataFormat)
    ensures CopyParameter(p).kind.isDateTime <==> p.kind.isDateTime || EqualsIgnoreCase("date-time", p.dataFormat)
    ensures CopyParameter(p).kind.isUuid <==> p.kind.isUuid || EqualsIgnoreCase("uuid", p.dataFormat)
    ensures CopyParameter(p).shape.isContainer == p.shape.isContainer
    ensures CopyParameter(p).kind.(isDate := p.kind.isDate, isDateTime := p.kind.isDateTime, isUuid := p.kind.isUuid) == p.kind
    ensures CopyParameter(p).(dataType := p.dataType, shape := p.shape, kind := p.kind) == p
  {
  }

  /** Copying an already copied parameter changes nothing: the collapse happens once. */
  lemma CopyParameterIdempotent(p: ParamData)
    ensures CopyParameter(CopyParameter(p)) == CopyParameter(p)
  {
    var q := CopyParameter(p);
    assert !IsQueryPluginProperty(q) || !IsQueryPluginProperty(p);
  }

  /**
   * isMandatoryParam: header parameters never are; otherwise a parameter is mandatory when it is
   * required, or when it is a query parameter without a default value.
   */
  function IsMandatoryParam(p: ParamData): (r: bool)
    ensures p.location.isHeaderParam ==> !r
    ensures !p.location.isHeaderParam && p.location.required ==> r
    ensures !p.location.isHeaderParam && p.location.isQueryParam && p.defaultValue.None? ==> r
    ensures r ==> p.location.required || (p.location.isQueryParam && p.defaultValue.None?)
  {
    !p.location.isHeaderParam && (p.location.required || (p.location.isQueryParam && p.defaultValue.None?))
  }
}
