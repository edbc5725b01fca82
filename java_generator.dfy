/**
 * The Kill Bill Java client generator: enum-type resolution against the registry of API enums,
 * model post-processing (the Entity/AuditLog rules and the registry of model names), the
 * deduplicated import list, and the enrichment of operations and parameters.
 */
module KillbillJava {
  import opened Wrappers
  import opened JavaLang
  import opened Codegen
  import opened Enrichment

  const EntityModel := "Entity"
  const AuditLogModel := "AuditLog"
  const HistoryProperty := "history"
  const AuditLogsProperty := "auditLogs"
  const EntityGeneric := "x-entity-generic"
  const KillBillObject := "KillBillObject"
  const JsonPropertyImport := "JsonProperty"
  const ModelPackagePrefix := "org.killbill.billing.client.model."
  const ListImport := "java.util.List"
  const MapImport := "java.util.Map"
  const OutputStreamImport := "java.io.OutputStream"
  const ResponseImport := "com.ning.http.client.Response"

  // ---------------------------------------------------------------------------------------------
  // The registry of API enums: simple name -> declared values, in declaration order.

  type Registry = map<string, seq<string>>

  /** Every registered enum has a first value. */
  predicate WellFormedRegistry(r: Registry) {
    forall k :: k in r ==> r[k] != []
  }

  /** `key` names a registered enum whose first declared value is `firstValue`. */
  predicate Resolves(r: Registry, firstValue: string, key: string) {
    key in r && r[key] != [] && r[key][0] == firstValue
  }

  /** No registered enum starts with `firstValue`. */
  predicate Unresolvable(r: Registry, firstValue: string) {
    forall k :: k in r ==> !Resolves(r, firstValue, k)
  }

  function UnresolvedEnum(firstValue: string): Exception {
    IllegalState("Cannot find enum with first value " + firstValue)
  }

  /** `list.get(0)` on a possibly-null list of enum literals. */
  function FirstElement(values: Option<seq<string>>): (r: Result<string, Exception>)
    ensures r.Success? <==> values.Some? && values.value != []
    ensures r.Success? ==> r.value == values.value[0]
  {
    match values
    case None => Failure(NullPointer)
    case Some(vs) => if vs == [] then Failure(IndexOutOfBounds) else Success(vs[0])
  }

  /**
   * The enum literal whose type postProcessModelProperty imports: the first literal of an enum
   * property, or of the items of an enum container. None when nothing is imported; a failure when
   * reaching it raises.
   */
  function EnumLiteral(property: Property): Option<Result<string, Exception>> {
    if !property.isEnum then None
    else if !property.isContainer then Some(FirstElement(property.enumValues))
    else if property.items.None? then Some(Failure(NullPointer))
    else if property.items.value.isEnum then Some(FirstElement(property.items.value.enumValues))
    else None
  }

  /** toEnumName resolves through the registry exactly when the property has enum literals. */
  predicate HasEnumLiterals(property: Property) {
    property.isEnum && property.enumValues.Some? && property.enumValues.value != []
  }

  // ---------------------------------------------------------------------------------------------
  // The import list, entry by entry: the value of each {"import": <name>} map, possibly null.

  /**
   * Where the scan of addImportIfRequired stops: `i.equals(newImport)` raises on a null entry and
   * succeeds on an entry equal to a non-null new import.
   */
  predicate StopsScan(entry: Option<string>, name: Option<string>) {
    entry.None? || (name.Some? && entry == name)
  }

  /** The position where the scan stops, if it stops before the end of the list. */
  function FirstStop(entries: Imports, name: Option<string>): (r: Option<nat>)
    ensures r.Some? ==> r.value < |entries| && StopsScan(entries[r.value], name)
    ensures r.Some? ==> forall i :: 0 <= i < r.value ==> !StopsScan(entries[i], name)
    ensures r.None? ==> forall i :: 0 <= i < |entries| ==> !StopsScan(entries[i], name)
  {
    if entries == [] then None
    else if StopsScan(entries[0], name) then Some(0)
    else
      match FirstStop(entries[1..], name)
      case None => None
      case Some(k) => Some(k + 1)
  }

  /** The scan meets a null entry before any entry equal to the new import. */
  predicate ReachesNull(entries: Imports, name: Option<string>) {
    exists k :: 0 <= k < |entries| && entries[k].None? && forall i :: 0 <= i < k ==> entries[i] != name
  }

  /**
   * addImportIfRequired on a non-null list: append {"import": name} unless an entry equal to it
   * comes first; a null entry met on the way raises NullPointerException. A null name is appended
   * too, since `i.equals(null)` is false.
   */
  function WithImport(entries: Imports, name: Option<string>): (r: Result<Imports, Exception>)
    ensures r.Failure? ==> r.error == NullPointer && None in entries
    ensures r.Success? ==> entries <= r.value && name in r.value
    ensures r.Success? && r.value != entries ==> r.value == entries + [name] && name !in entries
    ensures None !in entries && name.Some? ==> r == Success(if name in entries then entries else entries + [name])
    ensures None !in entries && name.None? ==> r == Success(entries + [None])
  {
    match FirstStop(entries, name)
    case None => Success(entries + [name])
    case Some(k) => if entries[k].None? then Failure(NullPointer) else Success(entries)
  }

  /** addImportIfRequired raises exactly when its scan meets a null entry before an equal one. */
  lemma WithImportFailure(entries: Imports, name: Option<string>)
    ensures WithImport(entries, name).Failure? <==> ReachesNull(entries, name)
  {
    match FirstStop(entries, name)
    case None =>
    case Some(k) =>
      if entries[k].None? {
        assert ReachesNull(entries, name) by {
          assert forall i :: 0 <= i < k ==> entries[i] != name;
        }
      } else {
        forall j | 0 <= j < |entries| && entries[j].None?
          ensures k < j && entries[k] == name
        {
        }
      }
  }

  /** Adding the same non-null import twice is adding it once. */
  lemma WithImportIdempotent(entries: Imports, name: string)
    requires WithImport(entries, Some(name)).Success?
    ensures WithImport(WithImport(entries, Some(name)).value, Some(name)) == WithImport(entries, Some(name))
  {
    var r := WithImport(entries, Some(name)).value;
    if r != entries {
      assert FirstStop(entries, Some(name)).None?;
      assert FirstStop(r, Some(name)) == Some(|entries|) by {
        assert StopsScan(r[|entries|], Some(name));
        assert forall i :: 0 <= i < |entries| ==> r[i] == entries[i];
      }
    }
  }

  /** No value appears in two entries. */
  predicate NoDuplicateImports(entries: Imports) {
    forall i, j :: 0 <= i < j < |entries| ==> entries[i] != entries[j]
  }

  /** Adding an import keeps the list free of duplicates. */
  lemma WithImportNoDuplicates(entries: Imports, name: Option<string>)
    requires NoDuplicateImports(entries)
    requires WithImport(entries, name).Success?
    ensures NoDuplicateImports(WithImport(entries, name).value)
  {
  }

  /** Once a null entry is in the list, adding any import not already there raises. */
  lemma NullEntryPoisons(entries: Imports, name: string)
    requires None in entries && Some(name) !in entries
    ensures WithImport(entries, Some(name)) == Failure(NullPointer)
  {
    var k :| 0 <= k < |entries| && entries[k].None?;
    assert ReachesNull(entries, Some(name));
    WithImportFailure(entries, Some(name));
  }

  /** A null import name is added to a list without null entries, and then poisons it. */
  lemma NullImportAppended(entries: Imports, name: string)
    requires None !in entries && Some(name) !in entries
    ensures WithImport(entries, None) == Success(entries + [None])
    ensures WithImport(entries + [None], Some(name)) == Failure(NullPointer)
  {
    NullEntryPoisons(entries + [None], name);
  }

  /** addImportIfRequired on a possibly-null list, for a possibly-null import name. */
  function AddImport(imports: Option<Imports>, name: Option<string>): (r: Result<Option<Imports>, Exception>)
    ensures imports.None? ==> r == Success(None)
    ensures imports.Some? ==>
      (r.Failure? <==> WithImport(imports.value, name).Failure?) &&
      (r.Success? ==> r.value == Some(WithImport(imports.value, name).value))
  {
    if imports.None? then Success(None)
    else
      match WithImport(imports.value, name)
      case Failure(e) => Failure(e)
      case Success(entries) => Success(Some(entries))
  }

  /** The list is still null, or only had entries appended. */
  predicate Extends(before: Option<Imports>, after: Option<Imports>) {
    before.None? == after.None? && (before.Some? ==> before.value <= after.value)
  }

  /** The growth an import list may undergo: entries appended, no duplicate introduced. */
  predicate Grows(before: Option<Imports>, after: Option<Imports>) {
    && Extends(before, after)
    && (before.Some? && NoDuplicateImports(before.value) ==> NoDuplicateImports(after.value))
  }

  /** A list holding no null entry. */
  predicate Clean(imports: Option<Imports>) {
    imports.Some? ==> None !in imports.value
  }

  lemma AddImportGrows(imports: Option<Imports>, name: Option<string>)
    requires AddImport(imports, name).Success?
    ensures Grows(imports, AddImport(imports, name).value)
    ensures imports.Some? ==> name in AddImport(imports, name).value.value
    ensures Clean(imports) && name.Some? ==> Clean(AddImport(imports, name).value)
  {
    if imports.Some? && NoDuplicateImports(imports.value) {
      WithImportNoDuplicates(imports.value, name);
    }
  }

  /** Every name is an entry of the list, when there is a list. */
  predicate Holds(imports: Option<Imports>, names: seq<string>) {
    imports.Some? ==> forall x :: x in names ==> Some(x) in imports.value
  }

  /** Names held by an import list are still held after it is extended. */
  lemma HoldsExtends(before: Option<Imports>, after: Option<Imports>, names: seq<string>)
    requires Extends(before, after) && Holds(before, names)
    ensures Holds(after, names)
  {
  }

  /** A list that holds two lists of names holds their concatenation. */
  lemma HoldsConcat(imports: Option<Imports>, a: seq<string>, b: seq<string>)
    requires Holds(imports, a) && Holds(imports, b)
    ensures Holds(imports, a + b)
  {
  }

  lemma ExtendsTransitive(a: Option<Imports>, b: Option<Imports>, c: Option<Imports>)
    requires Extends(a, b) && Extends(b, c)
    ensures Extends(a, c)
  {
  }

  lemma GrowsTransitive(a: Option<Imports>, b: Option<Imports>, c: Option<Imports>)
    requires Grows(a, b) && Grows(b, c)
    ensures Grows(a, c)
  {
  }

  // ---------------------------------------------------------------------------------------------
  // Parameter enrichment (ExtendedCodegenParameter).

  /** An ExtendedCodegenParameter: the copied parameter and the fields the generator adds. */
  datatype ExtendedParameter = ExtendedParameter(
    param: ParamData,
    isMandatoryParam: bool,
    formattedDefault: Option<string>,
    isQueryPluginProperty: bool)

  /**
   * The Java literal for a default value, by the first matching type in the order Long, Integer,
   * Double, Float, enum, Boolean; None for any other type.
   */
  function DefaultLiteral(p: ParamData, value: string): (r: Option<string>)
  {
    if p.kind.isLong then Some("Long.valueOf(" + value + ")")
    else if p.kind.isInteger then Some("Integer.valueOf(" + value + ")")
    else if p.kind.isDouble then Some("Double.valueOf(" + value + ")")
    else if p.kind.isFloat then Some("Float.valueOf(" + value + ")")
    else if p.kind.isEnum then Some(FormatArg(p.enumName) + "." + value)
    else if p.kind.isBoolean then Some("Boolean.valueOf(" + value + ")")
    else None
  }

  /** `s` ends with `suffix`. */
  predicate EndsWith(s: string, suffix: string) {
    |suffix| <= |s| && s[|s| - |suffix|..] == suffix
  }

  /**
   * A default value has a literal exactly when the parameter is a Long, Integer, Double, Float,
   * enum or Boolean; the literal ends with the value itself, or with the value closing a call.
   */
  lemma DefaultLiteralEndsWithValue(p: ParamData, value: string)
    ensures DefaultLiteral(p, value).None? <==>
      !(p.kind.isLong || p.kind.isInteger || p.kind.isDouble || p.kind.isFloat || p.kind.isEnum || p.kind.isBoolean)
    ensures DefaultLiteral(p, value).Some? ==>
      EndsWith(DefaultLiteral(p, value).value, value) || EndsWith(DefaultLiteral(p, value).value, value + ")")
  {
    match DefaultLiteral(p, value)
    case None =>
    case Some(literal) =>
      if p.kind.isEnum && !(p.kind.isLong || p.kind.isInteger || p.kind.isDouble || p.kind.isFloat) {
        var prefix := FormatArg(p.enumName) + ".";
        assert literal == prefix + value;
        assert literal[|prefix|..] == value;
      } else {
        var call := if p.kind.isLong then "Long.valueOf("
                    else if p.kind.isInteger then "Integer.valueOf("
                    else if p.kind.isDouble then "Double.valueOf("
                    else if p.kind.isFloat then "Float.valueOf("
                    else "Boolean.valueOf(";
        assert literal == call + (value + ")");
        assert literal[|call|..] == value + ")";
      }
  }

  function UnsupportedDefault(p: ParamData): Exception {
    IllegalState("FIXME: Need to implement formatted default value for type " + FormatArg(p.baseType))
  }

  /** The ExtendedCodegenParameter constructor. */
  function EnrichParameter(p: ParamData): (r: Result<ExtendedParameter, Exception>)
  {
    var mandatory := IsMandatoryParam(p);
    if !mandatory && p.defaultValue.Some? then
      match DefaultLiteral(p, p.defaultValue.value)
      case None => Failure(UnsupportedDefault(p))
      case Some(literal) => Success(ExtendedParameter(CopyParameter(p), mandatory, Some(literal), IsQueryPluginProperty(p)))
    else
      Success(ExtendedParameter(CopyParameter(p), mandatory, None, IsQueryPluginProperty(p)))
  }

  /**
   * The enriched parameter is the copy with the mandatory and plugin flags; an optional parameter
   * with a default gets its literal, and one of a type without a literal raises.
   */
  lemma EnrichParameterSpec(p: ParamData)
    ensures var r := EnrichParameter(p);
      r.Success? ==>
        && r.value.param == CopyParameter(p)
        && r.value.isMandatoryParam == IsMandatoryParam(p)
        && r.value.isQueryPluginProperty == IsQueryPluginProperty(p)
        && (r.value.formattedDefault.Some? <==> !IsMandatoryParam(p) && p.defaultValue.Some?)
        && (r.value.formattedDefault.Some? ==> r.value.formattedDefault == DefaultLiteral(p, p.defaultValue.value))
    ensures var r := EnrichParameter(p);
      r.Failure? <==> !IsMandatoryParam(p) && p.defaultValue.Some? && DefaultLiteral(p, p.defaultValue.value).None?
    ensures EnrichParameter(p).Failure? ==> EnrichParameter(p).error == UnsupportedDefault(p)
  {
  }

  /** A required header parameter is never mandatory and gets no formatted default. */
  lemma RequiredHeaderNotMandatory(p: ParamData)
    requires p.location.isHeaderParam && p.location.required
    ensures EnrichParameter(p).Success? ==> !EnrichParameter(p).value.isMandatoryParam
    ensures p.defaultValue.None? ==> EnrichParameter(p).Success?
  {
  }

  /** `importMapping.get(key)`; a missing key gives null. */
  function Lookup(mapping: map<string, string>, key: Option<string>): (r: Option<string>)
    ensures r.Some? <==> key.Some? && key.value in mapping
  {
    if key.Some? && key.value in mapping then Some(mapping[key.value]) else None
  }

  /** A call of addImportIfRequired that a step makes, or none. */
  datatype ImportRequest = NoImport | Import(name: Option<string>)

  /** The import list after a request. */
  function Request(imports: Option<Imports>, req: ImportRequest): Result<Option<Imports>, Exception> {
    match req
    case NoImport => Success(imports)
    case Import(name) => AddImport(imports, name)
  }

  /**
   * The enum import convertToExtendedCodegenParam requests for a parameter: the mapped type of an
   * enum, or of the items of an enum container (`p.items.isEnum` raises when there are no items).
   */
  function EnumImport(mapping: map<string, string>, p: ParamData): (r: Result<ImportRequest, Exception>)
    ensures r.Failure? <==> p.kind.isEnum && p.shape.isContainer && p.items.None?
    ensures r.Success? && r.value.Import? ==> p.kind.isEnum
    ensures p.kind.isEnum && !p.shape.isContainer ==> r == Success(Import(Lookup(mapping, p.datatypeWithEnum)))
  {
    if !p.kind.isEnum then Success(NoImport)
    else if !p.shape.isContainer then Success(Import(Lookup(mapping, p.datatypeWithEnum)))
    else if p.items.None? then Failure(NullPointer)
    else if p.items.value.isEnum then Success(Import(Lookup(mapping, p.items.value.datatypeWithEnum)))
    else Success(NoImport)
  }

  /** The container import an enriched parameter requests. */
  function ContainerImport(e: ExtendedParameter): (r: ImportRequest)
    ensures r.Import? ==> r.name.Some?
    ensures r.Import? <==> e.param.shape.isListContainer || e.param.shape.isMapContainer
  {
    if e.param.shape.isListContainer then Import(Some(ListImport))
    else if e.param.shape.isMapContainer then Import(Some(MapImport))
    else NoImport
  }

  /** One iteration of convertToExtendedCodegenParam: the enriched parameter and the import list after it. */
  function ConvertOne(mapping: map<string, string>, p: ParamData, imports: Option<Imports>)
    : (Result<ExtendedParameter, Exception>, Option<Imports>)
  {
    match EnumImport(mapping, p)
    case Failure(e) => (Failure(e), imports)
    case Success(req) =>
      match Request(imports, req)
      case Failure(e) => (Failure(e), imports)
      case Success(afterEnum) =>
        match EnrichParameter(p)
        case Failure(e) => (Failure(e), afterEnum)
        case Success(ext) =>
          match Request(afterEnum, ContainerImport(ext))
          case Failure(e) => (Failure(e), afterEnum)
          case Success(after) => (Success(ext), after)
  }

  /** convertToExtendedCodegenParam on the parameters' data: the enriched list and the import list after it. */
  function Convert(mapping: map<string, string>, ps: seq<ParamData>, imports: Option<Imports>)
    : (Result<seq<ExtendedParameter>, Exception>, Option<Imports>)
  {
    if ps == [] then (Success([]), imports)
    else
      var (done, afterDone) := Convert(mapping, ps[..|ps| - 1], imports);
      if done.Failure? then (done, afterDone)
      else
        var (last, afterLast) := ConvertOne(mapping, ps[|ps| - 1], afterDone);
        if last.Failure? then (Failure(last.error), afterLast)
        else (Success(done.value + [last.value]), afterLast)
  }

  /** A parameter whose conversion cannot raise on a list without null entries. */
  predicate Convertible(mapping: map<string, string>, p: ParamData) {
    && EnumImport(mapping, p).Success?
    && EnumImport(mapping, p).value != Import(None)
    && EnrichParameter(p).Success?
  }

  /** One iteration on a list without null entries: only an unconvertible parameter raises. */
  lemma ConvertOneClean(mapping: map<string, string>, p: ParamData, imports: Option<Imports>)
    requires Clean(imports) && Convertible(mapping, p)
    ensures ConvertOne(mapping, p, imports).0 == EnrichParameter(p)
    ensures Clean(ConvertOne(mapping, p, imports).1)
  {
    var req := EnumImport(mapping, p).value;
    if req.Import? {
      AddImportGrows(imports, req.name);
    }
    var afterEnum := Request(imports, req).value;
    var ext := EnrichParameter(p).value;
    if ContainerImport(ext).Import? {
      AddImportGrows(afterEnum, ContainerImport(ext).name);
    }
  }

  /** A successful conversion enriched every parameter, and no parameter's enum import raised. */
  lemma {:induction false} ConvertElementwise(mapping: map<string, string>, ps: seq<ParamData>, imports: Option<Imports>)
    requires Convert(mapping, ps, imports).0.Success?
    ensures Convert(mapping, ps, imports).0 == EnrichAll(ps)
    ensures forall k :: 0 <= k < |ps| ==> EnumImport(mapping, ps[k]).Success?
  {
    if ps != [] {
      var init := ps[..|ps| - 1];
      var p := ps[|ps| - 1];
      ConvertElementwise(mapping, init, imports);
      var (done, afterDone) := Convert(mapping, init, imports);
      var (last, _) := ConvertOne(mapping, p, afterDone);
      assert EnumImport(mapping, p).Success? && EnrichParameter(p) == Success(last.value);
      assert forall k :: 0 <= k < |init| ==> init[k] == ps[k];
    }
  }

  /**
   * On a list without null entries, convertible parameters always convert, and the list stays
   * without null entries.
   */
  lemma {:induction false} ConvertClean(mapping: map<string, string>, ps: seq<ParamData>, imports: Option<Imports>)
    requires Clean(imports)
    requires forall k :: 0 <= k < |ps| ==> Convertible(mapping, ps[k])
    ensures Convert(mapping, ps, imports).0.Success?
    ensures Clean(Convert(mapping, ps, imports).1)
  {
    if ps != [] {
      var init := ps[..|ps| - 1];
      assert forall k :: 0 <= k < |init| ==> init[k] == ps[k];
      ConvertClean(mapping, init, imports);
      ConvertOneClean(mapping, ps[|ps| - 1], Convert(mapping, init, imports).1);
    }
  }

  /** Conversion only grows the import list and keeps it free of duplicates. */
  lemma {:induction false} ConvertGrows(mapping: map<string, string>, ps: seq<ParamData>, imports: Option<Imports>)
    ensures Grows(imports, Convert(mapping, ps, imports).1)
  {
    if ps != [] {
      var init := ps[..|ps| - 1];
      ConvertGrows(mapping, init, imports);
      var (done, afterDone) := Convert(mapping, init, imports);
      if done.Success? {
        var p := ps[|ps| - 1];
        match EnumImport(mapping, p)
        case Failure(_) =>
        case Success(req) =>
          match Request(afterDone, req)
          case Failure(_) =>
          case Success(afterEnum) =>
            if req.Import? {
              AddImportGrows(afterDone, req.name);
              GrowsTransitive(imports, afterDone, afterEnum);
            }
            match EnrichParameter(p)
            case Failure(_) =>
            case Success(ext) =>
              match Request(afterEnum, ContainerImport(ext))
              case Failure(_) =>
              case Success(after) =>
                if ContainerImport(ext).Import? {
                  AddImportGrows(afterEnum, ContainerImport(ext).name);
                  GrowsTransitive(imports, afterEnum, after);
                }
      }
    }
  }

  /**
   * The names of the imports the conversion of one parameter asks for: the mapped type of its enum,
   * when the mapping knows it, then List or Map for a container.
   */
  function RequestedImports(mapping: map<string, string>, p: ParamData): seq<string> {
    (match EnumImport(mapping, p) case Success(Import(Some(name))) => [name] case _ => []) +
    (match EnrichParameter(p)
     case Success(ext) => (match ContainerImport(ext) case Import(Some(name)) => [name] case _ => [])
     case _ => [])
  }

  /** The names of the imports the conversion of a parameter list asks for, parameter by parameter. */
  function ConversionImports(mapping: map<string, string>, ps: seq<ParamData>): seq<string> {
    if ps == [] then [] else ConversionImports(mapping, ps[..|ps| - 1]) + RequestedImports(mapping, ps[|ps| - 1])
  }

  /** A successful iteration leaves the parameter's imports in the list. */
  lemma ConvertOneHolds(mapping: map<string, string>, p: ParamData, imports: Option<Imports>)
    requires ConvertOne(mapping, p, imports).0.Success?
    ensures Holds(ConvertOne(mapping, p, imports).1, RequestedImports(mapping, p))
    ensures Extends(imports, ConvertOne(mapping, p, imports).1)
  {
    var req := EnumImport(mapping, p).value;
    var afterEnum := Request(imports, req).value;
    var enumNames := match req case Import(Some(name)) => [name] case _ => [];
    if req.Import? {
      AddImportGrows(imports, req.name);
    }
    assert Holds(afterEnum, enumNames);
    var ext := EnrichParameter(p).value;
    var after := Request(afterEnum, ContainerImport(ext)).value;
    var containerNames := match ContainerImport(ext) case Import(Some(name)) => [name] case _ => [];
    if ContainerImport(ext).Import? {
      AddImportGrows(afterEnum, ContainerImport(ext).name);
    }
    HoldsExtends(afterEnum, after, enumNames);
    HoldsConcat(after, enumNames, containerNames);
  }

  /** A successful conversion leaves every import it asked for in the list. */
  lemma {:induction false} ConvertHolds(mapping: map<string, string>, ps: seq<ParamData>, imports: Option<Imports>)
    requires Convert(mapping, ps, imports).0.Success?
    ensures Holds(Convert(mapping, ps, imports).1, ConversionImports(mapping, ps))
  {
    if ps != [] {
      var init := ps[..|ps| - 1];
      var p := ps[|ps| - 1];
      var (done, afterDone) := Convert(mapping, init, imports);
      ConvertHolds(mapping, init, imports);
      ConvertOneHolds(mapping, p, afterDone);
      var after := ConvertOne(mapping, p, afterDone).1;
      HoldsExtends(afterDone, after, ConversionImports(mapping, init));
      HoldsConcat(after, ConversionImports(mapping, init), RequestedImports(mapping, p));
    }
  }

  /** Converting one more parameter after a successful prefix. */
  lemma ConvertSnoc(mapping: map<string, string>, ps: seq<ParamData>, i: nat, imports: Option<Imports>,
                    done: seq<ExtendedParameter>, afterDone: Option<Imports>)
    requires i < |ps| && Convert(mapping, ps[..i], imports) == (Success(done), afterDone)
    ensures var (last, afterLast) := ConvertOne(mapping, ps[i], afterDone);
      Convert(mapping, ps[..i + 1], imports) ==
        if last.Failure? then (Failure(last.error), afterLast) else (Success(done + [last.value]), afterLast)
  {
    assert ps[..i + 1][..i] == ps[..i];
  }

  /** Once a conversion has failed, further parameters change neither the outcome nor the imports. */
  lemma {:induction false} ConvertFailureSticks(mapping: map<string, string>, ps: seq<ParamData>, n: nat, imports: Option<Imports>)
    requires n <= |ps|
    requires Convert(mapping, ps[..n], imports).0.Failure?
    ensures Convert(mapping, ps, imports) == Convert(mapping, ps[..n], imports)
    decreases |ps| - n
  {
    if n < |ps| {
      assert ps[..n + 1][..n] == ps[..n];
      ConvertFailureSticks(mapping, ps, n + 1, imports);
    } else {
      assert ps[..n] == ps;
    }
  }

  /** The enrichment of a whole list, parameter by parameter; the first failure is the outcome. */
  function EnrichAll(ps: seq<ParamData>): Result<seq<ExtendedParameter>, Exception> {
    if ps == [] then Success([])
    else
      match EnrichAll(ps[..|ps| - 1])
      case Failure(e) => Failure(e)
      case Success(done) =>
        match EnrichParameter(ps[|ps| - 1])
        case Failure(e) => Failure(e)
        case Success(last) => Success(done + [last])
  }

  /**
   * A list is enriched exactly when each of its parameters is, element k being the enrichment of
   * parameter k.
   */
  lemma {:induction false} EnrichAllElementwise(ps: seq<ParamData>)
    ensures EnrichAll(ps).Success? <==> forall k :: 0 <= k < |ps| ==> EnrichParameter(ps[k]).Success?
    ensures EnrichAll(ps).Success? ==>
      |EnrichAll(ps).value| == |ps| &&
      forall k :: 0 <= k < |ps| ==> EnrichParameter(ps[k]) == Success(EnrichAll(ps).value[k])
  {
    if ps != [] {
      var init := ps[..|ps| - 1];
      EnrichAllElementwise(init);
      assert forall k :: 0 <= k < |init| ==> init[k] == ps[k];
    }
  }

  /** Parameter k is the first one whose enrichment raises, and it raises e. */
  predicate FirstFailureAt(ps: seq<ParamData>, k: int, e: Exception) {
    && 0 <= k < |ps| && EnrichParameter(ps[k]) == Failure(e)
    && forall j :: 0 <= j < k ==> EnrichParameter(ps[j]).Success?
  }

  /** A failed enrichment raised the exception of the first parameter that could not be enriched. */
  lemma {:induction false} EnrichAllFirstFailure(ps: seq<ParamData>)
    requires EnrichAll(ps).Failure?
    ensures exists k :: FirstFailureAt(ps, k, EnrichAll(ps).error)
  {
    var init := ps[..|ps| - 1];
    assert forall k :: 0 <= k < |init| ==> init[k] == ps[k];
    if EnrichAll(init).Failure? {
      EnrichAllFirstFailure(init);
      var k :| FirstFailureAt(init, k, EnrichAll(init).error);
      assert FirstFailureAt(ps, k, EnrichAll(ps).error);
    } else {
      EnrichAllElementwise(init);
      assert FirstFailureAt(ps, |ps| - 1, EnrichAll(ps).error);
    }
  }

  // ---------------------------------------------------------------------------------------------
  // Operation enrichment (ExtendedCodegenOperation).

  /** The fields the ExtendedCodegenOperation constructor computes. */
  datatype ExtendedFlags = ExtendedFlags(
    verbs: Verbs,
    isBodyModelRefContainer: bool,
    isReturnModelRefContainer: bool,
    isStream: bool,
    hasNonRequiredDefaultQueryParams: bool,
    returnType: Option<string>)

  /** The body is a container of a registered model, submitted by POST or PUT. */
  predicate IsBodyModelRefContainer(verbs: Verbs, body: Option<ParamData>, allModels: set<string>) {
    (verbs.isPost || verbs.isPut) && body.Some? && body.value.shape.isContainer &&
    body.value.baseType.Some? && body.value.baseType.value in allModels
  }

  /** The return value is an array of a known base type, model or not. */
  predicate IsReturnModelRefContainer(o: Operation) {
    o.returnContainer == Some("array") && o.returnBaseType.Some?
  }

  /** The body parameter after the constructor: a model-list body takes its collection wrapper type. */
  function BodyAfter(verbs: Verbs, body: ParamData, allModels: set<string>): (r: ParamData)
    ensures IsBodyModelRefContainer(verbs, Some(body), allModels) ==>
      r == body.(dataType := Some(body.baseType.value + "s"))
    ensures !IsBodyModelRefContainer(verbs, Some(body), allModels) ==> r == body
  {
    if IsBodyModelRefContainer(verbs, Some(body), allModels) then body.(dataType := Some(Pluralize(body.baseType)))
    else body
  }

  /** The flags the constructor computes from the operation, its body and query parameter data. */
  function OperationFlags(o: Operation, body: Option<ParamData>, queryParams: seq<ParamData>, allModels: set<string>)
    : (r: Result<ExtendedFlags, Exception>)
  {
    var verbs := VerbFlags(o.httpMethod);
    var isReturn := IsReturnModelRefContainer(o);
    match IsStream(o.produces)
    case Failure(e) => Failure(e)
    case Success(stream) =>
      Success(ExtendedFlags(
        verbs,
        IsBodyModelRefContainer(verbs, body, allModels),
        isReturn,
        stream,
        HasNonRequiredDefaultQueryParams(queryParams),
        if isReturn then Some(Pluralize(o.returnBaseType)) else o.returnType))
  }

  /**
   * The registered models only decide whether the body is rewritten: whether the constructor
   * raises, the verbs, the return flags and type, isStream and hasNonRequiredDefaultQueryParams
   * are the same for any body and any set of models.
   */
  lemma OperationFlagsIgnoreModels(o: Operation, body: Option<ParamData>, otherBody: Option<ParamData>,
                                   queryParams: seq<ParamData>, allModels: set<string>, otherModels: set<string>)
    ensures OperationFlags(o, body, queryParams, allModels).Success? <==>
            OperationFlags(o, otherBody, queryParams, otherModels).Success?
    ensures var (r, s) := (OperationFlags(o, body, queryParams, allModels), OperationFlags(o, otherBody, queryParams, otherModels));
      r.Success? ==>
        && r.value.(isBodyModelRefContainer := false) == s.value.(isBodyModelRefContainer := false)
        && r.value.returnType == s.value.returnType
        && r.value.isReturnModelRefContainer == s.value.isReturnModelRefContainer
  {
  }

  /** Only a POST or PUT body that is a container of a registered model is flagged for rewriting. */
  lemma BodyFlagNeedsWriteOfModel(o: Operation, body: Option<ParamData>, queryParams: seq<ParamData>, allModels: set<string>)
    requires OperationFlags(o, body, queryParams, allModels).Success?
    ensures OperationFlags(o, body, queryParams, allModels).value.isBodyModelRefContainer ==>
      && (VerbFlags(o.httpMethod).isPost || VerbFlags(o.httpMethod).isPut)
      && body.Some? && body.value.shape.isContainer
      && body.value.baseType.Some? && body.value.baseType.value in allModels
  {
  }

  /** An array of DateTime is returned as DateTimes, whatever models are registered. */
  lemma DateTimeListReturn(o: Operation, body: Option<ParamData>, queryParams: seq<ParamData>, allModels: set<string>)
    requires o.returnContainer == Some("array") && o.returnBaseType == Some("DateTime")
    requires o.produces.None?
    ensures OperationFlags(o, body, queryParams, allModels).Success?
    ensures OperationFlags(o, body, queryParams, allModels).value.isReturnModelRefContainer
    ensures OperationFlags(o, body, queryParams, allModels).value.returnType == Some("DateTimes")
  {
    assert Pluralize(o.returnBaseType) == "DateTime" + "s" == "DateTimes";
  }

  /** A body is only rewritten when its base type is a registered model name. */
  lemma BodyRewriteNeedsRegisteredModel(verbs: Verbs, body: ParamData, allModels: set<string>)
    requires body.baseType.Some? && body.baseType.value !in allModels
    ensures BodyAfter(verbs, body, allModels) == body
  {
  }

  /** The imports an extended operation asks for itself, in the order they are added. */
  function OperationImports(o: Operation, f: ExtendedFlags, body: Option<ParamData>): seq<string> {
    ModelImports(f, body) + UtilityImports(o, f)
  }

  /** The model classes an extended operation imports: its returned model, then its body model. */
  function ModelImports(f: ExtendedFlags, body: Option<ParamData>): seq<string> {
    (if f.isReturnModelRefContainer then [ModelPackagePrefix + FormatArg(f.returnType)] else []) +
    (if f.isBodyModelRefContainer && body.Some? then [ModelPackagePrefix + FormatArg(body.value.dataType)] else [])
  }

  /** The library classes an extended operation imports: the stream classes, then List or Map. */
  function UtilityImports(o: Operation, f: ExtendedFlags): seq<string> {
    (if f.isStream then [OutputStreamImport, ResponseImport] else []) +
    (if o.isListContainer then [ListImport] else if o.isMapContainer then [MapImport] else [])
  }

  /** Holding names added list by list is holding them all after the first. */
  lemma HoldsRegrouped(imports: Option<Imports>, held: seq<string>, a: seq<string>, b: seq<string>, c: seq<string>,
                       d: seq<string>, e: seq<string>)
    requires Holds(imports, held + a + b + c + d + e)
    ensures Holds(imports, held + (a + b + c + d + e))
  {
    assert held + a + b + c + d + e == held + (a + b + c + d + e);
  }

  /** The imports the conversion of an operation's five parameter lists asks for, list by list. */
  function ListsImports(mapping: map<string, string>, params: OperationParams): seq<string> {
    ConversionImports(mapping, params.allParams) + ConversionImports(mapping, params.bodyParams) +
    ConversionImports(mapping, params.pathParams) + ConversionImports(mapping, params.queryParams) +
    ConversionImports(mapping, params.formParams)
  }

  /** Every import one iteration of postProcessOperations asks for: the operation's own, then its parameters'. */
  function AllImports(mapping: map<string, string>, o: Operation, f: ExtendedFlags, params: OperationParams): seq<string> {
    OperationImports(o, f, params.body) + ListsImports(mapping, params)
  }

  /** An ExtendedCodegenOperation after postProcessOperations has converted its parameter lists. */
  datatype ExtendedOperation = ExtendedOperation(
    flags: ExtendedFlags,
    bodyParam: Parameter?,
    allParams: seq<ExtendedParameter>,
    bodyParams: seq<ExtendedParameter>,
    pathParams: seq<ExtendedParameter>,
    queryParams: seq<ExtendedParameter>,
    formParams: seq<ExtendedParameter>)

  /** Every parameter list of `e` is the enrichment of the matching list. */
  predicate ConvertedLists(e: ExtendedOperation, params: OperationParams) {
    && EnrichAll(params.allParams) == Success(e.allParams)
    && EnrichAll(params.bodyParams) == Success(e.bodyParams)
    && EnrichAll(params.pathParams) == Success(e.pathParams)
    && EnrichAll(params.queryParams) == Success(e.queryParams)
    && EnrichAll(params.formParams) == Success(e.formParams)
  }

  /**
   * What postProcessOperations promises about one operation whose body parameter held `before`
   * and whose parameter objects hold `params` afterwards: the flags the constructor computes, the
   * same body parameter object, now holding the body as the constructor rewrote it, and parameter
   * lists that are the enrichments of the lists as the constructor left them.
   */
  predicate ProcessedFrom(o: Operation, before: Option<ParamData>, params: OperationParams, e: ExtendedOperation,
                          allModels: set<string>) {
    && OperationFlags(o, before, params.queryParams, allModels) == Success(e.flags)
    && e.bodyParam == o.bodyParam
    && (params.body.Some? <==> before.Some?)
    && (before.Some? ==> params.body.value == BodyAfter(e.flags.verbs, before.value, allModels))
    && ConvertedLists(e, params)
  }

  /** ProcessedFrom, for the parameter objects as they are now. */
  ghost predicate Processed(o: Operation, before: Option<ParamData>, e: ExtendedOperation, allModels: set<string>)
    reads o.bodyParam, o.allParams, o.bodyParams, o.pathParams, o.queryParams, o.formParams
  {
    ProcessedFrom(o, before, Params(o), e, allModels)
  }

  // ---------------------------------------------------------------------------------------------
  // Model post-processing.

  /** Property j is the first one named n. */
  predicate IsFirstNamed(vars: seq<Property>, n: string, j: int) {
    0 <= j < |vars| && vars[j].name == n && forall i :: 0 <= i < j ==> vars[i].name != n
  }

  predicate HasNamed(vars: seq<Property>, n: string) {
    exists j :: 0 <= j < |vars| && vars[j].name == n
  }

  /** The position of the first property named n: where the iterator loop stops. */
  function FirstNamed(vars: seq<Property>, n: string): (r: Option<nat>)
    ensures r.Some? ==> IsFirstNamed(vars, n, r.value)
    ensures r.None? <==> !HasNamed(vars, n)
  {
    if vars == [] then None
    else if vars[0].name == n then Some(0)
    else
      match FirstNamed(vars[1..], n)
      case None => None
      case Some(k) => Some(k + 1)
  }

  /** Two property lists with the same names, position by position. */
  predicate SameNames(a: seq<Property>, b: seq<Property>) {
    |a| == |b| && forall j :: 0 <= j < |a| ==> a[j].name == b[j].name
  }

  lemma FirstNamedSameNames(a: seq<Property>, b: seq<Property>, n: string)
    requires SameNames(a, b)
    ensures FirstNamed(a, n) == FirstNamed(b, n)
  {
    if FirstNamed(a, n).Some? {
      assert IsFirstNamed(b, n, FirstNamed(a, n).value);
    }
    if FirstNamed(b, n).Some? {
      assert IsFirstNamed(a, n, FirstNamed(b, n).value);
    }
  }

  /** The AuditLog model: it and its first `history` property become entity-generic; Entity is no longer imported. */
  function MarkAuditLog(s: ModelState): (r: ModelState)
    ensures r.vendorExtensions == s.vendorExtensions[EntityGeneric := true]
    ensures r.parent == s.parent
    ensures SameNames(r.vars, s.vars)
    ensures forall j :: 0 <= j < |s.vars| ==>
      r.vars[j] == if IsFirstNamed(s.vars, HistoryProperty, j)
                   then s.vars[j].(vendorExtensions := s.vars[j].vendorExtensions[EntityGeneric := true])
                   else s.vars[j]
    ensures r.imports == if HasNamed(s.vars, HistoryProperty) then s.imports - {EntityModel} else s.imports
  {
    var marked := s.(vendorExtensions := s.vendorExtensions[EntityGeneric := true]);
    match FirstNamed(s.vars, HistoryProperty)
    case None => marked
    case Some(k) =>
      var p := s.vars[k];
      marked.(vars := s.vars[k := p.(vendorExtensions := p.vendorExtensions[EntityGeneric := true])],
              imports := s.imports - {EntityModel})
  }

  /** Any other model: its first `auditLogs` property is inherited from KillBillObject, which becomes its parent. */
  function InheritAuditLogs(s: ModelState): (r: ModelState)
    ensures r.vendorExtensions == s.vendorExtensions && r.imports == s.imports
    ensures SameNames(r.vars, s.vars)
    ensures forall j :: 0 <= j < |s.vars| ==>
      r.vars[j] == if IsFirstNamed(s.vars, AuditLogsProperty, j) then s.vars[j].(isInherited := true) else s.vars[j]
    ensures r.parent == if HasNamed(s.vars, AuditLogsProperty) then Some(KillBillObject) else s.parent
  {
    match FirstNamed(s.vars, AuditLogsProperty)
    case None => s
    case Some(k) => s.(vars := s.vars[k := s.vars[k].(isInherited := true)], parent := Some(KillBillObject))
  }

  /** What postProcessModels does to a model other than Entity. */
  function EnrichedModel(name: string, s: ModelState): ModelState {
    if name == AuditLogModel then MarkAuditLog(s) else InheritAuditLogs(s)
  }

  /** Post-processing a model twice is post-processing it once. */
  lemma EnrichedModelIdempotent(name: string, s: ModelState)
    ensures EnrichedModel(name, EnrichedModel(name, s)) == EnrichedModel(name, s)
  {
    if name == AuditLogModel {
      MarkAuditLogIdempotent(s);
    } else {
      InheritAuditLogsIdempotent(s);
    }
  }

  /** Marking the audit-log model a second time changes nothing. */
  lemma MarkAuditLogIdempotent(s: ModelState)
    ensures MarkAuditLog(MarkAuditLog(s)) == MarkAuditLog(s)
  {
    var once := MarkAuditLog(s);
    FirstNamedSameNames(once.vars, s.vars, HistoryProperty);
    match FirstNamed(s.vars, HistoryProperty)
    case None =>
    case Some(k) =>
      var p := once.vars[k];
      assert p.vendorExtensions[EntityGeneric := true] == p.vendorExtensions;
      assert once.vars[k := p.(vendorExtensions := p.vendorExtensions[EntityGeneric := true])] == once.vars;
  }

  /** Inheriting `auditLogs` a second time changes nothing. */
  lemma InheritAuditLogsIdempotent(s: ModelState)
    ensures InheritAuditLogs(InheritAuditLogs(s)) == InheritAuditLogs(s)
  {
    var once := InheritAuditLogs(s);
    FirstNamedSameNames(once.vars, s.vars, AuditLogsProperty);
    match FirstNamed(s.vars, AuditLogsProperty)
    case None =>
    case Some(k) =>
      assert once.vars[k := once.vars[k].(isInherited := true)] == once.vars;
  }

  /** The position of the first model named Entity, or the length of the list. */
  function EntityIndex(models: seq<Model>): (r: nat)
    ensures r <= |models|
    ensures r < |models| ==> models[r].name == EntityModel
    ensures forall j :: 0 <= j < r ==> models[j].name != EntityModel
  {
    if models == [] then 0
    else if models[0].name == EntityModel then 0
    else 1 + EntityIndex(models[1..])
  }

  /** The names of the first n models. */
  function Names(models: seq<Model>, n: nat): set<string>
    requires n <= |models|
  {
    set j | 0 <= j < n :: models[j].name
  }

  // ---------------------------------------------------------------------------------------------
  // The generator.

  class JavaGenerator {
    /** The API enums found in the Kill Bill API jar. */
    const apiEnums: Registry
    /** The import mapping set up by processOpts. */
    const importMapping: map<string, string>
    /** ALL_MODELS: the names of the models post-processed so far. */
    var allModels: set<string>

    predicate Valid() {
      WellFormedRegistry(apiEnums)
    }

    constructor (apiEnums: Registry, importMapping: map<string, string>)
      requires WellFormedRegistry(apiEnums)
      ensures Valid()
      ensures this.apiEnums == apiEnums && this.importMapping == importMapping && allModels == {}
    {
      this.apiEnums := apiEnums;
      this.importMapping := importMapping;
      allModels := {};
    }

    /** findEnumType: some registered enum whose first value is the given literal, in no particular order. */
    method FindEnumType(firstEnumValue: string) returns (r: Result<string, Exception>)
      requires Valid()
      ensures r.Success? ==> Resolves(apiEnums, firstEnumValue, r.value)
      ensures r.Failure? <==> Unresolvable(apiEnums, firstEnumValue)
      ensures r.Failure? ==> r.error == UnresolvedEnum(firstEnumValue)
    {
      var keys := apiEnums.Keys;
      while keys != {}
        invariant keys <= apiEnums.Keys
        invariant forall k :: k in apiEnums.Keys - keys ==> !Resolves(apiEnums, firstEnumValue, k)
        decreases keys
      {
        var key :| key in keys;
        if apiEnums[key][0] == firstEnumValue {
          return Success(key);
        }
        keys := keys - {key};
      }
      return Failure(UnresolvedEnum(firstEnumValue));
    }

    /**
     * toEnumName: the registry's enum for the first literal; else the property's datatypeWithEnum;
     * else a name derived from the property name (`sanitizeName(camelize(name))`, given here).
     */
    method ToEnumName(property: Property, derivedName: string -> string) returns (r: Result<string, Exception>)
      requires Valid()
      ensures HasEnumLiterals(property) ==>
        var first := property.enumValues.value[0];
        && (r.Success? ==> Resolves(apiEnums, first, r.value))
        && (r.Failure? <==> Unresolvable(apiEnums, first))
      ensures property.isEnum && !HasEnumLiterals(property) && property.datatypeWithEnum.Some? ==>
        r == Success(property.datatypeWithEnum.value)
      ensures !property.isEnum || (!HasEnumLiterals(property) && property.datatypeWithEnum.None?) ==>
        r == Success(derivedName(property.name))
    {
      if property.isEnum {
        if property.enumValues.Some? && |property.enumValues.value| > 0 {
          r := FindEnumType(property.enumValues.value[0]);
          return;
        } else if property.datatypeWithEnum.Some? {
          return Success(property.datatypeWithEnum.value);
        }
      }
      return Success(derivedName(property.name));
    }

    /**
     * postProcessModelProperty: an enum property (or enum container) imports its resolved enum
     * type, a boolean property imports JsonProperty.
     */
    method PostProcessModelProperty(model: Model, property: Property) returns (outcome: Outcome<Exception>)
      requires Valid()
      modifies model`imports
      ensures var extra := if property.isBoolean then {JsonPropertyImport} else {};
        match EnumLiteral(property)
        case None => outcome == Pass && model.imports == old(model.imports) + extra
        case Some(Failure(e)) => outcome == Fail(e) && model.imports == old(model.imports)
        case Some(Success(v)) =>
          if Unresolvable(apiEnums, v) then
            outcome == Fail(UnresolvedEnum(v)) && model.imports == old(model.imports)
          else
            outcome == Pass &&
            exists k :: Resolves(apiEnums, v, k) && model.imports == old(model.imports) + {k} + extra
    {
      var literal := EnumLiteral(property);
      if literal.Some? {
        if literal.value.Failure? {
          return Fail(literal.value.error);
        }
        var guessed := FindEnumType(literal.value.value);
        if guessed.Failure? {
          return Fail(guessed.error);
        }
        model.imports := model.imports + {guessed.value};
      }
      if property.isBoolean {
        model.imports := model.imports + {JsonPropertyImport};
      }
      outcome := Pass;
    }

    /** The loop body of postProcessModels for a model other than Entity. */
    method EnrichModel(m: Model)
      modifies m
      ensures m.State() == EnrichedModel(m.name, old(m.State()))
    {
      var i := 0;
      if m.name == AuditLogModel {
        m.vendorExtensions := m.vendorExtensions[EntityGeneric := true];
        while i < |m.vars|
          invariant 0 <= i <= |m.vars|
          invariant m.vars == old(m.vars) && m.imports == old(m.imports) && m.parent == old(m.parent)
          invariant m.vendorExtensions == old(m.vendorExtensions)[EntityGeneric := true]
          invariant forall j :: 0 <= j < i ==> m.vars[j].name != HistoryProperty
        {
          var p := m.vars[i];
          if p.name == HistoryProperty {
            assert FirstNamed(old(m.vars), HistoryProperty) == Some(i);
            m.vars := m.vars[i := p.(vendorExtensions := p.vendorExtensions[EntityGeneric := true])];
            m.imports := m.imports - {EntityModel};
            return;
          }
          i := i + 1;
        }
        assert FirstNamed(old(m.vars), HistoryProperty) == None;
      } else {
        while i < |m.vars|
          invariant 0 <= i <= |m.vars|
          invariant m.State() == old(m.State())
          invariant forall j :: 0 <= j < i ==> m.vars[j].name != AuditLogsProperty
        {
          var p := m.vars[i];
          if p.name == AuditLogsProperty {
            assert FirstNamed(old(m.vars), AuditLogsProperty) == Some(i);
            m.vars := m.vars[i := p.(isInherited := true)];
            m.parent := Some(KillBillObject);
            return;
          }
          i := i + 1;
        }
        assert FirstNamed(old(m.vars), AuditLogsProperty) == None;
      }
    }

    /**
     * postProcessModels: each model up to the first one named Entity is post-processed and its
     * name registered; meeting Entity stops the walk and drops the whole result (`kept` false).
     */
    method PostProcessModels(models: seq<Model>) returns (kept: bool)
      modifies this, models
      ensures kept <==> EntityIndex(models) == |models|
      ensures allModels == old(allModels) + Names(models, EntityIndex(models))
      ensures forall m :: m in models[..EntityIndex(models)] ==> m.State() == EnrichedModel(m.name, old(m.State()))
      ensures forall m :: m in models && m !in models[..EntityIndex(models)] ==> m.State() == old(m.State())
    {
      var i := 0;
      while i < |models|
        invariant 0 <= i <= |models|
        invariant forall j :: 0 <= j < i ==> models[j].name != EntityModel
        invariant allModels == old(allModels) + Names(models, i)
        invariant forall m :: m in models[..i] ==> m.State() == EnrichedModel(m.name, old(m.State()))
        invariant forall m :: m in models && m !in models[..i] ==> m.State() == old(m.State())
      {
        var m := models[i];
        if m.name == EntityModel {
          assert EntityIndex(models) == i;
          return false;
        }
        EnrichedModelIdempotent(m.name, old(m.State()));
        EnrichModel(m);
        allModels := allModels + {m.name};
        assert Names(models, i + 1) == Names(models, i) + {m.name};
        assert forall x :: x in models[..i + 1] <==> x in models[..i] || x == m;
        i := i + 1;
      }
      assert EntityIndex(models) == |models|;
      assert models[..i] == models;
      kept := true;
    }

    /**
     * addImportIfRequired: nothing for a null list; otherwise scan the entries and append
     * {"import": newImport} when none equals it. `i.equals(newImport)` raises on a null entry.
     */
    static method AddImportIfRequired(imports: ImportList?, newImport: Option<string>) returns (outcome: Outcome<Exception>)
      modifies imports
      ensures outcome.Pass? ==> AddImport(old(EntriesOf(imports)), newImport) == Success(EntriesOf(imports))
      ensures outcome.Fail? ==>
        AddImport(old(EntriesOf(imports)), newImport) == Failure(outcome.error) &&
        EntriesOf(imports) == old(EntriesOf(imports))
    {
      if imports == null {
        return Pass;
      }
      var k := 0;
      while k < |imports.entries|
        invariant 0 <= k <= |imports.entries|
        invariant imports.entries == old(imports.entries)
        invariant forall j :: 0 <= j < k ==> !StopsScan(imports.entries[j], newImport)
      {
        var i := imports.entries[k];
        if i.None? {
          assert FirstStop(imports.entries, newImport) == Some(k);
          return Fail(NullPointer);
        }
        if newImport.Some? && i.value == newImport.value {
          assert FirstStop(imports.entries, newImport) == Some(k);
          return Pass;
        }
        k := k + 1;
      }
      assert FirstStop(imports.entries, newImport).None?;
      imports.entries := imports.entries + [newImport];
      outcome := Pass;
    }

    /** One iteration of convertToExtendedCodegenParam. */
    method ConvertParameter(p: ParamData, imports: ImportList?) returns (r: Result<ExtendedParameter, Exception>)
      modifies imports
      ensures (r, EntriesOf(imports)) == ConvertOne(importMapping, p, old(EntriesOf(imports)))
    {
      if p.kind.isEnum {
        if !p.shape.isContainer {
          var added := AddImportIfRequired(imports, Lookup(importMapping, p.datatypeWithEnum));
          if added.Fail? {
            return Failure(added.error);
          }
        } else if p.items.None? {
          return Failure(NullPointer);
        } else if p.items.value.isEnum {
          var added := AddImportIfRequired(imports, Lookup(importMapping, p.items.value.datatypeWithEnum));
          if added.Fail? {
            return Failure(added.error);
          }
        }
      }
      var e := EnrichParameter(p);
      if e.Failure? {
        return Failure(e.error);
      }
      if e.value.param.shape.isListContainer {
        var added := AddImportIfRequired(imports, Some(ListImport));
        if added.Fail? {
          return Failure(added.error);
        }
      } else if e.value.param.shape.isMapContainer {
        var added := AddImportIfRequired(imports, Some(MapImport));
        if added.Fail? {
          return Failure(added.error);
        }
      }
      r := Success(e.value);
    }

    /**
     * convertToExtendedCodegenParam: enrich each parameter in order, adding the imports it needs.
     * It only reads the parameters, so it is given their data.
     */
    method ConvertToExtendedCodegenParam(input: seq<ParamData>, imports: ImportList?)
      returns (r: Result<seq<ExtendedParameter>, Exception>)
      modifies imports
      ensures (r, EntriesOf(imports)) == Convert(importMapping, input, old(EntriesOf(imports)))
    {
      ghost var start := EntriesOf(imports);
      var result := [];
      var i := 0;
      while i < |input|
        invariant 0 <= i <= |input|
        invariant (Success(result), EntriesOf(imports)) == Convert(importMapping, input[..i], start)
      {
        ghost var before := EntriesOf(imports);
        var e := ConvertParameter(input[i], imports);
        ConvertSnoc(importMapping, input, i, start, result, before);
        if e.Failure? {
          ConvertFailureSticks(importMapping, input, i + 1, start);
          return Failure(e.error);
        }
        result := result + [e.value];
        i := i + 1;
      }
      assert input[..i] == input;
      r := Success(result);
    }

    /**
     * The ExtendedCodegenOperation constructor: computes the flags and rewrites a model-list body
     * to its collection wrapper type on the shared body parameter object, before isStream can raise.
     */
    method NewExtendedOperation(o: Operation) returns (r: Result<ExtendedFlags, Exception>)
      modifies o.bodyParam
      ensures r == OperationFlags(o, old(DataOf(o.bodyParam)), Datas(o.queryParams), allModels)
      ensures o.bodyParam != null ==>
        o.bodyParam.data == BodyAfter(VerbFlags(o.httpMethod), old(o.bodyParam.data), allModels)
    {
      var verbs := VerbFlags(o.httpMethod);
      var isBody := IsBodyModelRefContainer(verbs, DataOf(o.bodyParam), allModels);
      if isBody {
        o.bodyParam.data := o.bodyParam.data.(dataType := Some(Pluralize(o.bodyParam.data.baseType)));
      }
      var isReturn := o.returnContainer.Some? && o.returnContainer.value == "array" && o.returnBaseType.Some?;
      var returnType := if isReturn then Some(Pluralize(o.returnBaseType)) else o.returnType;
      var stream := IsStream(o.produces);
      if stream.Failure? {
        return Failure(stream.error);
      }
      var queryParams := Datas(o.queryParams);
      r := Success(ExtendedFlags(verbs, isBody, isReturn, stream.value,
                                 HasNonRequiredDefaultQueryParams(queryParams), returnType));
    }

    /**
     * Converts one parameter list of an operation. The import list keeps growing from the list it
     * was at `since`, keeps the names in `held` and, on success, receives every import the
     * conversion asks for.
     */
    method ConvertList(input: seq<ParamData>, imports: ImportList?, ghost since: Option<Imports>, ghost held: seq<string>)
      returns (r: Result<seq<ExtendedParameter>, Exception>)
      requires Grows(since, EntriesOf(imports)) && Holds(EntriesOf(imports), held)
      modifies imports
      ensures r.Success? ==> EnrichAll(input) == r
      ensures Grows(since, EntriesOf(imports))
      ensures r.Success? ==> Holds(EntriesOf(imports), held + ConversionImports(importMapping, input))
    {
      r := ConvertToExtendedCodegenParam(input, imports);
      ConvertGrows(importMapping, input, old(EntriesOf(imports)));
      GrowsTransitive(since, old(EntriesOf(imports)), EntriesOf(imports));
      if r.Success? {
        ConvertElementwise(importMapping, input, old(EntriesOf(imports)));
        ConvertHolds(importMapping, input, old(EntriesOf(imports)));
        HoldsExtends(old(EntriesOf(imports)), EntriesOf(imports), held);
        HoldsConcat(EntriesOf(imports), held, ConversionImports(importMapping, input));
      }
    }

    /**
     * Adds one import an extended operation asks for. The import list keeps growing from the list it
     * was at `since`, and keeps the names in `held`.
     */
    static method RequireImport(imports: ImportList?, name: string, ghost since: Option<Imports>, ghost held: seq<string>)
      returns (outcome: Outcome<Exception>)
      requires Grows(since, EntriesOf(imports))
      requires imports != null ==> forall x :: x in held ==> Some(x) in imports.entries
      modifies imports
      ensures Grows(since, EntriesOf(imports))
      ensures outcome.Pass? && imports != null ==> forall x :: x in held + [name] ==> Some(x) in imports.entries
    {
      outcome := AddImportIfRequired(imports, Some(name));
      if outcome.Pass? {
        AddImportGrows(old(EntriesOf(imports)), Some(name));
        GrowsTransitive(since, old(EntriesOf(imports)), EntriesOf(imports));
      }
    }

    /** The imports postProcessOperations adds for an extended operation, in order. */
    static method AddOperationImports(o: Operation, f: ExtendedFlags, body: Option<ParamData>, imports: ImportList?)
      returns (outcome: Outcome<Exception>)
      requires f.isBodyModelRefContainer ==> body.Some?
      modifies imports
      ensures Grows(old(EntriesOf(imports)), EntriesOf(imports))
      ensures outcome.Pass? ==> Holds(EntriesOf(imports), OperationImports(o, f, body))
    {
      outcome := AddModelImports(f, body, imports);
      if outcome.Fail? { return; }
      ghost var middle := EntriesOf(imports);
      outcome := AddUtilityImports(o, f, imports);
      GrowsTransitive(old(EntriesOf(imports)), middle, EntriesOf(imports));
      if outcome.Pass? {
        HoldsExtends(middle, EntriesOf(imports), ModelImports(f, body));
        HoldsConcat(EntriesOf(imports), ModelImports(f, body), UtilityImports(o, f));
      }
    }

    /** The model imports of an extended operation: its returned model, then its body model. */
    static method AddModelImports(f: ExtendedFlags, body: Option<ParamData>, imports: ImportList?)
      returns (outcome: Outcome<Exception>)
      requires f.isBodyModelRefContainer ==> body.Some?
      modifies imports
      ensures Grows(old(EntriesOf(imports)), EntriesOf(imports))
      ensures outcome.Pass? ==> Holds(EntriesOf(imports), ModelImports(f, body))
    {
      ghost var start := EntriesOf(imports);
      ghost var held: seq<string> := [];
      outcome := Pass;
      if f.isReturnModelRefContainer {
        outcome := RequireImport(imports, ModelPackagePrefix + FormatArg(f.returnType), start, held);
        if outcome.Fail? { return; }
        held := held + [ModelPackagePrefix + FormatArg(f.returnType)];
      }
      if f.isBodyModelRefContainer {
        outcome := RequireImport(imports, ModelPackagePrefix + FormatArg(body.value.dataType), start, held);
        if outcome.Fail? { return; }
        held := held + [ModelPackagePrefix + FormatArg(body.value.dataType)];
      }
      assert held == ModelImports(f, body);
    }

    /** The library imports of an extended operation: the stream classes, then List or Map. */
    static method AddUtilityImports(o: Operation, f: ExtendedFlags, imports: ImportList?)
      returns (outcome: Outcome<Exception>)
      modifies imports
      ensures Grows(old(EntriesOf(imports)), EntriesOf(imports))
      ensures outcome.Pass? ==> Holds(EntriesOf(imports), UtilityImports(o, f))
    {
      ghost var start := EntriesOf(imports);
      ghost var held: seq<string> := [];
      outcome := Pass;
      if f.isStream {
        outcome := RequireImport(imports, OutputStreamImport, start, held);
        if outcome.Fail? { return; }
        held := held + [OutputStreamImport];
        outcome := RequireImport(imports, ResponseImport, start, held);
        if outcome.Fail? { return; }
        held := held + [ResponseImport];
      }
      if o.isListContainer {
        outcome := RequireImport(imports, ListImport, start, held);
        if outcome.Fail? { return; }
        held := held + [ListImport];
      } else if o.isMapContainer {
        outcome := RequireImport(imports, MapImport, start, held);
        if outcome.Fail? { return; }
        held := held + [MapImport];
      }
      assert held == UtilityImports(o, f);
    }

    /**
     * The five parameter-list conversions of postProcessOperations for one extended operation. The
     * names in `held` stay in the import list and, on success, so does every import the lists ask for.
     */
    method ConvertLists(lists: OperationParams, bodyParam: Parameter?, flags: ExtendedFlags, imports: ImportList?,
                        ghost held: seq<string>)
      returns (r: Result<ExtendedOperation, Exception>)
      requires Holds(EntriesOf(imports), held)
      modifies imports
      ensures r.Success? ==> r.value.flags == flags && r.value.bodyParam == bodyParam && ConvertedLists(r.value, lists)
      ensures Grows(old(EntriesOf(imports)), EntriesOf(imports))
      ensures r.Success? ==> Holds(EntriesOf(imports), held + ListsImports(importMapping, lists))
    {
      ghost var since := EntriesOf(imports);
      ghost var names := held;
      var allParams := ConvertList(lists.allParams, imports, since, names);
      if allParams.Failure? { return Failure(allParams.error); }
      names := names + ConversionImports(importMapping, lists.allParams);
      var bodyParams := ConvertList(lists.bodyParams, imports, since, names);
      if bodyParams.Failure? { return Failure(bodyParams.error); }
      names := names + ConversionImports(importMapping, lists.bodyParams);
      var pathParams := ConvertList(lists.pathParams, imports, since, names);
      if pathParams.Failure? { return Failure(pathParams.error); }
      names := names + ConversionImports(importMapping, lists.pathParams);
      var queryParams := ConvertList(lists.queryParams, imports, since, names);
      if queryParams.Failure? { return Failure(queryParams.error); }
      names := names + ConversionImports(importMapping, lists.queryParams);
      var formParams := ConvertList(lists.formParams, imports, since, names);
      if formParams.Failure? { return Failure(formParams.error); }
      names := names + ConversionImports(importMapping, lists.formParams);
      HoldsRegrouped(EntriesOf(imports), held, ConversionImports(importMapping, lists.allParams),
                     ConversionImports(importMapping, lists.bodyParams), ConversionImports(importMapping, lists.pathParams),
                     ConversionImports(importMapping, lists.queryParams), ConversionImports(importMapping, lists.formParams));
      r := Success(ExtendedOperation(flags, bodyParam, allParams.value, bodyParams.value,
                                     pathParams.value, queryParams.value, formParams.value));
    }

    /**
     * One iteration of postProcessOperations: build the extended operation, add the imports it
     * asks for, and convert its five parameter lists.
     */
    method ExtendOperation(o: Operation, imports: ImportList?) returns (r: Result<ExtendedOperation, Exception>)
      modifies imports, o.bodyParam
      ensures r.Success? ==> Processed(o, old(DataOf(o.bodyParam)), r.value, allModels)
      ensures Grows(old(EntriesOf(imports)), EntriesOf(imports))
      ensures r.Success? ==> Holds(EntriesOf(imports), AllImports(importMapping, o, r.value.flags, Params(o)))
    {
      var flags := NewExtendedOperation(o);
      if flags.Failure? {
        return Failure(flags.error);
      }
      r := CompleteOperation(o, flags.value, imports);
    }

    /**
     * The rest of one iteration of postProcessOperations, once the extended operation is built:
     * add the imports it asks for and convert its five parameter lists. No parameter object changes.
     */
    method CompleteOperation(o: Operation, flags: ExtendedFlags, imports: ImportList?) returns (r: Result<ExtendedOperation, Exception>)
      requires flags.isBodyModelRefContainer ==> o.bodyParam != null
      modifies imports
      ensures Params(o) == old(Params(o))
      ensures r.Success? ==> r.value.flags == flags && r.value.bodyParam == o.bodyParam && ConvertedLists(r.value, Params(o))
      ensures Grows(old(EntriesOf(imports)), EntriesOf(imports))
      ensures r.Success? ==> Holds(EntriesOf(imports), AllImports(importMapping, o, flags, Params(o)))
    {
      var params := Params(o);
      var added := AddOperationImports(o, flags, params.body, imports);
      if added.Fail? {
        r := Failure(added.error);
      } else {
        ghost var afterImports := EntriesOf(imports);
        r := ConvertLists(params, o.bodyParam, flags, imports, OperationImports(o, flags, params.body));
        GrowsTransitive(old(EntriesOf(imports)), afterImports, EntriesOf(imports));
      }
      ParamsFrame(o, null);
    }

    /**
     * The loop body of postProcessOperations for operation i. Only the body parameter object of
     * that operation changes, so the operations before it stay processed and every later one
     * keeps its body.
     */
    method ExtendNext(ops: seq<Operation>, i: nat, imports: ImportList?, ghost start: Option<Imports>,
                      ghost bodies: seq<Option<ParamData>>, ghost seen: seq<OperationParams>, exts: seq<ExtendedOperation>)
      returns (r: Result<seq<ExtendedOperation>, Exception>, ghost seenAfter: seq<OperationParams>)
      requires SeparateOperations(ops) && i < |ops| == |bodies| && |seen| == i == |exts|
      requires forall j :: i <= j < |ops| ==> DataOf(ops[j].bodyParam) == bodies[j]
      requires forall j {:trigger Params(ops[j])} :: 0 <= j < i ==> Params(ops[j]) == seen[j]
      requires Grows(start, EntriesOf(imports))
      requires Done(ops, bodies, seen, exts, allModels, i) && Held(EntriesOf(imports), importMapping, ops, seen, exts, i)
      modifies imports, ops[i].bodyParam
      ensures Grows(start, EntriesOf(imports))
      ensures r.Success? ==> |r.value| == i + 1 && |seenAfter| == i + 1
      ensures r.Success? ==> forall j :: i + 1 <= j < |ops| ==> DataOf(ops[j].bodyParam) == bodies[j]
      ensures r.Success? ==> forall j {:trigger Params(ops[j])} :: 0 <= j < i + 1 ==> Params(ops[j]) == seenAfter[j]
      ensures r.Success? ==> Done(ops, bodies, seenAfter, r.value, allModels, i + 1)
      ensures r.Success? ==> Held(EntriesOf(imports), importMapping, ops, seenAfter, r.value, i + 1)
    {
      var o := ops[i];
      var ext := ExtendOperation(o, imports);
      GrowsTransitive(start, old(EntriesOf(imports)), EntriesOf(imports));
      if ext.Failure? {
        return Failure(ext.error), seen;
      }
      assert forall p: Parameter :: old(allocated(p)) && p != o.bodyParam ==> p.data == old(p.data);
      OthersKept(ops, i, seen);
      seenAfter := seen + [Params(o)];
      SeenSnoc(ops, seen, Params(o), i);
      HeldExtends(old(EntriesOf(imports)), EntriesOf(imports), importMapping, ops, seen, exts, i);
      HeldSnoc(EntriesOf(imports), importMapping, ops, seen, exts, Params(o), ext.value, i);
      DoneSnoc(ops, bodies, seen, exts, Params(o), ext.value, allModels, i);
      r := Success(exts + [ext.value]);
    }

    /**
     * The loop of postProcessOperations: operation by operation, with the parameter data each one
     * had when it was processed recorded in `seen`.
     */
    method ExtendAll(ops: seq<Operation>, imports: ImportList?, ghost bodies: seq<Option<ParamData>>)
      returns (r: Result<seq<ExtendedOperation>, Exception>, ghost seen: seq<OperationParams>)
      requires SeparateOperations(ops) && bodies == BodyDatas(ops)
      modifies imports, BodyParams(ops)
      ensures Grows(old(EntriesOf(imports)), EntriesOf(imports))
      ensures r.Success? ==> |r.value| == |seen| == |ops|
      ensures r.Success? ==> forall j {:trigger Params(ops[j])} :: 0 <= j < |ops| ==> Params(ops[j]) == seen[j]
      ensures r.Success? ==> Done(ops, bodies, seen, r.value, allModels, |ops|)
      ensures r.Success? ==> Held(EntriesOf(imports), importMapping, ops, seen, r.value, |ops|)
    {
      ghost var start := EntriesOf(imports);
      var exts: seq<ExtendedOperation> := [];
      seen := [];
      var i := 0;
      while i < |ops|
        invariant 0 <= i <= |ops| && |exts| == i && |seen| == i
        invariant forall j :: i <= j < |ops| ==> DataOf(ops[j].bodyParam) == bodies[j]
        invariant forall j {:trigger Params(ops[j])} :: 0 <= j < i ==> Params(ops[j]) == seen[j]
        invariant Grows(start, EntriesOf(imports))
        invariant Done(ops, bodies, seen, exts, allModels, i)
        invariant Held(EntriesOf(imports), importMapping, ops, seen, exts, i)
      {
        var next;
        next, seen := ExtendNext(ops, i, imports, start, bodies, seen, exts);
        if next.Failure? {
          return Failure(next.error), seen;
        }
        exts := next.value;
        i := i + 1;
      }
      r := Success(exts);
    }

    /**
     * postProcessOperations, after swagger-codegen's own post-processing: each operation in turn
     * becomes an extended operation whose parameter lists are converted, and the import list
     * receives every import the operations and their parameters ask for, without duplicates when
     * it had none.
     */
    method PostProcessOperations(ops: seq<Operation>, imports: ImportList?) returns (r: Result<seq<ExtendedOperation>, Exception>)
      requires SeparateOperations(ops)
      modifies imports, BodyParams(ops)
      ensures r.Success? ==> |r.value| == |ops|
      ensures r.Success? ==> forall i :: 0 <= i < |ops| ==>
        Processed(ops[i], old(DataOf(ops[i].bodyParam)), r.value[i], allModels)
      ensures Grows(old(EntriesOf(imports)), EntriesOf(imports))
      ensures r.Success? ==> forall i :: 0 <= i < |ops| ==>
        Holds(EntriesOf(imports), AllImports(importMapping, ops[i], r.value[i].flags, Params(ops[i])))
    {
      ghost var bodies := BodyDatas(ops);
      ghost var seen;
      r, seen := ExtendAll(ops, imports, bodies);
      if r.Success? {
        AllProcessed(ops, bodies, seen, r.value, EntriesOf(imports), importMapping, allModels);
      }
    }
  }

  /**
   * The first n operations are processed, from the bodies they had and into the parameter data
   * `seen`.
   */
  predicate Done(ops: seq<Operation>, bodies: seq<Option<ParamData>>, seen: seq<OperationParams>,
                 exts: seq<ExtendedOperation>, allModels: set<string>, n: nat)
  {
    && n <= |ops| && n <= |bodies| && n <= |seen| && n <= |exts|
    && forall j :: 0 <= j < n ==> ProcessedFrom(ops[j], bodies[j], seen[j], exts[j], allModels)
  }

  /** The imports the first n operations ask for are all in `entries`. */
  predicate Held(entries: Option<Imports>, mapping: map<string, string>, ops: seq<Operation>,
                 seen: seq<OperationParams>, exts: seq<ExtendedOperation>, n: nat)
  {
    && n <= |ops| && n <= |seen| && n <= |exts|
    && forall j :: 0 <= j < n ==> Holds(entries, AllImports(mapping, ops[j], exts[j].flags, seen[j]))
  }

  /** Extending the import list keeps the imports of the operations so far held. */
  lemma HeldExtends(before: Option<Imports>, after: Option<Imports>, mapping: map<string, string>, ops: seq<Operation>,
                     seen: seq<OperationParams>, exts: seq<ExtendedOperation>, n: nat)
    requires Extends(before, after) && Held(before, mapping, ops, seen, exts, n)
    ensures Held(after, mapping, ops, seen, exts, n)
  {
    forall j | 0 <= j < n
      ensures Holds(after, AllImports(mapping, ops[j], exts[j].flags, seen[j]))
    {
      HoldsExtends(before, after, AllImports(mapping, ops[j], exts[j].flags, seen[j]));
    }
  }

  /** One more processed operation is done as well. */
  lemma DoneSnoc(ops: seq<Operation>, bodies: seq<Option<ParamData>>, seen: seq<OperationParams>,
                  exts: seq<ExtendedOperation>, params: OperationParams, e: ExtendedOperation,
                  allModels: set<string>, n: nat)
    requires n == |seen| == |exts| && n < |ops| && n < |bodies|
    requires Done(ops, bodies, seen, exts, allModels, n)
    requires ProcessedFrom(ops[n], bodies[n], params, e, allModels)
    ensures Done(ops, bodies, seen + [params], exts + [e], allModels, n + 1)
  {
    forall j | 0 <= j < n + 1
      ensures ProcessedFrom(ops[j], bodies[j], (seen + [params])[j], (exts + [e])[j], allModels)
    {
      if j < n {
        assert (exts + [e])[j] == exts[j] && (seen + [params])[j] == seen[j];
      }
    }
  }

  /** One more operation whose imports are held keeps the imports held. */
  lemma HeldSnoc(entries: Option<Imports>, mapping: map<string, string>, ops: seq<Operation>, seen: seq<OperationParams>,
                  exts: seq<ExtendedOperation>, params: OperationParams, e: ExtendedOperation, n: nat)
    requires n == |seen| == |exts| && n < |ops|
    requires Held(entries, mapping, ops, seen, exts, n)
    requires Holds(entries, AllImports(mapping, ops[n], e.flags, params))
    ensures Held(entries, mapping, ops, seen + [params], exts + [e], n + 1)
  {
    forall j | 0 <= j < n + 1
      ensures Holds(entries, AllImports(mapping, ops[j], (exts + [e])[j].flags, (seen + [params])[j]))
    {
      if j < n {
        assert (exts + [e])[j] == exts[j] && (seen + [params])[j] == seen[j];
      }
    }
  }

  /** Once every operation is done, each one is processed and has its imports held. */
  lemma AllProcessed(ops: seq<Operation>, bodies: seq<Option<ParamData>>, seen: seq<OperationParams>,
                     exts: seq<ExtendedOperation>, entries: Option<Imports>, mapping: map<string, string>,
                     allModels: set<string>)
    requires |bodies| == |ops|
    requires |seen| == |exts| == |ops| && forall j {:trigger Params(ops[j])} :: 0 <= j < |ops| ==> Params(ops[j]) == seen[j]
    requires Done(ops, bodies, seen, exts, allModels, |ops|) && Held(entries, mapping, ops, seen, exts, |ops|)
    ensures forall j :: 0 <= j < |ops| ==> Processed(ops[j], bodies[j], exts[j], allModels)
    ensures forall j :: 0 <= j < |ops| ==> Holds(entries, AllImports(mapping, ops[j], exts[j].flags, Params(ops[j])))
  {
    forall j | 0 <= j < |ops|
      ensures Processed(ops[j], bodies[j], exts[j], allModels)
      ensures Holds(entries, AllImports(mapping, ops[j], exts[j].flags, Params(ops[j])))
    {
      assert Params(ops[j]) == seen[j];
    }
  }

  /** The entries of a possibly-null import list. */
  function EntriesOf(imports: ImportList?): Option<Imports>
    reads imports
  {
    if imports == null then None else Some(imports.entries)
  }
}
