# Kill Bill client code generators and parameter-order validator, in Dafny

This project models three parts of the Kill Bill swagger-codegen extension.

- **The Java client generator (`KillbillJavaGenerator`).** It covers:
  - resolving an enum type from the first literal of an enum, using the registry of API enums;
  - model post-processing: the `Entity` stop, the `AuditLog` and `auditLogs` rules, and the `ALL_MODELS` registry;
  - the de-duplicating `addImportIfRequired`;
  - the `ExtendedCodegenOperation` and `ExtendedCodegenParameter` enrichment of operations and parameters;
  - `postProcessOperations`, which converts every parameter list and adds the imports each operation needs.
- **The Python client generator (`KillbillPythonGenerator`).** It covers:
  - the same enrichment, with the Python differences: any POST/PUT container body is pluralized, an array return type is always pluralized, no imports are added, and the `x_killbill_` marker is removed from parameter names;
  - reserved-word escaping;
  - the recursive rendering of container type declarations.
- **The parameter-order check (`validate.rb`).** Every endpoint's parameter list is walked as a small state machine. The check enforces:
  - the location order path < body < query < header;
  - a fixed relative order of the recognised query names;
  - a fixed relative order of the recognised header names.

  One message is appended to `errors` per violation.

The project is laid out in seven modules:

| file | module | contents |
|---|---|---|
| `wrappers.dfy` | `Wrappers` | `Option`, `Result` and `Outcome` |
| `java_lang.dfy` | `JavaLang` | the parts of `java.lang` the generators rely on: exceptions, `equalsIgnoreCase` (folding ASCII letters only), `contains`, `replace(target, "")` and the `%s` rendering of `null` |
| `codegen.dfy` | `Codegen` | the swagger-codegen structures the rules read and write |
| `enrichment.dfy` | `Enrichment` | the rules both generators share word for word |
| `java_generator.dfy` | `KillbillJava` | the Java generator |
| `python_generator.dfy` | `KillbillPython` | the Python generator |
| `validate.dfy` | `Validate` | the validator |

How the source's constructs are represented:

- **Objects the source updates in place are classes:**
  - the generator with its `ALL_MODELS` set;
  - a `CodegenModel`;
  - a `CodegenParameter`, whose identity matters because an operation's `bodyParam` is also an element of `allParams`;
  - the template's import list;
  - the validator's `errors` array.
- **Loops in the source are methods** with loop invariants. Each is proved against a specification function.
- **Exceptions are `Failure` values** of a `Result`. Any state change made before the throw is kept, as it is in the source.
- **A Ruby runtime error is reported as `crashed`,** with the messages appended before it.

## Model

Source paths are relative to the repository root.

| member | source | states |
|---|---|---|
| JavaLang.EqualsIgnoreCaseUnique | src/main/java/org/killbill/billing/codegen/languages/KillbillJavaGenerator.java:381-385 | two different upper-case verbs never both match one HTTP method ignoring case |
| JavaLang.RemoveAbsent | src/main/java/org/killbill/billing/codegen/languages/KillbillPythonGenerator.java:347-351 | `replace(target, "")` returns a string without the target unchanged |
| JavaLang.RemovePresent | src/main/java/org/killbill/billing/codegen/languages/KillbillPythonGenerator.java:347-348 | `replace(target, "")` on a string that holds the target removes at least one whole occurrence |
| Enrichment.VerbFlags | src/main/java/org/killbill/billing/codegen/languages/KillbillJavaGenerator.java:381-385 | a null HTTP method sets no verb flag; "POST" in either case sets isPost |
| Enrichment.VerbFlagsExclusive | src/main/java/org/killbill/billing/codegen/languages/KillbillJavaGenerator.java:381-385 | no HTTP method sets two of the five verb flags |
| Enrichment.IsStream | src/main/java/org/killbill/billing/codegen/languages/KillbillJavaGenerator.java:406 | raises NullPointerException exactly when `produces` is non-empty and its first entry has no mediaType; true exactly when that mediaType is application/octet-stream |
| Enrichment.HasNonRequiredDefaultQueryParams | src/main/java/org/killbill/billing/codegen/languages/KillbillJavaGenerator.java:407-412 | true iff some query parameter is not required and has a default value |
| Enrichment.Pluralize | src/main/java/org/killbill/billing/codegen/languages/KillbillJavaGenerator.java:391 | `"%ss"` yields the base name (or "null") followed by one 's' |
| Enrichment.CopyParameterSpec | src/main/java/org/killbill/billing/codegen/languages/KillbillJavaGenerator.java:428-487 | a `pluginProperty` query list gets dataType `Map<String, String>` and becomes a map, not a list; every other parameter keeps its dataType and container flags; isDate/isDateTime/isUuid are set iff already set or the format matches ignoring case; nothing else changes |
| Enrichment.CopyParameterIdempotent | src/main/java/org/killbill/billing/codegen/languages/KillbillJavaGenerator.java:428-487 | enriching a copied parameter again changes nothing: the `pluginProperty` collapse happens once |
| Enrichment.IsMandatoryParam | src/main/java/org/killbill/billing/codegen/languages/KillbillJavaGenerator.java:488 | a header parameter is never mandatory; any other parameter is mandatory iff it is required or is a query parameter without a default |
| KillbillJava.FirstElement | src/main/java/org/killbill/billing/codegen/languages/KillbillJavaGenerator.java:295 | `_enum.get(0)` succeeds iff the list is non-null and non-empty, and then gives its first literal |
| KillbillJava.JavaGenerator.constructor | src/main/java/org/killbill/billing/codegen/languages/KillbillJavaGenerator.java:69-86 | the generator holds the registry of API enums and an empty `ALL_MODELS` |
| KillbillJava.JavaGenerator.FindEnumType | src/main/java/org/killbill/billing/codegen/languages/KillbillJavaGenerator.java:144-153 | returns some registered enum whose first value is the literal, in no particular order; fails with "Cannot find enum with first value …" iff none is |
| KillbillJava.JavaGenerator.ToEnumName | src/main/java/org/killbill/billing/codegen/languages/KillbillJavaGenerator.java:278-289 | an enum with literals resolves through the registry (failing iff unresolvable); an enum without literals gives its datatypeWithEnum; anything else gives the name derived from the property name |
| KillbillJava.JavaGenerator.PostProcessModelProperty | src/main/java/org/killbill/billing/codegen/languages/KillbillJavaGenerator.java:292-305 | an enum property or enum container adds a resolving enum type to the model's imports, a boolean property adds JsonProperty; a missing literal list or an unresolvable literal raises with the imports unchanged |
| KillbillJava.WithImport | src/main/java/org/killbill/billing/codegen/languages/KillbillJavaGenerator.java:265-274 | on success the list is unchanged or has exactly `{"import": name}` appended, and holds the name; on a list without null entries it appends iff no entry equals the name (a null name included); a failure is a NullPointerException and needs a null entry |
| KillbillJava.WithImportFailure | src/main/java/org/killbill/billing/codegen/languages/KillbillJavaGenerator.java:265-271 | the scan raises exactly when it meets a null entry before an entry equal to the new import |
| KillbillJava.WithImportIdempotent | src/main/java/org/killbill/billing/codegen/languages/KillbillJavaGenerator.java:261-275 | adding the same import twice is adding it once |
| KillbillJava.WithImportNoDuplicates | src/main/java/org/killbill/billing/codegen/languages/KillbillJavaGenerator.java:261-275 | adding an import never introduces a duplicate entry |
| KillbillJava.NullEntryPoisons | src/main/java/org/killbill/billing/codegen/languages/KillbillJavaGenerator.java:265-270 | once a null entry is in the list, adding any import not already listed raises NullPointerException |
| KillbillJava.NullImportAppended | src/main/java/org/killbill/billing/codegen/languages/KillbillJavaGenerator.java:261-275 | a null import (an unmapped enum type) is appended, and every later new import then raises |
| KillbillJava.AddImport | src/main/java/org/killbill/billing/codegen/languages/KillbillJavaGenerator.java:261-264 | a null list is left null and never raises; otherwise the list is the scan's result |
| KillbillJava.AddImportGrows | src/main/java/org/killbill/billing/codegen/languages/KillbillJavaGenerator.java:261-275 | a successful call only appends, keeps the list duplicate-free and null-free, and leaves the import in the list |
| KillbillJava.JavaGenerator.AddImportIfRequired | src/main/java/org/killbill/billing/codegen/languages/KillbillJavaGenerator.java:261-275 | the list object afterwards holds what AddImport gives; on an exception it is unchanged |
| KillbillJava.DefaultLiteralEndsWithValue | src/main/java/org/killbill/billing/codegen/languages/KillbillJavaGenerator.java:489-505 | a default has a literal exactly when the parameter is a Long, Integer, Double, Float, enum or Boolean; the literal ends with the default value, or with the value closing a `valueOf` call |
| KillbillJava.EnrichParameterSpec | src/main/java/org/killbill/billing/codegen/languages/KillbillJavaGenerator.java:428-505 | the enriched parameter is the copy with the mandatory and plugin flags; formattedDefault is set iff the parameter is optional with a default; it raises "FIXME: …" iff such a parameter has no literal for its type |
| KillbillJava.RequiredHeaderNotMandatory | src/main/java/org/killbill/billing/codegen/languages/KillbillJavaGenerator.java:488-489 | a required header parameter is never mandatory, and without a default it cannot raise |
| KillbillJava.Lookup | src/main/java/org/killbill/billing/codegen/languages/KillbillJavaGenerator.java:243 | `importMapping.get` is null exactly for a null or unmapped key |
| KillbillJava.EnumImport | src/main/java/org/killbill/billing/codegen/languages/KillbillJavaGenerator.java:241-248 | only enum parameters request an import; a plain enum requests its mapped type; an enum container without items raises |
| KillbillJava.ContainerImport | src/main/java/org/killbill/billing/codegen/languages/KillbillJavaGenerator.java:251-255 | an enriched list or map parameter requests java.util.List or java.util.Map, never null |
| KillbillJava.ConvertOneClean | src/main/java/org/killbill/billing/codegen/languages/KillbillJavaGenerator.java:240-256 | on a list without null entries, a convertible parameter is enriched and the list stays null-free |
| KillbillJava.ConvertElementwise | src/main/java/org/killbill/billing/codegen/languages/KillbillJavaGenerator.java:238-259 | a successful conversion yields a list of the same length whose element i is the enrichment of parameter i |
| KillbillJava.ConvertClean | src/main/java/org/killbill/billing/codegen/languages/KillbillJavaGenerator.java:238-259 | on a list without null entries, converting convertible parameters never raises and keeps the list null-free |
| KillbillJava.ConvertGrows | src/main/java/org/killbill/billing/codegen/languages/KillbillJavaGenerator.java:238-259 | conversion only appends to the import list and introduces no duplicate |
| KillbillJava.ConvertOneHolds | src/main/java/org/killbill/billing/codegen/languages/KillbillJavaGenerator.java:240-255 | one successful iteration leaves in the list the mapped type of an enum parameter (when the mapping knows it) and java.util.List or java.util.Map for a list or map parameter |
| KillbillJava.ConvertHolds | src/main/java/org/killbill/billing/codegen/languages/KillbillJavaGenerator.java:238-259 | a successful conversion leaves in the list every import each of its parameters asked for |
| KillbillJava.ConvertFailureSticks | src/main/java/org/killbill/billing/codegen/languages/KillbillJavaGenerator.java:238-259 | an exception on a prefix ends the conversion: later parameters change neither the outcome nor the imports |
| KillbillJava.EnrichAllElementwise | src/main/java/org/killbill/billing/codegen/languages/KillbillJavaGenerator.java:250-256 | the list enrichment succeeds iff each parameter's does, and then keeps order and length |
| KillbillJava.EnrichAllFirstFailure | src/main/java/org/killbill/billing/codegen/languages/KillbillJavaGenerator.java:240-257 | a failed list enrichment raises the exception of the first parameter that fails |
| KillbillJava.JavaGenerator.ConvertParameter | src/main/java/org/killbill/billing/codegen/languages/KillbillJavaGenerator.java:240-256 | one loop iteration: its result and the import list afterwards are those of ConvertOne |
| KillbillJava.JavaGenerator.ConvertToExtendedCodegenParam | src/main/java/org/killbill/billing/codegen/languages/KillbillJavaGenerator.java:238-259 | the loop's result and the import list afterwards are those of Convert |
| KillbillJava.BodyAfter | src/main/java/org/killbill/billing/codegen/languages/KillbillJavaGenerator.java:387-392 | a POST/PUT container body whose base type is a registered model gets dataType `baseType + "s"`; any other body is untouched |
| KillbillJava.OperationFlagsIgnoreModels | src/main/java/org/killbill/billing/codegen/languages/KillbillJavaGenerator.java:394-400 | the registered models and the body never change whether the constructor raises, its verbs, isStream, hasNonRequiredDefaultQueryParams, isReturnModelRefContainer or returnType |
| KillbillJava.BodyFlagNeedsWriteOfModel | src/main/java/org/killbill/billing/codegen/languages/KillbillJavaGenerator.java:386-389 | isBodyModelRefContainer is only set for a POST or PUT body that is a container whose base type is a registered model |
| KillbillJava.DateTimeListReturn | src/main/java/org/killbill/billing/codegen/languages/KillbillJavaGenerator.java:394-405 | an array of DateTime returns DateTimes, whatever models are registered |
| KillbillJava.BodyRewriteNeedsRegisteredModel | src/main/java/org/killbill/billing/codegen/languages/KillbillJavaGenerator.java:387-389 | a body whose base type is not a registered model is never rewritten |
| KillbillJava.JavaGenerator.NewExtendedOperation | src/main/java/org/killbill/billing/codegen/languages/KillbillJavaGenerator.java:381-412 | returns the constructor's flags, and the shared body parameter object now holds BodyAfter of its old data |
| KillbillJava.FirstNamed | src/main/java/org/killbill/billing/codegen/languages/KillbillJavaGenerator.java:169-175 | the position of the first property with a given name, or none iff no property has it |
| KillbillJava.MarkAuditLog | src/main/java/org/killbill/billing/codegen/languages/KillbillJavaGenerator.java:167-176 | AuditLog becomes x-entity-generic; only its first `history` property does too, and then "Entity" leaves its imports; the parent is unchanged |
| KillbillJava.InheritAuditLogs | src/main/java/org/killbill/billing/codegen/languages/KillbillJavaGenerator.java:177-186 | only the first `auditLogs` property becomes inherited, and then the parent becomes KillBillObject; imports and extensions are unchanged |
| KillbillJava.EnrichedModelIdempotent | src/main/java/org/killbill/billing/codegen/languages/KillbillJavaGenerator.java:166-186 | post-processing a model twice has the effect of once |
| KillbillJava.MarkAuditLogIdempotent | src/main/java/org/killbill/billing/codegen/languages/KillbillJavaGenerator.java:167-176 | the AuditLog rule applied twice is applied once |
| KillbillJava.InheritAuditLogsIdempotent | src/main/java/org/killbill/billing/codegen/languages/KillbillJavaGenerator.java:177-186 | the auditLogs rule applied twice is applied once |
| KillbillJava.EntityIndex | src/main/java/org/killbill/billing/codegen/languages/KillbillJavaGenerator.java:159-164 | the position of the first model named Entity, or the length when there is none |
| KillbillJava.JavaGenerator.EnrichModel | src/main/java/org/killbill/billing/codegen/languages/KillbillJavaGenerator.java:166-186 | the model's vars, imports, parent and extensions become those EnrichedModel gives |
| KillbillJava.JavaGenerator.PostProcessModels | src/main/java/org/killbill/billing/codegen/languages/KillbillJavaGenerator.java:157-192 | the result is kept iff no model is named Entity; exactly the models before the first Entity are enriched and have their names added to ALL_MODELS, the others are untouched |
| KillbillJava.JavaGenerator.RequireImport | src/main/java/org/killbill/billing/codegen/languages/KillbillJavaGenerator.java:208-221 | the import list only grows, and on success holds the requested name besides the ones it held |
| KillbillJava.JavaGenerator.AddModelImports | src/main/java/org/killbill/billing/codegen/languages/KillbillJavaGenerator.java:208-213 | on success the list holds the returned model class, then the body model class, each as flagged |
| KillbillJava.JavaGenerator.AddUtilityImports | src/main/java/org/killbill/billing/codegen/languages/KillbillJavaGenerator.java:214-222 | on success the list holds OutputStream and Response for a stream, then List or Map for a container operation |
| KillbillJava.JavaGenerator.AddOperationImports | src/main/java/org/killbill/billing/codegen/languages/KillbillJavaGenerator.java:208-222 | on success the list holds every import the operation asks for, and it only grows |
| KillbillJava.JavaGenerator.ConvertList | src/main/java/org/killbill/billing/codegen/languages/KillbillJavaGenerator.java:226-230 | a converted parameter list is the enrichment of the input list; the import list only grows, without new duplicates, keeps what it held and receives every enum, List and Map import the list asks for |
| KillbillJava.JavaGenerator.ConvertLists | src/main/java/org/killbill/billing/codegen/languages/KillbillJavaGenerator.java:226-230 | on success each of the five lists is the enrichment of the matching list, with the body parameter object kept, and the import list holds every import the five conversions ask for; it only grows, without new duplicates |
| KillbillJava.JavaGenerator.CompleteOperation | src/main/java/org/killbill/billing/codegen/languages/KillbillJavaGenerator.java:208-230 | after the constructor: the operation's imports are added and its lists converted, and no parameter object changes |
| KillbillJava.JavaGenerator.ExtendOperation | src/main/java/org/killbill/billing/codegen/languages/KillbillJavaGenerator.java:206-230 | one loop iteration: the extended operation is processed from the operation's old body, and the import list holds its imports |
| KillbillJava.JavaGenerator.ExtendNext | src/main/java/org/killbill/billing/codegen/languages/KillbillJavaGenerator.java:205-231 | the next operation is processed; the operations already processed keep their data, and the later ones keep their bodies |
| KillbillJava.JavaGenerator.ExtendAll | src/main/java/org/killbill/billing/codegen/languages/KillbillJavaGenerator.java:205-231 | on success every operation is processed from its original body, in order, and the import list holds the imports of every operation and of its parameters; it only grows, without new duplicates |
| KillbillJava.AllProcessed | src/main/java/org/killbill/billing/codegen/languages/KillbillJavaGenerator.java:205-231 | the loop's record of what it did implies that each operation is processed and the import list holds its imports |
| KillbillJava.JavaGenerator.PostProcessOperations | src/main/java/org/killbill/billing/codegen/languages/KillbillJavaGenerator.java:196-235 | one extended operation per operation, in order, each with the constructor's flags, its rewritten body and its enriched lists; the import list only grows, gains no duplicate when it had none, and holds every import asked for: each operation's model, stream and List/Map imports and the enum, List and Map imports of its converted parameters |
| KillbillPython.EscapeReservedWord | src/main/java/org/killbill/billing/codegen/languages/KillbillPythonGenerator.java:87-89 | the escaped name is the name behind one leading underscore |
| KillbillPython.EscapedNotReserved | src/main/java/org/killbill/billing/codegen/languages/KillbillPythonGenerator.java:66-70 | an escaped name is never one of the reserved words |
| KillbillPython.EscapeInjective | src/main/java/org/killbill/billing/codegen/languages/KillbillPythonGenerator.java:87-89 | two names escape to the same name only if they are equal |
| KillbillPython.StripKillbillMarker | src/main/java/org/killbill/billing/codegen/languages/KillbillPythonGenerator.java:345-352 | a name without `x_killbill_` is unchanged; a name with it loses at least one whole marker |
| KillbillPython.StripIsRemove | src/main/java/org/killbill/billing/codegen/languages/KillbillPythonGenerator.java:345-352 | the marker removal is a single left-to-right `replace` pass |
| KillbillPython.StripLeadingMarker | src/main/java/org/killbill/billing/codegen/languages/KillbillPythonGenerator.java:345-352 | `x_killbill_` followed by a name without the marker gives that name |
| KillbillPython.EnrichParameterSpec | src/main/java/org/killbill/billing/codegen/languages/KillbillPythonGenerator.java:278-353 | the enriched parameter is the shared copy with the marker removed from its name, and the mandatory and plugin flags |
| KillbillPython.EnrichParameterLikeJava | src/main/java/org/killbill/billing/codegen/languages/KillbillPythonGenerator.java:278-353 | where the Java enrichment succeeds, both generators agree on every field except the parameter name |
| KillbillPython.ConvertToExtendedCodegenParam | src/main/java/org/killbill/billing/codegen/languages/KillbillPythonGenerator.java:177-185 | the result has the input's length and element i is the enrichment of input element i |
| KillbillPython.BodyAfter | src/main/java/org/killbill/billing/codegen/languages/KillbillPythonGenerator.java:257-259 | any POST/PUT container body gets dataType `baseType + "s"`, with no model check; nothing else changes |
| KillbillPython.NullBaseTypeBody | src/main/java/org/killbill/billing/codegen/languages/KillbillPythonGenerator.java:257-259 | a POST container body without base type becomes "nulls" |
| KillbillPython.BodyAfterLikeJava | src/main/java/org/killbill/billing/codegen/languages/KillbillPythonGenerator.java:257-259 | for a registered model the two generators rewrite a body alike, and every body Java rewrites Python rewrites too |
| KillbillPython.ReturnType | src/main/java/org/killbill/billing/codegen/languages/KillbillPythonGenerator.java:260-262 | an array return type is `returnBaseType + "s"`; every other operation keeps its returnType |
| KillbillPython.ReturnTypeLikeJava | src/main/java/org/killbill/billing/codegen/languages/KillbillPythonGenerator.java:260-262 | the generators agree on the return type whenever the base type is known; Python alone gives "nulls" when it is not |
| KillbillPython.OperationFlagsLikeJava | src/main/java/org/killbill/billing/codegen/languages/KillbillPythonGenerator.java:252-269 | the constructor raises, with NullPointerException, exactly when the Java one does, and otherwise agrees with it on the verbs, isStream and hasNonRequiredDefaultQueryParams for any body and models |
| KillbillPython.NewExtendedOperation | src/main/java/org/killbill/billing/codegen/languages/KillbillPythonGenerator.java:252-269 | returns the constructor's flags, and the shared body parameter object now holds BodyAfter of its old data |
| KillbillPython.ConvertLists | src/main/java/org/killbill/billing/codegen/languages/KillbillPythonGenerator.java:166-170 | each of the five lists becomes the enrichment of the matching list |
| KillbillPython.ExtendOperation | src/main/java/org/killbill/billing/codegen/languages/KillbillPythonGenerator.java:163-170 | one loop iteration: raises exactly when isStream does, else the operation is processed from its old body |
| KillbillPython.AllProcessed | src/main/java/org/killbill/billing/codegen/languages/KillbillPythonGenerator.java:162-171 | the loop's record of what it did implies that each operation is processed |
| KillbillPython.ExtendNext | src/main/java/org/killbill/billing/codegen/languages/KillbillPythonGenerator.java:162-171 | the next operation is processed; earlier ones keep their data and later ones their bodies |
| KillbillPython.ExtendAll | src/main/java/org/killbill/billing/codegen/languages/KillbillPythonGenerator.java:162-171 | succeeds iff no operation's isStream raises, and then every operation is processed in order |
| KillbillPython.PostProcessOperations | src/main/java/org/killbill/billing/codegen/languages/KillbillPythonGenerator.java:156-175 | succeeds iff every operation's isStream can be computed; then one extended operation per operation, each with the constructor's flags, its rewritten body and its enriched lists |
| KillbillPython.GetSwaggerTypeSpec | src/main/java/org/killbill/billing/codegen/languages/KillbillPythonGenerator.java:120-131 | the type mapping is applied first, then the model naming; the primitive test does not change the result |
| KillbillPython.GetTypeDeclaration | src/main/java/org/killbill/billing/codegen/languages/KillbillPythonGenerator.java:98-110 | a container's declaration starts with its swagger type and "[" and ends with "]" |
| KillbillPython.TypeDeclarationEnd | src/main/java/org/killbill/billing/codegen/languages/KillbillPythonGenerator.java:98-110 | a declaration ends with the innermost declaration and one "]" per container level |
| KillbillPython.MapOfListsDeclaration | src/main/java/org/killbill/billing/codegen/languages/KillbillPythonGenerator.java:98-110 | a map of lists of strings renders as `Map[String, List[String]]` |
| Validate.CreateOrderedMap | validate.rb:13-15 | the keys are the list's elements, and each key maps to a position where it occurs, with no later occurrence |
| Validate.OrderedMapPositions | validate.rb:13-15 | on a list without repeats, element i maps to i |
| Validate.TypeRanks | validate.rb:17 | the location table is path→0, body→1, query→2, header→3 and nothing else |
| Validate.QueryNameRanks | validate.rb:18 | the query-name table is controlPluginName→0, pluginProperty→1, audit→2 and nothing else |
| Validate.HeaderNameRanks | validate.rb:19 | the header-name table ranks the five X-Killbill-* names 0 to 4 and nothing else |
| Validate.Messages | validate.rb:39-64 | one message per violation |
| Validate.MessagesAt | validate.rb:39-64 | message i is the message of violation i, so the messages come in the order of the violations |
| Validate.MessagesAppend | validate.rb:39-64 | the messages of two lists of violations are the messages of the first followed by those of the second |
| Validate.NameStep | validate.rb:44-56 | an unknown name changes nothing; a known name becomes the last seen, and errs iff its rank is below that of the last one seen |
| Validate.Violations | validate.rb:38-64 | a parameter's violations are exactly its findings: a location, a query name and a header name at most |
| Validate.StepParam | validate.rb:32-68 | one parameter raises exactly when its location is not in the table; otherwise the last location becomes its own, and it has at most one name violation |
| Validate.WalkParams | validate.rb:28-69 | the walk of an endpoint raises iff some location is unknown; otherwise it ends on the last location, with at most two violations per parameter |
| Validate.WalkNames | validate.rb:44-68 | the last query and header names the walk holds are the last recognised ones in the list |
| Validate.TypeViolationIff | validate.rb:36-41 | a parameter after the first has a location violation iff its rank is below that of the previous parameter; the first never has one |
| Validate.QueryNameViolationIff | validate.rb:44-56 | a query parameter has a name violation iff its name is recognised and ranks below the last recognised query name |
| Validate.HeaderNameViolationIff | validate.rb:58-68 | a header parameter has a name violation iff its name is recognised and ranks below the last recognised header name |
| Validate.UnknownNameIgnored | validate.rb:44-68 | an unrecognised name neither errs nor changes the last names seen |
| Validate.NoViolationsIffWellOrdered | validate.rb:32-69 | an endpoint has no violation iff its locations are in non-decreasing rank and its recognised query and header names are too |
| Validate.EndpointReport | validate.rb:24-69 | an endpoint without a parameter list raises with no message; otherwise it raises iff a location is unknown |
| Validate.EndpointSilentIff | validate.rb:24-69 | an endpoint that does not raise adds no message iff it is well ordered |
| Validate.EndpointPassIff | validate.rb:24-69 | one endpoint adds nothing and does not raise iff it has a parameter list of ranked, well-ordered parameters |
| Validate.EndpointsPassIff | validate.rb:23-70 | a path adds nothing and does not raise iff each of its endpoints is valid |
| Validate.PathsPassIff | validate.rb:22-71 | the check adds nothing and does not raise iff every endpoint of every path is valid |
| Validate.FirstCrash | validate.rb:32-38 | once a parameter raises, later parameters change nothing |
| Validate.EndpointsCrash | validate.rb:23-70 | once an endpoint raises, later endpoints change nothing |
| Validate.PathsCrash | validate.rb:22-71 | once a path raises, later paths change nothing |
| Validate.CheckParameter | validate.rb:32-68 | the loop body moves cur_type, cur_qname and cur_hname as StepParam says, and appends exactly the messages of its violations |
| Validate.CheckName | validate.rb:44-68 | the name check moves the last name as NameStep says, and appends a message iff it finds a violation |
| Validate.WalkParameters | validate.rb:28-69 | the loop over a present parameter list appends exactly the messages of its walk's violations and reports whether it raised |
| Validate.Iteration | validate.rb:32-68 | one turn of that loop: either the walk raises here, or it moves one parameter further with the log holding its messages so far |
| Validate.ValidateEndpoint | validate.rb:24-69 | appends exactly the endpoint's messages to `errors` and reports whether it raised |
| Validate.ValidatePath | validate.rb:23-70 | appends the messages of the path's endpoints, in order, up to the first that raises |
| Validate.ValidatePaths | validate.rb:22-71 | appends the messages of all paths, in order, up to the first that raises; earlier entries are kept |
| Validate.ValidateArguments | validate.rb:21-72 | validate_arguments with the three fixed tables: `errors` is only appended to, with exactly the report's messages |

## Left out

- I/O is not modelled:
  - YAML loading and the `puts` reporting in `validate.rb`;
  - the jar scan that builds the enum registry. That registry is a parameter: a map from simple name to declared values.
  - the `kbApiJar` system property;
  - the `System.err` message printed by `toEnumName`.
- Some swagger-codegen library behaviour is outside the model. These become inputs:
  - `super.postProcessOperations`: operations arrive as it leaves them;
  - `sanitizeName(camelize(name))`: a function parameter of ToEnumName;
  - `toModelName`: a field of the type settings;
  - `super.getTypeDeclaration` of a leaf property: its `declaration` field;
  - `super.getSwaggerType`: the property's `swaggerType`.
- `processOpts` and the Python `postProcessModels` and `postProcessParameter` only configure or delegate to the library. They are not part of the model; the import mapping is a constructor argument.
- The constructors' field copies are kept only for the fields a rule reads or writes.
- `ALL_MODELS` is a static set. It is modelled as the field `allModels` of the one generator object.
- KillbillJava.JavaGenerator.FindEnumType: requires each registered enum to have at least one value. `EnumSet.allOf(..).iterator().next()` on an empty enum raises, and the model does not cover that case.
- Enrichment.VerbFlags and Enrichment.CopyParameterSpec: case folding is ASCII-only. Java's `equalsIgnoreCase` also folds non-ASCII characters, such as `ſ` with `s`, `ı` with `i` and `İ` with `i`. So an HTTP method such as "poſt" or a format such as "date-tİme" matches in the source but not in the model. HTTP methods and Swagger formats are ASCII names.
- CopyParameterSpec: the isDate, isDateTime and isUuid formats are matched with the same ASCII-only folding; the model is weaker than the source only for non-ASCII formats.
- Some source fields can be null but are plain values in the model, because swagger-codegen always fills them: `Property.name`, `ParamData.paramName`, `Model.name`, and the items and values of Python container properties. So the NullPointerExceptions are not modelled: from `paramName.contains` (KillbillPythonGenerator.java:347), from `m.name.equals` and `p.name.equals` (KillbillJavaGenerator.java:161,170,179), and from an ArrayProperty without items reaching `getTypeDeclaration` (KillbillPythonGenerator.java:101-102).
- KillbillJava.JavaGenerator.PostProcessOperations: on an exception, the contract does not say which operation raised. It also does not say how far the import list got; it only says that the list still only grew.
- KillbillJava.JavaGenerator.PostProcessOperations and KillbillPython.PostProcessOperations: require that no body parameter object of one operation is a parameter of another. swagger-codegen builds fresh parameter objects per operation. Aliasing within one operation (`bodyParam` inside `allParams`) is modelled.
- Validate.ValidatePaths: the three tables are a parameter. ValidateArguments passes the fixed ones.
- Validate.ValidateArguments does not model some YAML shapes:
  - a `paths` value that is nil;
  - a path entry that is not a map of endpoints;
  - a parameter entry that is not a map.
- A parameter whose `in` or `name` is missing is not modelled: a `Param` always has both.
- In `validate.rb`, two cases are modelled as a runtime error (`crashed`), because that is what the code does:
  - a location outside the table, such as `form`, makes `nil < n` or `n < nil` raise;
  - an endpoint without `parameters` makes `nil.each_with_index` raise.

  This is a choice of how to model the code: no precondition excludes these inputs.
