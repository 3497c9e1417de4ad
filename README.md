# openapi-wizard, modelled in Dafny

openapi-wizard reads an OpenAPI 3 document and writes a TypeScript client for it. This project models the core of that generator and proves properties of the model:

- the **schema-shape renderer**, which turns a JSON-Schema fragment into a TypeScript type expression through an ordered chain of cases;
- the **client emitter**, which writes:
  - one `export type` alias per component schema;
  - one `export interface …Params` per operation;
  - a class `Api` with one `async` method per operation;
- the **operation lister** and the **schema lister**, which flatten the parsed document.

The repository contains two versions of the renderer and two of the emitter. Each version is its own module here, because their behaviour differs:

| module | file | what it is |
|---|---|---|
| `OpenApi` | internal/openapi/schema.go | the document's data types, `ListOperations`, `ListSchemas` |
| `JsonSchema` | internal/openapi/json_schema.go | the newer renderer: allOf, oneOf, items, enum, boolean, string, number, object, `$ref`, `unknown` |
| `FormatSchema` | internal/codegen/format_schema.go | the older renderer, which the current emitter uses: allOf, oneOf, string, number, object, `$ref`, `unknown` |
| `TsClient` | internal/codegen/format_ts_client.go | the current emitter |
| `TsClientLegacy` | internal/codegen/format-ts-client.go | the legacy emitter, with its own small renderer |
| `Versions` | — | how the versions agree, and where they differ |
| `Strings`, `Wrappers` | — | `strings.Join`, `strings.Replace(s, p, "", 1)`, the `slices.Contains`-guarded append, `Option` |

How the model is written:

- Each rendering or emitting operation is specified by a function: `Shape`, `InterfaceText`, `OperationText`, `ClientText`.
- Each append loop of the source is a method with the same loop. Its invariant ties the accumulator to the specification function over the prefix processed so far, and its `ensures` equates the result with that function.
- Lemmas about the specification functions state what the generator promises.
- Go's `JsonSchemaDefinition` is one datatype, `OpenApi.Schema`. Go declares it twice with the same fields, in schema.go:31-41 and json_schema.go:10-20.

Inputs are modelled as follows:

- **Map iteration order.** Go leaves the iteration order of maps unspecified, so it is an input everywhere.
  - The properties of a schema are a sequence of (name, schema) pairs, in the order the loop visits them.
  - `ListOperations` and `ListSchemas` take an explicit `order` that enumerates the map's keys, each exactly once.
- **`strcase.ToCamel` and `strcase.ToLowerCamel`** come from a library outside the repository. They are the two fields of `Strings.Casing` and are passed to every operation as `sc`. Every result holds for every choice of the two functions, except the two `getUser` examples in `TsClient`, which fix the casing results they use.
- **Reference stripping.** It is `strings.Replace(ref, "#/components/schemas/", "", 1)`, modelled as `Strings.RemoveFirst`: it removes the first occurrence anywhere in the string, not just a leading prefix.
- **Map lookups with defaults.** `Responses["200"].Content["application/json"]` is `OpenApi.ResponseSchema`, which returns the zero schema when either key is missing, as Go's map index does.

Where the two emitters differ:

- The two emitter files declare the same identifiers in one Go package, so the package cannot compile with both. The separate modules model each file exactly as written.
- The legacy emitter's renderer reads only the type, the properties and the reference.
- The legacy emitter marks a property optional unless the property's own `required` list names it (see Findings).
- The legacy emitter passes on query and header parameters only.
- The legacy emitter always declares the method argument `params:`. The current one writes `params?:` for an operation without parameters.
- In both emitters, the interface is named from the raw operation id, `ToCamel(operationId + "_params")`. The method signature names `ToCamel(ToLowerCamel(operationId) + "_params")`. The model keeps both derivations as written; with uninterpreted casing nothing says that they coincide.

## Model

| member | source | states |
|---|---|---|
| OpenApi.ResponseSchema | internal/codegen/format_ts_client.go:65 | definition of the response lookup: the schema under "200" and "application/json", or the zero schema when either key is missing, as Go's map index gives it |
| OpenApi.Operations | internal/openapi/schema.go:81-95 | definition of the listing over a given iteration order: each visited path's `PathOperations`, in visiting order |
| OpenApi.PathOperations | internal/openapi/schema.go:84-92 | a path contributes a GET entry iff its GET id is non-empty and a POST entry iff its POST id is non-empty, GET first, each carrying the path and the slot unchanged; nothing else |
| OpenApi.IterationOrderLength | internal/openapi/schema.go:84 | an order that ranges over a map's keys, each once, is as long as the map is large |
| OpenApi.OperationsMembers | internal/openapi/schema.go:81-95 | an entry is in the listing iff it is a named GET or POST slot of a path, with that path and definition |
| OpenApi.OperationsCount | internal/openapi/schema.go:81-95 | the listing has as many entries as there are named GET slots plus named POST slots |
| OpenApi.OperationsGetBeforePost | internal/openapi/schema.go:85-91 | within one path the GET entry comes before the POST entry |
| OpenApi.OperationsPathIn | internal/openapi/schema.go:84-92 | every entry carries one of the visited path keys |
| OpenApi.OperationsIgnoreOtherSlots | internal/openapi/schema.go:50-56 | the PUT, DELETE and PATCH slots never affect the listing, whatever their ids |
| OpenApi.ListOperations | internal/openapi/schema.go:81-95 | the loop computes the listing; its members are exactly the named GET/POST slots, every verb is "get" or "post", and its length is the number of named GETs plus named POSTs |
| OpenApi.ListOperationsTwoGets | internal/openapi/schema_test.go:9-26 | two paths, each with a named GET only, list two operations in either iteration order |
| OpenApi.Schemas | internal/openapi/schema.go:100-105 | entry i is the i-th visited name with its schema, unchanged |
| OpenApi.ListSchemas | internal/openapi/schema.go:97-109 | the loop computes one entry per map key, as many as the map has, and an entry is present iff it is a (name, schema) pair of the map |
| OpenApi.ListSchemasOne | internal/openapi/schema_test.go:28-51 | one named schema lists exactly one entry, the schema itself |
| JsonSchema.ObjectShape | internal/openapi/json_schema.go:71-92 | definition of the object branch: "Record<string, unknown>" or "Record<string, never>" without properties (by additionalProperties), else the entries joined by ";" in braces |
| JsonSchema.Shape | internal/openapi/json_schema.go:36-100 | definition of the newer renderer: the ordered case chain allOf, oneOf, items, enum, boolean, string, number/integer, object, reference, "unknown" |
| JsonSchema.RenderAll | internal/openapi/json_schema.go:25-26 | one rendering per schema |
| JsonSchema.RenderAllAt | internal/openapi/json_schema.go:25-26 | rendering i is the shape of schema i |
| JsonSchema.MapShapes | internal/openapi/json_schema.go:22-34 | no duplicates; every input's shape is present; every element is some input's shape; elements appear in first-seen order; never longer than the input |
| JsonSchema.FormatSchemaShape | internal/openapi/json_schema.go:36-100 | the method with the source's loops computes `Shape` |
| JsonSchema.PropEntries | internal/openapi/json_schema.go:74-82 | one entry per property |
| JsonSchema.PropEntriesAt | internal/openapi/json_schema.go:74-82 | entry i is the i-th property's name, its optional mark, ": " and its shape |
| JsonSchema.EnumLiterals | internal/openapi/json_schema.go:52-55 | one literal per value, value i in double quotes at position i |
| JsonSchema.AllOfWins | internal/openapi/json_schema.go:37-40 | a non-empty allOf decides alone: the de-duplicated member shapes joined by " & " in parentheses, whatever the other fields |
| JsonSchema.OneOfSecond | internal/openapi/json_schema.go:42-45 | without allOf, a non-empty oneOf decides alone, joined by " \| " |
| JsonSchema.ItemsThird | internal/openapi/json_schema.go:47-49 | without combinators, items give "(" + item shape + ")[]" |
| JsonSchema.EnumFourth | internal/openapi/json_schema.go:51-57 | without combinators or items, a non-empty enum gives its quoted values joined by " \| ", whatever the type, properties, reference or required list |
| JsonSchema.PrimitiveTypes | internal/openapi/json_schema.go:59-69 | when no earlier case applies: boolean → "boolean", string → "string", number or integer → "number" |
| JsonSchema.ObjectWithProperties | internal/openapi/json_schema.go:71-92 | an object with properties is "{" + entries joined by ";" + "}" |
| JsonSchema.PropertyOptionalIff | internal/openapi/json_schema.go:75-81 | the character after a property's name is "?" iff the parent's required list lacks the name |
| JsonSchema.EmptyObject | internal/openapi/json_schema.go:84-90 | a property-less object is "Record<string, unknown>" iff additional properties are allowed, else "Record<string, never>" |
| JsonSchema.RefOrUnknown | internal/openapi/json_schema.go:95-99 | when no earlier case applies, a reference renders as ToCamel of the reference with the first "#/components/schemas/" removed; without one the shape is "unknown" |
| JsonSchema.RefName | internal/openapi/json_schema.go:95-97 | a reference "#/components/schemas/" + name renders as ToCamel(name) |
| JsonSchema.EqualRenderingsCollapse | internal/openapi/json_schema.go:28-30 | two allOf members that render alike appear once |
| JsonSchema.RenderTwo | internal/openapi/json_schema.go:25-26 | the renderings of a two-element list |
| JsonSchema.TwoDistinctMembers | internal/openapi/json_schema.go:28-30 | two members that render differently are both kept, in order |
| JsonSchema.UnionOfTwo | internal/openapi/json_schema.go:42-45 | a oneOf of two differently rendered members gives "(a \| b)" |
| JsonSchema.IntersectionOfTwo | internal/openapi/json_schema.go:37-40 | an allOf of two differently rendered members gives "(a & b)" |
| JsonSchema.DistinctRenderingsKept | internal/openapi/json_schema.go:22-34 | when all renderings differ, de-duplication keeps them all in order |
| JsonSchema.PropEntriesOne | internal/openapi/json_schema.go:74-82 | the single entry of a one-property object |
| JsonSchema.RequiredPropertyCase | internal/openapi/json_schema_test.go:9-21 | a required string property renders "{name: string}" |
| JsonSchema.OptionalPropertyCase | internal/openapi/json_schema_test.go:23-35 | an optional one renders "{name?: string}" |
| JsonSchema.EmptyObjectCases | internal/openapi/json_schema_test.go:37-58 | "Record<string, never>", and "Record<string, unknown>" with additional properties |
| JsonSchema.UnionCase | internal/openapi/json_schema_test.go:60-71 | "(string \| number)" |
| JsonSchema.UnionWithObjectCase | internal/openapi/json_schema_test.go:73-89 | "({name: string} \| number)" |
| JsonSchema.IntersectionCase | internal/openapi/json_schema_test.go:91-102 | "(string & number)" |
| JsonSchema.ArrayCase | internal/openapi/json_schema_test.go:104-114 | "(string)[]" |
| JsonSchema.EnumCase | internal/openapi/json_schema_test.go:116-128 | a string enum of "abc" and "def" renders "(\"abc\" \| \"def\")" |
| JsonSchema.BooleanCase | internal/openapi/json_schema_test.go:130-138 | "boolean" |
| JsonSchema.RefCase | internal/openapi/json_schema.go:95-97 | "#/components/schemas/user_profile" renders ToCamel("user_profile") |
| FormatSchema.ObjectShape | internal/codegen/format_schema.go:44-65 | definition of the object branch: "Record<string, unknown>" or "Record<string, never>" without properties (by additionalProperties), else the entries joined by ";" in braces |
| FormatSchema.Shape | internal/codegen/format_schema.go:25-73 | definition of the older renderer: the ordered case chain allOf, oneOf, string, number/integer, object, reference, "unknown" |
| FormatSchema.RenderAll | internal/codegen/format_schema.go:14-15 | one rendering per schema |
| FormatSchema.RenderAllAt | internal/codegen/format_schema.go:14-15 | rendering i is the shape of schema i |
| FormatSchema.MapShapes | internal/codegen/format_schema.go:11-23 | no duplicates; every input's shape is present; every element is some input's shape; first-seen order; never longer than the input |
| FormatSchema.FormatSchemaShape | internal/codegen/format_schema.go:25-73 | the method with the source's loops computes `Shape` |
| FormatSchema.PropEntries | internal/codegen/format_schema.go:47-55 | one entry per property |
| FormatSchema.PropEntriesAt | internal/codegen/format_schema.go:47-55 | entry i is the i-th property's name, its optional mark, ": " and its shape |
| FormatSchema.AllOfWins | internal/codegen/format_schema.go:26-29 | a non-empty allOf decides alone, joined by " & " |
| FormatSchema.OneOfSecond | internal/codegen/format_schema.go:31-34 | without allOf, a non-empty oneOf decides alone, joined by " \| " |
| FormatSchema.PrimitiveTypes | internal/codegen/format_schema.go:36-42 | without combinators: string → "string", number or integer → "number" |
| FormatSchema.ItemsAndEnumIgnored | internal/codegen/format_schema.go:25-73 | items and enum values never change a rendering |
| FormatSchema.PropEntriesSameProps | internal/codegen/format_schema.go:47-55 | the entries depend only on the properties and the required list |
| FormatSchema.ObjectWithProperties | internal/codegen/format_schema.go:44-65 | an object with properties is "{" + entries joined by ";" + "}" |
| FormatSchema.PropertyOptionalIff | internal/codegen/format_schema.go:48-54 | the character after a property's name is "?" iff the parent's required list lacks the name |
| FormatSchema.EmptyObject | internal/codegen/format_schema.go:57-63 | a property-less object is "Record<string, unknown>" iff additional properties are allowed, else "Record<string, never>" |
| FormatSchema.RefOrUnknown | internal/codegen/format_schema.go:68-72 | once no earlier case applies (items, enum and type "boolean" included), a reference gives ToCamel of the stripped reference, otherwise "unknown" |
| FormatSchema.RefName | internal/codegen/format_schema.go:68-70 | a reference "#/components/schemas/" + name renders as ToCamel(name) |
| FormatSchema.RenderTwo | internal/codegen/format_schema.go:14-15 | the renderings of a two-element list |
| FormatSchema.EqualRenderingsCollapse | internal/codegen/format_schema.go:17-19 | two allOf members that render alike appear once |
| FormatSchema.TwoDistinctMembers | internal/codegen/format_schema.go:17-19 | two members that render differently are both kept, in order |
| FormatSchema.UnionOfTwo | internal/codegen/format_schema.go:31-34 | a oneOf of two differently rendered members gives "(a \| b)" |
| FormatSchema.IntersectionOfTwo | internal/codegen/format_schema.go:26-29 | an allOf of two differently rendered members gives "(a & b)" |
| FormatSchema.PropEntriesOne | internal/codegen/format_schema.go:47-55 | the single entry of a one-property object |
| FormatSchema.RequiredPropertyCase | internal/codegen/format_schema_test.go:10-22 | "{name: string}" |
| FormatSchema.OptionalPropertyCase | internal/codegen/format_schema_test.go:24-36 | "{name?: string}" |
| FormatSchema.EmptyObjectCases | internal/codegen/format_schema_test.go:38-59 | "Record<string, never>", and "Record<string, unknown>" with additional properties |
| FormatSchema.UnionCase | internal/codegen/format_schema_test.go:61-72 | "(string \| number)" |
| FormatSchema.UnionWithObjectCase | internal/codegen/format_schema_test.go:74-90 | "({name: string} \| number)" |
| FormatSchema.IntersectionCase | internal/codegen/format_schema_test.go:92-103 | "(string & number)" |
| TsClient.ParameterName | internal/codegen/format_ts_client.go:10-12 | definition of `formatParameterName`: ToLowerCamel of the parameter name |
| TsClient.InterfaceName | internal/codegen/format_ts_client.go:28 | definition of the interface name: ToCamel of the raw operation id plus "_params" |
| TsClient.FieldMark | internal/codegen/format_ts_client.go:20-22 | definition of the field mark: "?" for a parameter that is not required, else "" |
| TsClient.Field | internal/codegen/format_ts_client.go:17-25 | definition of one interface field: the camel-cased name, its mark, ": " and the schema's shape |
| TsClient.InterfaceText | internal/codegen/format_ts_client.go:14-32 | definition of `formatParameterInterface`'s text: the header line, the fields joined by a newline and two spaces after an indent of two, and "}", joined by newlines |
| TsClient.Fields | internal/codegen/format_ts_client.go:17-25 | one field per parameter |
| TsClient.FieldsAt | internal/codegen/format_ts_client.go:17-25 | field i is parameter i's camel-cased name, its mark, ": " and its schema's shape |
| TsClient.FieldOptionalIff | internal/codegen/format_ts_client.go:18-22 | the character after the field name is "?" iff the parameter is not required |
| TsClient.InterfaceLayout | internal/codegen/format_ts_client.go:27-31 | "export interface " + ToCamel(id + "_params") + " {", the fields on lines indented by two, then "}" |
| TsClient.EmptyInterface | internal/codegen/format_ts_client.go:27-31 | without parameters the interface still has a blank indented line |
| TsClient.FormatParameterInterface | internal/codegen/format_ts_client.go:14-32 | the loop computes `InterfaceText` |
| TsClient.GetUserInterface | internal/codegen/format_ts_client.go:14-32 | an operation `getUser` with one required string path parameter `id` gets "export interface GetUserParams {\n  id: string\n}", given the two casing results it uses |
| TsClient.MarshalCode | internal/codegen/format_ts_client.go:38-63 | definition of the marshalling code: each parameter's statements, in parameter order |
| TsClient.QueryCode | internal/codegen/format_ts_client.go:41-48 | definition of a string query parameter's three guarded `url.searchParams.set` statements; nothing for any other parameter |
| TsClient.HeaderCode | internal/codegen/format_ts_client.go:50-57 | definition of a string header parameter's three guarded `headers.set` statements; nothing for any other parameter |
| TsClient.PathCode | internal/codegen/format_ts_client.go:59-62 | definition of a string path parameter's placeholder replacement; nothing for any other parameter |
| TsClient.ParamCode | internal/codegen/format_ts_client.go:40-62 | definition of one parameter's code: the query, header and path statements, in the order of the three ifs |
| TsClient.ParamCodeCases | internal/codegen/format_ts_client.go:40-62 | a string query parameter gives the three-line guarded `url.searchParams.set`, a string header the same with `headers.set`, a string path the one-line placeholder replacement; anything else gives nothing |
| TsClient.GetUserPathCode | internal/codegen/format_ts_client.go:59-62 | the same operation marshals to the single line `url.pathname = url.pathname.replace("{id}", params.id);` |
| TsClient.MarshalCodeAppend | internal/codegen/format_ts_client.go:39-63 | parameter code is emitted in parameter order, list after list |
| TsClient.MarshalCodeLength | internal/codegen/format_ts_client.go:38-63 | 3 lines per string query or header parameter plus 1 per string path parameter |
| TsClient.NonStringParamsIgnored | internal/codegen/format_ts_client.go:41-59 | parameters with non-string schemas add no code |
| TsClient.MissingResponseUnknown | internal/codegen/format_ts_client.go:65 | without a JSON 200 response the method promises "unknown" |
| TsClient.MethodName | internal/codegen/format_ts_client.go:35 | definition of the method name: ToLowerCamel of the operation id |
| TsClient.ReferencedInterface | internal/codegen/format_ts_client.go:36 | definition of the signature's parameter type: ToCamel of the method name plus "_params" |
| TsClient.ParamsMark | internal/codegen/format_ts_client.go:67-70 | definition of the argument mark: "?" iff the operation has no parameters |
| TsClient.Signature | internal/codegen/format_ts_client.go:65-73 | definition of the signature line: name, `params` with its mark, the referenced interface and the response shape in `Promise<…>` |
| TsClient.OperationLines | internal/codegen/format_ts_client.go:72-81 | definition of the method's eight lines: signature, headers, URL, the marshalling code joined by a newline and two spaces, fetch, body, return, "  }" |
| TsClient.OperationText | internal/codegen/format_ts_client.go:72-81 | definition of `formatOperation`'s text: those lines joined by newlines |
| TsClient.SignatureOptionalIff | internal/codegen/format_ts_client.go:67-73 | the argument is `params?` iff the operation has no parameters |
| TsClient.OperationFraming | internal/codegen/format_ts_client.go:72-81 | a method opens with its signature line and ends with "  }" on its own line |
| TsClient.FormatOperation | internal/codegen/format_ts_client.go:34-82 | the loop computes `OperationText`, which does not depend on the HTTP method argument |
| TsClient.OperationTexts | internal/codegen/format_ts_client.go:87-89 | one method per operation |
| TsClient.OperationTextsAt | internal/codegen/format_ts_client.go:88 | method i is operation i's, formatted the same whatever its verb |
| TsClient.InterfaceTexts | internal/codegen/format_ts_client.go:97-99 | one interface per operation |
| TsClient.InterfaceTextsAt | internal/codegen/format_ts_client.go:98 | interface i is operation i's |
| TsClient.SchemaAlias | internal/codegen/format_ts_client.go:108 | definition of one alias: "export type " + ToCamel(name) + " = " + the schema's shape |
| TsClient.SchemaAliases | internal/codegen/format_ts_client.go:107-109 | one alias per schema |
| TsClient.SchemaAliasesAt | internal/codegen/format_ts_client.go:108 | alias i is "export type " + ToCamel(name i) + " = " + the shape of schema i |
| TsClient.FormatMethods | internal/codegen/format_ts_client.go:84-92 | the methods joined by a newline plus the indent |
| TsClient.FormatInterfaces | internal/codegen/format_ts_client.go:94-102 | the interfaces joined by a newline plus the indent |
| TsClient.FormatSchemas | internal/codegen/format_ts_client.go:104-112 | the aliases joined by a newline plus the indent |
| TsClient.ClientSections | internal/codegen/format_ts_client.go:118-126 | definition of the seven sections: aliases, interfaces, the class opening, the constructor, its closing brace, the indented methods, "}" |
| TsClient.ClientText | internal/codegen/format_ts_client.go:128 | definition of the generated file: the sections joined by blank lines |
| TsClient.ClientOrder | internal/codegen/format_ts_client.go:118-128 | the aliases section and a blank line come first, then the interfaces section and a blank line |
| TsClient.ClientEnd | internal/codegen/format_ts_client.go:125-128 | the file ends with a blank line and the class's closing "}" |
| TsClient.InterfaceInFile | internal/codegen/format_ts_client.go:118-128 | interface k of the interfaces section occurs in the generated file |
| TsClient.MethodInFile | internal/codegen/format_ts_client.go:118-128 | method k of the class body occurs in the generated file |
| TsClient.EveryListedOperationEmitted | internal/codegen/format_ts_client.go:114-129 | every listed operation's interface and method are elements of the sequences the file joins, and each occurs in the generated file |
| TsClient.OnlyListedOperationsEmitted | internal/codegen/format_ts_client.go:114-129 | interface k and method k belong to listing entry k, a named GET or POST slot |
| TsClient.FormatTypescriptClient | internal/codegen/format_ts_client.go:114-129 | the file is the sections joined by blank lines, for the listings in the given orders |
| TsClientLegacy.Shape | internal/codegen/format-ts-client.go:15-40 | definition of the legacy renderer: string, object, reference, "unknown", in that order |
| TsClientLegacy.ParameterName | internal/codegen/format-ts-client.go:11-13 | definition of `formatParameterName`: ToLowerCamel of the parameter name |
| TsClientLegacy.PropEntries | internal/codegen/format-ts-client.go:23-30 | one entry per property |
| TsClientLegacy.PropEntriesAt | internal/codegen/format-ts-client.go:23-30 | entry i's mark comes from the property's own required list |
| TsClientLegacy.FormatSchemaShape | internal/codegen/format-ts-client.go:15-40 | the method with the property loop computes the legacy `Shape` |
| TsClientLegacy.ObjectShape | internal/codegen/format-ts-client.go:20-33 | any object is "{" + entries joined by ";" + "}" |
| TsClientLegacy.EmptyObjectBraces | internal/codegen/format-ts-client.go:20-33 | a property-less object is "{}", with or without additional properties |
| TsClientLegacy.PropertyOptionalIff | internal/codegen/format-ts-client.go:24-27 | the character after a property's name is "?" iff the property's own required list lacks the name |
| TsClientLegacy.PropEntriesSameProps | internal/codegen/format-ts-client.go:23-30 | the entries depend only on the properties |
| TsClientLegacy.OnlyTypePropsRefRead | internal/codegen/format-ts-client.go:15-40 | combinators, items, enum, the required list and additional properties never change the rendering |
| TsClientLegacy.RefOrUnknown | internal/codegen/format-ts-client.go:35-39 | any type but string and object (numbers and booleans too) gives the stripped, camel-cased reference, or "unknown" |
| TsClientLegacy.InterfaceName | internal/codegen/format-ts-client.go:56 | definition of the interface name: ToCamel of the raw operation id plus "_params" |
| TsClientLegacy.FieldMark | internal/codegen/format-ts-client.go:48-50 | definition of the field mark: "?" for a parameter that is not required, else "" |
| TsClientLegacy.Field | internal/codegen/format-ts-client.go:45-53 | definition of one interface field, with the legacy renderer's shape |
| TsClientLegacy.InterfaceText | internal/codegen/format-ts-client.go:42-60 | definition of `formatParameterInterface`'s text: header line, the indented fields, "}", joined by newlines |
| TsClientLegacy.Fields | internal/codegen/format-ts-client.go:45-53 | one field per parameter |
| TsClientLegacy.FieldsAt | internal/codegen/format-ts-client.go:45-53 | field i is parameter i's |
| TsClientLegacy.FieldOptionalIff | internal/codegen/format-ts-client.go:46-50 | the character after the field name is "?" iff the parameter is not required |
| TsClientLegacy.FormatParameterInterface | internal/codegen/format-ts-client.go:42-60 | the loop computes `InterfaceText`, named ToCamel(id + "_params") |
| TsClientLegacy.QueryCode | internal/codegen/format-ts-client.go:69-76 | definition of a string query parameter's three guarded `url.searchParams.set` statements; nothing otherwise |
| TsClientLegacy.HeaderCode | internal/codegen/format-ts-client.go:78-85 | definition of a string header parameter's three guarded `headers.set` statements; nothing otherwise |
| TsClientLegacy.ParamCode | internal/codegen/format-ts-client.go:68-85 | definition of one parameter's code: the query then the header statements; no path case |
| TsClientLegacy.MarshalCode | internal/codegen/format-ts-client.go:66-86 | definition of the legacy marshalling code: each parameter's statements, in parameter order |
| TsClientLegacy.ParamCodeCases | internal/codegen/format-ts-client.go:67-86 | string query and header parameters give their three guarded lines; a parameter contributes iff it is a string query or header one; path parameters never do |
| TsClientLegacy.MethodName | internal/codegen/format-ts-client.go:63 | definition of the method name: ToLowerCamel of the operation id |
| TsClientLegacy.ReferencedInterface | internal/codegen/format-ts-client.go:64 | definition of the signature's parameter type: ToCamel of the method name plus "_params" |
| TsClientLegacy.Signature | internal/codegen/format-ts-client.go:88-91 | definition of the signature line, always with `params:` and the legacy response shape |
| TsClientLegacy.OperationLines | internal/codegen/format-ts-client.go:90-99 | definition of the method's eight lines |
| TsClientLegacy.OperationText | internal/codegen/format-ts-client.go:90-99 | definition of `formatOperation`'s text: those lines joined by newlines |
| TsClientLegacy.SignatureArgumentRequired | internal/codegen/format-ts-client.go:91 | the argument is always `params:`, never optional |
| TsClientLegacy.MissingResponseUnknown | internal/codegen/format-ts-client.go:88 | without a JSON 200 response the method promises "unknown" |
| TsClientLegacy.FormatOperation | internal/codegen/format-ts-client.go:62-100 | the loop computes `OperationText`, which does not depend on the HTTP method argument |
| TsClientLegacy.OperationTexts | internal/codegen/format-ts-client.go:105-107 | one method per operation |
| TsClientLegacy.OperationTextsAt | internal/codegen/format-ts-client.go:106 | method i is operation i's, formatted the same whatever its verb |
| TsClientLegacy.InterfaceTexts | internal/codegen/format-ts-client.go:115-117 | one interface per operation |
| TsClientLegacy.InterfaceTextsAt | internal/codegen/format-ts-client.go:116 | interface i is operation i's |
| TsClientLegacy.SchemaAlias | internal/codegen/format-ts-client.go:126 | definition of one alias, with the legacy renderer's shape |
| TsClientLegacy.SchemaAliases | internal/codegen/format-ts-client.go:125-127 | one alias per schema |
| TsClientLegacy.SchemaAliasesAt | internal/codegen/format-ts-client.go:126 | alias i is schema i's, rendered by the legacy renderer |
| TsClientLegacy.FormatMethods | internal/codegen/format-ts-client.go:102-110 | the methods joined by a newline plus the indent |
| TsClientLegacy.FormatInterfaces | internal/codegen/format-ts-client.go:112-120 | the interfaces joined by a newline plus the indent |
| TsClientLegacy.FormatSchemas | internal/codegen/format-ts-client.go:122-130 | the aliases joined by a newline plus the indent |
| TsClientLegacy.ClientSections | internal/codegen/format-ts-client.go:136-144 | definition of the seven sections, the same layout as the current emitter's |
| TsClientLegacy.ClientText | internal/codegen/format-ts-client.go:146 | definition of the generated file: the sections joined by blank lines |
| TsClientLegacy.InterfaceInFile | internal/codegen/format-ts-client.go:136-146 | interface k of the interfaces section occurs in the generated file |
| TsClientLegacy.MethodInFile | internal/codegen/format-ts-client.go:136-146 | method k of the class body occurs in the generated file |
| TsClientLegacy.EveryListedOperationEmitted | internal/codegen/format-ts-client.go:132-147 | every listed operation's interface and method are elements of the sequences the file joins, and each occurs in the generated file |
| TsClientLegacy.OnlyListedOperationsEmitted | internal/codegen/format-ts-client.go:132-147 | interface k and method k belong to listing entry k |
| TsClientLegacy.FormatTypescriptClient | internal/codegen/format-ts-client.go:132-147 | the file is the sections joined by blank lines |
| Versions.AgreeShape | internal/openapi/json_schema.go:36-100 | on schemas without items, enum values or boolean type at any depth, the newer renderer gives exactly the older renderer's text (format_schema.go:25-73) |
| Versions.AgreeAll | internal/openapi/json_schema.go:22-34 | the list renderings agree on such schemas |
| Versions.AgreeProps | internal/openapi/json_schema.go:74-82 | the object entries agree on such schemas |
| Versions.BooleanDiffers | internal/openapi/json_schema.go:59-61 | "boolean" in the newer renderer, "unknown" in the older |
| Versions.ItemsDiffer | internal/openapi/json_schema.go:47-49 | an untyped array renders as an array in the newer renderer and as "unknown" in the older |
| Versions.EnumDiffers | internal/openapi/json_schema.go:51-57 | a string enum is a literal union in the newer renderer and "string" in the older |
| Versions.LegacyEmptyObjectDiffers | internal/codegen/format-ts-client.go:20-33 | "{}" in the legacy renderer, a Record type in the current one |
| Versions.LegacyNumberUnknown | internal/codegen/format-ts-client.go:35-39 | a number is "unknown" to the legacy renderer and "number" to the current one |
| Versions.LegacyParentRequiredIgnored | internal/codegen/format-ts-client.go:25 | a property the parent requires but whose own list lacks the name is optional in the legacy text and required in the current one |
| Versions.LegacyNameEntry | internal/codegen/format-ts-client.go:23-30 | the legacy entry of the required `name` property is "name?: string" |
| Versions.LegacyNameObject | internal/codegen/format-ts-client.go:25 | the object of the required-property test renders "{name?: string}" in the legacy emitter and "{name: string}" in the current one |
| Versions.ParamCodeAgrees | internal/codegen/format-ts-client.go:67-86 | for any parameter but a string path one, both emitters produce the same statements |
| Versions.LegacyPathDropped | internal/codegen/format-ts-client.go:67-86 | a string path parameter gives one statement in the current emitter and none in the legacy one |
| Versions.LegacyMarshalAgrees | internal/codegen/format-ts-client.go:66-86 | without string path parameters both emitters marshal identically |
| Versions.LegacyMarshalCodeLength | internal/codegen/format-ts-client.go:66-86 | 3 legacy lines per string query or header parameter, nothing else |
| Strings.Join | internal/codegen/format_ts_client.go:27-31 | definition of `strings.Join`: the parts with the separator between consecutive ones; "" for no parts |
| Strings.JoinSnoc | internal/codegen/format_ts_client.go:91 | appending a part to a join adds one separator and the part |
| Strings.JoinContains | internal/codegen/format_ts_client.go:128 | every part occurs in the text `strings.Join` makes of the parts |
| Strings.RemoveFirst | internal/openapi/json_schema.go:96 | definition of `strings.Replace(s, p, "", 1)`: the first occurrence of `p` cut out, or `s` unchanged when there is none |
| Strings.RemoveFirstAt | internal/openapi/json_schema.go:96 | the first occurrence of the prefix, wherever it is, is cut out |
| Strings.RemoveFirstPrefix | internal/openapi/json_schema.go:96 | a leading "#/components/schemas/" is stripped |
| Strings.RemoveFirstAbsent | internal/openapi/json_schema.go:96 | a reference without the prefix is kept whole |
| Strings.Dedup | internal/openapi/json_schema.go:25-31 | the guarded append keeps no duplicates, loses no value and never grows longer |
| Strings.DedupFirstSeenOrder | internal/openapi/json_schema.go:25-31 | kept values appear in the order of their first appearance |
| Strings.DedupDistinct | internal/openapi/json_schema.go:25-31 | without repetitions nothing is dropped |

## Findings

| source | as written | input that shows it | evidently intended | confidence | as-written member | corrected member |
|---|---|---|---|---|---|---|
| internal/codegen/format-ts-client.go:25 | a property is marked optional unless the property's own schema lists its name as required | an object with `required: ["name"]` and a string property `name` renders "{name?: string}" | optional exactly when the parent object's required list lacks the name, as format_schema.go:50 and json_schema.go:77 do, giving "{name: string}" | medium, not executed | Versions.LegacyNameObject | FormatSchema.PropertyOptionalIff |

The as-written behaviour is `TsClientLegacy.Shape`. The corrected behaviour is `FormatSchema.Shape`, which the current emitter `TsClient` uses. `Versions.LegacyParentRequiredIgnored` states the difference for every such property.

## Left out

- `Load` and `Print` (internal/openapi/schema.go:111-140): file reading, YAML (de)serialisation and panics are I/O and a foreign library.
- cmd/openapi.go: command-line flags and printing to standard output.
- The word-splitting rules of `strcase.ToCamel` and `strcase.ToLowerCamel`: the library is not part of this model, so the two functions are parameters about which nothing is assumed.
- Go's map iteration order: it is an input. Results about a whole map are order-independent (membership, counts) except for single-entry maps, as in the tests.
- Uniqueness of property names: properties are a sequence of pairs, so a sequence with a repeated name is a legal input. The source's map rules that out, and the model makes no use of either.
- The behaviour of the generated TypeScript at run time (`fetch`, `URL`, `Headers`): only the generated text is modelled.
- fixtures/openapi-example-client.ts: it is hand-formatted and does not match the emitter byte for byte, so it is not used as an expected output.
- Cyclic schemas: the inductive `Schema` datatype excludes them by construction.
- Pointer semantics of `formatOperation`'s `*OperationDefinition` argument: it is read only, so it is passed by value.
