/**
 * The TypeScript client emitter (internal/codegen/format_ts_client.go): one
 * `export type` alias per component schema, one `export interface …Params`
 * per listed operation, and a class `Api` with one `async` method per listed
 * operation. Every schema is rendered by the older renderer of
 * format_schema.go (module FormatSchema).
 *
 * The text of each piece is specified by a function; the methods follow the
 * source's append loops and are proved to produce that text.
 */
module TsClient {
  import opened Strings
  import opened OpenApi
  import FormatSchema

  // ---------------------------------------------------------------- parameter interfaces

  /** `formatParameterName`: the lower camel-cased parameter name. */
  function ParameterName(sc: Casing, name: string): string
  {
    sc.ToLowerCamel(name)
  }

  /** The interface an operation's parameters are declared in. */
  function InterfaceName(sc: Casing, operationId: string): string
  {
    sc.ToCamel(operationId + "_params")
  }

  /** `"?"` for a parameter that is not required. */
  function FieldMark(required: bool): string
  {
    if required then "" else "?"
  }

  /** The interface field of one parameter: `name[?]: shape`. */
  function Field(sc: Casing, p: ParameterDefinition): string
  {
    ParameterName(sc, p.name) + FieldMark(p.required) + ": " + FormatSchema.Shape(sc, p.schema)
  }

  /** The fields of an interface: one per parameter, in order. */
  function Fields(sc: Casing, params: seq<ParameterDefinition>): (r: seq<string>)
    ensures |r| == |params|
  {
    if params == [] then [] else Fields(sc, params[..|params| - 1]) + [Field(sc, params[|params| - 1])]
  }

  /** Field `i` belongs to parameter `i`. */
  lemma {:induction false} FieldsAt(sc: Casing, params: seq<ParameterDefinition>, i: nat)
    requires i < |params|
    ensures Fields(sc, params)[i] == Field(sc, params[i])
  {
    if i < |params| - 1 {
      FieldsAt(sc, params[..|params| - 1], i);
    }
  }

  /** One more field in the append loop over `params`. */
  lemma FieldsSnoc(sc: Casing, params: seq<ParameterDefinition>, i: nat)
    requires i < |params|
    ensures Fields(sc, params[..i + 1]) == Fields(sc, params[..i]) + [Field(sc, params[i])]
  {
    assert params[..i + 1][..i] == params[..i];
  }

  /** The text `formatParameterInterface` returns. */
  function InterfaceText(sc: Casing, operationId: string, params: seq<ParameterDefinition>): string
  {
    Join(["export interface " + InterfaceName(sc, operationId) + " {", "  " + Join(Fields(sc, params), "\n  "), "}"], "\n")
  }

  /**
   * An interface is its header line, the fields each on its own line indented
   * by two spaces, and a closing brace on a line of its own.
   */
  lemma InterfaceLayout(sc: Casing, operationId: string, params: seq<ParameterDefinition>)
    ensures InterfaceText(sc, operationId, params)
      == "export interface " + InterfaceName(sc, operationId) + " {\n  " + Join(Fields(sc, params), "\n  ") + "\n}"
  {
    JoinThree("export interface " + InterfaceName(sc, operationId) + " {", "  " + Join(Fields(sc, params), "\n  "), "}", "\n");
  }

  /** A field is marked optional, by a `?` right after the name, exactly when the parameter is not required. */
  lemma FieldOptionalIff(sc: Casing, p: ParameterDefinition)
    ensures |ParameterName(sc, p.name)| < |Field(sc, p)|
    ensures Field(sc, p)[|ParameterName(sc, p.name)|] == '?' <==> !p.required
  {
    var n := ParameterName(sc, p.name);
    assert Field(sc, p) == n + (FieldMark(p.required) + ": " + FormatSchema.Shape(sc, p.schema));
    assert Field(sc, p)[|n|] == (FieldMark(p.required) + ": ")[0];
  }

  /** Without parameters an interface still has its (blank, indented) field line. */
  lemma EmptyInterface(sc: Casing, operationId: string)
    ensures InterfaceText(sc, operationId, []) == "export interface " + InterfaceName(sc, operationId) + " {\n  \n}"
  {
    InterfaceLayout(sc, operationId, []);
  }

  /** The literal pieces of the `getUser` interface example below. */
  lemma GetUserTexts()
    ensures "getUser" + "_params" == "getUser_params"
    ensures "id" + "" + ": " + "string" == "id: string"
  {
  }

  /** The literal text of the `getUser` interface. */
  lemma GetUserInterfaceText()
    ensures "export interface " + "GetUserParams" + " {\n  " + "id: string" + "\n}" == "export interface GetUserParams {\n  id: string\n}"
  {
  }

  /** The literal line of the `getUser` marshalling example. */
  lemma GetUserPathText()
    ensures "url.pathname = url.pathname.replace(\"{" + "id" + "}\", " + ("params." + "id") + ");"
         == "url.pathname = url.pathname.replace(\"{id}\", params.id);"
  {
  }

  /** The interface of an operation `getUser` with a single required string path parameter `id`. */
  lemma GetUserInterface(sc: Casing)
    requires sc.ToCamel("getUser_params") == "GetUserParams" && sc.ToLowerCamel("id") == "id"
    ensures InterfaceText(sc, "getUser", [ParameterDefinition("path", "id", true, StringSchema)])
         == "export interface GetUserParams {\n  id: string\n}"
  {
    var p := ParameterDefinition("path", "id", true, StringSchema);
    GetUserTexts();
    GetUserInterfaceText();
    InterfaceLayout(sc, "getUser", [p]);
    FieldsAt(sc, [p], 0);
    assert FormatSchema.Shape(sc, StringSchema) == "string";
    assert Field(sc, p) == "id: string";
    assert Join(Fields(sc, [p]), "\n  ") == "id: string";
  }

  /** `formatParameterInterface`, with the field loop of the source. */
  method FormatParameterInterface(sc: Casing, name: string, params: seq<ParameterDefinition>) returns (r: string)
    ensures r == InterfaceText(sc, name, params)
  {
    var result: seq<string> := [];
    var i := 0;
    while i < |params|
      invariant 0 <= i <= |params|
      invariant result == Fields(sc, params[..i])
    {
      var param := params[i];
      var fieldName := ParameterName(sc, param.name);
      if !param.required {
        fieldName := fieldName + "?";
      }
      assert fieldName == ParameterName(sc, param.name) + FieldMark(param.required);
      var shape := FormatSchema.FormatSchemaShape(sc, param.schema);
      assert fieldName + ": " + shape == Field(sc, param);
      FieldsSnoc(sc, params, i);
      result := result + [fieldName + ": " + shape];
      i := i + 1;
    }
    assert params[..i] == params;
    return Join(["export interface " + InterfaceName(sc, name) + " {", "  " + Join(result, "\n  "), "}"], "\n");
  }

  // ---------------------------------------------------------------- operations

  /** A parameter the generated code passes on: a string-typed query, header or path parameter. */
  predicate IsMarshalled(p: ParameterDefinition)
  {
    p.schema.ty == "string" && (p.location == "query" || p.location == "header" || p.location == "path")
  }

  /** The statements a string query parameter contributes: set it on the URL when defined. */
  function QueryCode(sc: Casing, p: ParameterDefinition): seq<string>
  {
    var val := "params." + ParameterName(sc, p.name);
    if p.location == "query" && p.schema.ty == "string" then
      ["if (" + val + " !== undefined) {", "  url.searchParams.set(\"" + p.name + "\", " + val + ")", "}"]
    else []
  }

  /** The statements a string header parameter contributes: set it on the headers when defined. */
  function HeaderCode(sc: Casing, p: ParameterDefinition): seq<string>
  {
    var val := "params." + ParameterName(sc, p.name);
    if p.location == "header" && p.schema.ty == "string" then
      ["if (" + val + " !== undefined) {", "  headers.set(\"" + p.name + "\", " + val + ")", "}"]
    else []
  }

  /** The statement a string path parameter contributes: substitute its placeholder. */
  function PathCode(sc: Casing, p: ParameterDefinition): seq<string>
  {
    var val := "params." + ParameterName(sc, p.name);
    if p.location == "path" && p.schema.ty == "string" then
      ["url.pathname = url.pathname.replace(\"{" + p.name + "}\", " + val + ");"]
    else []
  }

  /** The statements one parameter contributes to a method body: the three checks of the source in turn. */
  function ParamCode(sc: Casing, p: ParameterDefinition): seq<string>
  {
    QueryCode(sc, p) + HeaderCode(sc, p) + PathCode(sc, p)
  }

  /**
   * What each kind of parameter becomes: a query or header parameter is set
   * under its own name from the camel-cased field when that field is defined;
   * a path parameter replaces its `{name}` placeholder; nothing else is emitted.
   */
  lemma ParamCodeCases(sc: Casing, p: ParameterDefinition)
    ensures var val := "params." + ParameterName(sc, p.name);
      && (p.location == "query" && p.schema.ty == "string" ==>
            ParamCode(sc, p) == ["if (" + val + " !== undefined) {", "  url.searchParams.set(\"" + p.name + "\", " + val + ")", "}"])
      && (p.location == "header" && p.schema.ty == "string" ==>
            ParamCode(sc, p) == ["if (" + val + " !== undefined) {", "  headers.set(\"" + p.name + "\", " + val + ")", "}"])
      && (p.location == "path" && p.schema.ty == "string" ==>
            ParamCode(sc, p) == ["url.pathname = url.pathname.replace(\"{" + p.name + "}\", " + val + ");"])
    ensures ParamCode(sc, p) == [] <==> !IsMarshalled(p)
  {
  }

  /** The statements `formatOperation` accumulates from `params` in order. */
  function MarshalCode(sc: Casing, params: seq<ParameterDefinition>): seq<string>
  {
    if params == [] then [] else MarshalCode(sc, params[..|params| - 1]) + ParamCode(sc, params[|params| - 1])
  }

  /** One more parameter in the loop over `params`. */
  lemma MarshalCodeSnoc(sc: Casing, params: seq<ParameterDefinition>, i: nat)
    requires i < |params|
    ensures MarshalCode(sc, params[..i + 1]) == MarshalCode(sc, params[..i]) + ParamCode(sc, params[i])
  {
    assert params[..i + 1][..i] == params[..i];
  }

  /** The same operation's marshalling code: one line substituting the `{id}` placeholder. */
  lemma GetUserPathCode(sc: Casing)
    requires sc.ToLowerCamel("id") == "id"
    ensures MarshalCode(sc, [ParameterDefinition("path", "id", true, StringSchema)])
         == ["url.pathname = url.pathname.replace(\"{id}\", params.id);"]
  {
    var p := ParameterDefinition("path", "id", true, StringSchema);
    GetUserPathText();
    assert [p][..0] == [];
    ParamCodeCases(sc, p);
    assert MarshalCode(sc, [p]) == ParamCode(sc, p);
  }

  /** The marshalling code of two parameter lists one after the other is the two codes one after the other. */
  lemma {:induction false} MarshalCodeAppend(sc: Casing, a: seq<ParameterDefinition>, b: seq<ParameterDefinition>)
    ensures MarshalCode(sc, a + b) == MarshalCode(sc, a) + MarshalCode(sc, b)
  {
    if b != [] {
      var b' := b[..|b| - 1];
      assert (a + b)[..|a + b| - 1] == a + b';
      assert (a + b)[|a + b| - 1] == b[|b| - 1];
      MarshalCodeAppend(sc, a, b');
      assert MarshalCode(sc, a + b) == MarshalCode(sc, a + b') + ParamCode(sc, b[|b| - 1]);
    } else {
      assert a + b == a;
    }
  }

  /** The number of string-typed query and header parameters. */
  function GuardedCount(params: seq<ParameterDefinition>): nat
  {
    if params == [] then 0
    else
      var p := params[|params| - 1];
      GuardedCount(params[..|params| - 1]) + if p.schema.ty == "string" && (p.location == "query" || p.location == "header") then 1 else 0
  }

  /** The number of string-typed path parameters. */
  function PathCount(params: seq<ParameterDefinition>): nat
  {
    if params == [] then 0
    else
      var p := params[|params| - 1];
      PathCount(params[..|params| - 1]) + if p.schema.ty == "string" && p.location == "path" then 1 else 0
  }

  /** Three statements per string query or header parameter, one per string path parameter, none for the rest. */
  lemma {:induction false} MarshalCodeLength(sc: Casing, params: seq<ParameterDefinition>)
    ensures |MarshalCode(sc, params)| == 3 * GuardedCount(params) + PathCount(params)
  {
    if params != [] {
      MarshalCodeLength(sc, params[..|params| - 1]);
    }
  }

  /** Parameters of any other type (a number, an object, a reference) are never passed on. */
  lemma {:induction false} NonStringParamsIgnored(sc: Casing, params: seq<ParameterDefinition>)
    requires forall i :: 0 <= i < |params| ==> params[i].schema.ty != "string"
    ensures MarshalCode(sc, params) == []
  {
    if params != [] {
      NonStringParamsIgnored(sc, params[..|params| - 1]);
    }
  }

  /** An operation without a JSON 200 response promises `unknown`. */
  lemma MissingResponseUnknown(sc: Casing, op: OperationDefinition)
    requires "200" !in op.responses || "application/json" !in op.responses["200"].content
    ensures FormatSchema.Shape(sc, ResponseSchema(op)) == "unknown"
  {
  }

  /** The method name: the lower camel-cased operation id. */
  function MethodName(sc: Casing, op: OperationDefinition): string
  {
    sc.ToLowerCamel(op.operationId)
  }

  /**
   * The parameter type the method signature names. It is derived from the
   * method name, not (as `InterfaceName`) from the raw operation id.
   */
  function ReferencedInterface(sc: Casing, op: OperationDefinition): string
  {
    sc.ToCamel(MethodName(sc, op) + "_params")
  }

  /** `"?"` (an optional argument) exactly for operations without parameters. */
  function ParamsMark(op: OperationDefinition): string
  {
    if |op.parameters| == 0 then "?" else ""
  }

  /** The first line of a generated method. */
  function Signature(sc: Casing, op: OperationDefinition): string
  {
    "  async " + MethodName(sc, op) + "(params" + ParamsMark(op) + ": " + ReferencedInterface(sc, op)
    + "): Promise<" + FormatSchema.Shape(sc, ResponseSchema(op)) + "> {"
  }

  /** The argument is optional, a `?` right after `(params`, exactly when the operation has no parameters. */
  lemma SignatureOptionalIff(sc: Casing, op: OperationDefinition)
    ensures |"  async " + MethodName(sc, op) + "(params"| < |Signature(sc, op)|
    ensures Signature(sc, op)[|"  async " + MethodName(sc, op) + "(params"|] == '?' <==> |op.parameters| == 0
  {
    var head := "  async " + MethodName(sc, op) + "(params";
    var rest := ": " + ReferencedInterface(sc, op) + "): Promise<" + FormatSchema.Shape(sc, ResponseSchema(op)) + "> {";
    assert Signature(sc, op) == head + (ParamsMark(op) + rest);
    assert Signature(sc, op)[|head|] == (ParamsMark(op) + rest)[0];
  }

  /** The lines of a generated method, before they are joined. */
  function OperationLines(sc: Casing, path: string, op: OperationDefinition): seq<string>
  {
    [ Signature(sc, op),
      "    const headers = new Headers();",
      "    const url = new URL(\"" + path + "\", this.baseUrl)",
      "    " + Join(MarshalCode(sc, op.parameters), "\n  "),
      "    const response = await fetch(url, { headers });",
      "    const body = await response.json()",
      "    return body;",
      "  }" ]
  }

  /** The text `formatOperation` returns. */
  function OperationText(sc: Casing, path: string, op: OperationDefinition): string
  {
    Join(OperationLines(sc, path, op), "\n")
  }

  /** A generated method opens with its signature line and closes with `  }` on a line of its own. */
  lemma OperationFraming(sc: Casing, path: string, op: OperationDefinition)
    ensures Signature(sc, op) + "\n" <= OperationText(sc, path, op)
    ensures EndsWith(OperationText(sc, path, op), "\n" + "  }")
  {
    JoinFront(OperationLines(sc, path, op), "\n");
    JoinBack(OperationLines(sc, path, op), "\n");
  }

  /** `formatOperation`, with the parameter loop of the source; the HTTP method is not used. */
  method FormatOperation(sc: Casing, path: string, httpMethod: string, op: OperationDefinition) returns (r: string)
    ensures r == OperationText(sc, path, op)
  {
    var name := sc.ToLowerCamel(op.operationId);
    var interfaceName := sc.ToCamel(name + "_params");
    var code: seq<string> := [];
    var i := 0;
    while i < |op.parameters|
      invariant 0 <= i <= |op.parameters|
      invariant code == MarshalCode(sc, op.parameters[..i])
    {
      var param := op.parameters[i];
      var paramName := ParameterName(sc, param.name);
      var before := code;
      MarshalCodeSnoc(sc, op.parameters, i);
      ParamCodeCases(sc, param);
      LocationsDistinct();
      if param.location == "query" && param.schema.ty == "string" {
        var val := "params." + paramName;
        code := code + ["if (" + val + " !== undefined) {", "  url.searchParams.set(\"" + param.name + "\", " + val + ")", "}"];
      }
      if param.location == "header" && param.schema.ty == "string" {
        var val := "params." + paramName;
        code := code + ["if (" + val + " !== undefined) {", "  headers.set(\"" + param.name + "\", " + val + ")", "}"];
      }
      if param.location == "path" && param.schema.ty == "string" {
        var val := "params." + paramName;
        code := code + ["url.pathname = url.pathname.replace(\"{" + param.name + "}\", " + val + ");"];
      }
      assert code == before + ParamCode(sc, param);
      i := i + 1;
    }
    assert op.parameters[..i] == op.parameters;
    var responseShape := FormatSchema.FormatSchemaShape(sc, ResponseSchema(op));
    var paramsSuffix := "";
    if |op.parameters| == 0 {
      paramsSuffix := "?";
    }
    return Join([
      "  async " + name + "(params" + paramsSuffix + ": " + interfaceName + "): Promise<" + responseShape + "> {",
      "    const headers = new Headers();",
      "    const url = new URL(\"" + path + "\", this.baseUrl)",
      "    " + Join(code, "\n  "),
      "    const response = await fetch(url, { headers });",
      "    const body = await response.json()",
      "    return body;",
      "  }"], "\n");
  }

  // ---------------------------------------------------------------- the sections of the client

  /** One generated method per operation, in order. */
  function OperationTexts(sc: Casing, ops: seq<ApiOperation>): (r: seq<string>)
    ensures |r| == |ops|
  {
    if ops == [] then [] else OperationTexts(sc, ops[..|ops| - 1]) + [OperationText(sc, ops[|ops| - 1].path, ops[|ops| - 1].definition)]
  }

  /** Method `i` is operation `i`'s, formatted as it would be for GET whatever its verb. */
  lemma {:induction false} OperationTextsAt(sc: Casing, ops: seq<ApiOperation>, i: nat)
    requires i < |ops|
    ensures OperationTexts(sc, ops)[i] == OperationText(sc, ops[i].path, ops[i].definition)
  {
    if i < |ops| - 1 {
      OperationTextsAt(sc, ops[..|ops| - 1], i);
    }
  }

  /** One parameter interface per operation, in order. */
  function InterfaceTexts(sc: Casing, ops: seq<ApiOperation>): (r: seq<string>)
    ensures |r| == |ops|
  {
    if ops == [] then []
    else InterfaceTexts(sc, ops[..|ops| - 1]) + [InterfaceText(sc, ops[|ops| - 1].definition.operationId, ops[|ops| - 1].definition.parameters)]
  }

  /** Interface `i` is operation `i`'s. */
  lemma {:induction false} InterfaceTextsAt(sc: Casing, ops: seq<ApiOperation>, i: nat)
    requires i < |ops|
    ensures InterfaceTexts(sc, ops)[i] == InterfaceText(sc, ops[i].definition.operationId, ops[i].definition.parameters)
  {
    if i < |ops| - 1 {
      InterfaceTextsAt(sc, ops[..|ops| - 1], i);
    }
  }

  /** The alias of one named schema. */
  function SchemaAlias(sc: Casing, s: ApiSchema): string
  {
    "export type " + sc.ToCamel(s.name) + " = " + FormatSchema.Shape(sc, s.schema)
  }

  /** One type alias per named schema, in order. */
  function SchemaAliases(sc: Casing, schemas: seq<ApiSchema>): (r: seq<string>)
    ensures |r| == |schemas|
  {
    if schemas == [] then [] else SchemaAliases(sc, schemas[..|schemas| - 1]) + [SchemaAlias(sc, schemas[|schemas| - 1])]
  }

  /** Alias `i` is schema `i`'s. */
  lemma {:induction false} SchemaAliasesAt(sc: Casing, schemas: seq<ApiSchema>, i: nat)
    requires i < |schemas|
    ensures SchemaAliases(sc, schemas)[i] == SchemaAlias(sc, schemas[i])
  {
    if i < |schemas| - 1 {
      SchemaAliasesAt(sc, schemas[..|schemas| - 1], i);
    }
  }

  /** `formatMethods`: the methods joined by a newline and `indent`. */
  method FormatMethods(sc: Casing, operations: seq<ApiOperation>, indent: string) returns (r: string)
    ensures r == Join(OperationTexts(sc, operations), "\n" + indent)
  {
    var result: seq<string> := [];
    var i := 0;
    while i < |operations|
      invariant 0 <= i <= |operations|
      invariant result == OperationTexts(sc, operations[..i])
    {
      var text := FormatOperation(sc, operations[i].path, "get", operations[i].definition);
      assert operations[..i + 1][..i] == operations[..i];
      assert OperationTexts(sc, operations[..i + 1]) == OperationTexts(sc, operations[..i]) + [text];
      result := result + [text];
      i := i + 1;
    }
    assert operations[..i] == operations;
    return Join(result, "\n" + indent);
  }

  /** `formatInterfaces`: the parameter interfaces joined by a newline and `indent`. */
  method FormatInterfaces(sc: Casing, operations: seq<ApiOperation>, indent: string) returns (r: string)
    ensures r == Join(InterfaceTexts(sc, operations), "\n" + indent)
  {
    var result: seq<string> := [];
    var i := 0;
    while i < |operations|
      invariant 0 <= i <= |operations|
      invariant result == InterfaceTexts(sc, operations[..i])
    {
      var text := FormatParameterInterface(sc, operations[i].definition.operationId, operations[i].definition.parameters);
      assert operations[..i + 1][..i] == operations[..i];
      assert InterfaceTexts(sc, operations[..i + 1]) == InterfaceTexts(sc, operations[..i]) + [text];
      result := result + [text];
      i := i + 1;
    }
    assert operations[..i] == operations;
    return Join(result, "\n" + indent);
  }

  /** `formatSchemas`: the type aliases joined by a newline and `indent`. */
  method FormatSchemas(sc: Casing, schemas: seq<ApiSchema>, indent: string) returns (r: string)
    ensures r == Join(SchemaAliases(sc, schemas), "\n" + indent)
  {
    var result: seq<string> := [];
    var i := 0;
    while i < |schemas|
      invariant 0 <= i <= |schemas|
      invariant result == SchemaAliases(sc, schemas[..i])
    {
      var shape := FormatSchema.FormatSchemaShape(sc, schemas[i].schema);
      assert schemas[..i + 1][..i] == schemas[..i];
      assert SchemaAliases(sc, schemas[..i + 1]) == SchemaAliases(sc, schemas[..i]) + [SchemaAlias(sc, schemas[i])];
      result := result + ["export type " + sc.ToCamel(schemas[i].name) + " = " + shape];
      i := i + 1;
    }
    assert schemas[..i] == schemas;
    return Join(result, "\n" + indent);
  }

  /** The sections of the generated file, before they are joined by blank lines. */
  function ClientSections(sc: Casing, ops: seq<ApiOperation>, schemas: seq<ApiSchema>): seq<string>
  {
    [ Join(SchemaAliases(sc, schemas), "\n" + ""),
      Join(InterfaceTexts(sc, ops), "\n" + ""),
      "export class Api {",
      "  constructor(private baseUrl: string = window.location.origin) {",
      "  }",
      "  " + Join(OperationTexts(sc, ops), "\n" + "  "),
      "}" ]
  }

  /** The file `FormatTypescriptClient` returns for the given listings. */
  function ClientText(sc: Casing, ops: seq<ApiOperation>, schemas: seq<ApiSchema>): string
  {
    Join(ClientSections(sc, ops, schemas), "\n\n")
  }

  /** The type aliases come first, then the parameter interfaces, then the class. */
  lemma ClientOrder(sc: Casing, ops: seq<ApiOperation>, schemas: seq<ApiSchema>)
    ensures Join(SchemaAliases(sc, schemas), "\n" + "") + "\n\n" <= ClientText(sc, ops, schemas)
    ensures Join(InterfaceTexts(sc, ops), "\n" + "") + "\n\n"
      <= ClientText(sc, ops, schemas)[|Join(SchemaAliases(sc, schemas), "\n" + "") + "\n\n"|..]
  {
    var parts := ClientSections(sc, ops, schemas);
    var sep := "\n\n";
    JoinFront(parts, sep);
    JoinFront(parts[1..], sep);
    var text := Join(parts, sep);
    assert text == parts[0] + sep + Join(parts[1..], sep);
    assert text[|parts[0] + sep|..] == Join(parts[1..], sep);
  }

  /** The class closes the file: its brace is the last line. */
  lemma ClientEnd(sc: Casing, ops: seq<ApiOperation>, schemas: seq<ApiSchema>)
    ensures EndsWith(ClientText(sc, ops, schemas), "\n\n" + "}")
  {
    JoinBack(ClientSections(sc, ops, schemas), "\n\n");
  }

  /** Every text of the interfaces section occurs in the file. */
  lemma InterfaceInFile(sc: Casing, ops: seq<ApiOperation>, schemas: seq<ApiSchema>, k: nat)
    requires k < |ops|
    ensures Contains(ClientText(sc, ops, schemas), InterfaceTexts(sc, ops)[k])
  {
    var parts := ClientSections(sc, ops, schemas);
    JoinContains(InterfaceTexts(sc, ops), "\n" + "", k);
    JoinContains(parts, "\n\n", 1);
    ContainsTrans(ClientText(sc, ops, schemas), parts[1], InterfaceTexts(sc, ops)[k]);
  }

  /** Every method of the class body occurs in the file. */
  lemma MethodInFile(sc: Casing, ops: seq<ApiOperation>, schemas: seq<ApiSchema>, k: nat)
    requires k < |ops|
    ensures Contains(ClientText(sc, ops, schemas), OperationTexts(sc, ops)[k])
  {
    var parts := ClientSections(sc, ops, schemas);
    var body := Join(OperationTexts(sc, ops), "\n" + "  ");
    JoinContains(OperationTexts(sc, ops), "\n" + "  ", k);
    ContainsWithin("  ", body, "", OperationTexts(sc, ops)[k]);
    assert "  " + body + "" == parts[5];
    JoinContains(parts, "\n\n", 5);
    ContainsTrans(ClientText(sc, ops, schemas), parts[5], OperationTexts(sc, ops)[k]);
  }

  /**
   * Every operation the listing yields gets both a parameter interface and a
   * method in the generated file.
   */
  lemma {:induction false} EveryListedOperationEmitted(sc: Casing, api: ApiDefinition, pathOrder: seq<string>, schemas: seq<ApiSchema>, op: ApiOperation)
    requires IsIterationOrder(pathOrder, api.paths)
    requires IsListed(api.paths, op)
    ensures InterfaceText(sc, op.definition.operationId, op.definition.parameters) in InterfaceTexts(sc, Operations(api.paths, pathOrder))
    ensures OperationText(sc, op.path, op.definition) in OperationTexts(sc, Operations(api.paths, pathOrder))
    ensures Contains(ClientText(sc, Operations(api.paths, pathOrder), schemas), InterfaceText(sc, op.definition.operationId, op.definition.parameters))
    ensures Contains(ClientText(sc, Operations(api.paths, pathOrder), schemas), OperationText(sc, op.path, op.definition))
  {
    var ops := Operations(api.paths, pathOrder);
    OperationsMembers(api.paths, pathOrder);
    assert op in ops;
    var k :| 0 <= k < |ops| && ops[k] == op;
    InterfaceTextsAt(sc, ops, k);
    OperationTextsAt(sc, ops, k);
    InterfaceInFile(sc, ops, schemas, k);
    MethodInFile(sc, ops, schemas, k);
  }

  /** Conversely, interface `k` and method `k` of the file belong to entry `k` of the listing, a named GET or POST slot. */
  lemma OnlyListedOperationsEmitted(sc: Casing, api: ApiDefinition, pathOrder: seq<string>, k: nat)
    requires IsIterationOrder(pathOrder, api.paths)
    requires k < |Operations(api.paths, pathOrder)|
    ensures var op := Operations(api.paths, pathOrder)[k];
      && IsListed(api.paths, op)
      && InterfaceTexts(sc, Operations(api.paths, pathOrder))[k] == InterfaceText(sc, op.definition.operationId, op.definition.parameters)
      && OperationTexts(sc, Operations(api.paths, pathOrder))[k] == OperationText(sc, op.path, op.definition)
  {
    var ops := Operations(api.paths, pathOrder);
    OperationsMembers(api.paths, pathOrder);
    assert ops[k] in ops;
    InterfaceTextsAt(sc, ops, k);
    OperationTextsAt(sc, ops, k);
  }

  /**
   * `FormatTypescriptClient`: list the operations and the schemas (in the
   * given iteration orders of the two maps) and emit the sections.
   */
  method FormatTypescriptClient(sc: Casing, api: ApiDefinition, pathOrder: seq<string>, schemaOrder: seq<string>) returns (r: string)
    requires IsIterationOrder(pathOrder, api.paths)
    requires IsIterationOrder(schemaOrder, api.components.schemas)
    ensures r == ClientText(sc, Operations(api.paths, pathOrder), Schemas(api.components.schemas, schemaOrder))
  {
    var operations := ListOperations(api, pathOrder);
    var schemas := ListSchemas(api, schemaOrder);
    var schemaText := FormatSchemas(sc, schemas, "");
    var interfaceText := FormatInterfaces(sc, operations, "");
    var methodText := FormatMethods(sc, operations, "  ");
    var result := [
      schemaText,
      interfaceText,
      "export class Api {",
      "  constructor(private baseUrl: string = window.location.origin) {",
      "  }",
      "  " + methodText,
      "}"];
    assert result == ClientSections(sc, operations, schemas);
    return Join(result, "\n\n");
  }
}
