/**
 * The legacy TypeScript client emitter (internal/codegen/format-ts-client.go).
 * It produces the same kind of file as the newer emitter with its own,
 * smaller schema renderer (string, object, $ref, "unknown"; no combinators,
 * no numbers, no records) and passes on only query and header parameters.
 * It marks a property optional unless the property's OWN schema lists its
 * name as required, and it always declares the method argument as required.
 */
module TsClientLegacy {
  import opened Strings
  import opened OpenApi

  // ---------------------------------------------------------------- the local `formatSchemaShape`

  /** The object entries `name[?]: shape` of the first `n` properties of `s`. */
  function PropEntries(sc: Casing, s: Schema, n: nat): (r: seq<string>)
    requires n <= |s.props|
    ensures |r| == n
    decreases s, 0, n
  {
    if n == 0 then []
    else PropEntries(sc, s, n - 1) + [s.props[n - 1].0 + OptionalMark(s.props[n - 1].0, s.props[n - 1].1.required) + ": " + Shape(sc, s.props[n - 1].1)]
  }

  /** Entry `i` is property `i`'s name, the mark taken from the property's own schema, `": "` and its shape. */
  lemma {:induction false} PropEntriesAt(sc: Casing, s: Schema, n: nat, i: nat)
    requires i < n <= |s.props|
    ensures PropEntries(sc, s, n)[i] == s.props[i].0 + OptionalMark(s.props[i].0, s.props[i].1.required) + ": " + Shape(sc, s.props[i].1)
  {
    if i < n - 1 {
      PropEntriesAt(sc, s, n - 1, i);
    }
  }

  /** The specification of the legacy `formatSchemaShape`. */
  function Shape(sc: Casing, s: Schema): string
    decreases s, 1
  {
    if s.ty == "string" then "string"
    else if s.ty == "object" then Join(["{", Join(PropEntries(sc, s, |s.props|), ";"), "}"], "")
    else if s.ref != "" then sc.ToCamel(RemoveFirst(s.ref, SchemasPrefix))
    else "unknown"
  }

  /** The legacy `formatSchemaShape`, with the property loop of the source. */
  method FormatSchemaShape(sc: Casing, schema: Schema) returns (r: string)
    ensures r == Shape(sc, schema)
    decreases schema, 1
  {
    if schema.ty == "string" {
      return "string";
    }
    if schema.ty == "object" {
      var props: seq<string> := [];
      var i := 0;
      while i < |schema.props|
        invariant 0 <= i <= |schema.props|
        invariant props == PropEntries(sc, schema, i)
      {
        var (propertyName, propertyDefinition) := schema.props[i];
        var suffix := "";
        if propertyName !in propertyDefinition.required {
          suffix := suffix + "?";
        }
        assert suffix == OptionalMark(propertyName, propertyDefinition.required);
        var shape := FormatSchemaShape(sc, propertyDefinition);
        props := props + [propertyName + suffix + ": " + shape];
        i := i + 1;
      }
      return Join(["{", Join(props, ";"), "}"], "");
    }
    if schema.ref != "" {
      return sc.ToCamel(RemoveFirst(schema.ref, SchemasPrefix));
    }
    return "unknown";
  }

  /** An object is `{` entries joined by `;` `}`, with or without properties. */
  lemma ObjectShape(sc: Casing, s: Schema)
    requires s.ty == "object"
    ensures Shape(sc, s) == "{" + Join(PropEntries(sc, s, |s.props|), ";") + "}"
  {
    var inner := Join(PropEntries(sc, s, |s.props|), ";");
    assert ["{", inner, "}"][1..] == [inner, "}"];
    JoinTwo(inner, "}", "");
    assert Join(["{", inner, "}"], "") == "{" + "" + (inner + "" + "}");
  }

  /** An object without properties renders as `{}`, whatever its additional properties. */
  lemma EmptyObjectBraces(sc: Casing, s: Schema)
    requires s.ty == "object" && s.props == []
    ensures Shape(sc, s) == "{}"
  {
    ObjectShape(sc, s);
  }

  /**
   * An entry is marked optional exactly when the PROPERTY's own schema does
   * not list the property's name as required; the parent's list is not read.
   */
  lemma PropertyOptionalIff(sc: Casing, s: Schema, i: nat)
    requires i < |s.props|
    ensures |s.props[i].0| < |PropEntries(sc, s, |s.props|)[i]|
    ensures PropEntries(sc, s, |s.props|)[i][|s.props[i].0|] == '?' <==> s.props[i].0 !in s.props[i].1.required
  {
    var name := s.props[i].0;
    var e := PropEntries(sc, s, |s.props|)[i];
    PropEntriesAt(sc, s, |s.props|, i);
    assert e == name + (OptionalMark(name, s.props[i].1.required) + ": " + Shape(sc, s.props[i].1));
    assert e[|name|] == (OptionalMark(name, s.props[i].1.required) + ": ")[0];
  }

  /** Two schemas with the same properties have the same entries. */
  lemma {:induction false} PropEntriesSameProps(sc: Casing, s: Schema, t: Schema, n: nat)
    requires s.props == t.props && n <= |s.props|
    ensures PropEntries(sc, s, n) == PropEntries(sc, t, n)
  {
    if n > 0 {
      PropEntriesSameProps(sc, s, t, n - 1);
    }
  }

  /**
   * Only the type, the properties and the reference are read: combinators,
   * items, enum values, the required list and additional properties of a
   * schema never change its rendering.
   */
  lemma OnlyTypePropsRefRead(sc: Casing, s: Schema, t: Schema)
    requires t.ty == s.ty && t.props == s.props && t.ref == s.ref
    ensures Shape(sc, t) == Shape(sc, s)
  {
    if s.ty == "object" {
      PropEntriesSameProps(sc, s, t, |s.props|);
    }
  }

  /**
   * Any type other than "string" and "object" (numbers and booleans among
   * them) renders as the referenced name when there is a reference, else as "unknown".
   */
  lemma RefOrUnknown(sc: Casing, s: Schema)
    requires s.ty != "string" && s.ty != "object"
    ensures s.ref != "" ==> Shape(sc, s) == sc.ToCamel(RemoveFirst(s.ref, SchemasPrefix))
    ensures s.ref == "" ==> Shape(sc, s) == "unknown"
  {
  }

  // ---------------------------------------------------------------- parameter interfaces

  /** `formatParameterName`: the lower camel-cased parameter name. */
  function ParameterName(sc: Casing, name: string): string
  {
    sc.ToLowerCamel(name)
  }

  /** The interface an operation's parameters are declared in. */
  function InterfaceName(sc: Casing, operationId: string): string
  {
    sc.ToCamel(operationId + "_params")
  }

  /** `"?"` for a parameter that is not required. */
  function FieldMark(required: bool): string
  {
    if required then "" else "?"
  }

  /** The interface field of one parameter: `name[?]: shape`. */
  function Field(sc: Casing, p: ParameterDefinition): string
  {
    ParameterName(sc, p.name) + FieldMark(p.required) + ": " + Shape(sc, p.schema)
  }

  /** The fields of an interface: one per parameter, in order. */
  function Fields(sc: Casing, params: seq<ParameterDefinition>): (r: seq<string>)
    ensures |r| == |params|
  {
    if params == [] then [] else Fields(sc, params[..|params| - 1]) + [Field(sc, params[|params| - 1])]
  }

  /** Field `i` belongs to parameter `i`. */
  lemma {:induction false} FieldsAt(sc: Casing, params: seq<ParameterDefinition>, i: nat)
    requires i < |params|
    ensures Fields(sc, params)[i] == Field(sc, params[i])
  {
    if i < |params| - 1 {
      FieldsAt(sc, params[..|params| - 1], i);
    }
  }

  /** A field is marked optional, by a `?` right after the name, exactly when the parameter is not required. */
  lemma FieldOptionalIff(sc: Casing, p: ParameterDefinition)
    ensures |ParameterName(sc, p.name)| < |Field(sc, p)|
    ensures Field(sc, p)[|ParameterName(sc, p.name)|] == '?' <==> !p.required
  {
    var n := ParameterName(sc, p.name);
    assert Field(sc, p) == n + (FieldMark(p.required) + ": " + Shape(sc, p.schema));
    assert Field(sc, p)[|n|] == (FieldMark(p.required) + ": ")[0];
  }

  /** The text `formatParameterInterface` returns. */
  function InterfaceText(sc: Casing, operationId: string, params: seq<ParameterDefinition>): string
  {
    Join(["export interface " + InterfaceName(sc, operationId) + " {", "  " + Join(Fields(sc, params), "\n  "), "}"], "\n")
  }

  /** `formatParameterInterface`, with the field loop of the source. */
  method FormatParameterInterface(sc: Casing, name: string, params: seq<ParameterDefinition>) returns (r: string)
    ensures r == InterfaceText(sc, name, params)
  {
    var result: seq<string> := [];
    var i := 0;
    while i < |params|
      invariant 0 <= i <= |params|
      invariant result == Fields(sc, params[..i])
    {
      var param := params[i];
      var fieldName := ParameterName(sc, param.name);
      if !param.required {
        fieldName := fieldName + "?";
      }
      assert fieldName == ParameterName(sc, param.name) + FieldMark(param.required);
      var shape := FormatSchemaShape(sc, param.schema);
      assert fieldName + ": " + shape == Field(sc, param);
      assert params[..i + 1][..i] == params[..i];
      result := result + [fieldName + ": " + shape];
      i := i + 1;
    }
    assert params[..i] == params;
    return Join(["export interface " + InterfaceName(sc, name) + " {", "  " + Join(result, "\n  "), "}"], "\n");
  }

  // ---------------------------------------------------------------- operations

  /** The statements a string query parameter contributes: set it on the URL when defined. */
  function QueryCode(sc: Casing, p: ParameterDefinition): seq<string>
  {
    var val := "params." + ParameterName(sc, p.name);
    if p.location == "query" && p.schema.ty == "string" then
      ["if (" + val + " !== undefined) {", "  url.searchParams.set(\"" + p.name + "\", " + val + ")", "}"]
    else []
  }

  /** The statements a string header parameter contributes: set it on the headers when defined. */
  function HeaderCode(sc: Casing, p: ParameterDefinition): seq<string>
  {
    var val := "params." + ParameterName(sc, p.name);
    if p.location == "header" && p.schema.ty == "string" then
      ["if (" + val + " !== undefined) {", "  headers.set(\"" + p.name + "\", " + val + ")", "}"]
    else []
  }

  /** The statements one parameter contributes: only query and header parameters are passed on. */
  function ParamCode(sc: Casing, p: ParameterDefinition): seq<string>
  {
    QueryCode(sc, p) + HeaderCode(sc, p)
  }

  /**
   * The statements of each kind of parameter; a parameter contributes exactly
   * when it is a string query or header parameter, so path parameters never do.
   */
  lemma ParamCodeCases(sc: Casing, p: ParameterDefinition)
    ensures var val := "params." + ParameterName(sc, p.name);
      && (p.location == "query" && p.schema.ty == "string" ==>
            ParamCode(sc, p) == ["if (" + val + " !== undefined) {", "  url.searchParams.set(\"" + p.name + "\", " + val + ")", "}"])
      && (p.location == "header" && p.schema.ty == "string" ==>
            ParamCode(sc, p) == ["if (" + val + " !== undefined) {", "  headers.set(\"" + p.name + "\", " + val + ")", "}"])
    ensures ParamCode(sc, p) == [] <==> !(p.schema.ty == "string" && (p.location == "query" || p.location == "header"))
    ensures p.location == "path" ==> ParamCode(sc, p) == []
  {
    LocationsDistinct();
  }

  /** The statements `formatOperation` accumulates from `params` in order. */
  function MarshalCode(sc: Casing, params: seq<ParameterDefinition>): seq<string>
  {
    if params == [] then [] else MarshalCode(sc, params[..|params| - 1]) + ParamCode(sc, params[|params| - 1])
  }

  /** One more parameter in the loop over `params`. */
  lemma MarshalCodeSnoc(sc: Casing, params: seq<ParameterDefinition>, i: nat)
    requires i < |params|
    ensures MarshalCode(sc, params[..i + 1]) == MarshalCode(sc, params[..i]) + ParamCode(sc, params[i])
  {
    assert params[..i + 1][..i] == params[..i];
  }

  /** The method name: the lower camel-cased operation id. */
  function MethodName(sc: Casing, op: OperationDefinition): string
  {
    sc.ToLowerCamel(op.operationId)
  }

  /** The parameter type the method signature names, derived from the method name. */
  function ReferencedInterface(sc: Casing, op: OperationDefinition): string
  {
    sc.ToCamel(MethodName(sc, op) + "_params")
  }

  /** The first line of a generated method: the argument is always declared, even without parameters. */
  function Signature(sc: Casing, op: OperationDefinition): string
  {
    "  async " + MethodName(sc, op) + "(params: " + ReferencedInterface(sc, op)
    + "): Promise<" + Shape(sc, ResponseSchema(op)) + "> {"
  }

  /** Right after `(params` comes `:`, never `?`: the argument is required for every operation. */
  lemma SignatureArgumentRequired(sc: Casing, op: OperationDefinition)
    ensures |"  async " + MethodName(sc, op) + "(params"| < |Signature(sc, op)|
    ensures Signature(sc, op)[|"  async " + MethodName(sc, op) + "(params"|] == ':'
  {
    var head := "  async " + MethodName(sc, op) + "(params";
    var rest := ": " + ReferencedInterface(sc, op) + "): Promise<" + Shape(sc, ResponseSchema(op)) + "> {";
    assert Signature(sc, op) == head + rest;
    assert Signature(sc, op)[|head|] == rest[0];
  }

  /** An operation without a JSON 200 response promises `unknown`. */
  lemma MissingResponseUnknown(sc: Casing, op: OperationDefinition)
    requires "200" !in op.responses || "application/json" !in op.responses["200"].content
    ensures Shape(sc, ResponseSchema(op)) == "unknown"
  {
  }

  /** The lines of a generated method, before they are joined. */
  function OperationLines(sc: Casing, path: string, op: OperationDefinition): seq<string>
  {
    [ Signature(sc, op),
      "    const headers = new Headers();",
      "    const url = new URL(\"" + path + "\", this.baseUrl)",
      "    " + Join(MarshalCode(sc, op.parameters), "\n  "),
      "    const response = await fetch(url, { headers });",
      "    const body = await response.json()",
      "    return body;",
      "  }" ]
  }

  /** The text `formatOperation` returns. */
  function OperationText(sc: Casing, path: string, op: OperationDefinition): string
  {
    Join(OperationLines(sc, path, op), "\n")
  }

  /** `formatOperation`, with the parameter loop of the source; the HTTP method is not used. */
  method FormatOperation(sc: Casing, path: string, httpMethod: string, op: OperationDefinition) returns (r: string)
    ensures r == OperationText(sc, path, op)
  {
    var name := sc.ToLowerCamel(op.operationId);
    var interfaceName := sc.ToCamel(name + "_params");
    var code: seq<string> := [];
    var i := 0;
    while i < |op.parameters|
      invariant 0 <= i <= |op.parameters|
      invariant code == MarshalCode(sc, op.parameters[..i])
    {
      var param := op.parameters[i];
      var paramName := ParameterName(sc, param.name);
      var before := code;
      MarshalCodeSnoc(sc, op.parameters, i);
      ParamCodeCases(sc, param);
      LocationsDistinct();
      if param.location == "query" && param.schema.ty == "string" {
        var val := "params." + paramName;
        code := code + ["if (" + val + " !== undefined) {", "  url.searchParams.set(\"" + param.name + "\", " + val + ")", "}"];
      }
      if param.location == "header" && param.schema.ty == "string" {
        var val := "params." + paramName;
        code := code + ["if (" + val + " !== undefined) {", "  headers.set(\"" + param.name + "\", " + val + ")", "}"];
      }
      assert code == before + ParamCode(sc, param);
      i := i + 1;
    }
    assert op.parameters[..i] == op.parameters;
    var responseShape := FormatSchemaShape(sc, ResponseSchema(op));
    return Join([
      "  async " + name + "(params: " + interfaceName + "): Promise<" + responseShape + "> {",
      "    const headers = new Headers();",
      "    const url = new URL(\"" + path + "\", this.baseUrl)",
      "    " + Join(code, "\n  "),
      "    const response = await fetch(url, { headers });",
      "    const body = await response.json()",
      "    return body;",
      "  }"], "\n");
  }

  // ---------------------------------------------------------------- the sections of the client

  /** One generated method per operation, in order. */
  function OperationTexts(sc: Casing, ops: seq<ApiOperation>): (r: seq<string>)
    ensures |r| == |ops|
  {
    if ops == [] then [] else OperationTexts(sc, ops[..|ops| - 1]) + [OperationText(sc, ops[|ops| - 1].path, ops[|ops| - 1].definition)]
  }

  /** Method `i` is operation `i`'s, formatted as it would be for GET whatever its verb. */
  lemma {:induction false} OperationTextsAt(sc: Casing, ops: seq<ApiOperation>, i: nat)
    requires i < |ops|
    ensures OperationTexts(sc, ops)[i] == OperationText(sc, ops[i].path, ops[i].definition)
  {
    if i < |ops| - 1 {
      OperationTextsAt(sc, ops[..|ops| - 1], i);
    }
  }

  /** One parameter interface per operation, in order. */
  function InterfaceTexts(sc: Casing, ops: seq<ApiOperation>): (r: seq<string>)
    ensures |r| == |ops|
  {
    if ops == [] then []
    else InterfaceTexts(sc, ops[..|ops| - 1]) + [InterfaceText(sc, ops[|ops| - 1].definition.operationId, ops[|ops| - 1].definition.parameters)]
  }

  /** Interface `i` is operation `i`'s. */
  lemma {:induction false} InterfaceTextsAt(sc: Casing, ops: seq<ApiOperation>, i: nat)
    requires i < |ops|
    ensures InterfaceTexts(sc, ops)[i] == InterfaceText(sc, ops[i].definition.operationId, ops[i].definition.parameters)
  {
    if i < |ops| - 1 {
      InterfaceTextsAt(sc, ops[..|ops| - 1], i);
    }
  }

  /** The alias of one named schema. */
  function SchemaAlias(sc: Casing, s: ApiSchema): string
  {
    "export type " + sc.ToCamel(s.name) + " = " + Shape(sc, s.schema)
  }

  /** One type alias per named schema, in order. */
  function SchemaAliases(sc: Casing, schemas: seq<ApiSchema>): (r: seq<string>)
    ensures |r| == |schemas|
  {
    if schemas == [] then [] else SchemaAliases(sc, schemas[..|schemas| - 1]) + [SchemaAlias(sc, schemas[|schemas| - 1])]
  }

  /** Alias `i` is schema `i`'s. */
  lemma {:induction false} SchemaAliasesAt(sc: Casing, schemas: seq<ApiSchema>, i: nat)
    requires i < |schemas|
    ensures SchemaAliases(sc, schemas)[i] == SchemaAlias(sc, schemas[i])
  {
    if i < |schemas| - 1 {
      SchemaAliasesAt(sc, schemas[..|schemas| - 1], i);
    }
  }

  /** `formatMethods`: the methods joined by a newline and `indent`. */
  method FormatMethods(sc: Casing, operations: seq<ApiOperation>, indent: string) returns (r: string)
    ensures r == Join(OperationTexts(sc, operations), "\n" + indent)
  {
    var result: seq<string> := [];
    var i := 0;
    while i < |operations|
      invariant 0 <= i <= |operations|
      invariant result == OperationTexts(sc, operations[..i])
    {
      var text := FormatOperation(sc, operations[i].path, "get", operations[i].definition);
      assert operations[..i + 1][..i] == operations[..i];
      assert OperationTexts(sc, operations[..i + 1]) == OperationTexts(sc, operations[..i]) + [text];
      result := result + [text];
      i := i + 1;
    }
    assert operations[..i] == operations;
    return Join(result, "\n" + indent);
  }

  /** `formatInterfaces`: the parameter interfaces joined by a newline and `indent`. */
  method FormatInterfaces(sc: Casing, operations: seq<ApiOperation>, indent: string) returns (r: string)
    ensures r == Join(InterfaceTexts(sc, operations), "\n" + indent)
  {
    var result: seq<string> := [];
    var i := 0;
    while i < |operations|
      invariant 0 <= i <= |operations|
      invariant result == InterfaceTexts(sc, operations[..i])
    {
      var text := FormatParameterInterface(sc, operations[i].definition.operationId, operations[i].definition.parameters);
      assert operations[..i + 1][..i] == operations[..i];
      assert InterfaceTexts(sc, operations[..i + 1]) == InterfaceTexts(sc, operations[..i]) + [text];
      result := result + [text];
      i := i + 1;
    }
    assert operations[..i] == operations;
    return Join(result, "\n" + indent);
  }

  /** `formatSchemas`: the type aliases joined by a newline and `indent`. */
  method FormatSchemas(sc: Casing, schemas: seq<ApiSchema>, indent: string) returns (r: string)
    ensures r == Join(SchemaAliases(sc, schemas), "\n" + indent)
  {
    var result: seq<string> := [];
    var i := 0;
    while i < |schemas|
      invariant 0 <= i <= |schemas|
      invariant result == SchemaAliases(sc, schemas[..i])
    {
      var shape := FormatSchemaShape(sc, schemas[i].schema);
      assert schemas[..i + 1][..i] == schemas[..i];
      assert SchemaAliases(sc, schemas[..i + 1]) == SchemaAliases(sc, schemas[..i]) + [SchemaAlias(sc, schemas[i])];
      result := result + ["export type " + sc.ToCamel(schemas[i].name) + " = " + shape];
      i := i + 1;
    }
    assert schemas[..i] == schemas;
    return Join(result, "\n" + indent);
  }

  /** The sections of the generated file, before they are joined by blank lines. */
  function ClientSections(sc: Casing, ops: seq<ApiOperation>, schemas: seq<ApiSchema>): seq<string>
  {
    [ Join(SchemaAliases(sc, schemas), "\n" + ""),
      Join(InterfaceTexts(sc, ops), "\n" + ""),
      "export class Api {",
      "  constructor(private baseUrl: string = window.location.origin) {",
      "  }",
      "  " + Join(OperationTexts(sc, ops), "\n" + "  "),
      "}" ]
  }

  /** The file `FormatTypescriptClient` returns for the given listings. */
  function ClientText(sc: Casing, ops: seq<ApiOperation>, schemas: seq<ApiSchema>): string
  {
    Join(ClientSections(sc, ops, schemas), "\n\n")
  }

  /** Every text of the interfaces section occurs in the file. */
  lemma InterfaceInFile(sc: Casing, ops: seq<ApiOperation>, schemas: seq<ApiSchema>, k: nat)
    requires k < |ops|
    ensures Contains(ClientText(sc, ops, schemas), InterfaceTexts(sc, ops)[k])
  {
    var parts := ClientSections(sc, ops, schemas);
    JoinContains(InterfaceTexts(sc, ops), "\n" + "", k);
    JoinContains(parts, "\n\n", 1);
    ContainsTrans(ClientText(sc, ops, schemas), parts[1], InterfaceTexts(sc, ops)[k]);
  }

  /** Every method of the class body occurs in the file. */
  lemma MethodInFile(sc: Casing, ops: seq<ApiOperation>, schemas: seq<ApiSchema>, k: nat)
    requires k < |ops|
    ensures Contains(ClientText(sc, ops, schemas), OperationTexts(sc, ops)[k])
  {
    var parts := ClientSections(sc, ops, schemas);
    var body := Join(OperationTexts(sc, ops), "\n" + "  ");
    JoinContains(OperationTexts(sc, ops), "\n" + "  ", k);
    ContainsWithin("  ", body, "", OperationTexts(sc, ops)[k]);
    assert "  " + body + "" == parts[5];
    JoinContains(parts, "\n\n", 5);
    ContainsTrans(ClientText(sc, ops, schemas), parts[5], OperationTexts(sc, ops)[k]);
  }

  /** Every operation the listing yields gets both a parameter interface and a method in the generated file. */
  lemma {:induction false} EveryListedOperationEmitted(sc: Casing, api: ApiDefinition, pathOrder: seq<string>, schemas: seq<ApiSchema>, op: ApiOperation)
    requires IsIterationOrder(pathOrder, api.paths)
    requires IsListed(api.paths, op)
    ensures InterfaceText(sc, op.definition.operationId, op.definition.parameters) in InterfaceTexts(sc, Operations(api.paths, pathOrder))
    ensures OperationText(sc, op.path, op.definition) in OperationTexts(sc, Operations(api.paths, pathOrder))
    ensures Contains(ClientText(sc, Operations(api.paths, pathOrder), schemas), InterfaceText(sc, op.definition.operationId, op.definition.parameters))
    ensures Contains(ClientText(sc, Operations(api.paths, pathOrder), schemas), OperationText(sc, op.path, op.definition))
  {
    var ops := Operations(api.paths, pathOrder);
    OperationsMembers(api.paths, pathOrder);
    assert op in ops;
    var k :| 0 <= k < |ops| && ops[k] == op;
    InterfaceTextsAt(sc, ops, k);
    OperationTextsAt(sc, ops, k);
    InterfaceInFile(sc, ops, schemas, k);
    MethodInFile(sc, ops, schemas, k);
  }

  /** Conversely, interface `k` and method `k` of the file belong to entry `k` of the listing, a named GET or POST slot. */
  lemma OnlyListedOperationsEmitted(sc: Casing, api: ApiDefinition, pathOrder: seq<string>, k: nat)
    requires IsIterationOrder(pathOrder, api.paths)
    requires k < |Operations(api.paths, pathOrder)|
    ensures var op := Operations(api.paths, pathOrder)[k];
      && IsListed(api.paths, op)
      && InterfaceTexts(sc, Operations(api.paths, pathOrder))[k] == InterfaceText(sc, op.definition.operationId, op.definition.parameters)
      && OperationTexts(sc, Operations(api.paths, pathOrder))[k] == OperationText(sc, op.path, op.definition)
  {
    var ops := Operations(api.paths, pathOrder);
    OperationsMembers(api.paths, pathOrder);
    assert ops[k] in ops;
    InterfaceTextsAt(sc, ops, k);
    OperationTextsAt(sc, ops, k);
  }

  /**
   * `FormatTypescriptClient`: list the operations and the schemas (in the
   * given iteration orders of the two maps) and emit the sections.
   */
  method FormatTypescriptClient(sc: Casing, api: ApiDefinition, pathOrder: seq<string>, schemaOrder: seq<string>) returns (r: string)
    requires IsIterationOrder(pathOrder, api.paths)
    requires IsIterationOrder(schemaOrder, api.components.schemas)
    ensures r == ClientText(sc, Operations(api.paths, pathOrder), Schemas(api.components.schemas, schemaOrder))
  {
    var operations := ListOperations(api, pathOrder);
    var schemas := ListSchemas(api, schemaOrder);
    var schemaText := FormatSchemas(sc, schemas, "");
    var interfaceText := FormatInterfaces(sc, operations, "");
    var methodText := FormatMethods(sc, operations, "  ");
    var result := [
      schemaText,
      interfaceText,
      "export class Api {",
      "  constructor(private baseUrl: string = window.location.origin) {",
      "  }",
      "  " + methodText,
      "}"];
    assert result == ClientSections(sc, operations, schemas);
    return Join(result, "\n\n");
  }
}
