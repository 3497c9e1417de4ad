/**
 * The parsed OpenAPI document (internal/openapi/schema.go): the data types
 * and the two listings that flatten it, `ListOperations` and `ListSchemas`.
 *
 * Go maps are kept as Dafny maps; a listing ranges over a map in an order Go
 * leaves unspecified, so that order is an explicit argument `order` that must
 * enumerate the map's keys, each once.
 */
module OpenApi {
  import opened Wrappers
  import opened Strings

  /**
   * A JSON-Schema fragment. `props` is the `Properties` map in the order in
   * which Go happens to range over it; `items` is the `*JsonSchemaDefinition`
   * pointer, `None` for nil.
   */
  datatype Schema = Schema(
    ty: string,
    props: seq<(string, Schema)>,
    ref: string,
    required: seq<string>,
    addl: bool,
    oneOf: seq<Schema>,
    allOf: seq<Schema>,
    enum: seq<string>,
    items: Option<Schema>)

  /** The zero value of `JsonSchemaDefinition`. */
  const EmptySchema := Schema("", [], "", [], false, [], [], [], None)

  /** The prefix of a local reference to a named component schema. */
  const SchemasPrefix := "#/components/schemas/"

  /** `"?"` for a property whose name the parent schema does not require. */
  function OptionalMark(name: string, required: seq<string>): string
  {
    if name in required then "" else "?"
  }

  /** Schemas used by the test cases of both renderers. */
  const StringSchema := EmptySchema.(ty := "string")
  const NumberSchema := EmptySchema.(ty := "number")
  const NameObject := EmptySchema.(ty := "object", props := [("name", StringSchema)], required := ["name"])

  datatype ApiInfo = ApiInfo(title: string, version: string)

  datatype ContentDefinition = ContentDefinition(schema: Schema)

  datatype ResponseDefinition = ResponseDefinition(description: string, content: map<string, ContentDefinition>)

  /** `In` of the source is `location` here (`in` is a Dafny keyword). */
  datatype ParameterDefinition = ParameterDefinition(location: string, name: string, required: bool, schema: Schema)

  /** The three parameter locations the code generator compares against are distinct. */
  lemma LocationsDistinct()
    ensures "query" != "header" && "query" != "path" && "header" != "path"
  {
    assert |"query"| == 5 && |"header"| == 6 && |"path"| == 4;
  }

  datatype OperationDefinition = OperationDefinition(
    description: string,
    operationId: string,
    summary: string,
    parameters: seq<ParameterDefinition>,
    responses: map<string, ResponseDefinition>)

  /**
   * The schema of the JSON body of the 200 response; a response or a content
   * type that is missing reads as Go's zero value, the empty schema.
   */
  function ResponseSchema(op: OperationDefinition): Schema
  {
    if "200" in op.responses && "application/json" in op.responses["200"].content
    then op.responses["200"].content["application/json"].schema
    else EmptySchema
  }

  datatype PathDefinition = PathDefinition(
    get: OperationDefinition,
    post: OperationDefinition,
    put: OperationDefinition,
    delete: OperationDefinition,
    patch: OperationDefinition)

  datatype ComponentsDefinition = ComponentsDefinition(
    responses: map<string, ResponseDefinition>,
    schemas: map<string, Schema>)

  datatype ApiDefinition = ApiDefinition(
    openapi: string,
    info: ApiInfo,
    paths: map<string, PathDefinition>,
    components: ComponentsDefinition)

  datatype ApiOperation = ApiOperation(path: string, verb: string, definition: OperationDefinition)

  datatype ApiSchema = ApiSchema(name: string, schema: Schema)

  /** `order` is one way of ranging over the keys of `m`: each key exactly once. */
  ghost predicate IsIterationOrder<V>(order: seq<string>, m: map<string, V>)
  {
    && NoDup(order)
    && (forall i :: 0 <= i < |order| ==> order[i] in m)
    && (forall k :: k in m ==> k in order)
  }

  /** An iteration order is exactly as long as the map is large. */
  lemma IterationOrderLength<V>(order: seq<string>, m: map<string, V>)
    requires IsIterationOrder(order, m)
    ensures |order| == |m|
  {
    DistinctCard(order);
    assert (set k | k in order) == m.Keys;
  }

  // ---------------------------------------------------------------- ListOperations

  /** The entries one path contributes: GET first, then POST, each only when named. */
  function PathOperations(path: string, item: PathDefinition): (r: seq<ApiOperation>)
    ensures |r| == (if item.get.operationId != "" then 1 else 0) + (if item.post.operationId != "" then 1 else 0)
    ensures forall op :: op in r <==>
      || (op == ApiOperation(path, "get", item.get) && item.get.operationId != "")
      || (op == ApiOperation(path, "post", item.post) && item.post.operationId != "")
  {
    (if item.get.operationId != "" then [ApiOperation(path, "get", item.get)] else [])
    + (if item.post.operationId != "" then [ApiOperation(path, "post", item.post)] else [])
  }

  /** What `ListOperations` has accumulated after ranging over the keys in `order`. */
  function Operations(paths: map<string, PathDefinition>, order: seq<string>): seq<ApiOperation>
    requires forall i :: 0 <= i < |order| ==> order[i] in paths
  {
    if order == [] then []
    else Operations(paths, order[..|order| - 1]) + PathOperations(order[|order| - 1], paths[order[|order| - 1]])
  }

  /** An entry of the listing: a named GET or POST slot of a path, carried unchanged. */
  ghost predicate IsListed(paths: map<string, PathDefinition>, op: ApiOperation)
  {
    && op.path in paths
    && (|| (op.verb == "get" && op.definition == paths[op.path].get && op.definition.operationId != "")
        || (op.verb == "post" && op.definition == paths[op.path].post && op.definition.operationId != ""))
  }

  /** The paths whose GET slot, respectively POST slot, has an operation id. */
  ghost function NamedGets(paths: map<string, PathDefinition>): set<string>
  {
    set k | k in paths && paths[k].get.operationId != ""
  }

  ghost function NamedPosts(paths: map<string, PathDefinition>): set<string>
  {
    set k | k in paths && paths[k].post.operationId != ""
  }

  /** Membership over a prefix of the order: the named slots of the keys seen so far. */
  lemma {:induction false} OperationsMembers(paths: map<string, PathDefinition>, order: seq<string>)
    requires forall i :: 0 <= i < |order| ==> order[i] in paths
    ensures forall op :: op in Operations(paths, order) <==> IsListed(paths, op) && op.path in order
  {
    if order != [] {
      var pre := order[..|order| - 1];
      var k := order[|order| - 1];
      OperationsMembers(paths, pre);
      assert order == pre + [k];
      forall op ensures op in Operations(paths, order) <==> IsListed(paths, op) && op.path in order {
        assert op in Operations(paths, order) <==> op in Operations(paths, pre) || op in PathOperations(k, paths[k]);
      }
    }
  }

  /** The operation a listed path contributes under `verb`: its GET slot for "get", else its POST slot. */
  function ListedSlot(item: PathDefinition, verb: string): OperationDefinition
  {
    if verb == "get" then item.get else item.post
  }

  /** The keys among `order` whose slot for `verb` has an operation id. */
  ghost function NamedAmong(paths: map<string, PathDefinition>, order: seq<string>, verb: string): set<string>
  {
    set k | k in order && k in paths && ListedSlot(paths[k], verb).operationId != ""
  }

  /** One more key adds at most itself. */
  lemma NamedAmongSnoc(paths: map<string, PathDefinition>, pre: seq<string>, k: string, verb: string)
    requires k in paths && k !in pre
    ensures |NamedAmong(paths, pre + [k], verb)|
         == |NamedAmong(paths, pre, verb)| + (if ListedSlot(paths[k], verb).operationId != "" then 1 else 0)
  {
    var g, g' := NamedAmong(paths, pre, verb), NamedAmong(paths, pre + [k], verb);
    assert k !in g;
    if ListedSlot(paths[k], verb).operationId != "" {
      assert g' == g + {k};
    } else {
      assert g' == g;
    }
  }

  /** Counting over a prefix of the order. */
  lemma {:induction false} OperationsCount(paths: map<string, PathDefinition>, order: seq<string>)
    requires NoDup(order)
    requires forall i :: 0 <= i < |order| ==> order[i] in paths
    ensures |Operations(paths, order)| == |NamedAmong(paths, order, "get")| + |NamedAmong(paths, order, "post")|
  {
    if order != [] {
      var pre := order[..|order| - 1];
      var k := order[|order| - 1];
      assert order == pre + [k];
      assert NoDup(pre) && k !in pre;
      OperationsCount(paths, pre);
      NamedAmongSnoc(paths, pre, k, "get");
      NamedAmongSnoc(paths, pre, k, "post");
    }
  }

  /** Within one path, the GET entry comes before the POST entry. */
  lemma {:induction false} OperationsGetBeforePost(paths: map<string, PathDefinition>, order: seq<string>, i: nat, j: nat)
    requires NoDup(order)
    requires forall n :: 0 <= n < |order| ==> order[n] in paths
    requires i < |Operations(paths, order)| && j < |Operations(paths, order)|
    requires Operations(paths, order)[i].path == Operations(paths, order)[j].path
    requires Operations(paths, order)[i].verb == "get" && Operations(paths, order)[j].verb == "post"
    ensures i < j
  {
    var pre := order[..|order| - 1];
    var k := order[|order| - 1];
    assert order == pre + [k];
    assert NoDup(pre) && k !in pre;
    var r := Operations(paths, order);
    var r' := Operations(paths, pre);
    var here := PathOperations(k, paths[k]);
    assert r == r' + here;
    if j < |r'| {
      if i < |r'| {
        assert r[i] == r'[i] && r[j] == r'[j];
        OperationsGetBeforePost(paths, pre, i, j);
      } else {
        OperationsPathIn(paths, pre, j);
        assert false;
      }
    } else if |r'| <= i {
      assert here[i - |r'|] == r[i] && here[j - |r'|] == r[j];
    }
  }

  /** Every entry of the listing belongs to one of the listed keys. */
  lemma {:induction false} OperationsPathIn(paths: map<string, PathDefinition>, order: seq<string>, n: nat)
    requires forall i :: 0 <= i < |order| ==> order[i] in paths
    requires n < |Operations(paths, order)|
    ensures Operations(paths, order)[n].path in order
  {
    var pre := order[..|order| - 1];
    var k := order[|order| - 1];
    var r' := Operations(paths, pre);
    if n < |r'| {
      OperationsPathIn(paths, pre, n);
    } else {
      assert Operations(paths, order)[n] == PathOperations(k, paths[k])[n - |r'|];
    }
  }

  /**
   * `ListOperations` (schema.go): for every path, in the given order, the
   * named GET slot and then the named POST slot; PUT, DELETE and PATCH are
   * never listed.
   */
  method ListOperations(api: ApiDefinition, order: seq<string>) returns (result: seq<ApiOperation>)
    requires IsIterationOrder(order, api.paths)
    ensures result == Operations(api.paths, order)
    ensures forall op :: op in result <==> IsListed(api.paths, op)
    ensures forall op :: op in result ==> op.verb == "get" || op.verb == "post"
    ensures |result| == |NamedGets(api.paths)| + |NamedPosts(api.paths)|
  {
    result := [];
    var i := 0;
    while i < |order|
      invariant 0 <= i <= |order|
      invariant result == Operations(api.paths, order[..i])
    {
      var path := order[i];
      var pathDefinition := api.paths[path];
      if pathDefinition.get.operationId != "" {
        result := result + [ApiOperation(path, "get", pathDefinition.get)];
      }
      if pathDefinition.post.operationId != "" {
        result := result + [ApiOperation(path, "post", pathDefinition.post)];
      }
      assert order[..i + 1][..i] == order[..i];
      i := i + 1;
    }
    assert order[..i] == order;
    OperationsMembers(api.paths, order);
    OperationsCount(api.paths, order);
    assert NamedAmong(api.paths, order, "get") == NamedGets(api.paths);
    assert NamedAmong(api.paths, order, "post") == NamedPosts(api.paths);
  }

  /** Only the GET and POST slots of a path matter to the listing. */
  lemma {:induction false} OperationsIgnoreOtherSlots(paths: map<string, PathDefinition>, paths': map<string, PathDefinition>, order: seq<string>)
    requires forall i :: 0 <= i < |order| ==> order[i] in paths && order[i] in paths'
    requires forall k :: k in paths && k in paths' ==> paths[k].get == paths'[k].get && paths[k].post == paths'[k].post
    ensures Operations(paths, order) == Operations(paths', order)
  {
    if order != [] {
      OperationsIgnoreOtherSlots(paths, paths', order[..|order| - 1]);
    }
  }

  /** The case of schema_test.go: two paths, each with a named GET, list two operations. */
  lemma ListOperationsTwoGets(order: seq<string>, op1: OperationDefinition, op2: OperationDefinition, empty: OperationDefinition)
    requires op1.operationId == "get_p1" && op2.operationId == "get_p2" && empty.operationId == ""
    requires IsIterationOrder(order, map["/p1" := PathDefinition(op1, empty, empty, empty, empty),
                                         "/p2" := PathDefinition(op2, empty, empty, empty, empty)])
    ensures |Operations(map["/p1" := PathDefinition(op1, empty, empty, empty, empty),
                            "/p2" := PathDefinition(op2, empty, empty, empty, empty)], order)| == 2
  {
    var paths := map["/p1" := PathDefinition(op1, empty, empty, empty, empty),
                     "/p2" := PathDefinition(op2, empty, empty, empty, empty)];
    OperationsCount(paths, order);
    assert NamedAmong(paths, order, "get") == {"/p1", "/p2"};
    assert NamedAmong(paths, order, "post") == {};
  }

  // ---------------------------------------------------------------- ListSchemas

  /** What `ListSchemas` has accumulated after ranging over the keys in `order`. */
  function Schemas(schemas: map<string, Schema>, order: seq<string>): (r: seq<ApiSchema>)
    requires forall i :: 0 <= i < |order| ==> order[i] in schemas
    ensures |r| == |order|
    ensures forall i :: 0 <= i < |order| ==> r[i] == ApiSchema(order[i], schemas[order[i]])
  {
    if order == [] then []
    else Schemas(schemas, order[..|order| - 1]) + [ApiSchema(order[|order| - 1], schemas[order[|order| - 1]])]
  }

  /**
   * `ListSchemas` (schema.go): one entry per named schema of the components,
   * name and schema unchanged.
   */
  method ListSchemas(api: ApiDefinition, order: seq<string>) returns (result: seq<ApiSchema>)
    requires IsIterationOrder(order, api.components.schemas)
    ensures result == Schemas(api.components.schemas, order)
    ensures |result| == |api.components.schemas|
    ensures forall e :: e in result <==> e.name in api.components.schemas && api.components.schemas[e.name] == e.schema
  {
    var m := api.components.schemas;
    result := [];
    var i := 0;
    while i < |order|
      invariant 0 <= i <= |order|
      invariant result == Schemas(m, order[..i])
    {
      result := result + [ApiSchema(order[i], m[order[i]])];
      assert order[..i + 1][..i] == order[..i];
      i := i + 1;
    }
    assert order[..i] == order;
    IterationOrderLength(order, m);
    forall e ensures e in result <==> e.name in m && m[e.name] == e.schema {
      if e.name in m && m[e.name] == e.schema {
        var n :| 0 <= n < |order| && order[n] == e.name;
        assert result[n] == e;
      }
    }
  }

  /** The case of schema_test.go: one named schema lists one entry. */
  lemma ListSchemasOne(order: seq<string>, user: Schema)
    requires IsIterationOrder(order, map["User" := user])
    ensures Schemas(map["User" := user], order) == [ApiSchema("User", user)]
  {
    IterationOrderLength(order, map["User" := user]);
    assert order[0] in map["User" := user];
  }
}
