/**
 * The older schema-shape renderer (internal/codegen/format_schema.go), the
 * one the TypeScript client emitter uses. Its chain of cases is shorter than
 * the newer renderer's: allOf, oneOf, string, number/integer, object, $ref,
 * "unknown". Items, enum values and the boolean type are never looked at.
 *
 * `Shape` specifies the renderer; the methods `FormatSchemaShape` and
 * `MapShapes` follow the source's loops and are proved to compute it.
 */
module FormatSchema {
  import opened Wrappers
  import opened Strings
  import opened OpenApi

  /** The renderings of `ss`, one per schema, in input order. */
  function RenderAll(sc: Casing, ss: seq<Schema>): (r: seq<string>)
    ensures |r| == |ss|
    decreases ss, 0
  {
    if ss == [] then [] else RenderAll(sc, ss[..|ss| - 1]) + [Shape(sc, ss[|ss| - 1])]
  }

  /** Element `i` of `RenderAll` is the rendering of schema `i`. */
  lemma {:induction false} RenderAllAt(sc: Casing, ss: seq<Schema>, i: nat)
    requires i < |ss|
    ensures RenderAll(sc, ss)[i] == Shape(sc, ss[i])
  {
    if i < |ss| - 1 {
      RenderAllAt(sc, ss[..|ss| - 1], i);
    }
  }

  /** The object-branch entries `name[?]: shape` of the first `n` properties of `s`. */
  function PropEntries(sc: Casing, s: Schema, n: nat): (r: seq<string>)
    requires n <= |s.props|
    ensures |r| == n
    decreases s, 0, n
  {
    if n == 0 then []
    else PropEntries(sc, s, n - 1) + [s.props[n - 1].0 + OptionalMark(s.props[n - 1].0, s.required) + ": " + Shape(sc, s.props[n - 1].1)]
  }

  /** Entry `i` is property `i`'s name, its optional mark, `": "` and its shape. */
  lemma {:induction false} PropEntriesAt(sc: Casing, s: Schema, n: nat, i: nat)
    requires i < n <= |s.props|
    ensures PropEntries(sc, s, n)[i] == s.props[i].0 + OptionalMark(s.props[i].0, s.required) + ": " + Shape(sc, s.props[i].1)
  {
    if i < n - 1 {
      PropEntriesAt(sc, s, n - 1, i);
    }
  }

  /** The rendering of the object branch. */
  function ObjectShape(sc: Casing, s: Schema): string
    decreases s, 0, |s.props| + 1
  {
    var props := PropEntries(sc, s, |s.props|);
    if |props| == 0 && s.addl then "Record<string, unknown>"
    else if |props| == 0 then "Record<string, never>"
    else Join(["{", Join(props, ";"), "}"], "")
  }

  /** The specification of `FormatSchemaShape`: the first case that applies wins. */
  function Shape(sc: Casing, s: Schema): string
    decreases s, 1
  {
    if |s.allOf| > 0 then "(" + Join(Dedup(RenderAll(sc, s.allOf)), " & ") + ")"
    else if |s.oneOf| > 0 then "(" + Join(Dedup(RenderAll(sc, s.oneOf)), " | ") + ")"
    else if s.ty == "string" then "string"
    else if s.ty == "number" || s.ty == "integer" then "number"
    else if s.ty == "object" then ObjectShape(sc, s)
    else if s.ref != "" then sc.ToCamel(RemoveFirst(s.ref, SchemasPrefix))
    else "unknown"
  }

  /** One more rendered element in an append loop over `ss`. */
  lemma RenderAllSnoc(sc: Casing, ss: seq<Schema>, i: nat)
    requires i < |ss|
    ensures RenderAll(sc, ss[..i + 1]) == RenderAll(sc, ss[..i]) + [Shape(sc, ss[i])]
  {
    assert ss[..i + 1][..i] == ss[..i];
  }

  /**
   * `MapShapes`: the renderings of `schemas` without repetitions, each kept
   * at its first appearance; every schema's rendering is there, nothing else.
   */
  method MapShapes(sc: Casing, schemas: seq<Schema>) returns (types: seq<string>)
    ensures types == Dedup(RenderAll(sc, schemas))
    ensures NoDup(types)
    ensures forall i :: 0 <= i < |schemas| ==> Shape(sc, schemas[i]) in types
    ensures forall t :: t in types ==> exists i :: 0 <= i < |schemas| && t == Shape(sc, schemas[i])
    ensures forall i, j :: 0 <= i < j < |types| ==>
      FirstIndex(RenderAll(sc, schemas), types[i]) < FirstIndex(RenderAll(sc, schemas), types[j])
    ensures |types| <= |schemas|
    decreases schemas, 0
  {
    types := [];
    var i := 0;
    while i < |schemas|
      invariant 0 <= i <= |schemas|
      invariant types == Dedup(RenderAll(sc, schemas[..i]))
    {
      var result := FormatSchemaShape(sc, schemas[i]);
      RenderAllSnoc(sc, schemas, i);
      DedupSnoc(RenderAll(sc, schemas[..i]), result);
      if result !in types {
        types := types + [result];
      }
      i := i + 1;
    }
    assert schemas[..i] == schemas;
    var all := RenderAll(sc, schemas);
    forall i | 0 <= i < |schemas| ensures Shape(sc, schemas[i]) in types {
      RenderAllAt(sc, schemas, i);
      assert all[i] in all;
    }
    forall t | t in types ensures exists i :: 0 <= i < |schemas| && t == Shape(sc, schemas[i]) {
      var k :| 0 <= k < |all| && all[k] == t;
      RenderAllAt(sc, schemas, k);
    }
    DedupFirstSeenOrder(all);
  }

  /** `FormatSchemaShape` (format_schema.go), with the object loop of the source. */
  method FormatSchemaShape(sc: Casing, schema: Schema) returns (r: string)
    ensures r == Shape(sc, schema)
    decreases schema, 1
  {
    if |schema.allOf| > 0 {
      var types := MapShapes(sc, schema.allOf);
      return "(" + Join(types, " & ") + ")";
    }
    if |schema.oneOf| > 0 {
      var types := MapShapes(sc, schema.oneOf);
      return "(" + Join(types, " | ") + ")";
    }
    if schema.ty == "string" {
      return "string";
    }
    if schema.ty == "number" || schema.ty == "integer" {
      return "number";
    }
    if schema.ty == "object" {
      var props: seq<string> := [];
      var i := 0;
      while i < |schema.props|
        invariant 0 <= i <= |schema.props|
        invariant props == PropEntries(sc, schema, i)
      {
        var (propertyName, propertyDefinition) := schema.props[i];
        var suffix := "";
        if propertyName !in schema.required {
          suffix := suffix + "?";
        }
        assert suffix == OptionalMark(propertyName, schema.required);
        var shape := FormatSchemaShape(sc, propertyDefinition);
        props := props + [propertyName + suffix + ": " + shape];
        i := i + 1;
      }
      if |props| == 0 && schema.addl {
        return "Record<string, unknown>";
      }
      if |props| == 0 {
        return "Record<string, never>";
      }
      return Join(["{", Join(props, ";"), "}"], "");
    }
    if schema.ref != "" {
      return sc.ToCamel(RemoveFirst(schema.ref, SchemasPrefix));
    }
    return "unknown";
  }

  // ---------------------------------------------------------------- properties of Shape

  /** A non-empty allOf decides the rendering alone: every other field is ignored. */
  lemma AllOfWins(sc: Casing, s: Schema, t: Schema)
    requires |s.allOf| > 0 && t.allOf == s.allOf
    ensures Shape(sc, t) == Shape(sc, s) == "(" + Join(Dedup(RenderAll(sc, s.allOf)), " & ") + ")"
  {
  }

  /** Without allOf, a non-empty oneOf decides the rendering alone. */
  lemma OneOfSecond(sc: Casing, s: Schema, t: Schema)
    requires s.allOf == [] && |s.oneOf| > 0
    requires t.allOf == [] && t.oneOf == s.oneOf
    ensures Shape(sc, t) == Shape(sc, s) == "(" + Join(Dedup(RenderAll(sc, s.oneOf)), " | ") + ")"
  {
  }

  /** Without combinators, the two primitive types this renderer knows. */
  lemma PrimitiveTypes(sc: Casing, s: Schema)
    requires s.allOf == [] && s.oneOf == []
    ensures s.ty == "string" ==> Shape(sc, s) == "string"
    ensures s.ty == "number" || s.ty == "integer" ==> Shape(sc, s) == "number"
  {
  }

  /** Items and enum values never change a rendering: this renderer does not read them. */
  lemma ItemsAndEnumIgnored(sc: Casing, s: Schema, items: Option<Schema>, enum: seq<string>)
    ensures Shape(sc, s.(items := items, enum := enum)) == Shape(sc, s)
  {
    var t := s.(items := items, enum := enum);
    if |s.allOf| == 0 && |s.oneOf| == 0 && s.ty == "object" {
      PropEntriesSameProps(sc, s, t, |s.props|);
    }
  }

  /** Two schemas with the same properties and required names have the same entries. */
  lemma {:induction false} PropEntriesSameProps(sc: Casing, s: Schema, t: Schema, n: nat)
    requires s.props == t.props && s.required == t.required && n <= |s.props|
    ensures PropEntries(sc, s, n) == PropEntries(sc, t, n)
  {
    if n > 0 {
      PropEntriesSameProps(sc, s, t, n - 1);
    }
  }

  /** The schemas that reach the object case of the chain. */
  predicate IsPlainObject(s: Schema)
  {
    s.allOf == [] && s.oneOf == [] && s.ty == "object"
  }

  /** An object with properties is `{` entries joined by `;` `}`, one entry per property in order. */
  lemma ObjectWithProperties(sc: Casing, s: Schema)
    requires IsPlainObject(s) && |s.props| > 0
    ensures Shape(sc, s) == "{" + Join(PropEntries(sc, s, |s.props|), ";") + "}"
  {
    var inner := Join(PropEntries(sc, s, |s.props|), ";");
    assert ["{", inner, "}"][1..] == [inner, "}"];
    JoinTwo(inner, "}", "");
    assert Join(["{", inner, "}"], "") == "{" + "" + (inner + "" + "}");
  }

  /** An entry is marked optional, by a `?` right after the name, exactly when the parent does not require it. */
  lemma PropertyOptionalIff(sc: Casing, s: Schema, i: nat)
    requires i < |s.props|
    ensures |s.props[i].0| < |PropEntries(sc, s, |s.props|)[i]|
    ensures PropEntries(sc, s, |s.props|)[i][|s.props[i].0|] == '?' <==> s.props[i].0 !in s.required
  {
    var name := s.props[i].0;
    var e := PropEntries(sc, s, |s.props|)[i];
    PropEntriesAt(sc, s, |s.props|, i);
    assert e == name + (OptionalMark(name, s.required) + ": " + Shape(sc, s.props[i].1));
    assert e[|name|] == (OptionalMark(name, s.required) + ": ")[0];
  }

  /** An object without properties is a record, of unknown values exactly when additional properties are allowed. */
  lemma EmptyObject(sc: Casing, s: Schema)
    requires IsPlainObject(s) && s.props == []
    ensures Shape(sc, s) == if s.addl then "Record<string, unknown>" else "Record<string, never>"
  {
  }

  /** The schemas for which no case before the reference applies (items, enum or type "boolean" allowed). */
  predicate ReachesRef(s: Schema)
  {
    && s.allOf == [] && s.oneOf == []
    && s.ty != "string" && s.ty != "number" && s.ty != "integer" && s.ty != "object"
  }

  /**
   * Failing every earlier case, a reference renders as the camel-cased name
   * with the first "#/components/schemas/" removed, and no reference as "unknown".
   */
  lemma RefOrUnknown(sc: Casing, s: Schema)
    requires ReachesRef(s)
    ensures s.ref != "" ==> Shape(sc, s) == sc.ToCamel(RemoveFirst(s.ref, SchemasPrefix))
    ensures s.ref == "" ==> Shape(sc, s) == "unknown"
  {
  }

  /** A reference of the usual form `#/components/schemas/<name>` renders as `ToCamel(name)`. */
  lemma RefName(sc: Casing, s: Schema, name: string)
    requires ReachesRef(s) && s.ref == SchemasPrefix + name
    ensures Shape(sc, s) == sc.ToCamel(name)
  {
    RemoveFirstPrefix(SchemasPrefix, name);
  }

  /** The renderings of a two-element list. */
  lemma RenderTwo(sc: Casing, a: Schema, b: Schema)
    ensures RenderAll(sc, [a, b]) == [Shape(sc, a), Shape(sc, b)]
  {
    RenderAllAt(sc, [a, b], 0);
    RenderAllAt(sc, [a, b], 1);
  }

  /** Two members that render alike collapse: deduplication compares renderings, not schemas. */
  lemma EqualRenderingsCollapse(sc: Casing, s: Schema, a: Schema, b: Schema)
    requires s.allOf == [a, b] && Shape(sc, a) == Shape(sc, b)
    ensures Shape(sc, s) == "(" + Shape(sc, a) + ")"
  {
    var x := Shape(sc, a);
    RenderTwo(sc, a, b);
    DedupSnoc([x], x);
    DedupSnoc([], x);
  }

  /** Two members that render differently are both kept, in order. */
  lemma TwoDistinctMembers(sc: Casing, a: Schema, b: Schema)
    requires Shape(sc, a) != Shape(sc, b)
    ensures Dedup(RenderAll(sc, [a, b])) == [Shape(sc, a), Shape(sc, b)]
  {
    RenderTwo(sc, a, b);
    DedupDistinct([Shape(sc, a), Shape(sc, b)]);
  }

  /** A union of two members that render differently lists both, in order. */
  lemma UnionOfTwo(sc: Casing, s: Schema, a: Schema, b: Schema)
    requires s.allOf == [] && s.oneOf == [a, b] && Shape(sc, a) != Shape(sc, b)
    ensures Shape(sc, s) == "(" + Shape(sc, a) + " | " + Shape(sc, b) + ")"
  {
    TwoDistinctMembers(sc, a, b);
    JoinTwo(Shape(sc, a), Shape(sc, b), " | ");
  }

  /** An intersection of two members that render differently lists both, in order. */
  lemma IntersectionOfTwo(sc: Casing, s: Schema, a: Schema, b: Schema)
    requires s.allOf == [a, b] && Shape(sc, a) != Shape(sc, b)
    ensures Shape(sc, s) == "(" + Shape(sc, a) + " & " + Shape(sc, b) + ")"
  {
    TwoDistinctMembers(sc, a, b);
    JoinTwo(Shape(sc, a), Shape(sc, b), " & ");
  }

  // ---------------------------------------------------------------- the cases of format_schema_test.go

  /** The entries of an object with a single property. */
  lemma PropEntriesOne(sc: Casing, s: Schema)
    requires |s.props| == 1
    ensures PropEntries(sc, s, 1) == [s.props[0].0 + OptionalMark(s.props[0].0, s.required) + ": " + Shape(sc, s.props[0].1)]
  {
    PropEntriesAt(sc, s, 1, 0);
  }

  lemma RequiredPropertyCase(sc: Casing)
    ensures Shape(sc, NameObject) == "{name: string}"
  {
    PropEntriesOne(sc, NameObject);
    assert OptionalMark("name", ["name"]) == "";
    assert Shape(sc, StringSchema) == "string";
    ObjectWithProperties(sc, NameObject);
  }

  lemma OptionalPropertyCase(sc: Casing)
    ensures Shape(sc, NameObject.(required := [])) == "{name?: string}"
  {
    PropEntriesOne(sc, NameObject.(required := []));
    assert OptionalMark("name", []) == "?";
    assert Shape(sc, StringSchema) == "string";
    ObjectWithProperties(sc, NameObject.(required := []));
  }

  lemma EmptyObjectCases(sc: Casing)
    ensures Shape(sc, EmptySchema.(ty := "object")) == "Record<string, never>"
    ensures Shape(sc, EmptySchema.(ty := "object", addl := true)) == "Record<string, unknown>"
  {
  }

  lemma UnionCase(sc: Casing)
    ensures Shape(sc, EmptySchema.(oneOf := [StringSchema, NumberSchema])) == "(string | number)"
  {
    assert Shape(sc, StringSchema) == "string" && Shape(sc, NumberSchema) == "number";
    UnionOfTwo(sc, EmptySchema.(oneOf := [StringSchema, NumberSchema]), StringSchema, NumberSchema);
  }

  lemma UnionWithObjectCase(sc: Casing)
    ensures Shape(sc, EmptySchema.(oneOf := [NameObject, NumberSchema])) == "({name: string} | number)"
  {
    RequiredPropertyCase(sc);
    assert Shape(sc, NumberSchema) == "number";
    assert |"{name: string}"| != |"number"|;
    UnionOfTwo(sc, EmptySchema.(oneOf := [NameObject, NumberSchema]), NameObject, NumberSchema);
    UnionWithObjectText();
  }

  lemma IntersectionCase(sc: Casing)
    ensures Shape(sc, EmptySchema.(allOf := [StringSchema, NumberSchema])) == "(string & number)"
  {
    assert Shape(sc, StringSchema) == "string" && Shape(sc, NumberSchema) == "number";
    IntersectionOfTwo(sc, EmptySchema.(allOf := [StringSchema, NumberSchema]), StringSchema, NumberSchema);
  }
}
