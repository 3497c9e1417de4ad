/**
 * How the three renderers and the two client emitters of the repository
 * relate. The newer renderer (json_schema.go) extends the older one
 * (format_schema.go): on schemas that use no items, no enum values and no
 * boolean type, all the way down, the two produce the same text. The legacy
 * emitter (format-ts-client.go) differs from the current one in its schema
 * renderer and in the parameters it passes on.
 */
module Versions {
  import opened Wrappers
  import opened Strings
  import opened OpenApi
  import JsonSchema
  import FormatSchema
  import TsClient
  import TsClientLegacy

  // ---------------------------------------------------------------- newer and older renderer

  /** A schema, with every nested member and property, that uses none of the cases the older renderer lacks. */
  predicate OldFragment(s: Schema)
    decreases s
  {
    && s.items.None?
    && s.enum == []
    && s.ty != "boolean"
    && (forall i :: 0 <= i < |s.allOf| ==> OldFragment(s.allOf[i]))
    && (forall i :: 0 <= i < |s.oneOf| ==> OldFragment(s.oneOf[i]))
    && (forall i :: 0 <= i < |s.props| ==> OldFragment(s.props[i].1))
  }

  /** On such a schema the newer renderer extends the older one without changing its output. */
  lemma {:induction false} AgreeShape(sc: Casing, s: Schema)
    requires OldFragment(s)
    ensures JsonSchema.Shape(sc, s) == FormatSchema.Shape(sc, s)
    decreases s, 1
  {
    if |s.allOf| > 0 {
      AgreeAll(sc, s.allOf);
    } else if |s.oneOf| > 0 {
      AgreeAll(sc, s.oneOf);
    } else if s.ty == "object" {
      AgreeProps(sc, s, |s.props|);
      if |s.props| > 0 {
        FormatSchema.ObjectWithProperties(sc, s);
      }
    }
  }

  /** The list renderings agree element by element. */
  lemma {:induction false} AgreeAll(sc: Casing, ss: seq<Schema>)
    requires forall i :: 0 <= i < |ss| ==> OldFragment(ss[i])
    ensures JsonSchema.RenderAll(sc, ss) == FormatSchema.RenderAll(sc, ss)
    decreases ss, 0
  {
    if ss != [] {
      AgreeAll(sc, ss[..|ss| - 1]);
      AgreeShape(sc, ss[|ss| - 1]);
    }
  }

  /** The object entries agree entry by entry. */
  lemma {:induction false} AgreeProps(sc: Casing, s: Schema, n: nat)
    requires n <= |s.props|
    requires forall i :: 0 <= i < |s.props| ==> OldFragment(s.props[i].1)
    ensures JsonSchema.PropEntries(sc, s, n) == FormatSchema.PropEntries(sc, s, n)
    decreases s, 0, n
  {
    if n > 0 {
      AgreeProps(sc, s, n - 1);
      AgreeShape(sc, s.props[n - 1].1);
    }
  }

  /** The boolean type is the newer renderer's own; the older one falls through to "unknown". */
  lemma BooleanDiffers(sc: Casing, s: Schema)
    requires s.allOf == [] && s.oneOf == [] && s.items.None? && s.enum == []
    requires s.ty == "boolean" && s.ref == ""
    ensures JsonSchema.Shape(sc, s) == "boolean"
    ensures FormatSchema.Shape(sc, s) == "unknown"
  {
  }

  /** An untyped array renders as an array in the newer renderer and as "unknown" in the older one. */
  lemma ItemsDiffer(sc: Casing, s: Schema, item: Schema)
    requires s.allOf == [] && s.oneOf == [] && s.items == Some(item)
    requires s.ty == "" && s.ref == ""
    ensures JsonSchema.Shape(sc, s) == "(" + JsonSchema.Shape(sc, item) + ")[]"
    ensures FormatSchema.Shape(sc, s) == "unknown"
  {
  }

  /** A string enum is a union of literals in the newer renderer and plain "string" in the older one. */
  lemma EnumDiffers(sc: Casing, s: Schema)
    requires s.allOf == [] && s.oneOf == [] && s.items.None? && |s.enum| > 0
    requires s.ty == "string"
    ensures JsonSchema.Shape(sc, s) == "(" + Join(JsonSchema.EnumLiterals(s.enum), " | ") + ")"
    ensures FormatSchema.Shape(sc, s) == "string"
  {
  }

  // ---------------------------------------------------------------- legacy and current emitter

  /** The legacy renderer writes a property-less object as `{}`, the current one as a record. */
  lemma LegacyEmptyObjectDiffers(sc: Casing, s: Schema)
    requires FormatSchema.IsPlainObject(s) && s.props == []
    ensures TsClientLegacy.Shape(sc, s) == "{}"
    ensures FormatSchema.Shape(sc, s) == if s.addl then "Record<string, unknown>" else "Record<string, never>"
  {
    TsClientLegacy.EmptyObjectBraces(sc, s);
  }

  /** Numbers are unknown to the legacy renderer. */
  lemma LegacyNumberUnknown(sc: Casing, s: Schema)
    requires s.allOf == [] && s.oneOf == [] && s.ty == "number" && s.ref == ""
    ensures TsClientLegacy.Shape(sc, s) == "unknown"
    ensures FormatSchema.Shape(sc, s) == "number"
  {
  }

  /**
   * A property the object requires, whose own schema lists no such name, is
   * optional in the legacy rendering and required in the current one.
   */
  lemma LegacyParentRequiredIgnored(sc: Casing, s: Schema, i: nat)
    requires i < |s.props|
    requires s.props[i].0 in s.required && s.props[i].0 !in s.props[i].1.required
    ensures |s.props[i].0| < |TsClientLegacy.PropEntries(sc, s, |s.props|)[i]|
    ensures TsClientLegacy.PropEntries(sc, s, |s.props|)[i][|s.props[i].0|] == '?'
    ensures |s.props[i].0| < |FormatSchema.PropEntries(sc, s, |s.props|)[i]|
    ensures FormatSchema.PropEntries(sc, s, |s.props|)[i][|s.props[i].0|] != '?'
  {
    TsClientLegacy.PropertyOptionalIff(sc, s, i);
    FormatSchema.PropertyOptionalIff(sc, s, i);
  }

  /** The single entry of that object in the legacy rendering: the string property's own required list is empty. */
  lemma LegacyNameEntry(sc: Casing)
    ensures TsClientLegacy.PropEntries(sc, NameObject, 1) == ["name?: string"]
  {
    TsClientLegacy.PropEntriesAt(sc, NameObject, 1, 0);
    assert OptionalMark("name", StringSchema.required) == "?";
    assert TsClientLegacy.Shape(sc, StringSchema) == "string";
    assert TsClientLegacy.PropEntries(sc, NameObject, 1) == ["name" + "?" + ": " + "string"];
    assert "name" + "?" + ": " + "string" == "name?: string";
  }

  /** The object `{name: string}` with `name` required, as the legacy renderer writes it. */
  lemma LegacyNameObject(sc: Casing)
    ensures TsClientLegacy.Shape(sc, NameObject) == "{name?: string}"
    ensures FormatSchema.Shape(sc, NameObject) == "{name: string}"
  {
    LegacyNameEntry(sc);
    TsClientLegacy.ObjectShape(sc, NameObject);
    assert Join(["name?: string"], ";") == "name?: string";
    FormatSchema.RequiredPropertyCase(sc);
  }

  /** Both emitters pass a string query or header parameter on in the same words; neither passes on other types. */
  lemma ParamCodeAgrees(sc: Casing, p: ParameterDefinition)
    requires !(p.location == "path" && p.schema.ty == "string")
    ensures TsClientLegacy.ParamCode(sc, p) == TsClient.ParamCode(sc, p)
  {
    assert TsClient.PathCode(sc, p) == [];
  }

  /** A string path parameter is substituted by the current emitter and dropped by the legacy one. */
  lemma LegacyPathDropped(sc: Casing, p: ParameterDefinition)
    requires p.location == "path" && p.schema.ty == "string"
    ensures TsClientLegacy.ParamCode(sc, p) == []
    ensures |TsClient.ParamCode(sc, p)| == 1
  {
    TsClientLegacy.ParamCodeCases(sc, p);
    TsClient.ParamCodeCases(sc, p);
  }

  /** Without string path parameters the two emitters marshal an operation's parameters identically. */
  lemma {:induction false} LegacyMarshalAgrees(sc: Casing, params: seq<ParameterDefinition>)
    requires forall i :: 0 <= i < |params| ==> !(params[i].location == "path" && params[i].schema.ty == "string")
    ensures TsClientLegacy.MarshalCode(sc, params) == TsClient.MarshalCode(sc, params)
  {
    if params != [] {
      LegacyMarshalAgrees(sc, params[..|params| - 1]);
      ParamCodeAgrees(sc, params[|params| - 1]);
    }
  }

  /** The legacy emitter writes three statements per string query or header parameter and nothing else. */
  lemma {:induction false} LegacyMarshalCodeLength(sc: Casing, params: seq<ParameterDefinition>)
    ensures |TsClientLegacy.MarshalCode(sc, params)| == 3 * TsClient.GuardedCount(params)
  {
    if params != [] {
      LegacyMarshalCodeLength(sc, params[..|params| - 1]);
      TsClientLegacy.ParamCodeCases(sc, params[|params| - 1]);
    }
  }
}
