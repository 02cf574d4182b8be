/**
 * The two functions of archetypal_core/models/models.py that work by updating dicts in
 * place, as methods over mutable field schemas:
 *   - ModelForPatternProperties  create_pydantic_model_for_pattern_properties (models.py:75-91):
 *     deletes `patternProperties` from the caller's field schema before resolving;
 *   - CreateModelFromSchema      create_pydantic_model_from_schema (models.py:19-72):
 *     fills the `model_fields` dict property by property.
 * Each is proved to return what the corresponding function of module Resolver computes
 * and to leave the field schemas in the state the source leaves them.
 */
module ModelBuilder {
  import opened Wrappers
  import opened JsonSchema
  import opened Identifiers
  import opened Descriptors
  import opened Resolver

  /** A field schema dict that the caller shares with the compiler and the compiler may update. */
  class FieldSchema {
    var node: Schema

    constructor (node: Schema)
      ensures this.node == node
    {
      this.node := node;
    }
  }

  /**
   * What a field schema looks like once the compiler has been through it: the
   * `patternProperties` key is gone when it held at least one pattern, and nothing
   * else changes (an empty one is left in place, since the error is raised first).
   */
  function Consumed(node: Schema): (r: Schema)
    ensures r.patternProperties.Some? ==> r.patternProperties.value.members == []
    ensures node.patternProperties.None? || node.patternProperties.value.members == [] ==> r == node
    ensures node.patternProperties.Some? && node.patternProperties.value.members != [] ==>
      r.patternProperties.None? && r.(patternProperties := node.patternProperties) == node
  {
    if node.patternProperties.Some? && node.patternProperties.value.members != [] then
      WithoutPatternProperties(node)
    else node
  }

  /**
   * Resolves the first pattern of `field`'s `patternProperties` into a pattern and a
   * value type. With no pattern at all it raises the "No patternProperties found"
   * error and leaves `field` as it was (the only case in which `field` keeps the key);
   * otherwise it first deletes `patternProperties` from `field`, then lets the field's
   * remaining keys overwrite the pattern's value schema and resolves that with
   * `modelName` as model name.
   */
  method ModelForPatternProperties(field: FieldSchema, modelName: string)
    returns (r: Result<(string, TypeDesc), SchemaError>)
    requires field.node.patternProperties.Some?
    modifies field
    ensures r == PatternPropertiesType(old(field.node), modelName)
    ensures field.node == Consumed(old(field.node))
    ensures field.node.patternProperties.Some? <==> old(field.node.patternProperties.value.members) == []
    ensures field.node.patternProperties.Some? ==> r == Failure(NoPatternProperties)
    ensures field.node.patternProperties.Some? ==> r.Failure? && Message(r.error) == NoPatternPropertiesMessage
  {
    var members := field.node.patternProperties.value.members;
    // The source's `for` loop returns during its first iteration: only the first pattern counts.
    if members != [] {
      var pattern := members[0].key;
      var patternSchema := members[0].schema;
      ghost var before := field.node;
      field.node := WithoutPatternProperties(field.node);
      patternSchema := Override(patternSchema, field.node);
      assert patternSchema == PatternValueSchema(before);
      var fieldType := TypeFromSchema(patternSchema, Some(modelName));
      if fieldType.Failure? {
        return Failure(fieldType.error);
      }
      return Success((pattern, fieldType.value));
    }
    r := Failure(NoPatternProperties);
  }

  /**
   * How many properties the loop of `create_pydantic_model_from_schema` gets to: all of
   * them, or up to and including the first one whose field raises.
   */
  function PropertiesVisited(ps: seq<Property>, required: set<string>): (n: nat)
    ensures n <= |ps|
    ensures FieldsFromProperties(ps, required).Success? ==> n == |ps|
    decreases |ps|
  {
    if ps == [] then 0
    else if FieldsFromProperties(ps[..|ps| - 1], required).Failure? then PropertiesVisited(ps[..|ps| - 1], required)
    else |ps|
  }

  /**
   * Builds the model `modelName` from `schema`, whose `properties` are the dicts
   * `fieldSchemas` (in order, none shared). The result is the model the schema compiles
   * to, or the error. Every field schema the loop reached loses a non-empty
   * `patternProperties` key; those after the property that raised are untouched.
   */
  method CreateModelFromSchema(schema: Schema, fieldSchemas: seq<FieldSchema>, modelName: string)
    returns (r: Result<ModelDef, SchemaError>)
    requires |fieldSchemas| == |PropertiesOf(schema)|
    requires forall i | 0 <= i < |fieldSchemas| :: fieldSchemas[i].node == PropertiesOf(schema)[i].schema
    requires forall i, j | 0 <= i < j < |fieldSchemas| :: fieldSchemas[i] != fieldSchemas[j]
    modifies fieldSchemas
    ensures r == ModelFromSchema(schema, modelName)
    ensures var ps := PropertiesOf(schema);
      var visited := PropertiesVisited(ps, RequiredNames(schema));
      forall i | 0 <= i < |fieldSchemas| ::
        fieldSchemas[i].node == if i < visited then Consumed(ps[i].schema) else ps[i].schema
  {
    var modelFields := FillFields(PropertiesOf(schema), RequiredNames(schema), fieldSchemas);
    if modelFields.Failure? {
      return Failure(modelFields.error);
    }
    r := Success(ModelDef(Sanitize(modelName), modelFields.value, schema.memo, schema.legacyIdd));
  }

  /**
   * The loop over `properties`: fills `model_fields` field by field, in order, and
   * stops at the first property whose field raises.
   */
  method FillFields(properties: seq<Property>, requiredFields: set<string>, fieldSchemas: seq<FieldSchema>)
    returns (r: Result<seq<NamedField>, SchemaError>)
    requires |fieldSchemas| == |properties|
    requires forall i | 0 <= i < |fieldSchemas| :: fieldSchemas[i].node == properties[i].schema
    requires forall i, j | 0 <= i < j < |fieldSchemas| :: fieldSchemas[i] != fieldSchemas[j]
    modifies fieldSchemas
    ensures r == FieldsFromProperties(properties, requiredFields)
    ensures var visited := PropertiesVisited(properties, requiredFields);
      forall i | 0 <= i < |fieldSchemas| ::
        fieldSchemas[i].node == if i < visited then Consumed(properties[i].schema) else properties[i].schema
  {
    var modelFields: seq<NamedField> := [];
    var i := 0;
    assert properties[..0] == [];
    while i < |properties|
      invariant 0 <= i <= |properties|
      invariant FieldsFromProperties(properties[..i], requiredFields) == Success(modelFields)
      invariant forall j | 0 <= j < i :: fieldSchemas[j].node == Consumed(properties[j].schema)
      invariant forall j | i <= j < |fieldSchemas| :: fieldSchemas[j].node == properties[j].schema
    {
      var fieldName := properties[i].key;
      assert fieldSchemas[i].node == properties[i].schema;
      var field := VisitProperty(fieldSchemas, i, fieldName, requiredFields);
      assert Property(fieldName, properties[i].schema) == properties[i];
      if field.Failure? {
        FirstFailure(properties, requiredFields, i);
        return Failure(field.error);
      }
      NextField(properties, requiredFields, i, modelFields, field.value);
      modelFields := Put(modelFields, Sanitize(fieldName), field.value);
      i := i + 1;
    }
    assert properties[..i] == properties;
    r := Success(modelFields);
  }

  /** One iteration of the loop, on the `i`-th field schema: no other field schema changes. */
  method VisitProperty(fieldSchemas: seq<FieldSchema>, i: nat, fieldName: string, requiredFields: set<string>)
    returns (r: Result<FieldDef, SchemaError>)
    requires i < |fieldSchemas|
    requires forall i, j | 0 <= i < j < |fieldSchemas| :: fieldSchemas[i] != fieldSchemas[j]
    modifies fieldSchemas[i]
    ensures r == FieldFromProperty(Property(fieldName, old(fieldSchemas[i].node)), requiredFields)
    ensures fieldSchemas[i].node == Consumed(old(fieldSchemas[i].node))
    ensures forall j | 0 <= j < |fieldSchemas| && j != i :: fieldSchemas[j].node == old(fieldSchemas[j].node)
  {
    assert forall j | 0 <= j < |fieldSchemas| && j != i :: fieldSchemas[j] != fieldSchemas[i];
    r := FieldFor(fieldSchemas[i], fieldName, requiredFields);
  }

  /**
   * The loop body for the property `fieldName`: the field it contributes, deleting a
   * non-empty `patternProperties` from its schema on the way.
   */
  method FieldFor(fieldSchema: FieldSchema, fieldName: string, requiredFields: set<string>)
    returns (r: Result<FieldDef, SchemaError>)
    modifies fieldSchema
    ensures r == FieldFromProperty(Property(fieldName, old(fieldSchema.node)), requiredFields)
    ensures fieldSchema.node == Consumed(old(fieldSchema.node))
  {
    if fieldSchema.node.patternProperties.Some? {
      var entry := ModelForPatternProperties(fieldSchema, fieldName);
      if entry.Failure? {
        return Failure(entry.error);
      }
      r := Success(FieldDef(PatternMap(entry.value.0, entry.value.1), DefaultTo(JNull), None));
    } else {
      var s := fieldSchema.node;
      var fieldType := TypeFromSchema(s, None);
      if fieldType.Failure? {
        return Failure(fieldType.error);
      }
      var fieldDefault := Required;
      if fieldName !in requiredFields {
        fieldDefault := DefaultTo(s.default.GetOr(JNull));
      }
      r := Success(FieldDef(fieldType.value, fieldDefault,
        Some(FieldInfo(s.minimum, s.exclusiveMinimum, s.maximum, s.exclusiveMaximum, s.note, s.units.GetOr(DefaultUnits)))));
    }
  }

  /** One more iteration of the loop assigns the next property's field. */
  lemma NextField(ps: seq<Property>, required: set<string>, i: nat, fields: seq<NamedField>, field: FieldDef)
    requires i < |ps|
    requires FieldsFromProperties(ps[..i], required) == Success(fields)
    requires FieldFromProperty(ps[i], required) == Success(field)
    ensures FieldsFromProperties(ps[..i + 1], required) == Success(Put(fields, Sanitize(ps[i].key), field))
  {
    assert ps[..i + 1][..i] == ps[..i];
  }

  /**
   * When the properties before position `i` compile and the one at `i` does not, the
   * whole loop fails and it visited exactly `i + 1` properties.
   */
  lemma {:induction false} FirstFailure(ps: seq<Property>, required: set<string>, i: nat)
    requires i < |ps|
    requires FieldsFromProperties(ps[..i], required).Success?
    requires FieldFromProperty(ps[i], required).Failure?
    ensures FieldsFromProperties(ps, required) == Failure(FieldFromProperty(ps[i], required).error)
    ensures PropertiesVisited(ps, required) == i + 1
    decreases |ps|
  {
    var prefix := ps[..|ps| - 1];
    if i < |ps| - 1 {
      assert prefix[..i] == ps[..i] && prefix[i] == ps[i];
      FirstFailure(prefix, required, i);
    } else {
      assert prefix == ps[..i];
    }
  }
}
