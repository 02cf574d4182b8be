/**
 * What the compiler of archetypal_core/models/models.py promises, stated about the
 * functions of module Resolver: the order in which a node's keys are examined, how
 * enum members and anyOf alternatives are resolved, the policy for required fields and
 * defaults, which property a field comes from when sanitized names collide, and when
 * compilation fails.
 */
module ResolverProperties {
  import opened Wrappers
  import opened JsonSchema
  import opened Identifiers
  import opened Descriptors
  import opened Resolver

  /* ----- Dispatch order of get_python_type_from_json_schema ----- */

  /**
   * With `anyOf` present, the node is the union of its alternatives, and every other key
   * of the node and the model name are ignored: two nodes with the same `anyOf` resolve
   * alike.
   */
  lemma AnyOfIgnoresOtherKeys(s: Schema, t: Schema, hint: Option<string>, hint': Option<string>)
    requires s.anyOf.Some? && t.anyOf == s.anyOf
    ensures TypeFromSchema(s, hint) == TypeFromAnyOf(s.anyOf.value.elems)
    ensures TypeFromSchema(s, hint) == TypeFromSchema(t, hint')
  {
  }

  /**
   * `anyOf` gives a union with one alternative per schema, in order, each resolved
   * without a model name; it fails exactly when the list is empty or one of the
   * alternatives fails.
   */
  lemma {:induction false} AnyOfResolvesEachAlternative(alts: seq<Schema>)
    ensures TypeFromAnyOf(alts).Success? <==> alts != [] && forall i | 0 <= i < |alts| :: TypeFromSchema(alts[i], None).Success?
    ensures TypeFromAnyOf(alts).Success? ==>
      var u := TypeFromAnyOf(alts).value;
      u.Union? && |u.alternatives| == |alts| &&
      forall i | 0 <= i < |alts| :: TypeFromSchema(alts[i], None) == Success(u.alternatives[i])
  {
    AlternativesInOrder(alts);
  }

  lemma {:induction false} AlternativesInOrder(alts: seq<Schema>)
    ensures AlternativeTypes(alts).Success? <==> forall i | 0 <= i < |alts| :: TypeFromSchema(alts[i], None).Success?
    ensures AlternativeTypes(alts).Success? ==>
      forall i | 0 <= i < |alts| :: TypeFromSchema(alts[i], None) == Success(AlternativeTypes(alts).value[i])
    decreases |alts|
  {
    if alts != [] {
      AlternativesInOrder(alts[1..]);
      assert forall i | 1 <= i < |alts| :: alts[i] == alts[1..][i - 1];
    }
  }

  /**
   * The alternatives are resolved in order and the first one that fails decides the
   * error: the ones after it are never looked at.
   */
  lemma {:induction false} FirstFailingAlternative(alts: seq<Schema>, i: nat)
    requires i < |alts|
    requires forall k | 0 <= k < i :: TypeFromSchema(alts[k], None).Success?
    requires TypeFromSchema(alts[i], None).Failure?
    ensures AlternativeTypes(alts) == Failure(TypeFromSchema(alts[i], None).error)
    ensures TypeFromAnyOf(alts) == Failure(TypeFromSchema(alts[i], None).error)
    decreases |alts|
  {
    if i > 0 {
      assert forall k | 0 <= k < i - 1 :: alts[1..][k] == alts[k + 1];
      FirstFailingAlternative(alts[1..], i - 1);
    }
  }

  /**
   * Without `anyOf`, `enum` gives a literal set whatever else the node carries: one
   * member per enum value, in order, each converted with the conversion the declared
   * type maps to (an absent type counting as "string").
   */
  lemma EnumGivesLiteral(s: Schema, hint: Option<string>)
    requires s.anyOf.None? && s.enumValues.Some?
    ensures var r := TypeFromSchema(s, hint);
      && r.Success? && r.value.Literal?
      && |r.value.values| == |s.enumValues.value|
      && forall i | 0 <= i < |s.enumValues.value| ::
           r.value.values[i] == Coerced(ConversionFor(TypeName(s)), s.enumValues.value[i])
  {
  }

  /** A type with no entry in the mapping, such as "null", converts enum members with `str`. */
  lemma UnmappedTypesConvertWithStr(jsonType: string)
    requires jsonType !in {"string", "number", "integer", "boolean", "array", "object"}
    ensures ConversionFor(jsonType) == ToStr && MappedType(jsonType) == AnyT
  {
  }

  /** An absent `type` is read as "string". */
  lemma AbsentTypeIsString(s: Schema, hint: Option<string>)
    requires s.jsonType.None?
    ensures TypeFromSchema(s, hint) == TypeFromSchema(s.(jsonType := Some("string")), hint)
  {
  }

  /**
   * Without `anyOf` and `enum`, an "object" node is a named model exactly when it has
   * `properties` and a (non-empty) model name; otherwise it is `dict[str, Any]`.
   */
  lemma ObjectIsModelOnlyWithPropertiesAndName(s: Schema, hint: Option<string>)
    requires s.anyOf.None? && s.enumValues.None? && TypeName(s) == "object"
    ensures var r := TypeFromSchema(s, hint);
      if s.properties.Some? && HasName(hint) then
        (r.Success? <==> ModelFromSchema(s, hint.value).Success?) &&
        (r.Success? ==> r.value == Model(ModelFromSchema(s, hint.value).value))
      else r == Success(GenericDict)
  {
  }

  /**
   * Without `anyOf` and `enum`, an "array" node with `items` is a list of the item type,
   * resolved without a model name (so it is never a named model); without `items` it is
   * `list[Any]`.
   */
  lemma ArrayItemsResolvedWithoutName(s: Schema, hint: Option<string>)
    requires s.anyOf.None? && s.enumValues.None? && TypeName(s) == "array"
    ensures var r := TypeFromSchema(s, hint);
      if s.items.Some? then
        (r.Success? <==> TypeFromSchema(s.items.value, None).Success?) &&
        (r.Success? ==> r.value == ListOf(TypeFromSchema(s.items.value, None).value) && !r.value.item.Model?)
      else r == Success(GenericList)
  {
  }

  /**
   * Without `anyOf` and `enum`, any other type goes through the plain mapping: the
   * primitives, and `Any` for "null" or an unknown name. The numeric branch gives the
   * same as the mapping.
   */
  lemma OtherTypesUseMapping(s: Schema, hint: Option<string>)
    requires s.anyOf.None? && s.enumValues.None? && TypeName(s) != "object" && TypeName(s) != "array"
    ensures TypeFromSchema(s, hint) == Success(MappedType(TypeName(s)))
    ensures TypeName(s) == "null" ==> TypeFromSchema(s, hint) == Success(AnyT)
  {
  }

  /** Numeric bounds never change a node's type: they only go into the field's `Field(...)`. */
  lemma BoundsDoNotAffectType(s: Schema, hint: Option<string>, ge: Option<Value>, gt: Option<Value>, le: Option<Value>, lt: Option<Value>)
    ensures TypeFromSchema(s.(minimum := ge, exclusiveMinimum := gt, maximum := le, exclusiveMaximum := lt), hint)
         == TypeFromSchema(s, hint)
  {
    var s' := s.(minimum := ge, exclusiveMinimum := gt, maximum := le, exclusiveMaximum := lt);
    assert PropertiesOf(s') == PropertiesOf(s) && RequiredNames(s') == RequiredNames(s);
  }

  /* ----- The loop of create_pydantic_model_from_schema ----- */

  /**
   * When several properties sanitize to the same name, the field under that name is the
   * one built from the LAST of them (it was assigned last).
   */
  lemma {:induction false} LastAssignmentWins(ps: seq<Property>, required: set<string>, j: nat)
    requires FieldsFromProperties(ps, required).Success?
    requires j < |ps| && forall k | j < k < |ps| :: Sanitize(ps[k].key) != Sanitize(ps[j].key)
    ensures FieldFromProperty(ps[j], required).Success?
    ensures Lookup(FieldsFromProperties(ps, required).value, Sanitize(ps[j].key))
         == Some(FieldFromProperty(ps[j], required).value)
    decreases |ps|
  {
    var prefix := ps[..|ps| - 1];
    if j < |ps| - 1 {
      assert forall k | j < k < |prefix| :: prefix[k] == ps[k];
      LastAssignmentWins(prefix, required, j);
    }
  }

  /**
   * The full policy for the field a model holds under a property's sanitized key (the
   * last property with that sanitized key):
   *   - a `patternProperties` property gives `dict[pattern, value]` with default `None`
   *     and no `Field(...)`, where the pattern is the first one and the value type is
   *     resolved from its schema overwritten by the property's keys, named after the
   *     unsanitized property key;
   *   - any other property keeps its resolved type (with no model name), is required
   *     (`...`) exactly when its key is in `required`, and otherwise defaults to its
   *     `default` or `None`; `minimum`, `exclusiveMinimum`, `maximum`, `exclusiveMaximum`
   *     become `ge`, `gt`, `le`, `lt`, `note` the description, and units default to
   *     "dimensionless".
   */
  lemma ModelFieldPolicy(s: Schema, name: string, j: nat)
    requires ModelFromSchema(s, name).Success?
    requires j < |PropertiesOf(s)|
    requires forall k | j < k < |PropertiesOf(s)| :: Sanitize(PropertiesOf(s)[k].key) != Sanitize(PropertiesOf(s)[j].key)
    ensures var p := PropertiesOf(s)[j];
      var found := Lookup(ModelFromSchema(s, name).value.fields, Sanitize(p.key));
      && found.Some?
      && var f := found.value;
      && (p.schema.patternProperties.Some? ==>
            && p.schema.patternProperties.value.members != []
            && TypeFromSchema(PatternValueSchema(p.schema), Some(p.key)).Success?
            && f == FieldDef(
                 PatternMap(p.schema.patternProperties.value.members[0].key,
                            TypeFromSchema(PatternValueSchema(p.schema), Some(p.key)).value),
                 DefaultTo(JNull), None))
      && (p.schema.patternProperties.None? ==>
            && TypeFromSchema(p.schema, None).Success?
            && f.typ == TypeFromSchema(p.schema, None).value
            && f.default == (if p.key in RequiredNames(s) then Required else DefaultTo(p.schema.default.GetOr(JNull)))
            && f.info == Some(FieldInfo(p.schema.minimum, p.schema.exclusiveMinimum, p.schema.maximum,
                                        p.schema.exclusiveMaximum, p.schema.note, p.schema.units.GetOr("dimensionless"))))
  {
    LastAssignmentWins(PropertiesOf(s), RequiredNames(s), j);
  }

  /**
   * A model fails to compile as soon as one of its properties has an empty
   * `patternProperties` object, wherever that property stands; when the properties
   * before it compile, the error is the "No patternProperties found" one.
   */
  lemma {:induction false} EmptyPatternPropertiesFail(ps: seq<Property>, required: set<string>, j: nat)
    requires j < |ps| && ps[j].schema.patternProperties == Some(PropertyMap([]))
    ensures FieldsFromProperties(ps, required).Failure?
    ensures (forall k | 0 <= k < j :: Compilable(ps[k].schema)) ==>
      FieldsFromProperties(ps, required) == Failure(NoPatternProperties)
    decreases |ps|
  {
    var prefix := ps[..|ps| - 1];
    if j < |ps| - 1 {
      assert prefix[j] == ps[j];
      assert forall k | 0 <= k < j :: prefix[k] == ps[k];
      EmptyPatternPropertiesFail(prefix, required, j);
    } else {
      assert FieldFromProperty(ps[j], required) == Failure(NoPatternProperties) by {
        assert PatternPropertiesType(ps[j].schema, ps[j].key) == Failure(NoPatternProperties);
      }
      if forall k | 0 <= k < j :: Compilable(ps[k].schema) {
        assert forall p | p in prefix :: Compilable(p.schema);
      }
    }
  }

  /* ----- create_pydantic_model_for_pattern_properties ----- */

  /**
   * The pattern's value schema is the first pattern's schema updated by the field schema
   * without `patternProperties`: it takes every key the field schema itself has (they
   * overwrite), keeps its own keys elsewhere, and keeps its own `patternProperties`.
   * Among others, the field's `required` decides the nested model's required fields and
   * the field's `memo` its doc string.
   */
  lemma FieldKeysOverwritePatternKeys(field: Schema)
    requires field.patternProperties.Some? && field.patternProperties.value.members != []
    ensures var first := field.patternProperties.value.members[0].schema;
      var merged := PatternValueSchema(field);
      && merged == Override(first, field.(patternProperties := None))
      && merged.patternProperties == first.patternProperties
      && merged.anyOf == Pick(first.anyOf, field.anyOf)
      && merged.jsonType == Pick(first.jsonType, field.jsonType)
      && merged.enumValues == Pick(first.enumValues, field.enumValues)
      && merged.properties == Pick(first.properties, field.properties)
      && merged.items == Pick(first.items, field.items)
      && merged.required == Pick(first.required, field.required)
      && merged.default == Pick(first.default, field.default)
      && merged.minimum == Pick(first.minimum, field.minimum)
      && merged.exclusiveMinimum == Pick(first.exclusiveMinimum, field.exclusiveMinimum)
      && merged.maximum == Pick(first.maximum, field.maximum)
      && merged.exclusiveMaximum == Pick(first.exclusiveMaximum, field.exclusiveMaximum)
      && merged.note == Pick(first.note, field.note)
      && merged.units == Pick(first.units, field.units)
      && merged.memo == Pick(first.memo, field.memo)
      && merged.legacyIdd == Pick(first.legacyIdd, field.legacyIdd)
  {
  }

  /**
   * A pattern-keyed map whose merged value schema is an object with properties, under a
   * non-empty field key, has a named model as value type, named after that key.
   */
  lemma PatternValueIsNamedModel(field: Schema, name: string)
    requires field.patternProperties.Some? && field.patternProperties.value.members != []
    requires name != ""
    requires var merged := PatternValueSchema(field);
      merged.anyOf.None? && merged.enumValues.None? && TypeName(merged) == "object" && merged.properties.Some?
    requires PatternPropertiesType(field, name).Success?
    ensures var t := PatternPropertiesType(field, name).value.1;
      t.Model? && t.model.name == Sanitize(name)
  {
  }
}
