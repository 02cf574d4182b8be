/**
 * The schema-to-model compiler of archetypal_core/models/models.py as functions over
 * schema values:
 *   - TypeFromSchema         get_python_type_from_json_schema   (models.py:103-147)
 *   - TypeFromAnyOf          get_python_type_from_any_of        (models.py:150-152)
 *   - ModelFromSchema        create_pydantic_model_from_schema  (models.py:19-72)
 *   - PatternPropertiesType  create_pydantic_model_for_pattern_properties (models.py:75-91)
 * The last two work by updating dicts in place in the source; ModelBuilder holds the
 * methods that do so, each proved to compute what these functions compute.
 */
module Resolver {
  import opened Wrappers
  import opened JsonSchema
  import opened Identifiers
  import opened Descriptors

  /**
   * The errors of the compiler: `ValueError(NoPatternPropertiesMessage)` for an empty
   * `patternProperties`, and the `TypeError` that `Union[()]` raises for an empty `anyOf`.
   */
  datatype SchemaError = NoPatternProperties | EmptyUnion

  const NoPatternPropertiesMessage: string := "No patternProperties found in schema."

  /**
   * The message each error is raised with: the source's own text for the `ValueError`,
   * and the text of Python's `typing` module for `Union[()]`. The two messages tell the
   * errors apart.
   */
  function Message(e: SchemaError): (m: string)
    ensures m == NoPatternPropertiesMessage <==> e == NoPatternProperties
    ensures m != ""
  {
    match e
    case NoPatternProperties => NoPatternPropertiesMessage
    case EmptyUnion => "Cannot take a Union of no types."
  }

  /** The name the module-level call gives the top-level model. */
  const DefaultModelName: string := "IDF"

  /** The units a regular field gets when its schema has none. */
  const DefaultUnits: string := "dimensionless"

  /** The six type names `type_mapping` has an entry for. */
  const MappedTypeNames: set<string> := {"string", "number", "integer", "boolean", "array", "object"}

  /**
   * `type_mapping.get(json_type, str)`: the conversion applied to enum members; every
   * name outside the mapping converts with `str`, as "string" does.
   */
  function ConversionFor(jsonType: string): (c: Conversion)
    ensures c == ToStr <==> jsonType !in MappedTypeNames || jsonType == "string"
    ensures c == MappedConversion(MappedType(jsonType))
  {
    match jsonType
    case "string" => ToStr
    case "number" => ToFloat
    case "integer" => ToInt
    case "boolean" => ToBool
    case "array" => ToList
    case "object" => ToDict
    case _ => ToStr
  }

  /** `type_mapping.get(json_type, Any)`: `Any` exactly for the names outside the mapping. */
  function MappedType(jsonType: string): (t: TypeDesc)
    ensures t == AnyT <==> jsonType !in MappedTypeNames
  {
    match jsonType
    case "string" => Str
    case "number" => Float
    case "integer" => Int
    case "boolean" => Bool
    case "array" => GenericList
    case "object" => GenericDict
    case _ => AnyT
  }

  /** The callable of `type_mapping` that stands for the type `t`; `Any` has none, so `str`. */
  function MappedConversion(t: TypeDesc): Conversion {
    match t
    case Float => ToFloat
    case Int => ToInt
    case Bool => ToBool
    case GenericList => ToList
    case GenericDict => ToDict
    case _ => ToStr
  }

  /**
   * A `model_name` argument that Python treats as true: given (not `None`) and not the
   * empty string.
   */
  predicate HasName(hint: Option<string>)
    ensures HasName(hint) ==> hint.Some? && |hint.value| > 0
    ensures hint.Some? && |hint.value| > 0 ==> HasName(hint)
  {
    hint.Some? && hint.value != ""
  }

  /** The field keys of `ps`, each sanitized, in order. */
  function SanitizedKeys(ps: seq<Property>): seq<string> {
    seq(|ps|, i requires 0 <= i < |ps| => Sanitize(ps[i].key))
  }

  /**
   * The type a schema node stands for. Keys are examined in a fixed order: `anyOf`,
   * then `enum`, then an object with `properties` and a model name, then an array with
   * `items`, then the plain type mapping. A named model can only come out when a
   * name is given, and anywhere below the result a named model only occurs as the
   * value type of a pattern-keyed map. The call fails only when some
   * `patternProperties` object or `anyOf` list in the tree is empty.
   */
  function TypeFromSchema(s: Schema, hint: Option<string>): (r: Result<TypeDesc, SchemaError>)
    ensures Compilable(s) ==> r.Success?
    ensures r.Success? && r.value.Model? ==>
      HasName(hint) && r.value.model.name == Sanitize(hint.value) && FlatModel(r.value.model)
    ensures r.Success? && !r.value.Model? ==> Flat(r.value)
    decreases Size(s), 1
  {
    if s.anyOf.Some? then
      assert SchemasSize(s.anyOf.value.elems) == AnyOfSize(s.anyOf);
      TypeFromAnyOf(s.anyOf.value.elems)
    else
      var jsonType := TypeName(s);
      if s.enumValues.Some? then
        var members := s.enumValues.value;
        var conversion := ConversionFor(jsonType);
        Success(Literal(seq(|members|, i requires 0 <= i < |members| => Coerced(conversion, members[i]))))
      else if jsonType == "object" && s.properties.Some? && HasName(hint) then
        var model :- ModelFromSchema(s, hint.value);
        Success(Model(model))
      else if jsonType == "array" && s.items.Some? then
        assert Size(s.items.value) == ItemsSize(s.items);
        var item :- TypeFromSchema(s.items.value, None);
        Success(ListOf(item))
      else if jsonType == "number" || jsonType == "integer" then
        Success(MappedType(jsonType))
      else
        Success(MappedType(jsonType))
  }

  /**
   * `Union[...]` of the alternatives, each resolved without a model name; an empty list
   * of alternatives is an error.
   */
  function TypeFromAnyOf(alts: seq<Schema>): (r: Result<TypeDesc, SchemaError>)
    ensures alts == [] ==> r == Failure(EmptyUnion)
    ensures alts != [] && (forall x | x in alts :: Compilable(x)) ==> r.Success?
    ensures r.Success? ==> r.value.Union? && |r.value.alternatives| == |alts| && Flat(r.value)
    decreases SchemasSize(alts), 3
  {
    var types :- AlternativeTypes(alts);
    if types == [] then Failure(EmptyUnion) else
    Success(Union(types))
  }

  /** The tuple comprehension over the alternatives: in order, stopping at the first error. */
  function AlternativeTypes(alts: seq<Schema>): (r: Result<seq<TypeDesc>, SchemaError>)
    ensures (forall x | x in alts :: Compilable(x)) ==> r.Success?
    ensures r.Success? ==> |r.value| == |alts| && forall t | t in r.value :: Flat(t)
    decreases SchemasSize(alts), 2
  {
    if alts == [] then Success([])
    else
      var first :- TypeFromSchema(alts[0], None);
      var rest :- AlternativeTypes(alts[1..]);
      Success([first] + rest)
  }

  /**
   * The model a schema node with `properties` compiles to: its name sanitized, one
   * field per distinct sanitized property key in order of first appearance, every
   * field name made of word characters, `memo` as doc string and `legacy_idd` carried
   * into the model config.
   */
  function ModelFromSchema(s: Schema, name: string): (r: Result<ModelDef, SchemaError>)
    ensures Compilable(s) ==> r.Success?
    ensures r.Success? ==> r.value.name == Sanitize(name) && FlatModel(r.value)
    ensures r.Success? ==> r.value.doc == s.memo && r.value.legacyIdd == s.legacyIdd
    ensures r.Success? ==> Names(r.value.fields) == Dedup(SanitizedKeys(PropertiesOf(s)))
    ensures r.Success? ==> DistinctNames(r.value.fields) && forall f | f in r.value.fields :: IsWordString(f.name)
    decreases Size(s), 0
  {
    assert PropertiesSize(PropertiesOf(s)) == MapSize(s.properties);
    var fields :- FieldsFromProperties(PropertiesOf(s), RequiredNames(s));
    FieldNamesInOrder(PropertiesOf(s), RequiredNames(s));
    SanitizedNamesAreWordStrings(fields, PropertiesOf(s));
    Success(ModelDef(Sanitize(name), fields, s.memo, s.legacyIdd))
  }

  /**
   * `create_pydantic_model_from_schema(schema)` with the default `model_name`: the model
   * is called "IDF", which sanitization leaves as it is.
   */
  function DefaultModel(s: Schema): (r: Result<ModelDef, SchemaError>)
    ensures r == ModelFromSchema(s, DefaultModelName)
    ensures r.Success? ==> r.value.name == "IDF"
  {
    SanitizeFixesWordStrings(DefaultModelName);
    ModelFromSchema(s, DefaultModelName)
  }

  /**
   * The `model_fields` dict after the loop over `ps`: each property assigns its field
   * under its sanitized key, so a later property whose key sanitizes to an earlier
   * field's name replaces that field in place.
   */
  function FieldsFromProperties(ps: seq<Property>, required: set<string>): (r: Result<seq<NamedField>, SchemaError>)
    ensures (forall p | p in ps :: Compilable(p.schema)) ==> r.Success?
    ensures r.Success? ==> forall f | f in r.value :: Flat(f.field.typ)
    decreases PropertiesSize(ps), 3
  {
    if ps == [] then Success([])
    else
      assert Size(ps[|ps| - 1].schema) > 0;
      var fields :- FieldsFromProperties(ps[..|ps| - 1], required);
      var p := ps[|ps| - 1];
      var field :- FieldFromProperty(p, required);
      Success(Put(fields, Sanitize(p.key), field))
  }

  /**
   * The fields come out under the sanitized property keys, each once, in order of
   * first appearance.
   */
  lemma {:induction false} FieldNamesInOrder(ps: seq<Property>, required: set<string>)
    requires FieldsFromProperties(ps, required).Success?
    ensures var fields := FieldsFromProperties(ps, required).value;
      Names(fields) == Dedup(SanitizedKeys(ps)) && DistinctNames(fields)
    decreases PropertiesSize(ps), 4
  {
    if ps != [] {
      assert Size(ps[|ps| - 1].schema) > 0;
      FieldNamesInOrder(ps[..|ps| - 1], required);
      assert SanitizedKeys(ps)[..|ps| - 1] == SanitizedKeys(ps[..|ps| - 1]);
    }
  }

  /**
   * The field one property contributes. A property with `patternProperties` gives a
   * pattern-keyed map defaulting to `None`; any other property is required exactly when
   * its (unsanitized) key is listed in `required`, and otherwise defaults to its
   * schema's `default`, or `None`.
   */
  function FieldFromProperty(p: Property, required: set<string>): (r: Result<FieldDef, SchemaError>)
    ensures Compilable(p.schema) ==> r.Success?
    ensures r.Success? ==> Flat(r.value.typ)
    ensures r.Success? ==> (r.value.default == Required <==> p.schema.patternProperties.None? && p.key in required)
    ensures r.Success? && p.schema.patternProperties.Some? ==>
      r.value.typ.PatternMap? && r.value.default == DefaultTo(JNull) && r.value.info.None?
    ensures r.Success? && p.schema.patternProperties.None? && p.key !in required ==>
      r.value.default == DefaultTo(p.schema.default.GetOr(JNull))
    decreases Size(p.schema), 2
  {
    if p.schema.patternProperties.Some? then
      var entry :- PatternPropertiesType(p.schema, p.key);
      Success(FieldDef(PatternMap(entry.0, entry.1), DefaultTo(JNull), None))
    else
      var typ :- TypeFromSchema(p.schema, None);
      var s := p.schema;
      var default := if p.key in required then Required else DefaultTo(s.default.GetOr(JNull));
      var info := FieldInfo(s.minimum, s.exclusiveMinimum, s.maximum, s.exclusiveMaximum, s.note, s.units.GetOr(DefaultUnits));
      Success(FieldDef(typ, default, Some(info)))
  }

  /**
   * The pattern and value type of a field schema with `patternProperties`: only the
   * first pattern counts; its value schema, overwritten by the field's own keys (all
   * but `patternProperties`), is resolved with the field's name as model name.
   */
  function PatternPropertiesType(field: Schema, name: string): (r: Result<(string, TypeDesc), SchemaError>)
    requires field.patternProperties.Some?
    ensures r.Failure? <==> field.patternProperties.value.members == [] || TypeFromSchema(PatternValueSchema(field), Some(name)).Failure?
    ensures r.Success? ==> r.value.0 == field.patternProperties.value.members[0].key
    ensures r.Success? ==> if r.value.1.Model? then FlatModel(r.value.1.model) else Flat(r.value.1)
    decreases Size(field), 1
  {
    var members := field.patternProperties.value.members;
    if members == [] then Failure(NoPatternProperties)
    else
      var merged := PatternValueSchema(field);
      var valueType :- TypeFromSchema(merged, Some(name));
      Success((members[0].key, valueType))
  }

  /**
   * The first pattern's value schema after `pattern_schema.update(field_schema)`, the
   * field schema no longer holding `patternProperties`. It is smaller than the field schema.
   */
  function PatternValueSchema(field: Schema): (r: Schema)
    requires field.patternProperties.Some? && field.patternProperties.value.members != []
    ensures Size(r) < Size(field)
    ensures Compilable(field) ==> Compilable(r)
  {
    var members := field.patternProperties.value.members;
    PropertySizeBound(members, 0);
    var rest := WithoutPatternProperties(field);
    var merged := Override(members[0].schema, rest);
    OverrideKeepsCompilable(members[0].schema, rest);
    merged
  }

  /** Field names drawn from sanitized keys hold only word characters. */
  lemma SanitizedNamesAreWordStrings(fields: seq<NamedField>, ps: seq<Property>)
    requires Names(fields) == Dedup(SanitizedKeys(ps))
    ensures forall f | f in fields :: IsWordString(f.name)
  {
    forall f | f in fields
      ensures IsWordString(f.name)
    {
      var i :| 0 <= i < |fields| && fields[i] == f;
      assert Names(fields)[i] == f.name;
      assert f.name in SanitizedKeys(ps);
      var j :| 0 <= j < |ps| && SanitizedKeys(ps)[j] == f.name;
    }
  }
}
