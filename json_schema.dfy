/**
 * The input of the compiler: the subset of a JSON Schema 2020-12 document that the
 * schema-to-model compiler reads (archetypal_core/models/models.py). A schema node is a
 * JSON object; each key the compiler looks at is an optional component of `Schema`, and
 * an absent key is `None`. Objects whose member order matters (`properties`,
 * `patternProperties`) are kept as ordered sequences of `Property`, the order in which
 * a parsed JSON document yields them.
 */
module JsonSchema {
  import opened Wrappers

  /** A JSON value that the compiler only carries along (defaults, bounds, enum members, metadata). */
  datatype Value =
    | JNull
    | JBool(b: bool)
    | JInt(i: int)
    | JReal(r: real)
    | JString(s: string)
    | JArray(elems: seq<Value>)
    | JObject(members: seq<Member>)

  datatype Member = Member(key: string, value: Value)

  /** A schema node. Keys are named after the JSON Schema keywords they stand for. */
  datatype Schema = Schema(
    anyOf: Option<SchemaList>,           // "anyOf" (JSON Schema 2020-12, section 10.2.1.2)
    jsonType: Option<string>,            // "type" (section 6.1.1)
    enumValues: Option<seq<Value>>,      // "enum" (section 6.1.2)
    properties: Option<PropertyMap>,     // "properties" (section 10.3.2.1)
    patternProperties: Option<PropertyMap>, // "patternProperties" (section 10.3.2.2)
    items: Option<Schema>,               // "items" (section 10.3.1.2)
    required: Option<seq<string>>,       // "required" (section 6.5.3)
    default: Option<Value>,              // "default"
    minimum: Option<Value>,              // "minimum" (section 6.2.4)
    exclusiveMinimum: Option<Value>,     // "exclusiveMinimum" (section 6.2.5)
    maximum: Option<Value>,              // "maximum" (section 6.2.2)
    exclusiveMaximum: Option<Value>,     // "exclusiveMaximum" (section 6.2.3)
    note: Option<string>,                // "note": free text, becomes the field description
    units: Option<string>,               // "units"
    memo: Option<string>,                // "memo": free text, becomes the model's doc string
    legacyIdd: Option<Value>)            // "legacy_idd": opaque blob carried into the model config

  /** A JSON array of schema nodes (the value of "anyOf"). */
  datatype SchemaList = SchemaList(elems: seq<Schema>)

  /**
   * A JSON object whose members are schema nodes, in document order. Keys are taken to
   * be distinct, as in a parsed document; nothing here enforces it.
   */
  datatype PropertyMap = PropertyMap(members: seq<Property>)

  /** One member of a `properties` or `patternProperties` object: a name (or regex) and its schema. */
  datatype Property = Property(key: string, schema: Schema)

  /** `schema.get("type", "string")`: an absent type reads as "string". */
  function TypeName(s: Schema): (r: string)
    ensures s.jsonType.None? ==> r == "string"
    ensures s.jsonType.Some? ==> r == s.jsonType.value
  {
    s.jsonType.GetOr("string")
  }

  /** `schema.get("properties", {})` as the ordered list of its members. */
  function PropertiesOf(s: Schema): (r: seq<Property>)
    ensures s.properties.None? ==> r == []
    ensures s.properties.Some? ==> r == s.properties.value.members
  {
    if s.properties.Some? then s.properties.value.members else []
  }

  /** `set(schema.get("required", []))`: the listed names, each once, in no order. */
  function RequiredNames(s: Schema): (r: set<string>)
    ensures s.required.None? ==> r == {}
    ensures s.required.Some? ==> forall n :: n in r <==> n in s.required.value
  {
    var names := s.required.GetOr([]);
    set i | 0 <= i < |names| :: names[i]
  }

  /** `del field_schema["patternProperties"]`: that key goes, every other key stays. */
  function WithoutPatternProperties(s: Schema): (r: Schema)
    ensures r.patternProperties.None?
    ensures r.(patternProperties := s.patternProperties) == s
  {
    s.(patternProperties := None)
  }

  /** One key of `base.update(top)`: the key of `top` when present, otherwise that of `base`. */
  function Pick<T>(base: Option<T>, top: Option<T>): (r: Option<T>)
    ensures r.Some? <==> base.Some? || top.Some?
    ensures top.Some? ==> r == top
    ensures top.None? ==> r == base
  {
    if top.Some? then top else base
  }

  /**
   * `base.update(top)`: every key present in `top` overwrites the key of `base`;
   * keys absent from `top` keep the value they have in `base`. The result is
   * smaller than the two inputs together, which is what lets the compiler's recursion
   * through a merged pattern schema terminate.
   */
  function Override(base: Schema, top: Schema): (r: Schema)
    ensures Size(r) < Size(base) + Size(top)
  {
    var r := Schema(
      Pick(base.anyOf, top.anyOf),
      Pick(base.jsonType, top.jsonType),
      Pick(base.enumValues, top.enumValues),
      Pick(base.properties, top.properties),
      Pick(base.patternProperties, top.patternProperties),
      Pick(base.items, top.items),
      Pick(base.required, top.required),
      Pick(base.default, top.default),
      Pick(base.minimum, top.minimum),
      Pick(base.exclusiveMinimum, top.exclusiveMinimum),
      Pick(base.maximum, top.maximum),
      Pick(base.exclusiveMaximum, top.exclusiveMaximum),
      Pick(base.note, top.note),
      Pick(base.units, top.units),
      Pick(base.memo, top.memo),
      Pick(base.legacyIdd, top.legacyIdd));
    assert AnyOfSize(r.anyOf) <= AnyOfSize(base.anyOf) + AnyOfSize(top.anyOf);
    assert MapSize(r.properties) <= MapSize(base.properties) + MapSize(top.properties);
    assert MapSize(r.patternProperties) <= MapSize(base.patternProperties) + MapSize(top.patternProperties);
    assert ItemsSize(r.items) <= ItemsSize(base.items) + ItemsSize(top.items);
    r
  }

  /** The number of schema nodes in `s`, counting `s` itself. */
  function Size(s: Schema): nat
    decreases s, 1
  {
    1 + AnyOfSize(s.anyOf) + MapSize(s.properties) + MapSize(s.patternProperties) + ItemsSize(s.items)
  }

  function AnyOfSize(a: Option<SchemaList>): nat
    decreases a, 0
  {
    if a.Some? then SchemasSize(a.value.elems) else 0
  }

  function MapSize(m: Option<PropertyMap>): nat
    decreases m, 0
  {
    if m.Some? then PropertiesSize(m.value.members) else 0
  }

  function ItemsSize(i: Option<Schema>): nat
    decreases i, 0
  {
    if i.Some? then Size(i.value) else 0
  }

  function SchemasSize(xs: seq<Schema>): nat
    decreases xs
  {
    if xs == [] then 0 else Size(xs[0]) + SchemasSize(xs[1..])
  }

  function PropertiesSize(ps: seq<Property>): nat
    decreases ps
  {
    if ps == [] then 0 else PropertiesSize(ps[..|ps| - 1]) + Size(ps[|ps| - 1].schema)
  }

  /** Every property schema of `ps` is at most as large as all of them together. */
  lemma {:induction false} PropertySizeBound(ps: seq<Property>, i: nat)
    requires i < |ps|
    ensures Size(ps[i].schema) <= PropertiesSize(ps)
    decreases |ps|
  {
    if i < |ps| - 1 {
      PropertySizeBound(ps[..|ps| - 1], i);
    }
  }

  /**
   * No `patternProperties` object and no `anyOf` list anywhere in `s` is empty: the two
   * shapes the compiler rejects do not occur in the tree.
   */
  predicate Compilable(s: Schema)
    decreases s
  {
    && (s.patternProperties.Some? ==> |s.patternProperties.value.members| > 0)
    && (s.anyOf.Some? ==> |s.anyOf.value.elems| > 0)
    && (s.anyOf.Some? ==> forall x | x in s.anyOf.value.elems :: Compilable(x))
    && (s.properties.Some? ==> forall p | p in s.properties.value.members :: Compilable(p.schema))
    && (s.patternProperties.Some? ==> forall p | p in s.patternProperties.value.members :: Compilable(p.schema))
    && (s.items.Some? ==> Compilable(s.items.value))
  }

  /** Overwriting keys keeps a tree compilable. */
  lemma OverrideKeepsCompilable(base: Schema, top: Schema)
    ensures Compilable(base) && Compilable(top) ==> Compilable(Override(base, top))
  {
  }
}
