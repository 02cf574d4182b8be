# JSON-Schema-to-model compiler of archetypal-core, in Dafny

archetypal-core turns the EnergyPlus epJSON schema into pydantic model classes at import
time (`archetypal_core/models/models.py`). The compiler walks the schema tree. At each node
it picks a Python type: a union, a literal set, a nested named model, a typed list, a
primitive, a generic dict or `Any`. For each member of a node's `properties` it builds a
model field. The field carries the required/default policy, the numeric bounds, the units
and the description, under the property key sanitized with `re.sub(r"\W", "_", ...)`.
A property with `patternProperties` becomes a map whose keys must match the first pattern.

This project models that compiler and proves what it promises.

- `wrappers.dfy`, module `Wrappers`: `Option` and `Result`.
- `json_schema.dfy`, module `JsonSchema`: the schema subset the compiler reads, as a
  datatype with one optional component per JSON key. Also `dict.update` on schema nodes
  (`Override`), and the size measure under which the compiler terminates.
- `identifiers.dfy`, module `Identifiers`: the `\W` to `_` sanitization.
- `descriptors.dfy`, module `Descriptors`: the output, a descriptor tree standing for the
  Python types and model classes. A model's fields form an insertion-ordered dict:
  assigning an existing name replaces its value in place, and a new name is appended.
- `resolver.dfy`, module `Resolver`: the four compiler functions as mutually recursive
  Dafny functions over schema values, returning `Result`.
- `resolver_properties.dfy`, module `ResolverProperties`: lemmas for the dispatch order,
  the `anyOf` and `enum` rules, the field policy, name collisions, and the failure cases.
- `model_builder.dfy`, module `ModelBuilder`: the two functions that update dicts in
  place, as methods over mutable field-schema objects:
  - `create_pydantic_model_for_pattern_properties` deletes `patternProperties` from the
    caller's field schema;
  - `create_pydantic_model_from_schema` fills `model_fields` in a loop.

  Each method is proved to return what the `Resolver` function computes. Each also states
  the exact state in which it leaves every field schema, on the error path too.

The model has two errors (enum coercion errors are left out, see "## Left out"):
- `ValueError("No patternProperties found in schema.")` for an empty `patternProperties`
  object (`Resolver.NoPatternProperties`);
- the `TypeError` that `Union[()]` raises for an empty `anyOf` list (`Resolver.EmptyUnion`).

A tree in which neither occurs (`JsonSchema.Compilable`) always compiles.

Where the code differs from what its documentation suggests, the model follows the code:
- A regular property is resolved without a model name (models.py:49). An object-typed
  property with `properties` therefore becomes `dict[str, Any]`, not a nested model. Named
  nested models only arise as the value type of a `patternProperties` map, whose model name
  is the raw property key.
- `pattern_schema.update(field_schema)` (models.py:87) lets the field schema's keys
  overwrite the keys the pattern's value schema already has. It does not only add missing
  keys.
- Only the first pattern of `patternProperties` is used: the loop returns in its first
  iteration. Further patterns are ignored, with no error.
- Numeric bounds go only into the field's `Field(...)` (models.py:58-61). The
  "number"/"integer" branch (models.py:144-145) gives the same type as the fallthrough.
- Array items are resolved without a model name (models.py:141).
- A name that sanitizes to the empty string is not an error. An empty model name counts
  as no name, because the empty string is false in Python (models.py:136).
- Sanitization guarantees only that a name holds word characters (models.py:69-70,
  whose comment calls the result a valid attribute name). An empty name, or one that
  starts with a digit, comes out unchanged, and then it is not a Python identifier.
  The model says "word string" (`Identifiers.IsWordString`), not "identifier".
- Two property keys that sanitize to the same name do not raise. The later property's
  field replaces the earlier one, in the earlier one's position.

## Model

| member | source | states |
|---|---|---|
| Identifiers.Sanitize | archetypal_core/models/models.py:69-70 | every character outside `\w` becomes `_` one for one, every word character stays in place, the length is kept, and the result holds only word characters |
| Identifiers.SanitizeFixesWordStrings | archetypal_core/models/models.py:69-70 | sanitization leaves a name unchanged exactly when it already holds only word characters |
| Identifiers.SanitizeIdempotent | archetypal_core/models/models.py:69-70 | sanitizing an already sanitized name changes nothing |
| JsonSchema.TypeName | archetypal_core/models/models.py:119 | an absent `type` reads as "string", a present one as itself |
| JsonSchema.PropertiesOf | archetypal_core/models/models.py:31 | an absent `properties` reads as no properties, a present one as its members in order |
| JsonSchema.RequiredNames | archetypal_core/models/models.py:32 | the required set holds exactly the names listed in `required`, and is empty when `required` is absent |
| JsonSchema.WithoutPatternProperties | archetypal_core/models/models.py:86 | after `del field_schema["patternProperties"]` the key is absent and every other key is as it was |
| JsonSchema.Pick | archetypal_core/models/models.py:87 | `dict.update` for one key: the key is present iff either dict has it, the updating dict's value wins when it has the key, and otherwise the base value stays |
| JsonSchema.Override | archetypal_core/models/models.py:87 | the updated pattern schema is smaller than the pattern schema and the field schema together, so compiling it terminates |
| JsonSchema.OverrideKeepsCompilable | archetypal_core/models/models.py:87 | updating a compilable schema with a compilable schema gives a compilable schema |
| Descriptors.Lookup | archetypal_core/models/models.py:43-54 | reads the `model_fields` dict by key, an observer for the assignments at 43-54: a field is found exactly when the name is one of the dict's keys |
| Descriptors.Put | archetypal_core/models/models.py:54-67 | `model_fields[name] = field`: an existing name keeps its position and takes the new field, a new name is appended, every other name is looked up as before, and names stay distinct |
| Resolver.ConversionFor | archetypal_core/models/models.py:121-133 | `type_mapping.get(json_type, str)`: the conversion is `str` exactly for "string" and for every name outside the mapping, and otherwise the callable mapped to the type |
| Resolver.MappedType | archetypal_core/models/models.py:145-147 | `type_mapping.get(json_type, Any)`: `Any` exactly for the names outside the mapping |
| Resolver.HasName | archetypal_core/models/models.py:136 | a model name counts exactly when it is given and is not the empty string, as Python's truth test says |
| Resolver.TypeFromSchema | archetypal_core/models/models.py:103-147 | a compilable node always resolves; a nested model only comes out with a non-empty model name and is named by the sanitized name; everywhere else a named model only occurs as a pattern map's value type |
| Resolver.TypeFromAnyOf | archetypal_core/models/models.py:150-152 | an empty alternative list raises the `Union[()]` error; otherwise the union has one alternative per schema, and compilable alternatives always resolve |
| Resolver.AlternativeTypes | archetypal_core/models/models.py:152 | one type per alternative when they all resolve |
| Resolver.ModelFromSchema | archetypal_core/models/models.py:19-72 | the model is named by the sanitized model name; its field names are the sanitized property keys, each once, in order of first appearance, holding only word characters; its doc is `memo` and its config carries `legacy_idd` |
| Resolver.Message | archetypal_core/models/models.py:90-91 | the "No patternProperties found in schema." error is raised with exactly that text, and the two errors are told apart by their messages |
| Resolver.DefaultModel | archetypal_core/models/models.py:19 | with the default model name the model is called "IDF" |
| Resolver.FieldsFromProperties | archetypal_core/models/models.py:39-67 | the loop over `properties` assigns each property's field under its sanitized key; compilable properties always succeed |
| Resolver.FieldNamesInOrder | archetypal_core/models/models.py:39-67 | the keys of `model_fields` are the distinct sanitized property keys in order of first appearance |
| Resolver.FieldFromProperty | archetypal_core/models/models.py:40-67 | a `patternProperties` field is a pattern map defaulting to `None` with no `Field(...)`; a regular field is required iff its raw key is in `required`, otherwise it defaults to `default` or `None` |
| Resolver.PatternPropertiesType | archetypal_core/models/models.py:75-91 | fails exactly when there is no pattern or the merged value schema fails; the returned pattern is the first pattern key |
| Resolver.PatternValueSchema | archetypal_core/models/models.py:85-87 | the first pattern's schema, updated by the field schema without `patternProperties`, is smaller than the field schema and stays compilable |
| Resolver.SanitizedNamesAreWordStrings | archetypal_core/models/models.py:54 | field names drawn from sanitized keys hold only word characters |
| ResolverProperties.AnyOfIgnoresOtherKeys | archetypal_core/models/models.py:115-116 | with `anyOf` present, the node is exactly the union of its alternatives, and every other key of the node and the model name are ignored |
| ResolverProperties.AnyOfResolvesEachAlternative | archetypal_core/models/models.py:150-152 | `anyOf` succeeds iff the list is non-empty and every alternative resolves without a name; then the union holds exactly those types, in order |
| ResolverProperties.AlternativesInOrder | archetypal_core/models/models.py:152 | the tuple comprehension succeeds iff every alternative does, and its i-th element is the i-th alternative's type |
| ResolverProperties.FirstFailingAlternative | archetypal_core/models/models.py:150-152 | when the alternatives before position i resolve and alternative i fails, the union fails with alternative i's error |
| ResolverProperties.EnumGivesLiteral | archetypal_core/models/models.py:131-133 | without `anyOf`, `enum` gives a literal set, one member per value, in order, each converted by the mapping for the declared type |
| ResolverProperties.UnmappedTypesConvertWithStr | archetypal_core/models/models.py:121-133 | a type missing from the mapping, such as "null", converts enum members with `str` and otherwise resolves to `Any` |
| ResolverProperties.AbsentTypeIsString | archetypal_core/models/models.py:119 | an absent `type` resolves exactly as "string" |
| ResolverProperties.ObjectIsModelOnlyWithPropertiesAndName | archetypal_core/models/models.py:136-137 | an object node is a nested model iff it has `properties` and a non-empty name, and then it is that model; otherwise it is `dict[str, Any]` |
| ResolverProperties.ArrayItemsResolvedWithoutName | archetypal_core/models/models.py:140-142 | an array with `items` is a list of the item type resolved without a name, never a model; without `items` it is `list[Any]` |
| ResolverProperties.OtherTypesUseMapping | archetypal_core/models/models.py:144-147 | every other type resolves through the plain mapping, "null" to `Any`; the numeric branch agrees with the fallthrough |
| ResolverProperties.BoundsDoNotAffectType | archetypal_core/models/models.py:103-147 | changing `minimum`, `exclusiveMinimum`, `maximum` or `exclusiveMaximum` never changes a node's type |
| ResolverProperties.LastAssignmentWins | archetypal_core/models/models.py:43-54 | when several keys sanitize to the same name, the field under that name is the one built from the last of them |
| ResolverProperties.ModelFieldPolicy | archetypal_core/models/models.py:39-67 | the full field policy: pattern fields as above, and for regular fields their type, required/default, `ge`/`gt`/`le`/`lt` from the four bounds, `note` as description and units defaulting to "dimensionless" |
| ResolverProperties.EmptyPatternPropertiesFail | archetypal_core/models/models.py:90-91 | a property with an empty `patternProperties` makes the model fail; when the properties before it compile, the error is the "No patternProperties found" one |
| ResolverProperties.FieldKeysOverwritePatternKeys | archetypal_core/models/models.py:85-87 | the merged value schema is the first pattern's schema updated by the field schema without `patternProperties`: for each of the sixteen keys it takes the field's value when present there and otherwise keeps its own, and it keeps its own `patternProperties` |
| ResolverProperties.PatternValueIsNamedModel | archetypal_core/models/models.py:42 | an object value schema with `properties`, under a non-empty property key, gives a model named after the sanitized key |
| ModelBuilder.Consumed | archetypal_core/models/models.py:85-86 | after the step, a field schema has lost `patternProperties` exactly when it held at least one pattern; nothing else changes |
| ModelBuilder.ModelForPatternProperties | archetypal_core/models/models.py:75-91 | returns the pattern and value type `PatternPropertiesType` gives; deletes the key from the caller's field schema unless there is no pattern, and then raises the error whose message is "No patternProperties found in schema." |
| ModelBuilder.PropertiesVisited | archetypal_core/models/models.py:39 | the loop reaches every property when the model compiles |
| ModelBuilder.CreateModelFromSchema | archetypal_core/models/models.py:19-72 | returns exactly `ModelFromSchema`; each field schema reached by the loop loses a non-empty `patternProperties`, and the rest are untouched |
| ModelBuilder.FillFields | archetypal_core/models/models.py:39-67 | the loop computes `FieldsFromProperties`, stops at the first property that raises, and leaves the field schemas as above |
| ModelBuilder.VisitProperty | archetypal_core/models/models.py:40-67 | one iteration computes the property's field and changes only that property's field schema |
| ModelBuilder.FieldFor | archetypal_core/models/models.py:40-67 | the loop body returns `FieldFromProperty` of the property as it was and consumes its `patternProperties` |
| ModelBuilder.NextField | archetypal_core/models/models.py:43-67 | one more iteration assigns the next property's field under its sanitized key |
| ModelBuilder.FirstFailure | archetypal_core/models/models.py:39-67 | the first property that raises makes the whole loop raise its error, after visiting exactly the properties up to it |

## Left out

- Pydantic (`create_model`, `Field`, `StringConstraints`, `ConfigDict`) is foreign code. Its results are descriptors (`ModelDef`, `FieldDef`, `FieldInfo`). Validating and decoding instances is not modelled.
- Python's `typing` normalisation is not modelled: `Union` flattening, de-duplication and single-member collapse, and de-duplication of `Literal`. A union keeps exactly the alternatives it was given.
- Enum coercion is symbolic: a member is kept as `Coerced(conversion, raw)`. The values `float(v)`, `int(v)` and `bool(v)` produce are not computed. Nor is the `ValueError` that e.g. `int("abc")` would raise.
- A schema key whose JSON value has a type other than the one the code expects is outside the model. Examples: `"type": null`, a non-list `anyOf`, a non-object `properties`. The input datatype admits only the expected shapes.
- `\W` is taken over ASCII. Python's Unicode word characters (accented letters, other scripts) are not modelled.
- Pattern strings are kept as opaque strings. They are never compiled as regular expressions.
- Mutation below the top level is not modelled. Compiling a nested model also deletes `patternProperties` from that model's own property dicts. The merged pattern schema shares nested dicts with the field schema. `pattern_schema.update` changes the pattern's value dict in place, which is no longer reachable from the field schema once `patternProperties` is deleted. The model tracks only the field schemas of the model being built, and computes the merged schema as a value.
- The field schemas of one model are assumed to be distinct dicts (`CreateModelFromSchema` requires it). A parsed JSON document never shares them.
- The module-level file load, the global `IDF` construction and the `__main__` dump and validation (models.py:155-171) are file I/O. The default model name "IDF" of the compiler's signature is modelled (`Resolver.DefaultModel`).
- `InvalidObjectListError` (models.py:94-100) is never raised by the code, so it is not modelled. `BaseSchemaModel` (models.py:13-16) is never used by the compiler. `JSON_SCHEMA_TYPE` (models.py:10) only annotates `json_type` (models.py:119) and has no run-time effect.
- Duplicate keys inside one `properties` or `patternProperties` object are not excluded by the input datatype. A parsed JSON document keeps only the last of them. For such an input the model would also compile the dropped entries, so it is meant for inputs with distinct keys.
- `archetypal_core/rust/src/lib.rs` is a PyO3 file-to-JSON round trip through serde. It is I/O with no logic of its own.
- `tests/test_rust_integration.py` needs a local EnergyPlus installation and the Rust extension.
