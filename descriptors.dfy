/**
 * The output of the compiler: a descriptor tree standing for the Python types and
 * pydantic model classes that archetypal_core/models/models.py builds at run time.
 * A model's fields are kept in the order of the keyword arguments handed to
 * `create_model`, i.e. the insertion order of the `model_fields` dict.
 */
module Descriptors {
  import opened Wrappers
  import opened JsonSchema

  /** The callable `type_mapping.get(json_type, str)` applied to each enum member. */
  datatype Conversion = ToStr | ToFloat | ToInt | ToBool | ToList | ToDict

  /** An enum member after conversion, kept symbolically as `conversion(raw)`. */
  datatype Coerced = Coerced(conversion: Conversion, raw: Value)

  datatype TypeDesc =
    | Union(alternatives: seq<TypeDesc>)          // Union[...] from "anyOf"
    | Literal(values: seq<Coerced>)               // Literal[...] from "enum"
    | Model(model: ModelDef)                      // a nested pydantic model class
    | ListOf(item: TypeDesc)                      // list[item]
    | Str                                         // str
    | Float                                       // float
    | Int                                         // int
    | Bool                                        // bool
    | GenericList                                 // list[Any]
    | GenericDict                                 // dict[str, Any]
    | AnyT                                        // Any
    | PatternMap(pattern: string, value: TypeDesc) // dict[Annotated[str, StringConstraints(pattern=...)], value]

  /** The default handed to the field: `...` (required) or a value, `None` being `JNull`. */
  datatype Default = Required | DefaultTo(value: Value)

  /** The keyword arguments of `Field(...)` other than the default. */
  datatype FieldInfo = FieldInfo(
    ge: Option<Value>,
    gt: Option<Value>,
    le: Option<Value>,
    lt: Option<Value>,
    description: Option<string>,
    units: string)

  /** A `(type, default)` or `(type, Field(default, ...))` pair; `info` is `None` for the former. */
  datatype FieldDef = FieldDef(typ: TypeDesc, default: Default, info: Option<FieldInfo>)

  datatype NamedField = NamedField(name: string, field: FieldDef)

  /** `create_model(name, **fields, __config__=..., __doc__=doc)`. */
  datatype ModelDef = ModelDef(name: string, fields: seq<NamedField>, doc: Option<string>, legacyIdd: Option<Value>)

  function Names(fs: seq<NamedField>): seq<string> {
    seq(|fs|, i requires 0 <= i < |fs| => fs[i].name)
  }

  /** No two fields share a name, as in a Python dict. */
  predicate DistinctNames(fs: seq<NamedField>) {
    forall i, j | 0 <= i < j < |fs| :: fs[i].name != fs[j].name
  }

  /** The position of the field named `k`, or `|fs|` when there is none. */
  function Find(fs: seq<NamedField>, k: string): (i: nat)
    ensures i <= |fs|
    ensures i < |fs| ==> fs[i].name == k
    ensures forall j | 0 <= j < i :: fs[j].name != k
    decreases |fs|
  {
    if fs == [] then 0
    else if fs[0].name == k then 0
    else 1 + Find(fs[1..], k)
  }

  /** `fields.get(k)`. */
  function Lookup(fs: seq<NamedField>, k: string): (r: Option<FieldDef>)
    ensures r.Some? <==> k in Names(fs)
  {
    var i := Find(fs, k);
    assert |Names(fs)| == |fs| && forall j | 0 <= j < |fs| :: Names(fs)[j] == fs[j].name;
    if i < |fs| then Some(fs[i].field) else None
  }

  /**
   * `fields[k] = v` on an insertion-ordered dict: an existing key keeps its place and
   * takes the new value, a new key goes to the end; every other entry is unchanged.
   */
  function Put(fs: seq<NamedField>, k: string, v: FieldDef): (r: seq<NamedField>)
    ensures Names(r) == if k in Names(fs) then Names(fs) else Names(fs) + [k]
    ensures Lookup(r, k) == Some(v)
    ensures forall k' | k' != k :: Lookup(r, k') == Lookup(fs, k')
    ensures DistinctNames(fs) ==> DistinctNames(r)
    ensures forall f | f in r :: f.field == v || f in fs
  {
    var i := Find(fs, k);
    if i < |fs| then
      var r := fs[i := NamedField(k, v)];
      ReplaceKeepsNames(fs, i, k, v);
      OthersUnchanged(fs, r, k);
      r
    else
      var r := fs + [NamedField(k, v)];
      AppendAddsName(fs, k, v);
      OthersUnchanged(fs, r, k);
      r
  }

  /** Replacing the value of the field named `k` in place keeps every name where it was. */
  lemma ReplaceKeepsNames(fs: seq<NamedField>, i: nat, k: string, v: FieldDef)
    requires i == Find(fs, k) && i < |fs|
    ensures var r := fs[i := NamedField(k, v)];
      && k in Names(fs) && Names(r) == Names(fs) && Lookup(r, k) == Some(v)
      && (DistinctNames(fs) ==> DistinctNames(r))
      && forall f | f in r :: f.field == v || f in fs
  {
    var r := fs[i := NamedField(k, v)];
    assert Names(fs)[i] == k;
    assert Names(r) == Names(fs);
    FindAgrees(fs, r, k);
  }

  /** Appending a field under a new name `k` adds `k` at the end of the names. */
  lemma AppendAddsName(fs: seq<NamedField>, k: string, v: FieldDef)
    requires Find(fs, k) == |fs|
    ensures var r := fs + [NamedField(k, v)];
      && k !in Names(fs) && Names(r) == Names(fs) + [k] && Lookup(r, k) == Some(v)
      && (DistinctNames(fs) ==> DistinctNames(r))
      && forall f | f in r :: f.field == v || f in fs
  {
    var r := fs + [NamedField(k, v)];
    assert forall j | 0 <= j < |fs| :: fs[j].name != k;
    assert k !in Names(fs) by {
      assert forall j | 0 <= j < |fs| :: Names(fs)[j] == fs[j].name;
    }
    assert Names(r) == Names(fs) + [k] by {
      assert forall j | 0 <= j < |fs| :: Names(r)[j] == Names(fs)[j];
    }
    assert forall f | f in r :: f == NamedField(k, v) || f in fs;
    FindAppended(fs, NamedField(k, v), k);
    if DistinctNames(fs) {
      assert forall i | 0 <= i < |fs| :: r[i].name != r[|fs|].name;
    }
  }

  /** A name missing from `fs` is found at the end of `fs + [x]` when `x` carries it. */
  lemma {:induction false} FindAppended(fs: seq<NamedField>, x: NamedField, k: string)
    requires Find(fs, k) == |fs| && x.name == k
    ensures Find(fs + [x], k) == |fs|
    decreases |fs|
  {
    if fs != [] {
      assert (fs + [x])[1..] == fs[1..] + [x];
      FindAppended(fs[1..], x, k);
    }
  }

  /**
   * When `r` has the same names as `fs` at every position of `fs` and differs from it
   * only at fields named `k`, every other name is looked up alike in both.
   */
  lemma OthersUnchanged(fs: seq<NamedField>, r: seq<NamedField>, k: string)
    requires |fs| <= |r|
    requires forall j | 0 <= j < |fs| :: r[j].name == fs[j].name && (r[j] == fs[j] || fs[j].name == k)
    requires forall j | |fs| <= j < |r| :: r[j].name == k
    ensures forall k' | k' != k :: Lookup(r, k') == Lookup(fs, k')
  {
    forall k' | k' != k
      ensures Lookup(r, k') == Lookup(fs, k')
    {
      FindAgrees(fs, r, k');
      FindAgrees(r, fs, k');
    }
  }

  /** `Find` only looks at names up to its answer. */
  lemma {:induction false} FindAgrees(a: seq<NamedField>, b: seq<NamedField>, k: string)
    ensures Find(a, k) < |a| && Find(a, k) < |b| && (forall j | 0 <= j <= Find(a, k) :: a[j].name == b[j].name)
      ==> Find(b, k) == Find(a, k)
    ensures Find(a, k) == |a| <= |b| && (forall j | 0 <= j < |a| :: a[j].name == b[j].name)
      ==> Find(b, k) >= |a|
    decreases |a|
  {
    if a != [] && b != [] && a[0].name == b[0].name && a[0].name != k {
      FindAgrees(a[1..], b[1..], k);
    }
  }

  /**
   * Names in order of first appearance, each once: the key order of a dict filled by
   * assigning these names one after the other.
   */
  function Dedup(ks: seq<string>): (r: seq<string>)
    ensures forall k :: k in r <==> k in ks
    decreases |ks|
  {
    if ks == [] then []
    else
      var d := Dedup(ks[..|ks| - 1]);
      if ks[|ks| - 1] in d then d else d + [ks[|ks| - 1]]
  }

  /**
   * No named model appears in `t` except as the value type of a pattern-keyed map (and,
   * below that, inside that model's own fields under the same rule).
   */
  predicate Flat(t: TypeDesc)
    decreases t
  {
    match t
    case Model(_) => false
    case Union(alts) => forall a | a in alts :: Flat(a)
    case ListOf(item) => Flat(item)
    case PatternMap(_, v) => if v.Model? then FlatModel(v.model) else Flat(v)
    case _ => true
  }

  /** Every field type of `m` is `Flat`. */
  predicate FlatModel(m: ModelDef)
    decreases m
  {
    forall f | f in m.fields :: Flat(f.field.typ)
  }
}
