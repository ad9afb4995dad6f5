/** Flattening of tag-dispatched oneOf schemas into one object schema (src/tool.rs). */
module SchemaFlattening {
  import opened Wrappers
  import opened Json
  import opened JsonSchema

  /** What the walk learns of one variant. */
  datatype Variant = Variant(props: seq<Field>, tag: string, value: Value, tagRequired: bool)

  /** The text added to a property that only some variants own: the discriminator and those variants' tags. */
  type Describe = (string, set<string>) -> string

  // ----- reading the variants

  /** A property schema that pins its value: an enum of one. */
  predicate Pins(schema: Value) {
    schema.Object?
    && var enum_ := Get(schema.fields, "enum");
       enum_.Some? && enum_.value.Array? && |enum_.value.items| == 1
  }

  function Pinned(schema: Value): Value
    requires Pins(schema)
  {
    Get(schema.fields, "enum").value.items[0]
  }

  /** The first pinned property; the length if there is none. */
  function TagPlace(props: seq<Field>): (p: nat)
    ensures p <= |props|
    ensures p < |props| ==> Pins(props[p].value)
  {
    if props == [] || Pins(props[0].value) then 0 else 1 + TagPlace(props[1..])
  }

  predicate Requires(fields: seq<Field>, name: string) {
    var required := Get(fields, "required");
    required.Some? && required.value.Array? && String(name) in required.value.items
  }

  function ReadVariant(variant: Value): Option<Variant> {
    if !variant.Object? then None
    else
      var properties := Get(variant.fields, "properties");
      if properties.None? || !properties.value.Object? then None
      else
        var props := properties.value.fields;
        var p := TagPlace(props);
        if p == |props| then None
        else Some(Variant(props, props[p].key, Pinned(props[p].value), Requires(variant.fields, props[p].key)))
  }

  /** The first n variants, if all are tag-dispatched on one discriminator. */
  function ReadVariants(variants: seq<Value>, n: nat): (r: Option<seq<Variant>>)
    requires n <= |variants|
    ensures r.Some? ==> |r.value| == n
  {
    if n == 0 then Some([])
    else
      var before := ReadVariants(variants, n - 1);
      var variant := ReadVariant(variants[n - 1]);
      if before.None? || variant.None? then None
      else if n > 1 && variant.value.tag != before.value[0].tag then None
      else Some(before.value + [variant.value])
  }

  // ----- merging the properties

  /** acc with the first m properties added, except the tag's and those already there. */
  function AddOwn(acc: seq<Field>, props: seq<Field>, tag: string, m: nat): seq<Field>
    requires m <= |props|
  {
    if m == 0 then acc
    else
      var before := AddOwn(acc, props, tag, m - 1);
      if props[m - 1].key == tag || Has(before, props[m - 1].key) then before else before + [props[m - 1]]
  }

  function Merged(vs: seq<Variant>, n: nat): seq<Field>
    requires n <= |vs|
  {
    if n == 0 then [] else AddOwn(Merged(vs, n - 1), vs[n - 1].props, vs[n - 1].tag, |vs[n - 1].props|)
  }

  // ----- annotating what only some variants own

  predicate Owns(v: Variant, field: string) {
    field != v.tag && Has(v.props, field)
  }

  /** The tags of the first n variants that own the field. */
  function Owners(vs: seq<Variant>, field: string, n: nat): set<string>
    requires n <= |vs|
  {
    if n == 0 then {}
    else
      Owners(vs, field, n - 1)
        + (if Owns(vs[n - 1], field) && vs[n - 1].value.String? then {vs[n - 1].value.text} else {})
  }

  function OwnerCount(vs: seq<Variant>, field: string, n: nat): (r: nat)
    requires n <= |vs|
    ensures r <= n
  {
    if n == 0 then 0 else OwnerCount(vs, field, n - 1) + (if Owns(vs[n - 1], field) then 1 else 0)
  }

  predicate StringTags(vs: seq<Variant>) {
    forall k :: 0 <= k < |vs| ==> vs[k].value.String?
  }

  function WithNote(fields: seq<Field>, note: string): seq<Field> {
    var description := Get(fields, "description");
    var text := if description.Some? && description.value.String? && description.value.text != []
                then description.value.text + " " + note else note;
    Put(fields, "description", String(text))
  }

  function Annotated(vs: seq<Variant>, tag: string, describe: Describe, property: Field): Field {
    if property.value.Object? && OwnerCount(vs, property.key, |vs|) < |vs| then
      property.(value := Object(WithNote(property.value.fields, describe(tag, Owners(vs, property.key, |vs|)))))
    else property
  }

  function AnnotateAll(vs: seq<Variant>, tag: string, describe: Describe, merged: seq<Field>): (r: seq<Field>)
    ensures |r| == |merged|
  {
    if StringTags(vs) && |vs| > 1
      then seq(|merged|, i requires 0 <= i < |merged| => Annotated(vs, tag, describe, merged[i])) else merged
  }

  // ----- the flat schema

  function TagValues(vs: seq<Variant>): (r: seq<Value>)
    ensures |r| == |vs|
  {
    seq(|vs|, i requires 0 <= i < |vs| => vs[i].value)
  }

  function TagSchema(vs: seq<Variant>): Value {
    Object([Field("type", String("string")), Field("enum", Array(TagValues(vs)))])
  }

  predicate AllRequireTag(vs: seq<Variant>) {
    forall k :: 0 <= k < |vs| ==> vs[k].tagRequired
  }

  function FlatProperties(vs: seq<Variant>, describe: Describe): seq<Field>
    requires vs != []
  {
    [Field(vs[0].tag, TagSchema(vs))] + AnnotateAll(vs, vs[0].tag, describe, Merged(vs, |vs|))
  }

  function Kept(rest: seq<Field>, key: string): seq<Field> {
    var value := Get(rest, key);
    if value.Some? then [Field(key, value.value)] else []
  }

  function FlatFields(rest: seq<Field>, vs: seq<Variant>, describe: Describe): seq<Field>
    requires vs != []
  {
    Kept(rest, "description") + Kept(rest, "$schema")
    + [Field("type", String("object")), Field("properties", Object(FlatProperties(vs, describe)))]
    + (if AllRequireTag(vs) then [Field("required", Array([String(vs[0].tag)]))] else [])
  }

  function Flatten(schema: Value, describe: Describe): Value {
    if !schema.Object? then schema
    else
      var oneOf, rest := Get(schema.fields, "oneOf"), Remove(schema.fields, "oneOf");
      if oneOf.None? || !oneOf.value.Array? then (if rest != [] then Object(rest) else Null)
      else
        var variants := oneOf.value.items;
        var vs := ReadVariants(variants, |variants|);
        if vs.None? || vs.value == [] then Object(Put(rest, "oneOf", Array(variants)))
        else Object(FlatFields(rest, vs.value, describe))
  }

  // ----- shapes that are not tag-dispatched

  /** The schema is a oneOf whose variants all pin one and the same property. */
  predicate TagDispatched(schema: Value) {
    && schema.Object? && Get(schema.fields, "oneOf").Some? && Get(schema.fields, "oneOf").value.Array?
    && Get(schema.fields, "oneOf").value.items != []
    && ReadVariants(Get(schema.fields, "oneOf").value.items, |Get(schema.fields, "oneOf").value.items|).Some?
  }

  function VariantsOf(schema: Value): (vs: seq<Variant>)
    requires TagDispatched(schema)
    ensures vs != []
  {
    var variants := Get(schema.fields, "oneOf").value.items;
    ReadVariants(variants, |variants|).value
  }

  /**
   Anything else comes back as it was: a oneOf array with other variants as the same map, with
   oneOf now last; a schema without oneOf unchanged, unless it is the empty object, which becomes
   null. A oneOf that is not an array is dropped, with null for nothing left.
   */
  lemma OtherShapes(schema: Value, describe: Describe)
    requires schema.Object? ==> UniqueKeys(schema.fields)
    requires !TagDispatched(schema)
    ensures var flat := Flatten(schema, describe);
            && (!schema.Object? ==> flat == schema)
            && (schema.Object? && Get(schema.fields, "oneOf").None? ==>
                  flat == if schema.fields == [] then Null else schema)
            && (schema.Object? && Get(schema.fields, "oneOf").Some? && Get(schema.fields, "oneOf").value.Array? ==>
                  flat.Object? && SameMap(flat.fields, schema.fields) && flat.fields[|flat.fields| - 1].key == "oneOf")
            && (schema.Object? && Get(schema.fields, "oneOf").Some? && !Get(schema.fields, "oneOf").value.Array? ==>
                  if |schema.fields| == 1 then flat == Null
                  else (&& flat.Object? && |flat.fields| == |schema.fields| - 1
                        && forall key ::
                             Get(flat.fields, key) == if key == "oneOf" then None else Get(schema.fields, key)))
  {
    if schema.Object? {
      RemoveUnique(schema.fields, "oneOf");
      var rest := Remove(schema.fields, "oneOf");
      NotThere(rest, "oneOf");
      if Has(schema.fields, "oneOf") {
        RemovePut(schema.fields, "oneOf");
        forall key ensures Get(rest, key) == if key == "oneOf" then None else Get(schema.fields, key) {
          GetRemove(schema.fields, "oneOf", key);
        }
      }
      hide Remove, Get, ReadVariants;
    }
  }

  // ----- the discriminator

  lemma {:induction false} OneDiscriminator(variants: seq<Value>, n: nat, k: nat)
    requires k < n <= |variants| && ReadVariants(variants, n).Some?
    ensures var vs := ReadVariants(variants, n).value;
            ReadVariant(variants[k]) == Some(vs[k]) && vs[k].tag == vs[0].tag
    decreases n
  {
    hide ReadVariant;
    if k < n - 1 {
      OneDiscriminator(variants, n - 1, k);
    }
  }

  lemma {:induction false} GetBehind(a: seq<Field>, b: seq<Field>, key: string)
    requires forall k :: 0 <= k < |a| ==> a[k].key != key
    ensures Get(a + b, key) == Get(b, key)
  {
    if a == [] {
      NothingAdded(b);
    } else {
      assert (a + b)[0] == a[0] && (a + b)[1..] == a[1..] + b;
      GetBehind(a[1..], b, key);
    }
  }

  /** The keywords of a flat schema. */
  lemma FlatKeywords(rest: seq<Field>, vs: seq<Variant>, describe: Describe)
    requires vs != []
    ensures var flat := FlatFields(rest, vs, describe);
            && Get(flat, "type") == Some(String("object"))
            && Get(flat, "properties") == Some(Object(FlatProperties(vs, describe)))
            && Get(flat, "required") == (if AllRequireTag(vs) then Some(Array([String(vs[0].tag)])) else None)
            && Get(flat, "enum") == None && Get(flat, "additionalProperties") == None
            && Get(flat, "items") == None && Get(flat, "oneOf") == None
            && Get(flat, "const") == None && Get(flat, "allOf") == None && Get(flat, "anyOf") == None
            && Get(flat, "not") == None
  {
    hide *;
    KeptAside(rest, vs, describe, "type");
    KeptAside(rest, vs, describe, "properties");
    KeptAside(rest, vs, describe, "required");
    KeptAside(rest, vs, describe, "enum");
    KeptAside(rest, vs, describe, "additionalProperties");
    KeptAside(rest, vs, describe, "items");
    KeptAside(rest, vs, describe, "oneOf");
    KeptAside(rest, vs, describe, "const");
    KeptAside(rest, vs, describe, "allOf");
    KeptAside(rest, vs, describe, "anyOf");
    KeptAside(rest, vs, describe, "not");
    BodyKeywords(Object(FlatProperties(vs, describe)), vs);
  }

  /** A flat schema behind the description and dialect it keeps. */
  function FlatBody(properties: Value, vs: seq<Variant>): seq<Field>
    requires vs != []
  {
    [Field("type", String("object")), Field("properties", properties)]
    + (if AllRequireTag(vs) then [Field("required", Array([String(vs[0].tag)]))] else [])
  }

  lemma KeptAside(rest: seq<Field>, vs: seq<Variant>, describe: Describe, key: string)
    requires vs != [] && key != "description" && key != "$schema"
    ensures Get(FlatFields(rest, vs, describe), key) == Get(FlatBody(Object(FlatProperties(vs, describe)), vs), key)
  {
    var head, body := Kept(rest, "description") + Kept(rest, "$schema"),
      FlatBody(Object(FlatProperties(vs, describe)), vs);
    assert FlatFields(rest, vs, describe) == head + body;
    GetBehind(head, body, key);
  }

  lemma BodyKeywords(properties: Value, vs: seq<Variant>)
    requires vs != []
    ensures var body := FlatBody(properties, vs);
            && Get(body, "type") == Some(String("object")) && Get(body, "properties") == Some(properties)
            && Get(body, "required") == (if AllRequireTag(vs) then Some(Array([String(vs[0].tag)])) else None)
            && Get(body, "enum") == None && Get(body, "additionalProperties") == None
            && Get(body, "items") == None && Get(body, "oneOf") == None
            && Get(body, "const") == None && Get(body, "allOf") == None && Get(body, "anyOf") == None
            && Get(body, "not") == None
  {
    var body := FlatBody(properties, vs);
    assert UniqueKeys(body);
    Found(body, "type", 0);
    Found(body, "properties", 1);
    if AllRequireTag(vs) {
      Found(body, "required", 2);
    } else {
      NotThere(body, "required");
    }
    NotThere(body, "enum");
    NotThere(body, "additionalProperties");
    NotThere(body, "items");
    NotThere(body, "oneOf");
    NoCombination(body);
  }

  /**
   The flat schema of a tag-dispatched oneOf: its first property is the discriminator, a string
   out of the variants' tags in order, and the discriminator is required exactly when every
   variant requires it; nothing else is.
   */
  lemma DiscriminatorFirst(schema: Value, describe: Describe)
    requires TagDispatched(schema)
    ensures var flat, vs := Flatten(schema, describe), VariantsOf(schema);
            && flat.Object?
            && Get(flat.fields, "properties").Some? && Get(flat.fields, "properties").value.Object?
            && (var properties := Get(flat.fields, "properties").value.fields;
                && properties != [] && properties[0].key == vs[0].tag
                && properties[0].value
                  == Object([Field("type", String("string")), Field("enum", Array(TagValues(vs)))]))
            && (forall k :: 0 <= k < |vs| ==>
                  ReadVariant(Get(schema.fields, "oneOf").value.items[k]) == Some(vs[k]) && vs[k].tag == vs[0].tag)
            && Get(flat.fields, "required") == (if AllRequireTag(vs) then Some(Array([String(vs[0].tag)])) else None)
  {
    var vs, variants := VariantsOf(schema), Get(schema.fields, "oneOf").value.items;
    FlatKeywords(Remove(schema.fields, "oneOf"), vs, describe);
    assert FlatProperties(vs, describe)[0] == Field(vs[0].tag, TagSchema(vs));
    assert Flatten(schema, describe) == Object(FlatFields(Remove(schema.fields, "oneOf"), vs, describe));
    hide Flatten, Remove, ReadVariant, FlatFields, FlatProperties, AllRequireTag, Merged, AnnotateAll, TagValues;
    forall k | 0 <= k < |vs| ensures ReadVariant(variants[k]) == Some(vs[k]) && vs[k].tag == vs[0].tag {
      OneDiscriminator(variants, |variants|, k);
    }
    hide ReadVariants, Get;
  }

  // ----- the merged properties

  /** Variants that share a field give it one schema. */
  ghost predicate Agreeing(vs: seq<Variant>) {
    forall i, j, field :: 0 <= i < |vs| && 0 <= j < |vs| && Owns(vs[i], field) && Owns(vs[j], field) ==>
      Get(vs[i].props, field) == Get(vs[j].props, field)
  }

  lemma {:induction false} AddedUnique(acc: seq<Field>, props: seq<Field>, tag: string, m: nat)
    requires m <= |props| && UniqueKeys(acc)
    ensures UniqueKeys(AddOwn(acc, props, tag, m))
    decreases m
  {
    if m > 0 {
      AddedUnique(acc, props, tag, m - 1);
      var before := AddOwn(acc, props, tag, m - 1);
      if !Has(before, props[m - 1].key) {
        AbsentKey(before, props[m - 1].key);
      }
    }
  }

  lemma AbsentKey(fields: seq<Field>, key: string)
    requires !Has(fields, key)
    ensures forall i :: 0 <= i < |fields| ==> fields[i].key != key
  {
  }

  /** What AddOwn finds for a field: what was there, else the first of the added properties with that key. */
  lemma {:induction false} AddedGet(acc: seq<Field>, props: seq<Field>, tag: string, m: nat, field: string)
    requires m <= |props|
    ensures Get(AddOwn(acc, props, tag, m), field)
         == if Has(acc, field) then Get(acc, field) else if field == tag then None else Get(props[..m], field)
    decreases m
  {
    if m > 0 {
      AddedGet(acc, props, tag, m - 1, field);
      var before := AddOwn(acc, props, tag, m - 1);
      assert props[..m] == props[..m - 1] + [props[m - 1]];
      GetAppend(props[..m - 1], props[m - 1], field);
      GetAppend(before, props[m - 1], field);
    }
  }

  lemma {:induction false} MergedUnique(vs: seq<Variant>, n: nat)
    requires n <= |vs|
    ensures UniqueKeys(Merged(vs, n))
    decreases n
  {
    if n > 0 {
      MergedUnique(vs, n - 1);
      AddedUnique(Merged(vs, n - 1), vs[n - 1].props, vs[n - 1].tag, |vs[n - 1].props|);
    }
  }

  /** Under agreement a merged field has the schema any owner gives it; every merged field has an owner. */
  lemma {:induction false} MergedGet(vs: seq<Variant>, n: nat, k: nat, field: string)
    requires n <= |vs| && k < n && Agreeing(vs) && Owns(vs[k], field)
    ensures Get(Merged(vs, n), field) == Get(vs[k].props, field)
    decreases n
  {
    var v := vs[n - 1];
    MergedOwned(vs, n - 1, field);
    AddedGet(Merged(vs, n - 1), v.props, v.tag, |v.props|, field);
    assert v.props[..|v.props|] == v.props;
    hide AddOwn, Merged;
    if k < n - 1 {
      MergedGet(vs, n - 1, k, field);
    } else if Has(Merged(vs, n - 1), field) {
      var j: nat :| j < n - 1 && Owns(vs[j], field) && Get(Merged(vs, n - 1), field) == Get(vs[j].props, field);
    }
  }

  lemma {:induction false} MergedOwned(vs: seq<Variant>, n: nat, field: string)
    requires n <= |vs|
    ensures Has(Merged(vs, n), field) ==>
            exists j: nat :: j < n && Owns(vs[j], field) && Get(Merged(vs, n), field) == Get(vs[j].props, field)
    decreases n
  {
    if n > 0 {
      var v := vs[n - 1];
      MergedOwned(vs, n - 1, field);
      AddedGet(Merged(vs, n - 1), v.props, v.tag, |v.props|, field);
      assert v.props[..|v.props|] == v.props;
      hide AddOwn;
      if Has(Merged(vs, n), field) && !Has(Merged(vs, n - 1), field) {
        assert Owns(vs[n - 1], field);
      }
    }
  }

  // ----- flattening relaxes the schema

  /** The variant is an object schema that allows no other properties. */
  predicate Closed(variant: Value) {
    variant.Object? && Get(variant.fields, "type") == Some(String("object"))
      && Get(variant.fields, "additionalProperties") == Some(Bool(false))
  }

  /** What an instance of a closed variant looks like. */
  ghost predicate Fits(v: Variant, instance: Value) {
    && instance.Object?
    && (forall i :: 0 <= i < |instance.fields| ==> Has(v.props, instance.fields[i].key))
    && (forall key :: Has(v.props, key) && Has(instance.fields, key) ==>
          Validates(Get(v.props, key).value, Get(instance.fields, key).value))
    && (v.tagRequired ==> Has(instance.fields, v.tag))
  }

  lemma {:induction false} TagPlaceHas(props: seq<Field>)
    requires TagPlace(props) < |props| && UniqueKeys(props)
    ensures Get(props, props[TagPlace(props)].key) == Some(props[TagPlace(props)].value)
  {
    FoundAt(props, TagPlace(props));
  }

  lemma VariantFits(variant: Value, v: Variant, instance: Value)
    requires ReadVariant(variant) == Some(v) && Closed(variant) && Validates(variant, instance)
    ensures Fits(v, instance)
  {
    var fields := variant.fields;
    assert PropertiesOf(fields) == v.props;
    assert TypeAllows(Get(fields, "type"), instance) && instance.Object?;
    var p, q := Position(fields, "properties"), Position(fields, "additionalProperties");
    assert fields[p].value == Object(v.props) && fields[q].value == Bool(false);
    assert PropertiesHold(variant, instance) && OthersHold(variant, instance);
    assert RequiredPresent(Get(fields, "required"), instance);
    forall i | 0 <= i < |instance.fields| ensures Has(v.props, instance.fields[i].key) {
      if !Has(v.props, instance.fields[i].key) {
        assert !Validates(fields[q].value, instance.fields[i].value);
      }
    }
    forall key | Has(v.props, key) && Has(instance.fields, key)
      ensures Validates(Get(v.props, key).value, Get(instance.fields, key).value)
    {
      var k := Position(v.props, key);
      assert v.props[k].key == key;
    }
    hide Validates, PropertiesHold, OthersHold, TagPlace;
  }

  /** The tag of a fitting instance is the variant's. */
  lemma TagIsPinned(variant: Value, v: Variant, instance: Value)
    requires ReadVariant(variant) == Some(v) && Fits(v, instance) && Has(instance.fields, v.tag)
    requires UniqueKeys(v.props) && v.value.String?
    ensures Get(instance.fields, v.tag).value == v.value
  {
    TagPlaceHas(v.props);
    var schema, x := Get(v.props, v.tag).value, Get(instance.fields, v.tag).value;
    assert Validates(schema, x);
    assert EnumAllows(Get(schema.fields, "enum"), x);
    hide Validates, TagPlace, Get;
  }

  /** The discriminator's schema accepts exactly the tags that are strings. */
  lemma TagSchemaMeans(vs: seq<Variant>, x: Value)
    ensures Validates(TagSchema(vs), x) <==> x.String? && x in TagValues(vs)
  {
    var fields, tags := TagSchema(vs).fields, TagValues(vs);
    assert UniqueKeys(fields);
    Found(fields, "type", 0);
    Found(fields, "enum", 1);
    NotThere(fields, "required");
    NotThere(fields, "properties");
    NotThere(fields, "additionalProperties");
    NotThere(fields, "items");
    NotThere(fields, "oneOf");
    NoCombination(fields);
    Unconstrained(fields, x);
    hide TagSchema, TagValues, Get;
    if x.String? {
      StringsInEnum(tags, x);
    }
    hide EnumAllows, PropertiesHold, OthersHold, ItemsHold, OneHolds, CombinedHold;
  }

  lemma StringsInEnum(tags: seq<Value>, x: Value)
    requires x.String?
    ensures EnumAllows(Some(Array(tags)), x) <==> x in tags
  {
    forall k | 0 <= k < |tags| ensures Same(tags[k], x) <==> tags[k] == x {}
    if x in tags {
      var k :| 0 <= k < |tags| && tags[k] == x;
      assert Same(Array(tags).items[k], x);
    }
  }

  lemma NoteIsNoConstraint(fields: seq<Field>, note: string, x: Value)
    requires UniqueKeys(fields)
    ensures Validates(Object(WithNote(fields, note)), x) == Validates(Object(fields), x)
  {
    var description := Get(fields, "description");
    var text := if description.Some? && description.value.String? && description.value.text != []
                then description.value.text + " " + note else note;
    hide Validates, Put, Get;
    GetPut(fields, "description", String(text), "type");
    GetPut(fields, "description", String(text), "enum");
    GetPut(fields, "description", String(text), "required");
    GetPut(fields, "description", String(text), "properties");
    GetPut(fields, "description", String(text), "additionalProperties");
    GetPut(fields, "description", String(text), "items");
    GetPut(fields, "description", String(text), "oneOf");
    GetPut(fields, "description", String(text), "const");
    GetPut(fields, "description", String(text), "allOf");
    GetPut(fields, "description", String(text), "anyOf");
    GetPut(fields, "description", String(text), "not");
    OnlyKeywordsMatter(WithNote(fields, note), fields, x);
  }

  /** Annotations leave keys and meanings alone. */
  lemma AnnotatedMeans(vs: seq<Variant>, tag: string, describe: Describe, merged: seq<Field>, i: nat, x: Value)
    requires i < |merged|
    requires merged[i].value.Object? ==> UniqueKeys(merged[i].value.fields)
    ensures AnnotateAll(vs, tag, describe, merged)[i].key == merged[i].key
    ensures Validates(AnnotateAll(vs, tag, describe, merged)[i].value, x) == Validates(merged[i].value, x)
  {
    hide Validates, WithNote, OwnerCount, Owners, StringTags;
    if merged[i].value.Object? {
      NoteIsNoConstraint(merged[i].value.fields, describe(tag, Owners(vs, merged[i].key, |vs|)), x);
    }
  }

  /** A merged field that a fitting instance has carries the fitting variant's own schema. */
  lemma MergedAccepts(vs: seq<Variant>, k: nat, instance: Value, i: nat)
    requires k < |vs| && Agreeing(vs) && Fits(vs[k], instance) && i < |Merged(vs, |vs|)|
    requires forall j :: 0 <= j < |vs| ==> vs[j].tag == vs[0].tag
    requires Has(instance.fields, Merged(vs, |vs|)[i].key)
    ensures var field := Merged(vs, |vs|)[i];
            Get(vs[k].props, field.key) == Some(field.value)
              && Validates(field.value, Get(instance.fields, field.key).value)
  {
    var merged := Merged(vs, |vs|);
    var field := merged[i].key;
    MergedUnique(vs, |vs|);
    FoundAt(merged, i);
    MergedOwned(vs, |vs|, field);
    assert Has(vs[k].props, field) by {
      assert Has(vs[k].props, instance.fields[Position(instance.fields, field)].key);
    }
    assert Owns(vs[k], field);
    hide Merged, Validates;
    MergedGet(vs, |vs|, k, field);
  }

  /** Every property of every variant is a JSON value. */
  predicate JsonProps(vs: seq<Variant>) {
    forall k :: 0 <= k < |vs| ==> IsJson(Object(vs[k].props))
  }

  lemma PropertyIsJson(props: seq<Field>, property: Field)
    requires IsJson(Object(props)) && Get(props, property.key) == Some(property.value)
    ensures property.value.Object? ==> UniqueKeys(property.value.fields)
  {
    JsonParts(props, property.key);
  }

  lemma MergedIsJson(vs: seq<Variant>, i: nat)
    requires JsonProps(vs) && i < |Merged(vs, |vs|)|
    ensures Merged(vs, |vs|)[i].value.Object? ==> UniqueKeys(Merged(vs, |vs|)[i].value.fields)
  {
    var field := Merged(vs, |vs|)[i];
    MergedUnique(vs, |vs|);
    FoundAt(Merged(vs, |vs|), i);
    MergedOwned(vs, |vs|, field.key);
    hide Merged, IsJson, Get;
    var j: nat :| j < |vs| && Owns(vs[j], field.key) && Some(field.value) == Get(vs[j].props, field.key);
    PropertyIsJson(vs[j].props, field);
  }

  // ----- what a flat schema means

  /** The tag, if there, is a string and one of the variants', and every merged field that is there fits its schema. */
  ghost predicate FieldsFit(vs: seq<Variant>, instance: Value)
    requires vs != [] && instance.Object?
  {
    && (Has(instance.fields, vs[0].tag) ==>
          Get(instance.fields, vs[0].tag).value.String? && Get(instance.fields, vs[0].tag).value in TagValues(vs))
    && (forall i :: 0 <= i < |Merged(vs, |vs|)| && Has(instance.fields, Merged(vs, |vs|)[i].key) ==>
          Validates(Merged(vs, |vs|)[i].value, Get(instance.fields, Merged(vs, |vs|)[i].key).value))
  }

  ghost predicate FlatFits(vs: seq<Variant>, instance: Value)
    requires vs != []
  {
    && instance.Object?
    && (AllRequireTag(vs) ==> Has(instance.fields, vs[0].tag))
    && FieldsFit(vs, instance)
  }

  lemma TagPropertyMeans(vs: seq<Variant>, describe: Describe, x: Value)
    requires vs != []
    ensures FlatProperties(vs, describe) != [] && FlatProperties(vs, describe)[0].key == vs[0].tag
    ensures Validates(FlatProperties(vs, describe)[0].value, x) <==> x.String? && x in TagValues(vs)
  {
    assert FlatProperties(vs, describe)[0] == Field(vs[0].tag, TagSchema(vs));
    hide *;
    TagSchemaMeans(vs, x);
  }

  lemma FlatPropertyAt(vs: seq<Variant>, describe: Describe, i: nat)
    requires vs != [] && i < |Merged(vs, |vs|)|
    ensures |FlatProperties(vs, describe)| == |Merged(vs, |vs|)| + 1
    ensures FlatProperties(vs, describe)[i + 1] == AnnotateAll(vs, vs[0].tag, describe, Merged(vs, |vs|))[i]
  {
    hide AnnotateAll, Merged, TagSchema;
  }

  lemma FieldPropertyMeans(vs: seq<Variant>, describe: Describe, i: nat, x: Value)
    requires vs != [] && JsonProps(vs) && i < |Merged(vs, |vs|)|
    ensures |FlatProperties(vs, describe)| == |Merged(vs, |vs|)| + 1
    ensures FlatProperties(vs, describe)[i + 1].key == Merged(vs, |vs|)[i].key
    ensures Validates(FlatProperties(vs, describe)[i + 1].value, x) == Validates(Merged(vs, |vs|)[i].value, x)
  {
    hide *;
    FlatPropertyAt(vs, describe, i);
    MergedIsJson(vs, i);
    AnnotatedMeans(vs, vs[0].tag, describe, Merged(vs, |vs|), i, x);
  }

  lemma FlatPropertiesAre(rest: seq<Field>, vs: seq<Variant>, describe: Describe)
    requires vs != []
    ensures var flat := FlatFields(rest, vs, describe); var p := Position(flat, "properties");
            p < |flat| && flat[p].value == Object(FlatProperties(vs, describe))
    ensures |FlatProperties(vs, describe)| == |Merged(vs, |vs|)| + 1
  {
    FlatKeywords(rest, vs, describe);
    hide FlatFields, Merged, AnnotateAll;
  }

  lemma FlatPropertiesMean(rest: seq<Field>, vs: seq<Variant>, describe: Describe, instance: Value)
    requires vs != [] && JsonProps(vs) && instance.Object?
    ensures PropertiesHold(Object(FlatFields(rest, vs, describe)), instance) <==> FieldsFit(vs, instance)
  {
    var properties, merged := FlatProperties(vs, describe), Merged(vs, |vs|);
    hide Validates, FlatFields, FlatProperties, Merged, JsonProps, TagValues;
    FlatPropertiesAre(rest, vs, describe);
    if Has(instance.fields, vs[0].tag) {
      TagPropertyMeans(vs, describe, Get(instance.fields, vs[0].tag).value);
    }
    TagPropertyMeans(vs, describe, Null);
    forall i: nat | i < |merged|
      ensures properties[i + 1].key == merged[i].key
      ensures Has(instance.fields, merged[i].key) ==>
                Validates(properties[i + 1].value, Get(instance.fields, merged[i].key).value)
                  == Validates(merged[i].value, Get(instance.fields, merged[i].key).value)
    {
      FieldPropertyMeans(vs, describe, i,
                         if Has(instance.fields, merged[i].key) then Get(instance.fields, merged[i].key).value
                           else Null);
    }
    if PropertiesHold(Object(FlatFields(rest, vs, describe)), instance) {
      forall i | 0 <= i < |merged| && Has(instance.fields, merged[i].key)
        ensures Validates(merged[i].value, Get(instance.fields, merged[i].key).value)
      {
        assert Has(instance.fields, properties[i + 1].key);
      }
    }
    if FieldsFit(vs, instance) {
      forall m | 0 <= m < |properties| && Has(instance.fields, properties[m].key)
        ensures Validates(properties[m].value, Get(instance.fields, properties[m].key).value)
      {
        if m > 0 {
          assert properties[(m - 1) + 1].key == merged[m - 1].key;
        }
      }
    }
  }

  lemma FlatRequiredMeans(rest: seq<Field>, vs: seq<Variant>, describe: Describe, instance: Value)
    requires vs != [] && instance.Object?
    ensures RequiredPresent(Get(FlatFields(rest, vs, describe), "required"), instance) <==>
            (AllRequireTag(vs) ==> Has(instance.fields, vs[0].tag))
  {
    FlatKeywords(rest, vs, describe);
    hide FlatFields, Get, AllRequireTag, Has;
    if AllRequireTag(vs) {
      assert [String(vs[0].tag)][0].text == vs[0].tag;
    }
  }

  lemma FlatOtherwiseFree(rest: seq<Field>, vs: seq<Variant>, describe: Describe, instance: Value)
    requires vs != []
    ensures var flat := Object(FlatFields(rest, vs, describe));
            && (TypeAllows(Get(flat.fields, "type"), instance) <==> instance.Object?)
            && EnumAllows(Get(flat.fields, "enum"), instance)
            && OthersHold(flat, instance) && ItemsHold(flat, instance) && OneHolds(flat, instance)
            && CombinedHold(flat, instance)
  {
    FlatKeywords(rest, vs, describe);
    Unconstrained(FlatFields(rest, vs, describe), instance);
    hide FlatFields, Validates, OthersHold, ItemsHold, OneHolds, CombinedHold;
  }

  /** What the flat schema accepts, exactly. */
  lemma FlatMeaning(rest: seq<Field>, vs: seq<Variant>, describe: Describe, instance: Value)
    requires vs != [] && JsonProps(vs)
    ensures Validates(Object(FlatFields(rest, vs, describe)), instance) <==> FlatFits(vs, instance)
  {
    hide FlatFields, JsonProps, FieldsFit, AllRequireTag, TypeAllows, EnumAllows, RequiredPresent, PropertiesHold,
         OthersHold,
         ItemsHold, OneHolds, CombinedHold, Get, Has;
    FlatOtherwiseFree(rest, vs, describe, instance);
    if instance.Object? {
      FlatRequiredMeans(rest, vs, describe, instance);
      FlatPropertiesMean(rest, vs, describe, instance);
    }
  }

  lemma VariantFitsFlat(variants: seq<Value>, vs: seq<Variant>, k: nat, instance: Value)
    requires k < |vs| == |variants| && ReadVariant(variants[k]) == Some(vs[k]) && Fits(vs[k], instance)
    requires forall j :: 0 <= j < |vs| ==> vs[j].tag == vs[0].tag
    requires StringTags(vs) && Agreeing(vs) && JsonProps(vs)
    ensures FlatFits(vs, instance)
  {
    assert vs[k].value.String? && IsJson(Object(vs[k].props)) && vs[k].tag == vs[0].tag;
    JsonParts(vs[k].props, vs[k].tag);
    assert TagValues(vs)[k] == vs[k].value;
    assert instance.Object? && (AllRequireTag(vs) ==> Has(instance.fields, vs[0].tag));
    hide Validates, Merged, Agreeing, Get, Has, Fits, ReadVariant, IsJson, TagValues, StringTags;
    if Has(instance.fields, vs[0].tag) {
      TagIsPinned(variants[k], vs[k], instance);
    }
    forall i: nat | i < |Merged(vs, |vs|)| && Has(instance.fields, Merged(vs, |vs|)[i].key)
      ensures Validates(Merged(vs, |vs|)[i].value, Get(instance.fields, Merged(vs, |vs|)[i].key).value)
    {
      MergedAccepts(vs, k, instance, i);
    }
  }

  lemma SomeVariantAccepts(schema: Value, instance: Value) returns (k: nat)
    requires schema.Object? && Get(schema.fields, "oneOf").Some? && Get(schema.fields, "oneOf").value.Array?
    requires Validates(schema, instance)
    ensures k < |Get(schema.fields, "oneOf").value.items|
            && Validates(Get(schema.fields, "oneOf").value.items[k], instance)
  {
    assert OneHolds(schema, instance);
    var variants := Get(schema.fields, "oneOf").value.items;
    assert schema.fields[Position(schema.fields, "oneOf")].value == Array(variants);
    hide Validates;
    var accepted := seq(|variants|, i requires 0 <= i < |variants| => Validates(variants[i], instance));
    assert ExactlyOne(accepted);
    k :| 0 <= k < |accepted| && accepted[k];
  }

  lemma VariantProps(schema: Value, k: nat)
    requires TagDispatched(schema) && IsJson(schema) && k < |VariantsOf(schema)|
    ensures IsJson(Object(VariantsOf(schema)[k].props))
  {
    var variants := Get(schema.fields, "oneOf").value.items;
    OneDiscriminator(variants, |variants|, k);
    JsonParts(schema.fields, "oneOf");
    assert IsJson(variants[k]);
    JsonParts(variants[k].fields, "properties");
    hide ReadVariants, IsJson, Get;
  }

  /**
   Flattening only relaxes: for closed, string-tagged variants that agree on the fields they
   share, every instance valid under the oneOf is valid under the flat schema.
   */
  lemma FlatteningRelaxes(schema: Value, describe: Describe, instance: Value)
    requires TagDispatched(schema) && IsJson(schema)
    requires forall k :: 0 <= k < |Get(schema.fields, "oneOf").value.items| ==>
             Closed(Get(schema.fields, "oneOf").value.items[k])
    requires StringTags(VariantsOf(schema)) && Agreeing(VariantsOf(schema))
    requires Validates(schema, instance)
    ensures Validates(Flatten(schema, describe), instance)
  {
    var variants, vs := Get(schema.fields, "oneOf").value.items, VariantsOf(schema);
    assert Flatten(schema, describe) == Object(FlatFields(Remove(schema.fields, "oneOf"), vs, describe));
    assert |vs| == |variants| && schema.Object?;
    hide Validates, Flatten, FlatFields, Agreeing, StringTags, ReadVariant, IsJson, Get, Remove, Closed;
    var k := SomeVariantAccepts(schema, instance);
    forall j: nat | j < |vs|
      ensures ReadVariant(variants[j]) == Some(vs[j]) && vs[j].tag == vs[0].tag && IsJson(Object(vs[j].props))
    {
      OneDiscriminator(variants, |variants|, j);
      VariantProps(schema, j);
    }
    VariantFits(variants[k], vs[k], instance);
    assert JsonProps(vs);
    VariantFitsFlat(variants, vs, k, instance);
    FlatMeaning(Remove(schema.fields, "oneOf"), vs, describe, instance);
  }

  // ----- why the variants must be closed

  function OneValue(allowed: Value): Value {
    Object([Field("enum", Array([allowed]))])
  }

  /** A variant that pins `kind` and says nothing of other properties than `extra`. */
  function OpenVariant(kind: string, extra: seq<Field>): Value {
    Object([Field("type", String("object")),
            Field("properties", Object([Field("kind", OneValue(String(kind)))] + extra))])
  }

  lemma OpenVariantKeywords(kind: string, extra: seq<Field>)
    ensures var fields := OpenVariant(kind, extra).fields;
            && Get(fields, "type") == Some(String("object"))
            && Get(fields, "properties") == Some(Object([Field("kind", OneValue(String(kind)))] + extra))
            && Get(fields, "enum") == None && Get(fields, "required") == None
            && Get(fields, "additionalProperties") == None
            && Get(fields, "items") == None && Get(fields, "oneOf") == None
            && Get(fields, "const") == None && Get(fields, "allOf") == None && Get(fields, "anyOf") == None
            && Get(fields, "not") == None
  {
    var fields := OpenVariant(kind, extra).fields;
    Found(fields, "type", 0);
    Found(fields, "properties", 1);
    NotThere(fields, "enum");
    NotThere(fields, "required");
    NotThere(fields, "additionalProperties");
    NotThere(fields, "items");
    NotThere(fields, "oneOf");
    NoCombination(fields);
  }

  lemma OpenVariantRead(kind: string, extra: seq<Field>)
    ensures ReadVariant(OpenVariant(kind, extra))
            == Some(Variant([Field("kind", OneValue(String(kind)))] + extra, "kind", String(kind), false))
  {
    OpenVariantKeywords(kind, extra);
    var props := [Field("kind", OneValue(String(kind)))] + extra;
    Found(OneValue(String(kind)).fields, "enum", 0);
    assert Pins(props[0].value) && Pinned(props[0].value) == String(kind);
    assert TagPlace(props) == 0;
    hide Get, Pins, Pinned, OpenVariant;
  }

  /** An open variant accepts an object iff its pinned property and its others accept what is there. */
  lemma OpenVariantMeans(kind: string, extra: seq<Field>, instance: Value)
    requires instance.Object?
    ensures Validates(OpenVariant(kind, extra), instance) <==>
              var props := [Field("kind", OneValue(String(kind)))] + extra;
              forall k :: 0 <= k < |props| && Has(instance.fields, props[k].key) ==>
                Validates(props[k].value, Get(instance.fields, props[k].key).value)
  {
    var schema, props := OpenVariant(kind, extra), [Field("kind", OneValue(String(kind)))] + extra;
    OpenVariantKeywords(kind, extra);
    assert schema.fields[Position(schema.fields, "properties")].value == Object(props);
    Unconstrained(schema.fields, instance);
    assert PropertiesHold(schema, instance) <==>
             forall k :: 0 <= k < |props| && Has(instance.fields, props[k].key) ==>
               Validates(props[k].value, Get(instance.fields, props[k].key).value);
    assert TypeAllows(Get(schema.fields, "type"), instance) && EnumAllows(Get(schema.fields, "enum"), instance);
    assert RequiredPresent(Get(schema.fields, "required"), instance);
    hide OpenVariant, OneValue, PropertiesHold, OthersHold, ItemsHold, OneHolds, CombinedHold, TypeAllows, EnumAllows,
         RequiredPresent;
  }

  const EXTRA: seq<Field> := [Field("x", OneValue(Number(1)))]

  function OpenSchema(): Value {
    Object([Field("oneOf", Array([OpenVariant("a", []), OpenVariant("b", EXTRA)]))])
  }

  /** An `a` with a property that only `b` describes, and not as `b` describes it. */
  function OpenInstance(): Value {
    Object([Field("kind", String("a")), Field("x", Number(2))])
  }

  lemma OpenSchemaRead()
    ensures OpenSchema().Object?
    ensures TagDispatched(OpenSchema())
    ensures VariantsOf(OpenSchema()) == [Variant([Field("kind", OneValue(String("a")))], "kind", String("a"), false),
                                         Variant([Field("kind", OneValue(String("b")))] + EXTRA, "kind", String("b"),
                                                 false)]
  {
    var variants := [OpenVariant("a", []), OpenVariant("b", EXTRA)];
    OpenVariantRead("a", []);
    OpenVariantRead("b", EXTRA);
    Found(OpenSchema().fields, "oneOf", 0);
    NothingAdded([Field("kind", OneValue(String("a")))]);
    hide ReadVariant, OpenVariant, OneValue, Get;
    assert ReadVariants(variants, 1).Some?;
  }

  lemma OpenInstanceHas()
    ensures var fields := OpenInstance().fields;
            Get(fields, "kind") == Some(String("a")) && Get(fields, "x") == Some(Number(2))
  {
    Found(OpenInstance().fields, "kind", 0);
    Found(OpenInstance().fields, "x", 1);
  }

  lemma FirstOfTwo(a: Value, b: Value, instance: Value)
    requires Validates(a, instance) && !Validates(b, instance)
    ensures var variants := [a, b];
            ExactlyOne(seq(|variants|, k requires 0 <= k < |variants| => Validates(variants[k], instance)))
  {
    hide Validates;
    var variants := [a, b];
    var accepted := seq(|variants|, k requires 0 <= k < |variants| => Validates(variants[k], instance));
    assert accepted[0] && !accepted[1];
  }

  lemma OneOfMeans(a: Value, b: Value, instance: Value)
    requires Validates(a, instance) && !Validates(b, instance)
    ensures Validates(Object([Field("oneOf", Array([a, b]))]), instance)
  {
    var schema := Object([Field("oneOf", Array([a, b]))]);
    FirstOfTwo(a, b, instance);
    Found(schema.fields, "oneOf", 0);
    NotThere(schema.fields, "type");
    NotThere(schema.fields, "enum");
    NotThere(schema.fields, "required");
    NotThere(schema.fields, "properties");
    NotThere(schema.fields, "additionalProperties");
    NotThere(schema.fields, "items");
    NoCombination(schema.fields);
    assert schema.fields[Position(schema.fields, "oneOf")].value == Array([a, b]);
    hide Validates, ExactlyOne;
    assert OneHolds(schema, instance);
    Unconstrained(schema.fields, instance);
    hide PropertiesHold, OthersHold, ItemsHold, OneHolds, CombinedHold;
    ObjectAccepts(schema, instance);
  }

  lemma OpenInstanceVariants()
    ensures Validates(OpenVariant("a", []), OpenInstance())
    ensures !Validates(OpenVariant("b", EXTRA), OpenInstance())
  {
    var instance := OpenInstance();
    OpenInstanceHas();
    EnumOnly(String("a"), String("a"));
    EnumOnly(String("b"), String("a"));
    assert Validates(OneValue(String("a")), String("a")) && !Validates(OneValue(String("b")), String("a"));
    assert instance.Object?;
    hide Validates, OpenVariant, OneValue, OpenInstance;
    OpenVariantMeans("a", [], instance);
    OpenVariantMeans("b", EXTRA, instance);
    assert ([Field("kind", OneValue(String("b")))] + EXTRA)[0] == Field("kind", OneValue(String("b")));
  }

  lemma OpenSchemaAccepts()
    ensures Validates(OpenSchema(), OpenInstance())
  {
    OpenInstanceVariants();
    OneOfMeans(OpenVariant("a", []), OpenVariant("b", EXTRA), OpenInstance());
    hide OpenVariant, OpenInstance, Validates;
  }

  /** The property x of the instance is not what its description in the other variant asks for. */
  lemma OpenInstanceMisfits(vs: seq<Variant>)
    requires vs == [Variant([Field("kind", OneValue(String("a")))], "kind", String("a"), false),
                    Variant([Field("kind", OneValue(String("b")))] + EXTRA, "kind", String("b"), false)]
    ensures !FlatFits(vs, OpenInstance())
  {
    OpenMerged(vs);
    OpenInstanceHas();
    EnumOnly(Number(1), Number(2));
    var merged := Merged(vs, |vs|);
    assert merged[0].key == "x" && !Validates(merged[0].value, Number(2));
    hide Merged, OneValue, Validates, TagValues, AllRequireTag;
    assert Has(OpenInstance().fields, merged[0].key);
  }

  /**
   Closedness matters: with open variants an instance can use a property its own variant does
   not describe, and the flat schema holds it to another variant's description.
   */
  lemma OpenVariantsCanLose(describe: Describe)
    ensures TagDispatched(OpenSchema()) && Validates(OpenSchema(), OpenInstance())
    ensures !Validates(Flatten(OpenSchema(), describe), OpenInstance())
  {
    hide *;
    OpenSchemaAccepts();
    OpenSchemaRead();
    var vs := VariantsOf(OpenSchema());
    OpenJson(vs);
    OpenInstanceMisfits(vs);
    FlatIs(OpenSchema(), describe);
    FlatMeaning(Remove(OpenSchema().fields, "oneOf"), vs, describe, OpenInstance());
  }

  lemma FlatIs(schema: Value, describe: Describe)
    requires TagDispatched(schema)
    ensures Flatten(schema, describe)
            == Object(FlatFields(Remove(schema.fields, "oneOf"), VariantsOf(schema), describe))
  {
    hide FlatFields, Remove, ReadVariants;
  }

  lemma OpenMerged(vs: seq<Variant>)
    requires vs == [Variant([Field("kind", OneValue(String("a")))], "kind", String("a"), false),
                    Variant([Field("kind", OneValue(String("b")))] + EXTRA, "kind", String("b"), false)]
    ensures Merged(vs, |vs|) == [Field("x", OneValue(Number(1)))]
  {
    var b := [Field("kind", OneValue(String("b")))] + EXTRA;
    assert AddOwn([], vs[0].props, "kind", 1) == [];
    assert Merged(vs, 1) == [];
    assert AddOwn([], b, "kind", 1) == [];
    assert AddOwn([], b, "kind", 2) == [] + [b[1]];
  }

  lemma OpenJson(vs: seq<Variant>)
    requires vs == [Variant([Field("kind", OneValue(String("a")))], "kind", String("a"), false),
                    Variant([Field("kind", OneValue(String("b")))] + EXTRA, "kind", String("b"), false)]
    ensures JsonProps(vs) && StringTags(vs)
  {
    assert IsJson(Array([String("a")])) && IsJson(Array([String("b")])) && IsJson(Array([Number(1)]));
    assert IsJson(OneValue(String("a"))) && IsJson(OneValue(String("b"))) && IsJson(OneValue(Number(1)));
    hide OneValue;
    assert IsJson(Object(vs[0].props));
    assert IsJson(Object(vs[1].props));
  }
}
