/**
 `flatten_tagged_oneof_schema` as it runs (src/tool.rs): one walk over the variants, accumulating
 the merged properties, the tag values and whether every variant requires its tag, and giving up
 at the first variant that does not fit; then one pass that enters each field's owners and one
 that adds the notes. The owners are looked up field by field, in the order of the merged
 properties rather than of their names, which makes no difference to the result.
 */
module SchemaFlattener {
  import opened Wrappers
  import opened Json
  import opened SchemaFlattening

  lemma {:induction false} TagPlaceFrom(props: seq<Field>, i: nat)
    requires i <= |props| && forall k :: 0 <= k < i ==> !Pins(props[k].value)
    ensures TagPlace(props) == i + TagPlace(props[i..])
    decreases i
  {
    hide Pins;
    if i == 0 {
      assert props[0..] == props;
    } else {
      TagPlaceFrom(props, i - 1);
      assert props[i - 1..][1..] == props[i..];
    }
  }

  method FindTag(props: seq<Field>) returns (p: nat)
    ensures p == TagPlace(props)
  {
    p := 0;
    while p < |props| && !Pins(props[p].value)
      invariant p <= |props| && forall k :: 0 <= k < p ==> !Pins(props[k].value)
    {
      p := p + 1;
    }
    TagPlaceFrom(props, p);
  }

  method TagRequiredHere(fields: seq<Field>, name: string) returns (required: bool)
    ensures required == Requires(fields, name)
  {
    required := false;
    var list := Get(fields, "required");
    if list.Some? && list.value.Array? {
      var names := list.value.items;
      for k := 0 to |names|
        invariant required == (String(name) in names[..k])
      {
        assert names[..k + 1] == names[..k] + [names[k]];
        if names[k].String? && names[k].text == name {
          required := true;
        }
      }
      assert names[..|names|] == names;
    }
  }

  /** One variant of the walk; None where the program gives up. */
  method WalkVariant(variant: Value) returns (read: Option<Variant>)
    ensures read == ReadVariant(variant)
  {
    if !variant.Object? {
      return None;
    }
    var properties := Get(variant.fields, "properties");
    if properties.None? || !properties.value.Object? {
      return None;
    }
    var props := properties.value.fields;
    var p := FindTag(props);
    if p == |props| {
      return None;
    }
    var required := TagRequiredHere(variant.fields, props[p].key);
    read := Some(Variant(props, props[p].key, Pinned(props[p].value), required));
  }

  method MergeOwn(acc: seq<Field>, props: seq<Field>, tag: string) returns (merged: seq<Field>)
    ensures merged == AddOwn(acc, props, tag, |props|)
  {
    merged := acc;
    for m := 0 to |props|
      invariant merged == AddOwn(acc, props, tag, m)
    {
      if props[m].key != tag && !Has(merged, props[m].key) {
        merged := merged + [props[m]];
      }
    }
  }

  // ----- owners

  function Labels(owners: map<string, seq<string>>, field: string): seq<string> {
    if field in owners then owners[field] else []
  }

  /** The tags of the first n variants that own the field, in order. */
  function LabelsOf(vs: seq<Variant>, field: string, n: nat): (r: seq<string>)
    requires n <= |vs| && StringTags(vs)
    ensures |r| == OwnerCount(vs, field, n)
  {
    if n == 0 then [] else LabelsOf(vs, field, n - 1) + (if Owns(vs[n - 1], field) then [vs[n - 1].value.text] else [])
  }

  function Elements(labels: seq<string>): set<string> {
    set tagText | tagText in labels
  }

  lemma {:induction false} LabelsAreOwners(vs: seq<Variant>, field: string, n: nat)
    requires n <= |vs| && StringTags(vs)
    ensures Elements(LabelsOf(vs, field, n)) == Owners(vs, field, n)
    decreases n
  {
    hide Owns;
    if n > 0 {
      LabelsAreOwners(vs, field, n - 1);
    }
  }

  ghost predicate OwnersUpTo(owners: map<string, seq<string>>, vs: seq<Variant>, n: nat)
    requires n <= |vs| && StringTags(vs)
  {
    forall field :: Labels(owners, field) == LabelsOf(vs, field, n)
  }

  /** Within a variant: its first m fields have been entered. */
  ghost predicate OwnersWithin(owners: map<string, seq<string>>, vs: seq<Variant>, n: nat, m: nat)
    requires n < |vs| && StringTags(vs) && m <= |vs[n].props|
  {
    forall field :: Labels(owners, field)
                 == LabelsOf(vs, field, n)
                   + (if field != vs[n].tag && Has(vs[n].props[..m], field) then [vs[n].value.text] else [])
  }

  lemma WithinStart(owners: map<string, seq<string>>, vs: seq<Variant>, n: nat)
    requires n < |vs| && StringTags(vs) && OwnersUpTo(owners, vs, n)
    ensures OwnersWithin(owners, vs, n, 0)
  {
    hide LabelsOf;
    forall field ensures Labels(owners, field)
      == LabelsOf(vs, field, n)
        + (if field != vs[n].tag && Has(vs[n].props[..0], field) then [vs[n].value.text] else []) {
      NothingAdded(LabelsOf(vs, field, n));
    }
  }

  lemma WithinEnd(owners: map<string, seq<string>>, vs: seq<Variant>, n: nat)
    requires n < |vs| && StringTags(vs) && OwnersWithin(owners, vs, n, |vs[n].props|)
    ensures OwnersUpTo(owners, vs, n + 1)
  {
    assert vs[n].props[..|vs[n].props|] == vs[n].props;
  }

  function Entered(owners: map<string, seq<string>>, field: string, tagText: string): map<string, seq<string>> {
    owners[field := Labels(owners, field) + [tagText]]
  }

  lemma WithinNext(owners: map<string, seq<string>>, vs: seq<Variant>, n: nat, m: nat)
    requires n < |vs| && StringTags(vs) && m < |vs[n].props| && UniqueKeys(vs[n].props)
             && OwnersWithin(owners, vs, n, m)
    ensures var key := vs[n].props[m].key;
            OwnersWithin(if key == vs[n].tag then owners else Entered(owners, key, vs[n].value.text), vs, n, m + 1)
  {
    var props, key, tagText := vs[n].props, vs[n].props[m].key, vs[n].value.text;
    var after := if key == vs[n].tag then owners else Entered(owners, key, tagText);
    hide LabelsOf;
    NotThere(props[..m], key);
    forall field ensures Labels(after, field)
      == LabelsOf(vs, field, n) + (if field != vs[n].tag && Has(props[..m + 1], field) then [tagText] else []) {
      assert props[..m + 1] == props[..m] + [props[m]];
      GetAppend(props[..m], props[m], field);
      NothingAdded(LabelsOf(vs, field, n));
      assert Labels(owners, field)
        == LabelsOf(vs, field, n) + (if field != vs[n].tag && Has(props[..m], field) then [tagText] else []);
    }
  }

  method CollectOwners(vs: seq<Variant>) returns (owners: map<string, seq<string>>)
    requires StringTags(vs) && forall k :: 0 <= k < |vs| ==> UniqueKeys(vs[k].props)
    ensures forall field :: Labels(owners, field) == LabelsOf(vs, field, |vs|)
  {
    owners := map[];
    assert OwnersUpTo(owners, vs, 0);
    for n := 0 to |vs|
      invariant OwnersUpTo(owners, vs, n)
    {
      hide OwnersWithin, OwnersUpTo;
      WithinStart(owners, vs, n);
      for m := 0 to |vs[n].props|
        invariant OwnersWithin(owners, vs, n, m)
      {
        WithinNext(owners, vs, n, m);
        if vs[n].props[m].key != vs[n].tag {
          owners := Entered(owners, vs[n].props[m].key, vs[n].value.text);
        }
      }
      WithinEnd(owners, vs, n);
    }
  }

  /** Adds the note to one property that not every variant owns. */
  method AnnotateOne(vs: seq<Variant>, tag: string, describe: Describe, property: Field, labels: seq<string>)
    returns (annotated: Field)
    requires StringTags(vs) && labels == LabelsOf(vs, property.key, |vs|)
    ensures annotated == Annotated(vs, tag, describe, property)
  {
    annotated := property;
    LabelsAreOwners(vs, property.key, |vs|);
    hide LabelsOf, Owners, OwnerCount, WithNote, Elements;
    if |labels| != |vs| && property.value.Object? {
      var note := describe(tag, Elements(labels));
      annotated := property.(value := Object(WithNote(property.value.fields, note)));
    }
  }

  /** Adds the notes, field by field. */
  method AnnotateFields(vs: seq<Variant>, tag: string, describe: Describe, merged: seq<Field>)
    returns (annotated: seq<Field>)
    requires forall k :: 0 <= k < |vs| ==> UniqueKeys(vs[k].props)
    ensures annotated == AnnotateAll(vs, tag, describe, merged)
  {
    annotated := merged;
    if StringTags(vs) && |vs| > 1 {
      var owners := CollectOwners(vs);
      hide LabelsOf, Labels, Owners, OwnerCount, WithNote, Annotated;
      for i := 0 to |merged|
        invariant |annotated| == |merged|
        invariant forall k :: 0 <= k < i ==> annotated[k] == Annotated(vs, tag, describe, merged[k])
        invariant forall k :: i <= k < |merged| ==> annotated[k] == merged[k]
      {
        assert Labels(owners, merged[i].key) == LabelsOf(vs, merged[i].key, |vs|);
        var property := AnnotateOne(vs, tag, describe, merged[i], Labels(owners, merged[i].key));
        annotated := annotated[i := property];
      }
    }
  }

  // ----- the walk

  lemma {:induction false} FailsEver(variants: seq<Value>, n: nat, m: nat)
    requires n <= m <= |variants| && ReadVariants(variants, n).None?
    ensures ReadVariants(variants, m).None?
    decreases m
  {
    if n < m {
      FailsEver(variants, n, m - 1);
    }
  }

  lemma WalkNext(variants: seq<Value>, n: nat)
    requires n < |variants| && ReadVariants(variants, n).Some?
    ensures var vs, read := ReadVariants(variants, n).value, ReadVariant(variants[n]);
            if read.None? || (n > 0 && read.value.tag != vs[0].tag) then ReadVariants(variants, |variants|).None?
            else ReadVariants(variants, n + 1) == Some(vs + [read.value])
  {
    var vs, read := ReadVariants(variants, n).value, ReadVariant(variants[n]);
    hide ReadVariant;
    if read.None? || (n > 0 && read.value.tag != vs[0].tag) {
      assert ReadVariants(variants, n + 1).None?;
      FailsEver(variants, n + 1, |variants|);
    }
  }

  lemma {:induction false} MergedLonger(vs: seq<Variant>, v: Variant, n: nat)
    requires n <= |vs|
    ensures Merged(vs + [v], n) == Merged(vs, n)
    decreases n
  {
    hide AddOwn;
    if n > 0 {
      MergedLonger(vs, v, n - 1);
    }
  }

  /** Reads and merges the variants; None where the program hands the oneOf back. */
  method WalkVariants(variants: seq<Value>)
    returns (walked: Option<seq<Variant>>, merged: seq<Field>, tagValues: seq<Value>, tagInRequired: bool)
    ensures walked == ReadVariants(variants, |variants|)
    ensures walked.Some? ==> merged == Merged(walked.value, |walked.value|) && tagValues == TagValues(walked.value)
                             && tagInRequired == AllRequireTag(walked.value)
  {
    var vs: seq<Variant> := [];
    merged, tagValues, tagInRequired := [], [], true;
    for n := 0 to |variants|
      invariant ReadVariants(variants, n) == Some(vs)
      invariant merged == Merged(vs, n) && tagValues == TagValues(vs) && tagInRequired == AllRequireTag(vs)
    {
      WalkNext(variants, n);
      hide ReadVariants, ReadVariant, Merged;
      var read := WalkVariant(variants[n]);
      if read.None? || (n > 0 && read.value.tag != vs[0].tag) {
        return None, [], [], false;
      }
      var v := read.value;
      merged := MergeOwn(merged, v.props, v.tag);
      MergedNext(vs, v);
      TagValuesNext(vs, v);
      tagValues := tagValues + [v.value];
      if !v.tagRequired {
        tagInRequired := false;
      }
      AllRequireNext(vs, v);
      vs := vs + [v];
    }
    walked := Some(vs);
  }

  lemma MergedNext(vs: seq<Variant>, v: Variant)
    ensures Merged(vs + [v], |vs| + 1) == AddOwn(Merged(vs, |vs|), v.props, v.tag, |v.props|)
  {
    hide AddOwn;
    assert (vs + [v])[|vs|] == v;
    MergedLonger(vs, v, |vs|);
  }

  lemma TagValuesNext(vs: seq<Variant>, v: Variant)
    ensures TagValues(vs + [v]) == TagValues(vs) + [v.value]
  {
  }

  lemma AllRequireNext(vs: seq<Variant>, v: Variant)
    ensures AllRequireTag(vs + [v]) <==> AllRequireTag(vs) && v.tagRequired
  {
    if AllRequireTag(vs + [v]) {
      forall k | 0 <= k < |vs| ensures vs[k].tagRequired { assert (vs + [v])[k] == vs[k]; }
      assert (vs + [v])[|vs|] == v;
    }
  }

  lemma UniqueProps(schema: Value)
    requires IsJson(schema) && TagDispatched(schema)
    ensures forall k :: 0 <= k < |VariantsOf(schema)| ==> UniqueKeys(VariantsOf(schema)[k].props)
  {
    forall k: nat | k < |VariantsOf(schema)| ensures UniqueKeys(VariantsOf(schema)[k].props) {
      VariantProps(schema, k);
    }
  }

  /** Builds the flat schema from what the walk gathered. */
  method Assemble(root: seq<Field>, vs: seq<Variant>, describe: Describe, merged: seq<Field>, tagValues: seq<Value>,
                  tagInRequired: bool)
    returns (out: seq<Field>)
    requires vs != [] && forall k :: 0 <= k < |vs| ==> UniqueKeys(vs[k].props)
    requires merged == Merged(vs, |vs|) && tagValues == TagValues(vs) && tagInRequired == AllRequireTag(vs)
    ensures out == FlatFields(root, vs, describe)
  {
    var discriminator := vs[0].tag;
    var annotated := AnnotateFields(vs, discriminator, describe, merged);
    var tagProp := [Field("type", String("string")), Field("enum", Array(tagValues))];
    var orderedProps := [Field(discriminator, Object(tagProp))] + annotated;
    assert orderedProps == FlatProperties(vs, describe);
    hide FlatProperties, Get, AllRequireTag, Merged, TagValues, AnnotateAll;
    var description := Get(root, "description");
    out := if description.Some? then [Field("description", description.value)] else [];
    assert out == Kept(root, "description");
    var dialect := Get(root, "$schema");
    if dialect.Some? {
      out := out + [Field("$schema", dialect.value)];
    } else {
      NothingAdded(out);
    }
    assert out == Kept(root, "description") + Kept(root, "$schema");
    hide Kept;
    out := out + [Field("type", String("object")), Field("properties", Object(orderedProps))];
    if tagInRequired {
      out := out + [Field("required", Array([String(discriminator)]))];
    } else {
      NothingAdded(out);
    }
  }

  method FlattenTaggedOneOfSchema(schema: Value, describe: Describe) returns (flat: Value)
    requires IsJson(schema)
    ensures flat == Flatten(schema, describe)
  {
    if !schema.Object? {
      return schema;
    }
    hide ReadVariants, Remove, Put, Merged, FlatFields, IsJson, AllRequireTag;
    var oneOf, root := Get(schema.fields, "oneOf"), Remove(schema.fields, "oneOf");
    if oneOf.None? || !oneOf.value.Array? {
      if root != [] {
        return Object(root);
      }
      return Null;
    }
    var variants := oneOf.value.items;
    var walked, merged, tagValues, tagInRequired := WalkVariants(variants);
    if walked.None? || walked.value == [] {
      return Object(Put(root, "oneOf", Array(variants)));
    }
    var vs := walked.value;
    assert TagDispatched(schema) && VariantsOf(schema) == vs by { NonEmptyVariants(variants); }
    UniqueProps(schema);
    assert forall k :: 0 <= k < |vs| ==> UniqueKeys(vs[k].props);
    var out := Assemble(root, vs, describe, merged, tagValues, tagInRequired);
    return Object(out);
  }

  lemma NonEmptyVariants(variants: seq<Value>)
    ensures ReadVariants(variants, |variants|).Some? ==> |ReadVariants(variants, |variants|).value| == |variants|
  {
  }
}
