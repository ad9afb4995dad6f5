/**
 The flat schema of a tag-dispatched oneOf, told by its variants alone (src/tool.rs): which schemas
 are flattened, which properties the flat schema has, in which order, whose schema each of them
 carries, and what is noted on it.
 */
module FlatShape {
  import opened Wrappers
  import opened Json
  import opened SchemaFlattening

  // ----- reading

  /** The schema allows the one value by an enum. */
  predicate PinsTo(schema: Value, x: Value) {
    schema.Object? && Get(schema.fields, "enum") == Some(Array([x]))
  }

  /** Property p allows x only, and no property before it allows one value only. */
  ghost predicate FirstPinned(props: seq<Field>, p: nat, x: Value) {
    p < |props| && PinsTo(props[p].value, x) && forall q: nat, y :: q < p ==> !PinsTo(props[q].value, y)
  }

  /** The variant is an object schema with these properties, dispatched on the first that is pinned. */
  ghost predicate ReadsAs(variant: Value, v: Variant) {
    && variant.Object? && Get(variant.fields, "properties") == Some(Object(v.props))
    && (exists p: nat :: FirstPinned(v.props, p, v.value) && v.props[p].key == v.tag)
    && (v.tagRequired <==>
          && Has(variant.fields, "required") && Get(variant.fields, "required").value.Array?
          && String(v.tag) in Get(variant.fields, "required").value.items)
  }

  /** The schema is a oneOf of at least one variant, all dispatched on one property. */
  ghost predicate ReadsAll(schema: Value, vs: seq<Variant>) {
    && schema.Object? && Has(schema.fields, "oneOf") && Get(schema.fields, "oneOf").value.Array?
    && vs != [] && |vs| == |Get(schema.fields, "oneOf").value.items|
    && forall k :: 0 <= k < |vs| ==>
                 ReadsAs(Get(schema.fields, "oneOf").value.items[k], vs[k]) && vs[k].tag == vs[0].tag
  }

  lemma PinsExactly(schema: Value)
    ensures Pins(schema) ==> PinsTo(schema, Pinned(schema))
    ensures forall x :: PinsTo(schema, x) ==> Pins(schema) && Pinned(schema) == x
  {
    if Pins(schema) {
      assert Get(schema.fields, "enum").value.items == [Pinned(schema)];
    }
  }

  lemma {:induction false} TagPlaceIsFirst(props: seq<Field>)
    ensures forall q :: 0 <= q < TagPlace(props) ==> !Pins(props[q].value)
  {
    hide Pins;
    if props != [] && !Pins(props[0].value) {
      TagPlaceIsFirst(props[1..]);
      forall q | 0 <= q < TagPlace(props) ensures !Pins(props[q].value) {
        if q > 0 {
          assert props[1..][q - 1] == props[q];
        }
      }
    }
  }

  lemma FirstPinnedExactly(props: seq<Field>, p: nat, x: Value)
    ensures FirstPinned(props, p, x) <==> p == TagPlace(props) < |props| && Pinned(props[p].value) == x
  {
    TagPlaceIsFirst(props);
    forall q | 0 <= q < |props|
      ensures Pins(props[q].value) ==> PinsTo(props[q].value, Pinned(props[q].value))
      ensures forall y :: PinsTo(props[q].value, y) ==> Pins(props[q].value) && Pinned(props[q].value) == y
    {
      PinsExactly(props[q].value);
    }
    var place := TagPlace(props);
    hide Pins, Pinned, PinsTo;
    assert place < |props| ==> PinsTo(props[place].value, Pinned(props[place].value));
  }

  lemma ReadsExactly(variant: Value, v: Variant)
    ensures ReadVariant(variant) == Some(v) <==> ReadsAs(variant, v)
  {
    var place := TagPlace(v.props);
    if place < |v.props| {
      FirstPinnedExactly(v.props, place, Pinned(v.props[place].value));
    }
    hide Pins, Pinned, PinsTo, FirstPinned, TagPlace, Get;
    if p: nat :| FirstPinned(v.props, p, v.value) && v.props[p].key == v.tag {
      FirstPinnedExactly(v.props, p, v.value);
    }
  }

  lemma {:induction false} ReadUpTo(variants: seq<Value>, vs: seq<Variant>, n: nat)
    requires n <= |variants| && n == |vs|
    requires forall k :: 0 <= k < n ==> ReadVariant(variants[k]) == Some(vs[k]) && vs[k].tag == vs[0].tag
    ensures ReadVariants(variants, n) == Some(vs)
    decreases n
  {
    hide ReadVariant;
    if n > 0 {
      ReadUpTo(variants, vs[..n - 1], n - 1);
      SplitLast(vs);
    }
  }

  /** Which schemas are flattened, and what is read of them. */
  lemma DispatchedExactly(schema: Value)
    ensures TagDispatched(schema) ==> ReadsAll(schema, VariantsOf(schema))
    ensures forall vs :: ReadsAll(schema, vs) ==> TagDispatched(schema) && VariantsOf(schema) == vs
  {
    if schema.Object? {
      HasGet(schema.fields, "oneOf");
    }
    hide ReadVariant, ReadsAs, Get, Has;
    if TagDispatched(schema) {
      var variants, vs := Get(schema.fields, "oneOf").value.items, VariantsOf(schema);
      forall k: nat | k < |vs| ensures ReadsAs(variants[k], vs[k]) && vs[k].tag == vs[0].tag {
        OneDiscriminator(variants, |variants|, k);
        ReadsExactly(variants[k], vs[k]);
      }
    }
    forall vs | ReadsAll(schema, vs) ensures TagDispatched(schema) && VariantsOf(schema) == vs {
      var variants := Get(schema.fields, "oneOf").value.items;
      forall k: nat | k < |vs| ensures ReadVariant(variants[k]) == Some(vs[k]) {
        ReadsExactly(variants[k], vs[k]);
      }
      ReadUpTo(variants, vs, |vs|);
    }
  }

  lemma HasGet(fields: seq<Field>, key: string)
    ensures Has(fields, key) <==> Get(fields, key).Some?
  {
  }

  // ----- which properties, in which order

  /** Property m of variant k, when it is not the tag's. */
  predicate Own(vs: seq<Variant>, k: nat, m: nat) {
    k < |vs| && m < |vs[k].props| && vs[k].props[m].key != vs[k].tag
  }

  predicate Before(k: nat, m: nat, l: nat, n: nat) {
    k < l || (k == l && m < n)
  }

  /** No variant before it, and nothing before it in its variant, has a property of that name. */
  ghost predicate FirstOwn(vs: seq<Variant>, k: nat, m: nat) {
    && Own(vs, k, m)
    && forall l: nat, n: nat :: Own(vs, l, n) && Before(l, n, k, m) ==> vs[l].props[n].key != vs[k].props[m].key
  }

  /** The fields are the first properties of their name before property m of variant k, all of them, in order. */
  ghost predicate Firsts(vs: seq<Variant>, fields: seq<Field>, k: nat, m: nat) {
    && (forall i :: 0 <= i < |fields| ==> Stems(vs, fields[i], k, m))
    && (forall l: nat, n: nat :: Own(vs, l, n) && Before(l, n, k, m) ==> Has(fields, vs[l].props[n].key))
    && Ordered(vs, fields)
  }

  /** The field is the first property of its name. */
  ghost predicate Stems(vs: seq<Variant>, field: Field, k: nat, m: nat) {
    exists l: nat, n: nat :: FirstOwn(vs, l, n) && Before(l, n, k, m) && vs[l].props[n] == field
  }

  /** Of two fields the one whose name is met first stands first. */
  ghost predicate Ordered(vs: seq<Variant>, fields: seq<Field>) {
    forall i, j, k: nat, m: nat, l: nat, n: nat ::
      && 0 <= i < j < |fields| && FirstOwn(vs, k, m) && FirstOwn(vs, l, n)
      && vs[k].props[m].key == fields[i].key && vs[l].props[n].key == fields[j].key
      ==> Before(k, m, l, n)
  }

  lemma FirstIsUnique(vs: seq<Variant>, k: nat, m: nat, l: nat, n: nat)
    requires FirstOwn(vs, k, m) && FirstOwn(vs, l, n) && vs[k].props[m].key == vs[l].props[n].key
    ensures k == l && m == n
  {
    if Before(k, m, l, n) {
      assert false;
    } else if Before(l, n, k, m) {
      assert false;
    }
  }

  /** A property that no earlier one has the name of is added behind the others. */
  lemma FirstsGrow(vs: seq<Variant>, fields: seq<Field>, k: nat, m: nat)
    requires Firsts(vs, fields, k, m) && Own(vs, k, m) && !Has(fields, vs[k].props[m].key)
    ensures Firsts(vs, fields + [vs[k].props[m]], k, m + 1)
  {
    var field, more := vs[k].props[m], fields + [vs[k].props[m]];
    assert FirstOwn(vs, k, m);
    forall i | 0 <= i < |more| ensures Stems(vs, more[i], k, m + 1) {
      if i < |fields| {
        assert Stems(vs, fields[i], k, m);
      }
    }
    forall l: nat, n: nat | Own(vs, l, n) && Before(l, n, k, m + 1) ensures Has(more, vs[l].props[n].key) {
      GetAppend(fields, field, vs[l].props[n].key);
    }
    forall i, j, a: nat, b: nat, c: nat, d: nat |
      && 0 <= i < j < |more| && FirstOwn(vs, a, b) && FirstOwn(vs, c, d)
      && vs[a].props[b].key == more[i].key && vs[c].props[d].key == more[j].key
      ensures Before(a, b, c, d)
    {
      if j == |fields| {
        FirstIsUnique(vs, c, d, k, m);
        var l: nat, n: nat :| FirstOwn(vs, l, n) && Before(l, n, k, m) && vs[l].props[n] == fields[i];
        FirstIsUnique(vs, a, b, l, n);
      }
    }
  }

  /** A tag, or a property whose name is there already, adds nothing. */
  lemma FirstsStay(vs: seq<Variant>, fields: seq<Field>, k: nat, m: nat)
    requires Firsts(vs, fields, k, m) && k < |vs| && m < |vs[k].props|
    requires Own(vs, k, m) ==> Has(fields, vs[k].props[m].key)
    ensures Firsts(vs, fields, k, m + 1)
  {
    forall i | 0 <= i < |fields| ensures Stems(vs, fields[i], k, m + 1) {
      assert Stems(vs, fields[i], k, m);
    }
  }

  lemma {:induction false} AddedFirsts(vs: seq<Variant>, acc: seq<Field>, k: nat, m: nat)
    requires k < |vs| && m <= |vs[k].props| && Firsts(vs, acc, k, 0)
    ensures Firsts(vs, AddOwn(acc, vs[k].props, vs[k].tag, m), k, m)
    decreases m
  {
    hide Firsts;
    if m > 0 {
      AddedFirsts(vs, acc, k, m - 1);
      var before := AddOwn(acc, vs[k].props, vs[k].tag, m - 1);
      if Own(vs, k, m - 1) && !Has(before, vs[k].props[m - 1].key) {
        FirstsGrow(vs, before, k, m - 1);
      } else {
        FirstsStay(vs, before, k, m - 1);
      }
    }
  }

  lemma NextVariant(vs: seq<Variant>, fields: seq<Field>, k: nat)
    requires k < |vs| && Firsts(vs, fields, k, |vs[k].props|)
    ensures Firsts(vs, fields, k + 1, 0)
  {
    forall i | 0 <= i < |fields| ensures Stems(vs, fields[i], k + 1, 0) {
      assert Stems(vs, fields[i], k, |vs[k].props|);
    }
  }

  lemma NothingFirst(vs: seq<Variant>)
    ensures Firsts(vs, [], 0, 0)
  {
  }

  lemma {:induction false} MergedFirsts(vs: seq<Variant>, n: nat)
    requires n <= |vs|
    ensures Firsts(vs, Merged(vs, n), n, 0)
    decreases n
  {
    hide Firsts, AddOwn;
    if n == 0 {
      NothingFirst(vs);
    } else {
      MergedFirsts(vs, n - 1);
      AddedFirsts(vs, Merged(vs, n - 1), n - 1, |vs[n - 1].props|);
      NextVariant(vs, Merged(vs, n), n - 1);
    }
  }

  // ----- what is noted on them

  ghost predicate OwnsKey(vs: seq<Variant>, k: nat, key: string) {
    exists m: nat :: Own(vs, k, m) && vs[k].props[m].key == key
  }

  /** The tags of the variants that have the property. */
  ghost function TagsOwning(vs: seq<Variant>, key: string): set<string> {
    set k: nat | k < |vs| && OwnsKey(vs, k, key) && vs[k].value.String? :: vs[k].value.text
  }

  /** The note is appended to a description that is there, and is the description otherwise. */
  ghost predicate Noted(fields: seq<Field>, after: seq<Field>, note: string) {
    if Has(fields, "description") then
      var p := Position(fields, "description");
      var former := fields[p].value;
      && |after| == |fields| && (forall q :: 0 <= q < |fields| && q != p ==> after[q] == fields[q])
      && after[p] == Field("description",
                           String(if former.String? && former.text != "" then former.text + " " + note else note))
    else after == fields + [Field("description", String(note))]
  }

  /**
   A property is shown as the variant has it, with a note if all tags are strings and some variant
   has no such property.
   */
  ghost predicate ShownAs(vs: seq<Variant>, describe: Describe, property: Field, shown: Field)
    requires vs != []
  {
    if (forall k :: 0 <= k < |vs| ==> vs[k].value.String?) && property.value.Object?
       && exists k: nat :: k < |vs| && !OwnsKey(vs, k, property.key)
    then shown.key == property.key && shown.value.Object?
         && Noted(property.value.fields, shown.value.fields, describe(vs[0].tag, TagsOwning(vs, property.key)))
    else shown == property
  }

  lemma OwnsExactly(vs: seq<Variant>, k: nat, key: string)
    requires k < |vs|
    ensures OwnsKey(vs, k, key) <==> Owns(vs[k], key)
  {
    if Owns(vs[k], key) {
      assert Own(vs, k, Position(vs[k].props, key));
    }
    if m: nat :| Own(vs, k, m) && vs[k].props[m].key == key {
      assert Has(vs[k].props, key);
    }
  }

  lemma {:induction false} OwnersExactly(vs: seq<Variant>, key: string, n: nat)
    requires n <= |vs|
    ensures Owners(vs, key, n) == set k: nat | k < n && OwnsKey(vs, k, key) && vs[k].value.String? :: vs[k].value.text
    ensures OwnerCount(vs, key, n) < n <==> exists k: nat :: k < n && !OwnsKey(vs, k, key)
    decreases n
  {
    hide OwnsKey, Owns;
    if n > 0 {
      OwnersExactly(vs, key, n - 1);
      OwnsExactly(vs, n - 1, key);
      if OwnerCount(vs, key, n) < n && OwnsKey(vs, n - 1, key) {
        var k: nat :| k < n - 1 && !OwnsKey(vs, k, key);
      }
    }
  }

  lemma NotedExactly(fields: seq<Field>, note: string)
    ensures Noted(fields, WithNote(fields, note), note)
  {
  }

  lemma ShownExactly(vs: seq<Variant>, describe: Describe, merged: seq<Field>, i: nat)
    requires vs != [] && i < |merged|
    requires exists k: nat :: k < |vs| && OwnsKey(vs, k, merged[i].key)
    ensures ShownAs(vs, describe, merged[i], AnnotateAll(vs, vs[0].tag, describe, merged)[i])
  {
    OwnersExactly(vs, merged[i].key, |vs|);
    hide Owners, OwnerCount, OwnsKey, WithNote, Noted;
    if merged[i].value.Object? {
      NotedExactly(merged[i].value.fields, describe(vs[0].tag, Owners(vs, merged[i].key, |vs|)));
    }
    if |vs| == 1 {
      assert OwnsKey(vs, 0, merged[i].key);
    }
  }

  // ----- the flat schema

  /**
   The properties of the flat schema: first the tag, a string out of the variants' values in order;
   then, in the order in which the variants first name them, all other properties, each as the
   first variant that names it has it.
   */
  ghost predicate PropertiesAsTheyShould(vs: seq<Variant>, describe: Describe, props: seq<Field>)
    requires vs != []
  {
    && props != [] && props[0].key == vs[0].tag
    && props[0].value == Object([Field("type", String("string")),
                                 Field("enum", Array(seq(|vs|, k requires 0 <= k < |vs| => vs[k].value)))])
    && (forall i :: 1 <= i < |props| ==> ShownOf(vs, describe, props[i]))
    && (forall k: nat, m: nat :: Own(vs, k, m) ==> Has(props[1..], vs[k].props[m].key))
    && Ordered(vs, props[1..])
  }

  ghost predicate ShownOf(vs: seq<Variant>, describe: Describe, shown: Field)
    requires vs != []
  {
    exists k: nat, m: nat :: FirstOwn(vs, k, m) && ShownAs(vs, describe, vs[k].props[m], shown)
  }

  lemma SameKeysSameHas(a: seq<Field>, b: seq<Field>, key: string)
    requires |a| == |b| && forall i :: 0 <= i < |a| ==> a[i].key == b[i].key
    ensures Has(a, key) == Has(b, key)
  {
    var i := Position(a, key);
    if i < |a| {
      assert b[i].key == key;
    } else {
      forall j | 0 <= j < |b| ensures b[j].key != key {
        assert a[j].key != key;
      }
      NotThere(b, key);
    }
  }

  lemma AnnotationKeepsKeys(vs: seq<Variant>, describe: Describe, merged: seq<Field>)
    requires vs != []
    ensures forall i :: 0 <= i < |merged| ==>
              AnnotateAll(vs, vs[0].tag, describe, merged)[i].key == merged[i].key
  {
    hide WithNote, OwnerCount, Owners;
  }

  lemma MergedShown(vs: seq<Variant>, describe: Describe, i: nat)
    requires vs != [] && i < |Merged(vs, |vs|)|
    ensures ShownOf(vs, describe, AnnotateAll(vs, vs[0].tag, describe, Merged(vs, |vs|))[i])
  {
    var merged := Merged(vs, |vs|);
    MergedFirsts(vs, |vs|);
    hide Merged, AnnotateAll, ShownAs;
    assert Stems(vs, merged[i], |vs|, 0);
    var k: nat, m: nat :| FirstOwn(vs, k, m) && Before(k, m, |vs|, 0) && vs[k].props[m] == merged[i];
    assert OwnsKey(vs, k, merged[i].key);
    ShownExactly(vs, describe, merged, i);
  }

  lemma PropertyShown(vs: seq<Variant>, describe: Describe, i: nat)
    requires vs != [] && 1 <= i < |FlatProperties(vs, describe)|
    ensures ShownOf(vs, describe, FlatProperties(vs, describe)[i])
  {
    FlatPropertyAt(vs, describe, i - 1);
    hide Merged, AnnotateAll, ShownOf, FlatProperties;
    MergedShown(vs, describe, i - 1);
  }

  lemma ShownKeepKeys(vs: seq<Variant>, describe: Describe)
    requires vs != []
    ensures var props, merged := FlatProperties(vs, describe), Merged(vs, |vs|);
            && |props| == |merged| + 1 && props[0] == Field(vs[0].tag, TagSchema(vs))
            && |props[1..]| == |merged| && forall i :: 0 <= i < |merged| ==> props[1..][i].key == merged[i].key
  {
    AnnotationKeepsKeys(vs, describe, Merged(vs, |vs|));
    assert FlatProperties(vs, describe)[1..] == AnnotateAll(vs, vs[0].tag, describe, Merged(vs, |vs|));
    hide Merged, AnnotateAll;
  }

  lemma SameKeysSameOrder(vs: seq<Variant>, a: seq<Field>, b: seq<Field>)
    requires |a| == |b| && forall i :: 0 <= i < |a| ==> a[i].key == b[i].key
    requires Ordered(vs, a)
    ensures Ordered(vs, b)
  {
  }

  lemma AllNamed(vs: seq<Variant>, describe: Describe, k: nat, m: nat)
    requires Own(vs, k, m)
    ensures Has(FlatProperties(vs, describe)[1..], vs[k].props[m].key)
  {
    MergedFirsts(vs, |vs|);
    ShownKeepKeys(vs, describe);
    hide Merged, FlatProperties, Stems, Ordered;
    assert Before(k, m, |vs|, 0);
    SameKeysSameHas(Merged(vs, |vs|), FlatProperties(vs, describe)[1..], vs[k].props[m].key);
  }

  lemma PropertiesExactly(vs: seq<Variant>, describe: Describe)
    requires vs != []
    ensures PropertiesAsTheyShould(vs, describe, FlatProperties(vs, describe))
  {
    var props := FlatProperties(vs, describe);
    ShownKeepKeys(vs, describe);
    assert Ordered(vs, Merged(vs, |vs|)) by { MergedFirsts(vs, |vs|); }
    SameKeysSameOrder(vs, Merged(vs, |vs|), props[1..]);
    hide Merged, ShownOf, FlatProperties, Ordered, Has, Own;
    forall i | 1 <= i < |props| ensures ShownOf(vs, describe, props[i]) {
      PropertyShown(vs, describe, i);
    }
    forall k: nat, m: nat | Own(vs, k, m) ensures Has(props[1..], vs[k].props[m].key) {
      AllNamed(vs, describe, k, m);
    }
  }

  /**
   The flat schema of a tag-dispatched oneOf holds its description and dialect, where it has them,
   the type, the properties as they should be, and the tag as only required property if every
   variant requires it; everything else of the schema is gone.
   */
  lemma FlatExactly(schema: Value, vs: seq<Variant>, describe: Describe) returns (props: seq<Field>)
    requires ReadsAll(schema, vs) && UniqueKeys(schema.fields)
    ensures Flatten(schema, describe)
            == Object((if Has(schema.fields, "description")
                         then [Field("description", Get(schema.fields, "description").value)] else [])
                      + (if Has(schema.fields, "$schema")
                           then [Field("$schema", Get(schema.fields, "$schema").value)] else [])
                      + [Field("type", String("object")), Field("properties", Object(props))]
                      + (if forall k :: 0 <= k < |vs| ==> vs[k].tagRequired
                           then [Field("required", Array([String(vs[0].tag)]))] else []))
    ensures PropertiesAsTheyShould(vs, describe, props)
  {
    props := FlatProperties(vs, describe);
    DispatchedExactly(schema);
    PropertiesExactly(vs, describe);
    FlatIs(schema, describe);
    GetRemove(schema.fields, "oneOf", "description");
    GetRemove(schema.fields, "oneOf", "$schema");
    HasGet(schema.fields, "description");
    HasGet(schema.fields, "$schema");
    hide FlatProperties, Flatten, Get, Has, Remove, ReadsAll, PropertiesAsTheyShould;
  }
}
