/** The schema a typed tool shows to the provider: flattened, then rewritten (src/tool.rs). */
module ToolSchema {
  import opened Wrappers
  import opened Json
  import opened JsonSchema
  import opened SchemaFlattening
  import opened SchemaQuirks

  function ParametersSchema(schema: Value, describe: Describe): Value {
    Rewritten(Flatten(schema, describe))
  }

  // ----- what the rewrite must not touch survives flattening

  lemma TextsUntouched(tags: seq<Value>)
    requires forall k :: 0 <= k < |tags| ==> tags[k].String?
    ensures Rewritten(Array(tags)) == Array(tags)
  {
    assert Rewritten(Array(tags)).items == tags;
  }

  lemma TagSchemaUntouched(vs: seq<Variant>)
    requires StringTags(vs)
    ensures EnumsUntouched(TagSchema(vs))
  {
    TextsUntouched(TagValues(vs));
    hide TagValues, Rewritten;
  }

  lemma NoteUntouched(fields: seq<Field>, note: string)
    requires EnumsUntouched(Object(fields))
    ensures EnumsUntouched(Object(WithNote(fields, note)))
  {
    var after := WithNote(fields, note);
    hide Rewritten;
    assert forall p :: 0 <= p < |after| && after[p].key != "description" ==> p < |fields| && after[p] == fields[p];
  }

  lemma PropertyUntouched(variant: Value, v: Variant, key: string)
    requires EnumsUntouched(variant) && ReadVariant(variant) == Some(v) && Has(v.props, key)
    ensures EnumsUntouched(Get(v.props, key).value)
  {
    var p, q := Position(variant.fields, "properties"), Position(v.props, key);
    assert variant.fields[p].key == "properties" && variant.fields[p].value == Object(v.props);
    assert EnumsUntouched(v.props[q].value);
  }

  /** Every property of every variant is left alone. */
  ghost predicate PropsUntouched(vs: seq<Variant>) {
    forall k, key :: 0 <= k < |vs| && Has(vs[k].props, key) ==> EnumsUntouched(Get(vs[k].props, key).value)
  }

  lemma MergedUntouched(vs: seq<Variant>, i: nat)
    requires PropsUntouched(vs) && i < |Merged(vs, |vs|)|
    ensures EnumsUntouched(Merged(vs, |vs|)[i].value)
  {
    var field := Merged(vs, |vs|)[i];
    MergedUnique(vs, |vs|);
    FoundAt(Merged(vs, |vs|), i);
    MergedOwned(vs, |vs|, field.key);
    hide Merged, EnumsUntouched;
    var j: nat :| j < |vs| && Owns(vs[j], field.key) && Some(field.value) == Get(vs[j].props, field.key);
  }

  lemma AnnotatedUntouched(vs: seq<Variant>, tag: string, describe: Describe, merged: seq<Field>, i: nat)
    requires i < |merged| && EnumsUntouched(merged[i].value)
    ensures EnumsUntouched(AnnotateAll(vs, tag, describe, merged)[i].value)
  {
    hide EnumsUntouched, WithNote, OwnerCount, Owners, StringTags;
    if merged[i].value.Object? {
      NoteUntouched(merged[i].value.fields, describe(tag, Owners(vs, merged[i].key, |vs|)));
    }
  }

  lemma FlatPropertiesUntouched(vs: seq<Variant>, describe: Describe, m: nat)
    requires vs != [] && StringTags(vs) && PropsUntouched(vs) && m < |FlatProperties(vs, describe)|
    ensures EnumsUntouched(FlatProperties(vs, describe)[m].value)
  {
    hide EnumsUntouched, Merged, AnnotateAll, TagSchema, StringTags, PropsUntouched;
    if m == 0 {
      TagSchemaUntouched(vs);
    } else {
      FlatPropertyAt(vs, describe, m - 1);
      MergedUntouched(vs, m - 1);
      AnnotatedUntouched(vs, vs[0].tag, describe, Merged(vs, |vs|), m - 1);
    }
  }

  lemma FlatFieldsUntouched(rest: seq<Field>, vs: seq<Variant>, describe: Describe)
    requires vs != [] && StringTags(vs) && PropsUntouched(vs)
    ensures EnumsUntouched(Object(FlatFields(rest, vs, describe)))
  {
    forall m: nat | m < |FlatProperties(vs, describe)| ensures EnumsUntouched(FlatProperties(vs, describe)[m].value) {
      FlatPropertiesUntouched(vs, describe, m);
    }
    FlatFieldsAre(rest, vs, describe);
    hide FlatProperties, FlatFields, Rewritten, StringTags, PropsUntouched;
    PropertiesOnly(FlatFields(rest, vs, describe), FlatProperties(vs, describe));
  }

  lemma FlatFieldsAre(rest: seq<Field>, vs: seq<Variant>, describe: Describe)
    requires vs != []
    ensures NothingButProperties(FlatFields(rest, vs, describe), FlatProperties(vs, describe))
  {
    hide FlatProperties, Get, AllRequireTag;
  }

  /** Of the keywords under which schemas or values stand, only "properties" is there. */
  predicate NothingButProperties(fields: seq<Field>, properties: seq<Field>) {
    forall p :: 0 <= p < |fields| ==>
      fields[p].key in {"description", "$schema", "type", "required"}
        || fields[p] == Field("properties", Object(properties))
  }

  lemma PropertiesOnly(fields: seq<Field>, properties: seq<Field>)
    requires NothingButProperties(fields, properties)
    requires forall m: nat :: m < |properties| ==> EnumsUntouched(properties[m].value)
    ensures EnumsUntouched(Object(fields))
  {
    hide Rewritten;
  }

  lemma FlatUntouched(schema: Value, describe: Describe)
    requires TagDispatched(schema) && StringTags(VariantsOf(schema)) && EnumsUntouched(schema)
    ensures EnumsUntouched(Flatten(schema, describe))
  {
    var variants, vs := Get(schema.fields, "oneOf").value.items, VariantsOf(schema);
    var p := Position(schema.fields, "oneOf");
    assert schema.fields[p].key in {"oneOf", "allOf", "anyOf"} && schema.fields[p].value == Array(variants);
    assert forall k :: 0 <= k < |variants| ==> EnumsUntouched(variants[k]);
    assert Flatten(schema, describe) == Object(FlatFields(Remove(schema.fields, "oneOf"), vs, describe));
    hide EnumsUntouched, Flatten, FlatFields, StringTags, ReadVariant, Get, Remove;
    forall k: nat, key | k < |vs| && Has(vs[k].props, key) ensures EnumsUntouched(Get(vs[k].props, key).value) {
      OneDiscriminator(variants, |variants|, k);
      PropertyUntouched(variants[k], vs[k], key);
    }
    FlatFieldsUntouched(Remove(schema.fields, "oneOf"), vs, describe);
  }

  /**
   What the provider is shown only relaxes what the tool declared: for closed, string-tagged
   variants that agree on shared fields, and enum and const values that the rewrite leaves alone,
   every instance the declared schema accepts is accepted.
   */
  lemma ShownRelaxes(schema: Value, describe: Describe, instance: Value)
    requires TagDispatched(schema) && IsJson(schema) && EnumsUntouched(schema)
    requires forall k :: 0 <= k < |Get(schema.fields, "oneOf").value.items| ==>
             Closed(Get(schema.fields, "oneOf").value.items[k])
    requires StringTags(VariantsOf(schema)) && Agreeing(VariantsOf(schema))
    requires Validates(schema, instance)
    ensures Validates(ParametersSchema(schema, describe), instance)
  {
    FlatUntouched(schema, describe);
    FlatteningRelaxes(schema, describe, instance);
    hide *;
    RewritePreserves(Flatten(schema, describe), instance);
    ShownIs(schema, describe);
  }

  /**
   What is shown is the flat schema with every `items: true`, wherever it stands, made `items: {}`, and
   nothing else changed.
   */
  lemma ShownExactly(schema: Value, describe: Describe, path: seq<Step>)
    ensures var flat, shown := Flatten(schema, describe), ParametersSchema(schema, describe);
            && (At(shown, path).Some? <==> At(flat, path).Some?)
            && (At(flat, path).Some? ==>
                  if EndsInQuirk(flat, path) then At(shown, path).value == Object([])
                  else SameOnTop(At(flat, path).value, At(shown, path).value))
  {
    RewrittenExactly(Flatten(schema, describe), path);
    hide Flatten, At, EndsInQuirk, SameOnTop;
  }

  lemma ShownIs(schema: Value, describe: Describe)
    ensures ParametersSchema(schema, describe) == Rewritten(Flatten(schema, describe))
  {
  }
}
