/** JSON Schema validation, as far as tool schemas use it. */
module JsonSchema {
  import opened Wrappers
  import opened Json

  /*
   Boolean schemas, type (section 6.1.1 of JSON Schema Validation draft-07), enum (6.1.2), const
   (6.1.3), items (6.4.1), required (6.5.3), properties (6.5.4), additionalProperties (6.5.6),
   allOf (6.7.1), anyOf (6.7.2), oneOf (6.7.3) and not (6.7.4). Numeric and string ranges and other
   keywords are not modelled: here they do not constrain.
   */

  /** Equality of JSON values: the order of an object's fields does not matter. */
  predicate Same(a: Value, b: Value)
    decreases a
  {
    match a
    case Array(xs) => b.Array? && |xs| == |b.items| && forall k :: 0 <= k < |xs| ==> Same(xs[k], b.items[k])
    case Object(fs) =>
      b.Object? && |fs| == |b.fields|
      && forall k :: 0 <= k < |fs| ==>
        Has(b.fields, fs[k].key) && Same(fs[k].value, b.fields[Position(b.fields, fs[k].key)].value)
    case _ => a == b
  }

  predicate TypeNamed(name: string, instance: Value) {
    match instance
    case Null => name == "null"
    case Bool(_) => name == "boolean"
    case Number(_) => name == "number" || name == "integer"
    case String(_) => name == "string"
    case Array(_) => name == "array"
    case Object(_) => name == "object"
  }

  predicate TypeAllows(type_: Option<Value>, instance: Value) {
    match type_
    case Some(String(name)) => TypeNamed(name, instance)
    case Some(Array(names)) => exists k :: 0 <= k < |names| && names[k].String? && TypeNamed(names[k].text, instance)
    case _ => true
  }

  predicate EnumAllows(enum_: Option<Value>, instance: Value) {
    enum_.Some? && enum_.value.Array? ==>
      exists k :: 0 <= k < |enum_.value.items| && Same(enum_.value.items[k], instance)
  }

  predicate ConstAllows(const_: Option<Value>, instance: Value) {
    const_.Some? ==> Same(const_.value, instance)
  }

  predicate RequiredPresent(required: Option<Value>, instance: Value) {
    required.Some? && required.value.Array? && instance.Object? ==>
      forall k :: 0 <= k < |required.value.items| && required.value.items[k].String? ==>
        Has(instance.fields, required.value.items[k].text)
  }

  function PropertiesOf(fields: seq<Field>): seq<Field> {
    var properties := Get(fields, "properties");
    if properties.Some? && properties.value.Object? then properties.value.fields else []
  }

  ghost predicate Validates(schema: Value, instance: Value)
    decreases schema, 1
  {
    match schema
    case Bool(allowed) => allowed
    case Object(fields) =>
      && TypeAllows(Get(fields, "type"), instance)
      && EnumAllows(Get(fields, "enum"), instance)
      && RequiredPresent(Get(fields, "required"), instance)
      && PropertiesHold(schema, instance)
      && OthersHold(schema, instance)
      && ItemsHold(schema, instance)
      && OneHolds(schema, instance)
      && CombinedHold(schema, instance)
    case _ => false
  }

  ghost predicate PropertiesHold(schema: Value, instance: Value)
    requires schema.Object?
    decreases schema, 0
  {
    var p := Position(schema.fields, "properties");
    p < |schema.fields| && schema.fields[p].value.Object? && instance.Object? ==>
      var properties := schema.fields[p].value.fields;
      forall k :: 0 <= k < |properties| && Has(instance.fields, properties[k].key) ==>
        Validates(properties[k].value, instance.fields[Position(instance.fields, properties[k].key)].value)
  }

  ghost predicate OthersHold(schema: Value, instance: Value)
    requires schema.Object?
    decreases schema, 0
  {
    var p := Position(schema.fields, "additionalProperties");
    p < |schema.fields| && instance.Object? ==>
      forall k :: 0 <= k < |instance.fields| && !Has(PropertiesOf(schema.fields), instance.fields[k].key) ==>
        Validates(schema.fields[p].value, instance.fields[k].value)
  }

  ghost predicate ItemsHold(schema: Value, instance: Value)
    requires schema.Object?
    decreases schema, 0
  {
    var p := Position(schema.fields, "items");
    p < |schema.fields| && instance.Array? ==>
      forall k :: 0 <= k < |instance.items| ==> Validates(schema.fields[p].value, instance.items[k])
  }

  predicate ExactlyOne(accepted: seq<bool>) {
    exists k :: 0 <= k < |accepted| && accepted[k] && forall j :: 0 <= j < |accepted| && j != k ==> !accepted[j]
  }

  /** Exactly one of the variants accepts the instance. */
  ghost predicate OneHolds(schema: Value, instance: Value)
    requires schema.Object?
    decreases schema, 0
  {
    var p := Position(schema.fields, "oneOf");
    p < |schema.fields| && schema.fields[p].value.Array? ==>
      var variants := schema.fields[p].value.items;
      ExactlyOne(seq(|variants|, k requires 0 <= k < |variants| => Validates(variants[k], instance)))
  }

  predicate AllTrue(accepted: seq<bool>) {
    forall k :: 0 <= k < |accepted| ==> accepted[k]
  }

  /** The remaining combinations: const, all of, some of, and not. */
  ghost predicate CombinedHold(schema: Value, instance: Value)
    requires schema.Object?
    decreases schema, 0
  {
    var all, any, none := Position(schema.fields, "allOf"), Position(schema.fields, "anyOf"),
      Position(schema.fields, "not");
    && ConstAllows(Get(schema.fields, "const"), instance)
    && (all < |schema.fields| && schema.fields[all].value.Array? ==>
          var variants := schema.fields[all].value.items;
          AllTrue(seq(|variants|, k requires 0 <= k < |variants| => Validates(variants[k], instance))))
    && (any < |schema.fields| && schema.fields[any].value.Array? ==>
          var variants := schema.fields[any].value.items;
          true in seq(|variants|, k requires 0 <= k < |variants| => Validates(variants[k], instance)))
    && (none < |schema.fields| ==> !Validates(schema.fields[none].value, instance))
  }

  // ----- the keywords that constrain

  predicate AgreeOnKeywords(a: seq<Field>, b: seq<Field>) {
    && Get(a, "type") == Get(b, "type") && Get(a, "enum") == Get(b, "enum") && Get(a, "required") == Get(b, "required")
    && Get(a, "properties") == Get(b, "properties") && Get(a, "additionalProperties") == Get(b, "additionalProperties")
    && Get(a, "items") == Get(b, "items") && Get(a, "oneOf") == Get(b, "oneOf") && Get(a, "const") == Get(b, "const")
    && Get(a, "allOf") == Get(b, "allOf") && Get(a, "anyOf") == Get(b, "anyOf") && Get(a, "not") == Get(b, "not")
  }

  lemma SameValueAt(a: seq<Field>, b: seq<Field>, key: string)
    requires Get(a, key) == Get(b, key)
    ensures Has(a, key) == Has(b, key)
    ensures Has(a, key) ==> a[Position(a, key)].value == b[Position(b, key)].value
  {
  }

  lemma SameProperties(a: seq<Field>, b: seq<Field>, instance: Value)
    requires Get(a, "properties") == Get(b, "properties")
    ensures PropertiesHold(Object(a), instance) == PropertiesHold(Object(b), instance)
  {
    SameValueAt(a, b, "properties");
    hide Validates, Get;
  }

  lemma SameOthers(a: seq<Field>, b: seq<Field>, instance: Value)
    requires Get(a, "properties") == Get(b, "properties")
             && Get(a, "additionalProperties") == Get(b, "additionalProperties")
    ensures OthersHold(Object(a), instance) == OthersHold(Object(b), instance)
  {
    SameValueAt(a, b, "additionalProperties");
    assert PropertiesOf(a) == PropertiesOf(b);
    hide Validates, Get, PropertiesOf;
  }

  lemma SameItems(a: seq<Field>, b: seq<Field>, instance: Value)
    requires Get(a, "items") == Get(b, "items")
    ensures ItemsHold(Object(a), instance) == ItemsHold(Object(b), instance)
  {
    SameValueAt(a, b, "items");
    hide Validates, Get;
  }

  lemma SameOne(a: seq<Field>, b: seq<Field>, instance: Value)
    requires Get(a, "oneOf") == Get(b, "oneOf")
    ensures OneHolds(Object(a), instance) == OneHolds(Object(b), instance)
  {
    SameValueAt(a, b, "oneOf");
    hide Validates, Get;
  }

  lemma SameCombined(a: seq<Field>, b: seq<Field>, instance: Value)
    requires Get(a, "const") == Get(b, "const") && Get(a, "allOf") == Get(b, "allOf")
    requires Get(a, "anyOf") == Get(b, "anyOf") && Get(a, "not") == Get(b, "not")
    ensures CombinedHold(Object(a), instance) == CombinedHold(Object(b), instance)
  {
    SameValueAt(a, b, "allOf");
    SameValueAt(a, b, "anyOf");
    SameValueAt(a, b, "not");
    hide Validates, Get, ConstAllows, AllTrue;
  }

  /** Keywords that are not there do not constrain. */
  lemma Unconstrained(fields: seq<Field>, instance: Value)
    ensures Get(fields, "properties") == None ==> PropertiesHold(Object(fields), instance)
    ensures Get(fields, "additionalProperties") == None ==> OthersHold(Object(fields), instance)
    ensures Get(fields, "items") == None ==> ItemsHold(Object(fields), instance)
    ensures Get(fields, "oneOf") == None ==> OneHolds(Object(fields), instance)
    ensures Get(fields, "const") == None && Get(fields, "allOf") == None && Get(fields, "anyOf") == None
            && Get(fields, "not") == None ==>
              CombinedHold(Object(fields), instance)
  {
    hide Validates;
  }

  lemma NoCombination(fields: seq<Field>)
    requires forall i :: 0 <= i < |fields| ==>
             fields[i].key != "const" && fields[i].key != "allOf" && fields[i].key != "anyOf" && fields[i].key != "not"
    ensures Get(fields, "const") == None && Get(fields, "allOf") == None && Get(fields, "anyOf") == None
            && Get(fields, "not") == None
  {
    NotThere(fields, "const");
    NotThere(fields, "allOf");
    NotThere(fields, "anyOf");
    NotThere(fields, "not");
  }

  /** Schemas that agree on the constraining keywords accept the same instances. */
  lemma OnlyKeywordsMatter(a: seq<Field>, b: seq<Field>, instance: Value)
    requires AgreeOnKeywords(a, b)
    ensures Validates(Object(a), instance) == Validates(Object(b), instance)
  {
    hide Get, TypeAllows, EnumAllows, RequiredPresent, PropertiesHold, OthersHold, ItemsHold, OneHolds, CombinedHold;
    SameProperties(a, b, instance);
    SameOthers(a, b, instance);
    SameItems(a, b, instance);
    SameOne(a, b, instance);
    SameCombined(a, b, instance);
  }

  /** A schema all of whose parts hold accepts. */
  lemma ObjectAccepts(schema: Value, instance: Value)
    requires schema.Object?
    requires TypeAllows(Get(schema.fields, "type"), instance) && EnumAllows(Get(schema.fields, "enum"), instance)
    requires RequiredPresent(Get(schema.fields, "required"), instance)
    requires PropertiesHold(schema, instance) && OthersHold(schema, instance) && ItemsHold(schema, instance)
    requires OneHolds(schema, instance) && CombinedHold(schema, instance)
    ensures Validates(schema, instance)
  {
    hide TypeAllows, EnumAllows, RequiredPresent, PropertiesHold, OthersHold, ItemsHold, OneHolds, CombinedHold, Get;
  }

  /** A schema that is a one-valued enum accepts exactly that value. */
  lemma EnumOnly(allowed: Value, instance: Value)
    ensures Validates(Object([Field("enum", Array([allowed]))]), instance) == Same(allowed, instance)
  {
    var fields := [Field("enum", Array([allowed]))];
    Found(fields, "enum", 0);
    NotThere(fields, "type");
    NotThere(fields, "required");
    NotThere(fields, "properties");
    NotThere(fields, "additionalProperties");
    NotThere(fields, "items");
    NotThere(fields, "oneOf");
    NoCombination(fields);
    Unconstrained(fields, instance);
    hide Same;
    assert Get(fields, "enum").value.items[0] == allowed;
    assert EnumAllows(Get(fields, "enum"), instance) == Same(allowed, instance);
    hide Get, EnumAllows, PropertiesHold, OthersHold, ItemsHold, OneHolds, CombinedHold;
  }
}
