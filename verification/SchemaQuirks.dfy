/** The `items: true` rewrite for strict schema validators (src/tool.rs). */
module SchemaQuirks {
  import opened Wrappers
  import opened Json
  import opened JsonSchema

  predicate IsQuirk(f: Field) {
    f.key == "items" && f.value == Bool(true)
  }

  /** The whole value with every `items: true` made `items: {}`, at any depth. */
  function Rewritten(v: Value): Value {
    match v
    case Object(fields) =>
      Object(seq(|fields|, i requires 0 <= i < |fields| =>
               Field(fields[i].key, if IsQuirk(fields[i]) then Object([]) else Rewritten(fields[i].value))))
    case Array(items) => Array(seq(|items|, i requires 0 <= i < |items| => Rewritten(items[i])))
    case _ => v
  }

  function RewrittenField(f: Field): Field {
    Field(f.key, if IsQuirk(f) then Object([]) else Rewritten(f.value))
  }

  function RewrittenFields(fields: seq<Field>): (r: seq<Field>)
    ensures |r| == |fields|
  {
    seq(|fields|, i requires 0 <= i < |fields| => RewrittenField(fields[i]))
  }

  lemma RewrittenObject(fields: seq<Field>)
    ensures Rewritten(Object(fields)) == Object(RewrittenFields(fields))
  {
    var r := Rewritten(Object(fields));
    assert r.fields == RewrittenFields(fields);
  }

  lemma {:induction false} RewrittenTwice(v: Value)
    ensures Rewritten(Rewritten(v)) == Rewritten(v)
    decreases v
  {
    match v {
      case Object(fields) =>
        var once := RewrittenFields(fields);
        RewrittenObject(fields);
        RewrittenObject(once);
        forall i | 0 <= i < |fields| ensures RewrittenField(once[i]) == once[i] {
          if IsQuirk(fields[i]) {
            assert once[i].value == Object([]) && Rewritten(Object([])) == Object([]);
          } else {
            RewrittenTwice(fields[i].value);
            NotMadeTrue(fields[i].value);
          }
        }
        assert RewrittenFields(once) == once;
      case Array(items) =>
        forall i | 0 <= i < |items| ensures Rewritten(Rewritten(items[i])) == Rewritten(items[i]) {
          RewrittenTwice(items[i]);
        }
        assert Rewritten(Rewritten(v)).items == Rewritten(v).items;
      case _ =>
    }
  }

  lemma NotMadeTrue(v: Value)
    ensures Rewritten(v) == Bool(true) <==> v == Bool(true)
    ensures Rewritten(v).String? <==> v.String?
    ensures Rewritten(v).Object? <==> v.Object?
    ensures Rewritten(v).Array? <==> v.Array?
    ensures v.String? ==> Rewritten(v) == v
  {
  }

  lemma {:induction false} SamePositions(a: seq<Field>, b: seq<Field>, key: string)
    requires |a| == |b| && forall i :: 0 <= i < |a| ==> a[i].key == b[i].key
    ensures Position(a, key) == Position(b, key)
  {
    if a != [] {
      SamePositions(a[1..], b[1..], key);
    }
  }

  lemma RewrittenPosition(fields: seq<Field>, key: string)
    ensures Position(RewrittenFields(fields), key) == Position(fields, key)
    ensures Has(fields, key) ==>
            RewrittenFields(fields)[Position(fields, key)] == RewrittenField(fields[Position(fields, key)])
  {
    SamePositions(RewrittenFields(fields), fields, key);
  }

  // ----- the rewrite, place by place

  /** One step down into a value: to an item of an array, or to the value of a field. */
  datatype Step = Item(i: nat) | Member(i: nat)

  /** What stands at the end of the path. */
  function At(v: Value, path: seq<Step>): Option<Value> {
    if path == [] then Some(v)
    else
      match path[0]
      case Item(i) => if v.Array? && i < |v.items| then At(v.items[i], path[1..]) else None
      case Member(i) => if v.Object? && i < |v.fields| then At(v.fields[i].value, path[1..]) else None
  }

  /** The path ends at the value of a field `items: true`. */
  predicate EndsInQuirk(v: Value, path: seq<Step>) {
    if path == [] then false
    else
      match path[0]
      case Item(i) => v.Array? && i < |v.items| && EndsInQuirk(v.items[i], path[1..])
      case Member(i) =>
        v.Object? && i < |v.fields|
        && if |path| == 1 then v.fields[i] == Field("items", Bool(true)) else EndsInQuirk(v.fields[i].value, path[1..])
  }

  /** The same value but for what stands below it: an array of that length, an object with those keys. */
  predicate SameOnTop(a: Value, b: Value) {
    match a
    case Array(items) => b.Array? && |b.items| == |items|
    case Object(fields) =>
      b.Object? && |b.fields| == |fields| && forall i :: 0 <= i < |fields| ==> b.fields[i].key == fields[i].key
    case _ => a == b
  }

  /** Every `items: true` becomes `items: {}`, wherever it stands, and nothing else changes. */
  lemma {:induction false} RewrittenExactly(v: Value, path: seq<Step>)
    ensures At(Rewritten(v), path).Some? <==> At(v, path).Some?
    ensures At(v, path).Some? ==>
              if EndsInQuirk(v, path) then At(Rewritten(v), path).value == Object([])
              else SameOnTop(At(v, path).value, At(Rewritten(v), path).value)
    decreases |path|
  {
    if path != [] {
      match path[0] {
        case Item(i) =>
          if v.Array? && i < |v.items| {
            assert Rewritten(v).items[i] == Rewritten(v.items[i]);
            RewrittenExactly(v.items[i], path[1..]);
          }
        case Member(i) =>
          if v.Object? && i < |v.fields| {
            RewrittenObject(v.fields);
            assert Rewritten(v).fields[i] == RewrittenField(v.fields[i]);
            RewrittenExactly(v.fields[i].value, path[1..]);
          }
      }
    }
  }

  /** At no schema position does an enum or const value contain something the rewrite would touch. */
  predicate EnumsUntouched(schema: Value)
    decreases schema
  {
    schema.Object? ==>
      var fields := schema.fields;
      && (forall p :: 0 <= p < |fields| && fields[p].key in {"enum", "const"} ==>
            Rewritten(fields[p].value) == fields[p].value)
      && (forall p :: 0 <= p < |fields| && fields[p].key in {"additionalProperties", "items", "not"} ==>
            EnumsUntouched(fields[p].value))
      && (forall p :: 0 <= p < |fields| && fields[p].key == "properties" && fields[p].value.Object? ==>
            forall k :: 0 <= k < |fields[p].value.fields| ==> EnumsUntouched(fields[p].value.fields[k].value))
      && (forall p :: 0 <= p < |fields| && fields[p].key in {"oneOf", "allOf", "anyOf"} && fields[p].value.Array? ==>
            forall k :: 0 <= k < |fields[p].value.items| ==> EnumsUntouched(fields[p].value.items[k]))
  }

  lemma EmptyAcceptsAll(instance: Value)
    ensures Validates(Object([]), instance) && Validates(Bool(true), instance)
  {
    var schema := Object([]);
    NotThere([], "type");
    NotThere([], "enum");
    NotThere([], "required");
    Unconstrained([], instance);
  }

  /** A rewritten schema under a key means what the schema meant, if that holds below. */
  lemma FieldPreserves(f: Field, instance: Value)
    requires EnumsUntouched(f.value)
    ensures Validates(RewrittenField(f).value, instance) == Validates(f.value, instance)
    decreases f.value, 3
  {
    if IsQuirk(f) {
      EmptyAcceptsAll(instance);
    } else {
      RewritePreserves(f.value, instance);
    }
  }

  lemma TypePreserved(fields: seq<Field>, instance: Value)
    ensures TypeAllows(Get(RewrittenFields(fields), "type"), instance) == TypeAllows(Get(fields, "type"), instance)
  {
    RewrittenPosition(fields, "type");
    if Has(fields, "type") {
      var v := fields[Position(fields, "type")].value;
      NotMadeTrue(v);
      if v.Array? {
        forall k | 0 <= k < |v.items|
          ensures Rewritten(v).items[k].String? == v.items[k].String?
                  && (v.items[k].String? ==> Rewritten(v).items[k] == v.items[k])
        {
          NotMadeTrue(v.items[k]);
        }
      }
    }
  }

  lemma EnumPreserved(fields: seq<Field>, instance: Value)
    requires EnumsUntouched(Object(fields))
    ensures EnumAllows(Get(RewrittenFields(fields), "enum"), instance) == EnumAllows(Get(fields, "enum"), instance)
  {
    RewrittenPosition(fields, "enum");
    if Has(fields, "enum") {
      assert Rewritten(fields[Position(fields, "enum")].value) == fields[Position(fields, "enum")].value;
    }
    hide EnumAllows;
  }

  lemma RequiredPreserved(fields: seq<Field>, instance: Value)
    ensures RequiredPresent(Get(RewrittenFields(fields), "required"), instance)
            == RequiredPresent(Get(fields, "required"), instance)
  {
    RewrittenPosition(fields, "required");
    if Has(fields, "required") {
      var v := fields[Position(fields, "required")].value;
      NotMadeTrue(v);
      if v.Array? {
        forall k | 0 <= k < |v.items|
          ensures Rewritten(v).items[k].String? == v.items[k].String?
                  && (v.items[k].String? ==> Rewritten(v).items[k] == v.items[k])
        {
          NotMadeTrue(v.items[k]);
        }
      }
    }
  }

  lemma {:induction false} PropertiesPreserved(schema: Value, instance: Value)
    requires schema.Object? && EnumsUntouched(schema)
    ensures PropertiesHold(Object(RewrittenFields(schema.fields)), instance) == PropertiesHold(schema, instance)
    decreases schema, 0
  {
    var fields := schema.fields;
    RewrittenPosition(fields, "properties");
    var p := Position(fields, "properties");
    if p < |fields| {
      NotMadeTrue(fields[p].value);
      if fields[p].value.Object? && instance.Object? {
        var properties := fields[p].value.fields;
        RewrittenObject(properties);
        hide Validates;
        forall k | 0 <= k < |properties| && Has(instance.fields, properties[k].key)
          ensures Validates(RewrittenFields(properties)[k].value,
                            instance.fields[Position(instance.fields, properties[k].key)].value)
               == Validates(properties[k].value, instance.fields[Position(instance.fields, properties[k].key)].value)
        {
          FieldPreserves(properties[k], instance.fields[Position(instance.fields, properties[k].key)].value);
        }
        assert forall k :: 0 <= k < |properties| ==> RewrittenFields(properties)[k].key == properties[k].key;
      }
    }
  }

  lemma SameKnownKeys(fields: seq<Field>, key: string)
    ensures Has(PropertiesOf(RewrittenFields(fields)), key) == Has(PropertiesOf(fields), key)
  {
    RewrittenPosition(fields, "properties");
    if Has(fields, "properties") {
      var v := fields[Position(fields, "properties")].value;
      NotMadeTrue(v);
      if v.Object? {
        RewrittenObject(v.fields);
        RewrittenPosition(v.fields, key);
      }
    }
  }

  lemma {:induction false} OthersPreserved(schema: Value, instance: Value)
    requires schema.Object? && EnumsUntouched(schema)
    ensures OthersHold(Object(RewrittenFields(schema.fields)), instance) == OthersHold(schema, instance)
    decreases schema, 0
  {
    var fields := schema.fields;
    RewrittenPosition(fields, "additionalProperties");
    var p := Position(fields, "additionalProperties");
    if p < |fields| && instance.Object? {
      hide Validates, PropertiesOf;
      assert fields[p].key in {"additionalProperties", "items", "not"};
      forall k | 0 <= k < |instance.fields|
        ensures Validates(RewrittenField(fields[p]).value, instance.fields[k].value)
                == Validates(fields[p].value, instance.fields[k].value)
        ensures Has(PropertiesOf(RewrittenFields(fields)), instance.fields[k].key)
                == Has(PropertiesOf(fields), instance.fields[k].key)
      {
        FieldPreserves(fields[p], instance.fields[k].value);
        SameKnownKeys(fields, instance.fields[k].key);
      }
    }
  }

  lemma {:induction false} ItemsPreserved(schema: Value, instance: Value)
    requires schema.Object? && EnumsUntouched(schema)
    ensures ItemsHold(Object(RewrittenFields(schema.fields)), instance) == ItemsHold(schema, instance)
    decreases schema, 0
  {
    var fields := schema.fields;
    RewrittenPosition(fields, "items");
    var p := Position(fields, "items");
    if p < |fields| && instance.Array? {
      hide Validates;
      assert fields[p].key in {"additionalProperties", "items", "not"};
      forall k | 0 <= k < |instance.items|
        ensures Validates(RewrittenField(fields[p]).value, instance.items[k])
                == Validates(fields[p].value, instance.items[k])
      {
        FieldPreserves(fields[p], instance.items[k]);
      }
    }
  }

  lemma ConstPreserved(fields: seq<Field>, instance: Value)
    requires EnumsUntouched(Object(fields))
    ensures ConstAllows(Get(RewrittenFields(fields), "const"), instance) == ConstAllows(Get(fields, "const"), instance)
  {
    RewrittenPosition(fields, "const");
    if Has(fields, "const") {
      assert fields[Position(fields, "const")].key in {"enum", "const"};
      assert Rewritten(fields[Position(fields, "const")].value) == fields[Position(fields, "const")].value;
    }
    hide ConstAllows;
  }

  /** Rewritten variants accept as the variants do, one by one. */
  lemma {:induction false} VariantsPreserved(value: Value, instance: Value)
    requires value.Array? && forall k :: 0 <= k < |value.items| ==> EnumsUntouched(value.items[k])
    ensures Rewritten(value).Array?
    ensures var before, after := value.items, Rewritten(value).items;
            seq(|after|, k requires 0 <= k < |after| => Validates(after[k], instance))
            == seq(|before|, k requires 0 <= k < |before| => Validates(before[k], instance))
    decreases value, 4
  {
    var before, after := value.items, Rewritten(value).items;
    hide Validates, EnumsUntouched;
    forall k | 0 <= k < |before| ensures Validates(after[k], instance) == Validates(before[k], instance) {
      RewritePreserves(before[k], instance);
    }
  }

  /** A keyword that lists schemas stays where it is, and its schemas accept as before, one by one. */
  lemma {:induction false} ListPreserved(schema: Value, key: string, instance: Value)
    requires schema.Object? && EnumsUntouched(schema) && key in {"oneOf", "allOf", "anyOf"}
    ensures var before, after, p := schema.fields, RewrittenFields(schema.fields), Position(schema.fields, key);
            && Position(after, key) == p
            && (p < |before| ==>
                  && after[p].value.Array? == before[p].value.Array?
                  && (before[p].value.Array? ==>
                        var listed, rewritten := before[p].value.items, after[p].value.items;
                        seq(|rewritten|, k requires 0 <= k < |rewritten| => Validates(rewritten[k], instance))
                        == seq(|listed|, k requires 0 <= k < |listed| => Validates(listed[k], instance))))
    decreases schema, 0
  {
    var fields := schema.fields;
    RewrittenPosition(fields, key);
    var p := Position(fields, key);
    if p < |fields| {
      NotMadeTrue(fields[p].value);
      if fields[p].value.Array? {
        assert fields[p].key in {"oneOf", "allOf", "anyOf"};
        VariantsPreserved(fields[p].value, instance);
        hide Validates;
      }
    }
  }

  lemma {:induction false} OnePreserved(schema: Value, instance: Value)
    requires schema.Object? && EnumsUntouched(schema)
    ensures OneHolds(Object(RewrittenFields(schema.fields)), instance) == OneHolds(schema, instance)
    decreases schema, 1
  {
    ListPreserved(schema, "oneOf", instance);
    hide Validates, EnumsUntouched;
  }

  lemma {:induction false} NotPreserved(schema: Value, instance: Value)
    requires schema.Object? && EnumsUntouched(schema) && Has(schema.fields, "not")
    ensures var p := Position(schema.fields, "not");
            Validates(RewrittenFields(schema.fields)[p].value, instance) == Validates(schema.fields[p].value, instance)
    decreases schema, 0
  {
    var fields, p := schema.fields, Position(schema.fields, "not");
    RewrittenPosition(fields, "not");
    assert fields[p].key in {"additionalProperties", "items", "not"};
    FieldPreserves(fields[p], instance);
  }

  lemma {:induction false} CombinedPreserved(schema: Value, instance: Value)
    requires schema.Object? && EnumsUntouched(schema)
    ensures CombinedHold(Object(RewrittenFields(schema.fields)), instance) == CombinedHold(schema, instance)
    decreases schema, 1
  {
    ConstPreserved(schema.fields, instance);
    ListPreserved(schema, "allOf", instance);
    ListPreserved(schema, "anyOf", instance);
    RewrittenPosition(schema.fields, "not");
    if Has(schema.fields, "not") {
      NotPreserved(schema, instance);
    }
    hide Validates, ConstAllows, Rewritten, RewrittenFields, Get, EnumsUntouched, AllTrue;
  }

  /** At schema positions the rewrite keeps every schema's meaning: it accepts the same instances as before. */
  lemma {:induction false} RewritePreserves(schema: Value, instance: Value)
    requires EnumsUntouched(schema)
    ensures Validates(Rewritten(schema), instance) == Validates(schema, instance)
    decreases schema, 2
  {
    if schema.Object? {
      RewrittenObject(schema.fields);
      TypePreserved(schema.fields, instance);
      EnumPreserved(schema.fields, instance);
      RequiredPreserved(schema.fields, instance);
      PropertiesPreserved(schema, instance);
      OthersPreserved(schema, instance);
      ItemsPreserved(schema, instance);
      OnePreserved(schema, instance);
      CombinedPreserved(schema, instance);
      hide CombinedHold, Rewritten, RewrittenFields, EnumsUntouched, TypeAllows, EnumAllows, RequiredPresent,
           PropertiesHold, OthersHold, ItemsHold, OneHolds, Get;
    }
  }

  /** Inside an enum the rewrite does change the meaning: the walk does not know where schemas end. */
  lemma EnumValuesAreRewritten()
    ensures var value := Object([Field("items", Bool(true))]);
            var schema := Object([Field("enum", Array([value]))]);
            Validates(schema, value) && !Validates(Rewritten(schema), value)
  {
    var value := Object([Field("items", Bool(true))]);
    var schema := Object([Field("enum", Array([value]))]);
    var changed := Object([Field("items", Object([]))]);
    RewrittenObject(value.fields);
    assert RewrittenFields(value.fields) == changed.fields;
    var after := Object([Field("enum", Array([changed]))]);
    RewrittenObject(schema.fields);
    assert Rewritten(Array([value])).items == [changed];
    assert RewrittenFields(schema.fields) == after.fields;
    assert Position(value.fields, "items") == 0;
    assert Same(value, value);
    if Same(changed, value) {
      SameOnlyField(changed.fields[0], value.fields[0]);
      assert false;
    }
    EnumOnly(value, value);
    EnumOnly(changed, value);
  }

  lemma SameOnlyField(f: Field, g: Field)
    requires Same(Object([f]), Object([g])) && f.key == g.key
    ensures Same(f.value, g.value)
  {
    var a := [f];
    assert Same(a[0].value, Object([g]).fields[Position([g], a[0].key)].value);
  }

  // ----- when an enum keeps its meaning

  lemma {:induction false} SameReflexive(v: Value)
    requires IsJson(v)
    ensures Same(v, v)
    decreases v
  {
    match v {
      case Array(items) =>
        forall k | 0 <= k < |items| ensures Same(items[k], items[k]) {
          SameReflexive(items[k]);
        }
      case Object(fields) =>
        forall k: nat | k < |fields|
          ensures Has(fields, fields[k].key) && Same(fields[k].value, fields[Position(fields, fields[k].key)].value)
        {
          FoundAt(fields, k);
          SameReflexive(fields[k].value);
        }
      case _ =>
    }
  }

  lemma {:induction false} RewrittenIsJson(v: Value)
    requires IsJson(v)
    ensures IsJson(Rewritten(v))
    decreases v
  {
    match v {
      case Array(items) =>
        forall k | 0 <= k < |items| ensures IsJson(Rewritten(items[k])) {
          RewrittenIsJson(items[k]);
        }
      case Object(fields) =>
        var after := RewrittenFields(fields);
        RewrittenObject(fields);
        forall k | 0 <= k < |fields| ensures IsJson(after[k].value) {
          if !IsQuirk(fields[k]) {
            RewrittenIsJson(fields[k].value);
          }
        }
        forall i, j | 0 <= i < j < |after| ensures after[i].key != after[j].key {
          assert fields[i].key != fields[j].key;
        }
      case _ =>
    }
  }

  function Keys(fields: seq<Field>): set<string> {
    set i | 0 <= i < |fields| :: fields[i].key
  }

  lemma {:induction false} KeyCount(fields: seq<Field>)
    requires UniqueKeys(fields)
    ensures |Keys(fields)| == |fields|
    decreases |fields|
  {
    if fields != [] {
      KeyCount(fields[..|fields| - 1]);
      KeysSnoc(fields);
      hide Keys;
    }
  }

  lemma KeysSnoc(fields: seq<Field>)
    requires UniqueKeys(fields) && fields != []
    ensures var front, last := fields[..|fields| - 1], fields[|fields| - 1].key;
            Keys(fields) == Keys(front) + {last} && last !in Keys(front) && UniqueKeys(front)
  {
    var front, last := fields[..|fields| - 1], fields[|fields| - 1].key;
    forall key | key in Keys(fields) ensures key in Keys(front) + {last} {
      var i :| 0 <= i < |fields| && fields[i].key == key;
      if i < |front| {
        assert front[i].key == key;
      }
    }
    forall key | key in Keys(front) + {last} ensures key in Keys(fields) {
      if key in Keys(front) {
        var i :| 0 <= i < |front| && front[i].key == key;
        assert fields[i].key == key;
      }
    }
  }

  lemma SubsetOfSameSize<T>(a: set<T>, b: set<T>)
    requires a <= b && |a| == |b|
    ensures a == b
  {
    assert |b - a| == 0;
  }

  /** Objects that are the same have the same keys. */
  lemma SameKeys(f: seq<Field>, g: seq<Field>)
    requires UniqueKeys(f) && UniqueKeys(g) && Same(Object(f), Object(g))
    ensures forall j :: 0 <= j < |g| ==> Has(f, g[j].key)
  {
    KeyCount(f);
    KeyCount(g);
    forall key | key in Keys(f) ensures key in Keys(g) {
      var i :| 0 <= i < |f| && f[i].key == key;
      assert g[Position(g, f[i].key)].key == key;
    }
    SubsetOfSameSize(Keys(f), Keys(g));
    forall j | 0 <= j < |g| ensures Has(f, g[j].key) {
      assert g[j].key in Keys(f);
      var i :| 0 <= i < |f| && f[i].key == g[j].key;
      FoundAt(f, i);
    }
  }

  lemma SameAtKey(f: seq<Field>, g: seq<Field>, j: nat)
    requires UniqueKeys(f) && UniqueKeys(g) && Same(Object(f), Object(g)) && j < |g|
    ensures Has(f, g[j].key) && Same(f[Position(f, g[j].key)].value, g[j].value)
  {
    SameKeys(f, g);
    FoundAt(g, j);
    var i := Position(f, g[j].key);
    assert f[i].key == g[j].key;
    assert Same(f[i].value, Object(g).fields[Position(g, f[i].key)].value);
  }

  lemma UntouchedField(f: seq<Field>, i: nat)
    requires Rewritten(Object(f)) == Object(f) && i < |f|
    ensures !IsQuirk(f[i]) && Rewritten(f[i].value) == f[i].value
  {
    RewrittenObject(f);
    assert RewrittenFields(f)[i] == f[i];
  }

  lemma AllUntouched(f: seq<Field>)
    requires forall i :: 0 <= i < |f| ==> RewrittenField(f[i]) == f[i]
    ensures Rewritten(Object(f)) == Object(f)
  {
    RewrittenObject(f);
    assert RewrittenFields(f) == f;
  }

  /** What is the same as a value the rewrite leaves alone is left alone too. */
  lemma {:induction false} SameUntouched(a: Value, b: Value)
    requires IsJson(a) && IsJson(b) && Same(a, b) && Rewritten(a) == a
    ensures Rewritten(b) == b
    decreases a
  {
    match a {
      case Array(items) =>
        forall k | 0 <= k < |items| ensures Rewritten(b.items[k]) == b.items[k] {
          assert Rewritten(a).items[k] == items[k];
          SameUntouched(items[k], b.items[k]);
        }
        assert Rewritten(b).items == b.items;
      case Object(f) =>
        var g := b.fields;
        forall j: nat | j < |g| ensures RewrittenField(g[j]) == g[j] {
          SameAtKey(f, g, j);
          var i := Position(f, g[j].key);
          UntouchedField(f, i);
          SameUntouched(f[i].value, g[j].value);
        }
        AllUntouched(g);
      case _ =>
    }
  }

  /** On JSON instances, the rewritten enum accepts what the enum accepted. */
  ghost predicate EnumKept(values: seq<Value>) {
    forall instance :: IsJson(instance) ==>
      EnumAllows(Some(Rewritten(Array(values))), instance) == EnumAllows(Some(Array(values)), instance)
  }

  lemma ChangedValueIsLost(values: seq<Value>, k: nat)
    requires IsJson(Array(values)) && k < |values| && Rewritten(values[k]) != values[k]
    ensures IsJson(values[k]) && EnumAllows(Some(Array(values)), values[k])
            && !EnumAllows(Some(Rewritten(Array(values))), values[k])
  {
    var v, after := values[k], Rewritten(Array(values)).items;
    SameReflexive(v);
    assert Same(Array(values).items[k], v);
    forall j | 0 <= j < |after| ensures !Same(after[j], v) {
      RewrittenTwice(values[j]);
      RewrittenIsJson(values[j]);
      if Same(after[j], v) {
        SameUntouched(after[j], v);
        assert false;
      }
    }
  }

  /** The rewrite keeps what an enum accepts exactly when it changes none of its values. */
  lemma EnumKeptExactly(values: seq<Value>)
    requires IsJson(Array(values))
    ensures EnumKept(values) <==> forall k :: 0 <= k < |values| ==> Rewritten(values[k]) == values[k]
  {
    hide EnumAllows, IsJson;
    if EnumKept(values) {
      forall k: nat | k < |values| ensures Rewritten(values[k]) == values[k] {
        if Rewritten(values[k]) != values[k] {
          ChangedValueIsLost(values, k);
          assert false;
        }
      }
    }
    if forall k :: 0 <= k < |values| ==> Rewritten(values[k]) == values[k] {
      assert Rewritten(Array(values)).items == values;
    }
  }

  // ----- the program

  method NormalizeStrictValidatorQuirks(value: Value) returns (v: Value)
    ensures v == Rewritten(value)
    decreases value
  {
    match value {
      case Object(fields) =>
        var out := fields;
        for i := 0 to |fields|
          invariant |out| == |fields|
          invariant forall k :: 0 <= k < i ==> out[k] == RewrittenField(fields[k])
          invariant forall k :: i <= k < |fields| ==> out[k] == fields[k]
        {
          if IsQuirk(fields[i]) {
            out := out[i := Field(fields[i].key, Object([]))];
          } else {
            var inner := NormalizeStrictValidatorQuirks(fields[i].value);
            out := out[i := Field(fields[i].key, inner)];
          }
        }
        RewrittenObject(fields);
        assert out == RewrittenFields(fields);
        v := Object(out);
      case Array(items) =>
        var out := items;
        for i := 0 to |items|
          invariant |out| == |items|
          invariant forall k :: 0 <= k < i ==> out[k] == Rewritten(items[k])
          invariant forall k :: i <= k < |items| ==> out[k] == items[k]
        {
          var inner := NormalizeStrictValidatorQuirks(items[i]);
          out := out[i := inner];
        }
        assert out == Rewritten(value).items;
        v := Array(out);
      case _ => v := value;
    }
  }
}
