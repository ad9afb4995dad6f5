/** JSON values. An object is its list of fields in insertion order. */
module Json {
  import opened Wrappers

  datatype Value =
    | Null
    | Bool(flag: bool)
    | Number(n: int)
    | String(text: string)
    | Array(items: seq<Value>)
    | Object(fields: seq<Field>)

  datatype Field = Field(key: string, value: Value)

  /** Position of a key, or the length when the key is missing. */
  function Position(fields: seq<Field>, key: string): (p: nat)
    ensures p <= |fields|
    ensures p < |fields| ==> fields[p].key == key
    ensures forall i :: 0 <= i < p ==> fields[i].key != key
  {
    if fields == [] || fields[0].key == key then 0 else 1 + Position(fields[1..], key)
  }

  predicate Has(fields: seq<Field>, key: string) {
    Position(fields, key) < |fields|
  }

  function Get(fields: seq<Field>, key: string): Option<Value> {
    if Has(fields, key) then Some(fields[Position(fields, key)].value) else None
  }

  /** Replaces the value of an existing key in place, or appends a new field. */
  function Put(fields: seq<Field>, key: string, value: Value): seq<Field> {
    if Has(fields, key)
    then fields[Position(fields, key) := Field(key, value)]
    else fields + [Field(key, value)]
  }

  predicate UniqueKeys(fields: seq<Field>) {
    forall i, j :: 0 <= i < j < |fields| ==> fields[i].key != fields[j].key
  }

  /** serde_json's Map::remove with insertion order kept: the last field takes the removed one's place. */
  function Remove(fields: seq<Field>, key: string): seq<Field> {
    if !Has(fields, key) then fields
    else
      var last := |fields| - 1;
      if Position(fields, key) == last then fields[..last] else fields[Position(fields, key) := fields[last]][..last]
  }

  /** The same map: the same keys with the same values, in whatever order. */
  ghost predicate SameMap(a: seq<Field>, b: seq<Field>) {
    |a| == |b| && forall key :: Get(a, key) == Get(b, key)
  }

  lemma {:induction false} GetAppend(fields: seq<Field>, f: Field, key: string)
    ensures Get(fields + [f], key)
         == if Has(fields, key) then Get(fields, key) else if f.key == key then Some(f.value) else None
    ensures Has(fields + [f], key) <==> Has(fields, key) || f.key == key
  {
    if fields == [] {
      assert [f][1..] == [];
      NothingAdded([f]);
    } else {
      assert (fields + [f])[1..] == fields[1..] + [f] && (fields + [f])[0] == fields[0];
      GetAppend(fields[1..], f, key);
    }
  }

  /** With unique keys, the field at a position is the one its key finds. */
  lemma FoundAt(fields: seq<Field>, i: nat)
    requires UniqueKeys(fields) && i < |fields|
    ensures Position(fields, fields[i].key) == i && Get(fields, fields[i].key) == Some(fields[i].value)
  {
    var p := Position(fields, fields[i].key);
    assert p <= i && fields[p].key == fields[i].key;
  }

  lemma NotThere(fields: seq<Field>, key: string)
    requires forall i :: 0 <= i < |fields| ==> fields[i].key != key
    ensures !Has(fields, key) && Get(fields, key) == None
  {
  }

  lemma Found(fields: seq<Field>, key: string, i: nat)
    requires UniqueKeys(fields) && i < |fields| && fields[i].key == key
    ensures Get(fields, key) == Some(fields[i].value)
  {
    FoundAt(fields, i);
  }

  lemma GetPut(fields: seq<Field>, key: string, value: Value, k: string)
    requires UniqueKeys(fields)
    ensures Get(Put(fields, key, value), k) == if k == key then Some(value) else Get(fields, k)
    ensures UniqueKeys(Put(fields, key, value))
  {
    if Has(fields, key) {
      var p := Position(fields, key);
      var after := fields[p := Field(key, value)];
      assert UniqueKeys(after);
      if k == key {
        Found(after, k, p);
      } else if Has(fields, k) {
        Found(after, k, Position(fields, k));
      } else {
        NotThere(after, k);
      }
    } else {
      GetAppend(fields, Field(key, value), k);
    }
  }

  lemma RemoveUnique(fields: seq<Field>, key: string)
    requires UniqueKeys(fields)
    ensures UniqueKeys(Remove(fields, key))
    ensures forall i :: 0 <= i < |Remove(fields, key)| ==> Remove(fields, key)[i].key != key
  {
    if Has(fields, key) {
      FoundAt(fields, Position(fields, key));
    }
  }

  lemma GetRemove(fields: seq<Field>, key: string, k: string)
    requires UniqueKeys(fields)
    ensures Get(Remove(fields, key), k) == if k == key then None else Get(fields, k)
  {
    RemoveUnique(fields, key);
    var after := Remove(fields, key);
    if k == key {
      NotThere(after, k);
    } else if Has(fields, key) {
      var p, last := Position(fields, key), |fields| - 1;
      if Has(fields, k) {
        var q := Position(fields, k);
        Found(fields, k, q);
        assert q != p;
        Found(after, k, if q == last then p else q);
      } else {
        NotThere(after, k);
      }
    }
  }

  /** Taking a key out and putting its value back gives the same map, in a possibly different order. */
  lemma RemovePut(fields: seq<Field>, key: string)
    requires UniqueKeys(fields) && Has(fields, key)
    ensures SameMap(Put(Remove(fields, key), key, Get(fields, key).value), fields)
  {
    RemoveUnique(fields, key);
    NotThere(Remove(fields, key), key);
    forall k ensures Get(Put(Remove(fields, key), key, Get(fields, key).value), k) == Get(fields, k) {
      GetRemove(fields, key, k);
      GetPut(Remove(fields, key), key, Get(fields, key).value, k);
    }
  }

  /** Every object in the value is a map: its keys are unique. */
  predicate IsJson(v: Value)
    decreases v
  {
    match v
    case Array(items) => forall k :: 0 <= k < |items| ==> IsJson(items[k])
    case Object(fields) => UniqueKeys(fields) && forall k :: 0 <= k < |fields| ==> IsJson(fields[k].value)
    case _ => true
  }

  lemma JsonParts(fields: seq<Field>, key: string)
    requires IsJson(Object(fields))
    ensures UniqueKeys(fields)
    ensures Has(fields, key) ==> IsJson(Get(fields, key).value)
  {
    if Has(fields, key) {
      assert IsJson(fields[Position(fields, key)].value);
    }
  }
}
