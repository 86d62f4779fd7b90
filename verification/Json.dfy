/** JSON values; an object is the sequence of its fields in stored order. */
module Json {
  import opened Utf8Text

  datatype Value =
    | Null
    | Bool(flag: bool)
    | Number(digits: string)
    | String(text: string)
    | Array(items: seq<Value>)
    | Object(fields: seq<Field>)

  datatype Field = Field(key: string, value: Value)

  /** The position of a key from i on. */
  function Find(fields: seq<Field>, key: string, i: nat): (k: Option<nat>)
    requires i <= |fields|
    ensures k.Some? ==> i <= k.value < |fields| && fields[k.value].key == key
    ensures k.None? ==> forall j :: i <= j < |fields| ==> fields[j].key != key
    decreases |fields| - i
  {
    if i == |fields| then None else if fields[i].key == key then Some(i) else Find(fields, key, i + 1)
  }

  function Get(value: Value, key: string): Option<Value> {
    if value.Object? && Find(value.fields, key, 0).Some?
    then Some(value.fields[Find(value.fields, key, 0).value].value) else None
  }

  function GetIndex(value: Value, index: nat): Option<Value> {
    if value.Array? && index < |value.items| then Some(value.items[index]) else None
  }

  predicate UniqueKeys(fields: seq<Field>) {
    forall i, j :: 0 <= i < j < |fields| ==> fields[i].key != fields[j].key
  }

  /** Objects have unique keys and arrays fit into memory, all the way down. */
  predicate WellFormed(value: Value) {
    match value
    case Array(items) => |items| < WORD && forall item <- items :: WellFormed(item)
    case Object(fields) => UniqueKeys(fields) && forall field <- fields :: WellFormed(field.value)
    case _ => true
  }
}
