// JSON values as `JSON.parse` builds them. An object keeps its fields in property order.
module Json {
  import opened Wrappers

  // `JSON.parse` turns an overlong literal such as 1e400 into an infinity, so a number need not be finite.
  datatype Value =
    | Null
    | Bool(b: bool)
    | Number(n: real)
    | Infinity(negative: bool)
    | Str(s: string)
    | Arr(items: seq<Value>)
    | Obj(fields: seq<Field>)

  datatype Field = Field(key: string, value: Value)

  type Record = seq<Field>

  // `Object.hasOwn`.
  predicate Has(record: Record, key: string) {
    exists i :: 0 <= i < |record| && record[i].key == key
  }

  // The own property `key`, or None.
  function Get(record: Record, key: string): (v: Option<Value>)
    ensures v.Some? <==> Has(record, key)
    ensures v.Some? ==> Field(key, v.value) in record
  {
    if record == [] then None
    else if record[0].key == key then Some(record[0].value)
    else
      assert forall k :: 0 <= k < |record| - 1 ==> record[1..][k] == record[k + 1];
      Get(record[1..], key)
  }

  // What `JSON.stringify` makes of a value, as a value again: an infinity prints as `null`.
  function Printed(v: Value): Value {
    match v
    case Infinity(_) => Null
    case Arr(items) => Arr(seq(|items|, i requires 0 <= i < |items| => Printed(items[i])))
    case Obj(fields) =>
      Obj(seq(|fields|, i requires 0 <= i < |fields| => Field(fields[i].key, Printed(fields[i].value))))
    case _ => v
  }

  // No infinity occurs in the value.
  predicate IsFinite(v: Value) {
    match v
    case Infinity(_) => false
    case Arr(items) => forall i :: 0 <= i < |items| ==> IsFinite(items[i])
    case Obj(fields) => forall i :: 0 <= i < |fields| ==> IsFinite(fields[i].value)
    case _ => true
  }

  // Such a value prints as itself.
  lemma {:induction false} FinitePrintsAsItself(v: Value)
    requires IsFinite(v)
    ensures Printed(v) == v
  {
    match v
    case Arr(items) =>
      forall i | 0 <= i < |items|
        ensures Printed(items[i]) == items[i]
      {
        FinitePrintsAsItself(items[i]);
      }
      assert Printed(v).items == items;
    case Obj(fields) =>
      forall i | 0 <= i < |fields|
        ensures Printed(fields[i].value) == fields[i].value
      {
        FinitePrintsAsItself(fields[i].value);
      }
      assert Printed(v).fields == fields;
    case _ =>
  }
}
