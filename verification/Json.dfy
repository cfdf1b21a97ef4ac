/**
 JSON values as `serde_json` holds them. An object is its list of entries in iteration order;
 a value inside a document is addressed by a pointer, the list of entry positions from the root.
 */
module Json {
  import opened Basics

  datatype Value =
    | Null
    | Bool(b: bool)
    | Number(n: real)
    | Str(text: string)
    | Arr(items: seq<Value>)
    | Obj(fields: seq<Field>)

  datatype Field = Field(key: string, value: Value)

  type Pointer = seq<nat>

  function Entries(v: Value): seq<Value> {
    match v
    case Arr(items) => items
    case Obj(fields) => seq(|fields|, i requires 0 <= i < |fields| => fields[i].value)
    case _ => []
  }

  function At(v: Value, p: Pointer): Option<Value>
    decreases |p|
  {
    if p == [] then Some(v)
    else if p[0] < |Entries(v)| then At(Entries(v)[p[0]], p[1..])
    else None
  }

  /** The value stored under a key, if there is one. */
  function Get(fields: seq<Field>, key: string): Option<Value> {
    if fields == [] then None
    else if fields[0].key == key then Some(fields[0].value)
    else Get(fields[1..], key)
  }

  /** The reply has `ok` set to true. */
  predicate IsOk(response: Value) {
    response.Obj? && Get(response.fields, "ok") == Some(Bool(true))
  }
}
