/** JSON values as Python's `json` reads them; an object keeps its fields in insertion order. */
module Json {
  import opened Wrappers

  datatype Json =
    | Null
    | Bool(b: bool)
    | Int(n: int)
    | Float(r: real)
    | Str(s: string)
    | Arr(items: seq<Json>)
    | Obj(fields: seq<Field>)

  datatype Field = Field(key: string, value: Json)

  /** `d.get(key)`, with absence told apart from null. */
  function Get(fields: seq<Field>, key: string): Option<Json> {
    if fields == [] then None
    else if fields[0].key == key then Some(fields[0].value)
    else Get(fields[1..], key)
  }

  /** `d[key] = value`: in place when the key exists, otherwise at the end. */
  function Put(fields: seq<Field>, key: string, value: Json): seq<Field> {
    if fields == [] then [Field(key, value)]
    else if fields[0].key == key then [Field(key, value)] + fields[1..]
    else [fields[0]] + Put(fields[1..], key, value)
  }

  /** `d.pop(key)` */
  function Drop(fields: seq<Field>, key: string): seq<Field> {
    if fields == [] then []
    else if fields[0].key == key then fields[1..]
    else [fields[0]] + Drop(fields[1..], key)
  }

  /** Field of an object; None when the value is no object or lacks the key. */
  function Member(v: Json, key: string): Option<Json> {
    if v.Obj? then Get(v.fields, key) else None
  }

  /** `_validate_json_value`: nesting stays within `limit` more levels. */
  predicate WithinDepth(v: Json, limit: int)
    decreases v
  {
    && 0 <= limit
    && match v
       case Arr(items) => AllWithinDepth(items, limit - 1)
       case Obj(fields) => FieldsWithinDepth(fields, limit - 1)
       case _ => true
  }

  predicate AllWithinDepth(items: seq<Json>, limit: int)
    decreases items
  {
    items == [] || (WithinDepth(items[0], limit) && AllWithinDepth(items[1..], limit))
  }

  /** Keys are values too, one level down. */
  predicate FieldsWithinDepth(fields: seq<Field>, limit: int)
    decreases fields
  {
    fields == [] || (0 <= limit && WithinDepth(fields[0].value, limit) && FieldsWithinDepth(fields[1..], limit))
  }
}
