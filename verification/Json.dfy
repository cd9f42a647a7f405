/** JSON values as the runtime's serde_json tree sees them.  An object is the
    list of its members in key order (serde_json's map is a BTreeMap); a number
    is the text it prints as. */
module Json {
  import opened Options

  datatype Json =
    | Null
    | Bool(b: bool)
    | Num(text: string)
    | Str(s: string)
    | Arr(items: seq<Json>)
    | Obj(fields: seq<Field>)

  datatype Field = Field(key: string, value: Json)

  function Size(v: Json): (n: nat)
    ensures n > 0
  {
    match v
    case Arr(items) => 1 + SizeItems(items)
    case Obj(fields) => 1 + SizeFields(fields)
    case _ => 1
  }

  function SizeItems(items: seq<Json>): nat {
    if items == [] then 0 else Size(items[0]) + SizeItems(items[1..])
  }

  function SizeFields(fields: seq<Field>): nat {
    if fields == [] then 0 else 1 + Size(fields[0].value) + SizeFields(fields[1..])
  }

  lemma {:induction false} SizeOfItem(items: seq<Json>, i: nat)
    requires i < |items|
    ensures Size(items[i]) <= SizeItems(items)
  {
    if i > 0 { SizeOfItem(items[1..], i - 1); }
  }

  lemma {:induction false} SizeOfField(fields: seq<Field>, i: nat)
    requires i < |fields|
    ensures Size(fields[i].value) < SizeFields(fields)
  {
    if i > 0 { SizeOfField(fields[1..], i - 1); }
  }

  /** `map.get(key)`. */
  function Lookup(fields: seq<Field>, key: string): (r: Option<Json>)
    ensures r.Some? ==> Size(r.value) < SizeFields(fields)
  {
    if fields == [] then None
    else if fields[0].key == key then Some(fields[0].value)
    else Lookup(fields[1..], key)
  }

  /** `value.get(key)`: only an object has members. */
  function Get(v: Json, key: string): (r: Option<Json>)
    ensures r.Some? ==> Size(r.value) < Size(v)
  {
    if v.Obj? then Lookup(v.fields, key) else None
  }

  /** `value[key]`: null when there is no such member. */
  function Index(v: Json, key: string): Json {
    match Get(v, key) case Some(x) => x case None => Null
  }

  /** `value.get(key).and_then(as_str).unwrap_or("")`. */
  function GetStr(v: Json, key: string): string {
    match Get(v, key)
    case Some(Str(s)) => s
    case _ => ""
  }

  /** `value.get(key).and_then(as_array).unwrap_or_default()`. */
  function GetArr(v: Json, key: string): (r: seq<Json>)
    ensures SizeItems(r) < Size(v)
  {
    match Get(v, key)
    case Some(Arr(items)) => items
    case _ => []
  }
}
