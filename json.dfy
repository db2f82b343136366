/** JSON values as the pages hold them after `JSON.parse`, and the optional
    chaining, truthiness and text coercions the pages apply to them. A
    property that JavaScript reads as `undefined` is an absent key, and a
    read of it is `None`. */
module Json {
  import opened Wrappers

  datatype Json =
    | Null
    | Bool(b: bool)
    | Num(n: real)
    | Str(s: string)
    | Arr(items: seq<Json>)
    | Obj(fields: map<string, Json>)

  /** `j?.key`: the property of an object; anything else has none. */
  function Get(j: Json, key: string): (r: Option<Json>)
    ensures r.Some? <==> j.Obj? && key in j.fields
  {
    if j.Obj? && key in j.fields then Some(j.fields[key]) else None
  }

  /** `v?.key` on a value that may itself be `undefined`. */
  function GetOpt(v: Option<Json>, key: string): Option<Json> {
    match v
    case None => None
    case Some(j) => Get(j, key)
  }

  /** `v?.[0]`: the first element of an array (or the property "0" of an object). */
  function First(v: Option<Json>): Option<Json> {
    match v
    case Some(Arr(items)) => if |items| > 0 then Some(items[0]) else None
    case Some(Obj(_)) => GetOpt(v, "0")
    case _ => None
  }

  /** JavaScript truthiness; `undefined` is falsy. */
  predicate Truthy(v: Option<Json>) {
    match v
    case None => false
    case Some(Null) => false
    case Some(Bool(b)) => b
    case Some(Num(n)) => n != 0.0
    case Some(Str(s)) => s != ""
    case Some(Arr(_)) => true
    case Some(Obj(_)) => true
  }

  /** The string a value holds, or "" for `undefined` and for any value that
      is not a string (`v || ""` where the value is expected to be text). */
  function StrOr(v: Option<Json>): (r: string)
    ensures v.Some? && v.value.Str? ==> r == v.value.s
  {
    match v
    case Some(Str(s)) => s
    case _ => ""
  }

  /** `String(j)` for the values whose text form the model carries. */
  function AsText(j: Json): string {
    match j
    case Str(s) => s
    case Null => "null"
    case Bool(b) => if b then "true" else "false"
    case _ => ""
  }

  /** `Array.isArray(v) ? v : []` */
  function ItemsOr(v: Option<Json>): seq<Json> {
    match v
    case Some(Arr(items)) => items
    case _ => []
  }

  /** A one-property object `{ key: value }`. */
  function Single(key: string, value: Json): (r: Json)
    ensures Get(r, key) == Some(value)
  {
    Obj(map[key := value])
  }
}

/** `window.localStorage`, the only durable state of the application. A slot
    holds what `JSON.parse` makes of the stored text: the empty text, a
    document, or text it rejects. Every write of the application stores
    `JSON.stringify(v)`, which parses back to `v`. */
module Storage {
  import opened Json

  datatype Slot = Blank | Doc(value: Json) | Garbage

  class LocalStorage {
    var slots: map<string, Slot>

    constructor (initial: map<string, Slot>)
      ensures slots == initial
    {
      slots := initial;
    }

    /** `localStorage.setItem(key, JSON.stringify(value))` */
    method SetItem(key: string, value: Json)
      modifies this
      ensures slots == old(slots)[key := Doc(value)]
    {
      slots := slots[key := Doc(value)];
    }

    /** `localStorage.removeItem(key)` */
    method RemoveItem(key: string)
      modifies this
      ensures slots == old(slots) - {key}
    {
      slots := slots - {key};
    }
  }

  /** The pattern every list loader of the application shares:
      `try { const v = JSON.parse(getItem(key) || "[]"); return Array.isArray(v) ? v : [] }
       catch { return [] }`. */
  function LoadArray(slots: map<string, Slot>, key: string): seq<Json> {
    if key in slots && slots[key].Doc? && slots[key].value.Arr? then slots[key].value.items else []
  }

  /** The list a loader returns is empty unless the key holds an array document. */
  predicate HoldsArray(slots: map<string, Slot>, key: string) {
    key in slots && slots[key].Doc? && slots[key].value.Arr?
  }
}
