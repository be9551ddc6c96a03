/** The free-form `metadata` records that orders, variants, fulfillments and stock locations carry. */
module Metadata {
  import opened Wrappers

  /** A JSON value as stored in a metadata field; objects and arrays are not inspected by the core. */
  datatype Value = VString(s: string) | VBool(b: bool) | VNumber(n: int) | VNull | VOther

  type Record = map<string, Value>

  /** JavaScript truthiness of a metadata value. */
  predicate TruthyValue(v: Value) {
    match v
    case VString(s) => s != ""
    case VBool(b) => b
    case VNumber(n) => n != 0
    case VNull => false
    case VOther => true
  }

  /** `metadata?.[key]`: absent when the record itself is absent. */
  function Get(md: Option<Record>, key: string): Option<Value> {
    if md.Some? && key in md.value then Some(md.value[key]) else None
  }

  /** A non-empty string stored under `key`, if there is one. */
  function GetNonEmptyString(md: Option<Record>, key: string): (r: Option<string>)
    ensures r.Some? <==> Get(md, key).Some? && Get(md, key).value.VString? && Get(md, key).value.s != ""
    ensures r.Some? ==> Get(md, key) == Some(VString(r.value))
  {
    match Get(md, key)
    case Some(VString(s)) => if s != "" then Some(s) else None
    case _ => None
  }

  /** `{ ...md, ...extra }`: every key of `extra` overwrites, every other key of `md` is kept. */
  function Merge(md: Option<Record>, extra: Record): (r: Record)
    ensures r.Keys == extra.Keys + (if md.Some? then md.value.Keys else {})
    ensures forall k :: k in extra ==> r[k] == extra[k]
    ensures forall k :: md.Some? && k in md.value && k !in extra ==> r[k] == md.value[k]
  {
    (if md.Some? then md.value else map[]) + extra
  }
}
