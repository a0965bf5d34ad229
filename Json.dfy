/**
 * The dynamically typed values the extension's JavaScript passes around
 * (EditorJS documents, message payloads, stored records). Only the parts of
 * the JavaScript semantics the core relies on are modelled: truthiness,
 * `typeof`, `Array.isArray` and property lookup, where a missing property
 * reads as `Null` (JavaScript's `undefined` and `null` are not
 * distinguished, since every test in the core treats them alike).
 */
module Json {
  import opened Text

  datatype Value =
    | Null
    | Bool(b: bool)
    | Num(n: int)
    | Str(s: string)
    | Arr(items: seq<Value>)
    | Obj(fields: seq<Field>)

  datatype Field = Field(key: string, value: Value)

  /** JavaScript's `Boolean(v)`. */
  predicate Truthy(v: Value) {
    match v
    case Null => false
    case Bool(b) => b
    case Num(n) => n != 0
    case Str(s) => s != ""
    case Arr(_) => true
    case Obj(_) => true
  }

  /** `v && typeof v === "object"`: arrays are objects too. */
  predicate IsObjectLike(v: Value) {
    v.Arr? || v.Obj?
  }

  /** The value of the first field named `key`, `Null` when there is none. */
  function Lookup(fields: seq<Field>, key: string): Value {
    if fields == [] then Null
    else if fields[0].key == key then fields[0].value
    else Lookup(fields[1..], key)
  }

  /** `v[key]` for an object; a missing property or a non-object reads as `Null`. */
  function Get(v: Value, key: string): Value {
    if v.Obj? then Lookup(v.fields, key) else Null
  }

  /** The fields after `key: val` is assigned: in place when present, else appended. */
  function Update(fields: seq<Field>, key: string, val: Value): (r: seq<Field>)
    ensures Lookup(r, key) == val
    ensures forall k :: k != key ==> Lookup(r, k) == Lookup(fields, k)
  {
    if fields == [] then [Field(key, val)]
    else if fields[0].key == key then [Field(key, val)] + fields[1..]
    else [fields[0]] + Update(fields[1..], key, val)
  }

  /** Assigning a present property its own value changes nothing. */
  lemma UpdateUnchanged(fields: seq<Field>, key: string)
    requires Lookup(fields, key) != Null
    ensures Update(fields, key, Lookup(fields, key)) == fields
  {
  }

  /** `{ ...v, key: val }`. */
  function Put(v: Value, key: string, val: Value): (r: Value)
    ensures r.Obj?
    ensures Get(r, key) == val
    ensures forall k :: k != key ==> Get(r, k) == Get(v, k)
  {
    Obj(Update(if v.Obj? then v.fields else [], key, val))
  }

  /** A string property: `typeof v[key] === "string" ? v[key] : ""`. */
  function GetString(v: Value, key: string): string {
    match Get(v, key)
    case Str(s) => s
    case _ => ""
  }

  /** `({ ...v })` for a value used with spread: an object's own fields, nothing otherwise. */
  function SpreadFields(v: Value): seq<Field> {
    if v.Obj? then v.fields else []
  }

  /** The decimal digits of `n`. */
  function NatText(n: nat): (r: string)
    ensures r != ""
    ensures forall i :: 0 <= i < |r| ==> '0' <= r[i] <= '9'
    decreases n
  {
    var d := [(48 + n % 10) as char];
    if n < 10 then d else NatText(n / 10) + d
  }

  /** `String(v)`: arrays join their elements with commas, `null` elements giving "". */
  function StringOf(v: Value): string
    decreases v
  {
    match v
    case Null => "null"
    case Bool(b) => if b then "true" else "false"
    case Num(n) => if n < 0 then "-" + NatText(-n) else NatText(n)
    case Str(s) => s
    case Obj(_) => "[object Object]"
    case Arr(items) => Join(seq(|items|, i requires 0 <= i < |items| =>
                         if items[i].Null? then "" else StringOf(items[i])), ",")
  }

  /** `String(v || "")`: a falsy value reads as the empty string, any string as itself. */
  function TextOr(v: Value): (r: string)
    ensures v.Str? ==> r == v.s
    ensures !Truthy(v) ==> r == ""
  {
    if Truthy(v) then StringOf(v) else ""
  }
}
