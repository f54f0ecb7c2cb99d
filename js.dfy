/** JavaScript values as the pages see them after `response.json()`, together with
    the few language operations the pages rely on: truthiness, `typeof`, property
    reads (which throw on null and undefined), `Object.values(x)[0]` and the way
    `Array.prototype.join` turns an element into text. */
module Js {

  datatype Option<+T> = None | Some(value: T)

  datatype Result<+T, +E> = Success(value: T) | Failure(error: E)

  /** A JavaScript value. Numbers are integers; objects keep their properties in
      insertion order, one entry per key, as `JSON.parse` builds them. */
  datatype JsValue =
    | Undefined
    | Null
    | Bool(b: bool)
    | Num(n: int)
    | Str(s: string)
    | Arr(items: seq<JsValue>)
    | Obj(fields: seq<(string, JsValue)>)

  /** Something a `throw` (or a rejected promise) carries: an `Error` instance with
      its message, or any other value. */
  datatype Throwable = ErrorObj(message: string) | NonError(value: JsValue)

  /** `if (v)` */
  predicate Truthy(v: JsValue) {
    match v
    case Undefined => false
    case Null => false
    case Bool(b) => b
    case Num(n) => n != 0
    case Str(s) => s != ""
    case Arr(_) => true
    case Obj(_) => true
  }

  /** `typeof v` */
  function TypeOf(v: JsValue): (t: string)
    ensures t == "object" <==> v.Null? || v.Arr? || v.Obj?
    ensures t == "string" <==> v.Str?
  {
    match v
    case Undefined => "undefined"
    case Null => "object"
    case Bool(_) => "boolean"
    case Num(_) => "number"
    case Str(_) => "string"
    case Arr(_) => "object"
    case Obj(_) => "object"
  }

  /** The value stored under `key` in an object's property list, or undefined. */
  function Lookup(fields: seq<(string, JsValue)>, key: string): (v: JsValue)
    ensures v != Undefined ==> exists i :: 0 <= i < |fields| && fields[i] == (key, v)
    ensures (forall i :: 0 <= i < |fields| ==> fields[i].0 != key) ==> v == Undefined
  {
    if fields == [] then Undefined
    else if fields[0].0 == key then fields[0].1
    else Lookup(fields[1..], key)
  }

  /** The text V8 puts in the TypeError thrown by reading `key` of null or undefined. */
  function PropertyOfNothingMessage(v: JsValue, key: string): string
    requires v.Undefined? || v.Null?
  {
    "Cannot read properties of " + (if v.Null? then "null" else "undefined") + " (reading '" + key + "')"
  }

  /** `v.key`: throws a TypeError on null and undefined. The keys read by the pages
      (`errors`, `message`, `user`, `USER_NAME`, `USER_ID`) are not properties of
      strings, numbers, booleans or arrays, so those give undefined. */
  function Get(v: JsValue, key: string): (r: Result<JsValue, Throwable>)
    ensures r.Failure? <==> v.Undefined? || v.Null?
    ensures r.Failure? ==> r.error.ErrorObj?
    ensures r.Success? && r.value != Undefined ==> v.Obj?
  {
    match v
    case Undefined => Failure(ErrorObj(PropertyOfNothingMessage(v, key)))
    case Null => Failure(ErrorObj(PropertyOfNothingMessage(v, key)))
    case Obj(fields) => Success(Lookup(fields, key))
    case _ => Success(Undefined)
  }

  /** `v?.key`: optional chaining gives undefined on null and undefined instead of throwing. */
  function OptionalGet(v: JsValue, key: string): (r: JsValue)
    ensures v.Undefined? || v.Null? ==> r == Undefined
    ensures Get(v, key).Success? ==> r == Get(v, key).value
  {
    match Get(v, key)
    case Success(x) => x
    case Failure(_) => Undefined
  }

  const ObjectValuesOfNothingMessage: string := "Cannot convert undefined or null to object"

  /** `Object.values(v)[0]`: the first own value of an object or array, the first
      character of a string, undefined when there is none (numbers and booleans have no
      own values); throws a TypeError on null and undefined. */
  function FirstValue(v: JsValue): (r: Result<JsValue, Throwable>)
    ensures r.Failure? <==> v.Undefined? || v.Null?
    ensures v.Obj? && v.fields != [] ==> r == Success(v.fields[0].1)
    ensures v.Arr? && v.items != [] ==> r == Success(v.items[0])
    ensures v.Str? && v.s != [] ==> r == Success(Str(v.s[..1]))
    ensures v.Num? || v.Bool? ==> r == Success(Undefined)
  {
    match v
    case Undefined => Failure(ErrorObj(ObjectValuesOfNothingMessage))
    case Null => Failure(ErrorObj(ObjectValuesOfNothingMessage))
    case Obj(fields) => Success(if fields == [] then Undefined else fields[0].1)
    case Arr(items) => Success(if items == [] then Undefined else items[0])
    case Str(s) => Success(if s == [] then Undefined else Str(s[..1]))
    case _ => Success(Undefined)
  }

  function DigitChar(d: nat): char
    requires d < 10
  {
    "0123456789"[d]
  }

  /** The decimal text of a natural number. */
  function NatText(n: nat): (t: string)
    ensures |t| >= 1
    ensures forall i :: 0 <= i < |t| ==> '0' <= t[i] <= '9'
    decreases n
  {
    if n < 10 then [DigitChar(n)] else NatText(n / 10) + [DigitChar(n % 10)]
  }

  /** `String(n)` for an integer. */
  function IntText(n: int): string {
    if n < 0 then "-" + NatText(-n) else NatText(n)
  }

  /** The text `Array.prototype.join` writes for one element: null and undefined
      become the empty string, arrays are joined with "," and plain objects print as
      "[object Object]". */
  function JoinText(v: JsValue): (t: string)
    ensures v.Str? ==> t == v.s
    ensures v.Undefined? || v.Null? ==> t == ""
    decreases v
  {
    match v
    case Undefined => ""
    case Null => ""
    case Bool(b) => if b then "true" else "false"
    case Num(n) => IntText(n)
    case Str(s) => s
    case Arr(items) => JoinItems(items, ",")
    case Obj(_) => "[object Object]"
  }

  /** `items.join(sep)` with every element turned into text by `JoinText`. */
  function JoinItems(items: seq<JsValue>, sep: string): string
    decreases items
  {
    if items == [] then ""
    else if |items| == 1 then JoinText(items[0])
    else JoinText(items[0]) + sep + JoinItems(items[1..], sep)
  }
}
