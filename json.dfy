/**
 * JSON values as the gateways see them after the body parser, with the few
 * pieces of JavaScript semantics the dispatchers rely on: property reads,
 * truthiness, `x || d`, and string conversion in template literals.
 */
module JsValue {
  import opened Wrappers

  /**
   * A parsed JSON value. Numbers are integers in this model. An object may
   * repeat a key here, which an object built by JSON.parse never does (it
   * keeps one member, at the first position, with the last value); `Lookup`
   * reads such an object as JSON.parse would, but the `Stringify` parameter
   * may then be given values JavaScript never builds.
   */
  datatype Json =
    | JNull
    | JBool(b: bool)
    | JNum(n: int)
    | JStr(s: string)
    | JArr(items: seq<Json>)
    | JObj(fields: seq<Field>)

  /** One member of an object, in insertion order. */
  datatype Field = Field(key: string, value: Json)

  /**
   * `JSON.stringify(value, null, space)`. Its text is not modelled; every
   * operation that serialises takes it as a parameter.
   */
  type Stringify = (Json, nat) -> string

  /** The value of `key` in an object; with a repeated key the last one wins, as with JSON.parse. */
  function Lookup(fields: seq<Field>, key: string): (r: Option<Json>)
    ensures r.None? <==> forall i :: 0 <= i < |fields| ==> fields[i].key != key
    ensures r.Some? ==> Field(key, r.value) in fields
  {
    if fields == [] then None
    else
      match Lookup(fields[1..], key)
      case Some(v) =>
        assert fields == [fields[0]] + fields[1..];
        Some(v)
      case None =>
        assert forall i :: 1 <= i < |fields| ==> fields[i] == fields[1..][i - 1];
        if fields[0].key == key then Some(fields[0].value) else None
  }

  /** The value found is that of the last member with the key: no later member has it. */
  lemma {:induction false} LookupLastWins(fields: seq<Field>, key: string)
    requires Lookup(fields, key).Some?
    ensures exists i :: 0 <= i < |fields| && fields[i] == Field(key, Lookup(fields, key).value)
                        && forall j :: i < j < |fields| ==> fields[j].key != key
  {
    var v := Lookup(fields, key).value;
    var tail := fields[1..];
    assert forall j :: 1 <= j < |fields| ==> fields[j] == tail[j - 1];
    if Lookup(tail, key).Some? {
      LookupLastWins(tail, key);
      var k :| 0 <= k < |tail| && tail[k] == Field(key, v) && forall j :: k < j < |tail| ==> tail[j].key != key;
      assert fields[k + 1] == Field(key, v);
    } else {
      assert fields[0] == Field(key, v);
    }
  }

  /** A lookup in a concatenation: the later part wins. */
  lemma {:induction false} LookupConcat(xs: seq<Field>, ys: seq<Field>, key: string)
    ensures Lookup(xs + ys, key) == if Lookup(ys, key).Some? then Lookup(ys, key) else Lookup(xs, key)
  {
    if xs == [] {
      assert xs + ys == ys;
    } else {
      assert (xs + ys)[1..] == xs[1..] + ys;
      LookupConcat(xs[1..], ys, key);
    }
  }

  lemma LookupSingle(f: Field, key: string)
    ensures Lookup([f], key) == if f.key == key then Some(f.value) else None
  {
    assert [f][1..] == [];
  }

  /**
   * `v.key` on a value that is neither undefined nor null, for the keys the
   * gateways read (a, b, location, timezone, name, arguments): only an object
   * has them as own members, and no prototype supplies them. Other keys, such
   * as `length` or `toString`, are not modelled.
   */
  function Get(v: Json, key: string): Option<Json>
  {
    match v
    case JObj(fields) => Lookup(fields, key)
    case _ => None
  }

  /** `undefined` or `null`. */
  predicate Nullish(v: Option<Json>)
  {
    v.None? || v == Some(JNull)
  }

  /** `v.key`: a property read throws a TypeError on undefined and null. */
  function Prop(v: Option<Json>, key: string): (r: Result<Option<Json>>)
    ensures r.Err? <==> Nullish(v)
    ensures r.Ok? ==> r.value == Get(v.value, key)
  {
    match v
    case None => Err("Cannot read properties of undefined (reading '" + key + "')")
    case Some(JNull) => Err("Cannot read properties of null (reading '" + key + "')")
    case Some(x) => Ok(Get(x, key))
  }

  /** JavaScript truthiness: undefined, null, false, 0 and "" are falsy. */
  predicate Truthy(v: Option<Json>)
  {
    match v
    case None => false
    case Some(JNull) => false
    case Some(JBool(b)) => b
    case Some(JNum(n)) => n != 0
    case Some(JStr(s)) => s != ""
    case Some(_) => true
  }

  /** `v || d`. */
  function OrElse(v: Option<Json>, d: Json): (r: Json)
    ensures Truthy(v) ==> Some(r) == v
    ensures !Truthy(v) ==> r == d
  {
    if Truthy(v) then v.value else d
  }

  function DigitChar(d: nat): char
    requires d < 10
  {
    "0123456789"[d]
  }

  /** The decimal numeral of a natural number. */
  function NatToDecimal(n: nat): (r: string)
    ensures |r| > 0
    decreases n
  {
    if n < 10 then [DigitChar(n)] else NatToDecimal(n / 10) + [DigitChar(n % 10)]
  }

  function IntToDecimal(n: int): string
  {
    if n < 0 then "-" + NatToDecimal(-n) else NatToDecimal(n)
  }

  /** The TypeError thrown when a value has no usable conversion to a primitive. */
  const NotPrimitive: string := "Cannot convert object to primitive value"

  /**
   * Whether converting `v` to a primitive throws. JSON.parse keeps a
   * "toString" key as an own data property; it is not callable and hides the
   * inherited method, and `valueOf` answers the object itself, so the
   * conversion fails. An array converts through `join`, that is through its
   * elements.
   */
  predicate ToPrimitiveThrows(v: Json)
  {
    match v
    case JObj(fields) => Lookup(fields, "toString").Some?
    case JArr(items) => exists i :: 0 <= i < |items| && ToPrimitiveThrows(items[i])
    case _ => false
  }

  /** A value, possibly undefined, whose conversion throws. */
  predicate Unconvertible(v: Option<Json>)
  {
    v.Some? && ToPrimitiveThrows(v.value)
  }

  /** `String(v)`, as a template literal `${v}` converts a value. */
  function JsString(v: Json): (r: Result<string>)
    ensures r.Err? <==> ToPrimitiveThrows(v)
    ensures r.Err? ==> r.message == NotPrimitive
  {
    match v
    case JNull => Ok("null")
    case JBool(b) => Ok(if b then "true" else "false")
    case JNum(n) => Ok(IntToDecimal(n))
    case JStr(s) => Ok(s)
    case JArr(items) => JoinItems(items)
    case JObj(fields) => if Lookup(fields, "toString").Some? then Err(NotPrimitive) else Ok("[object Object]")
  }

  /** `Array.prototype.join(",")`: null elements become the empty string; the first failing element throws. */
  function JoinItems(items: seq<Json>): (r: Result<string>)
    ensures r.Err? <==> exists i :: 0 <= i < |items| && ToPrimitiveThrows(items[i])
    ensures r.Err? ==> r.message == NotPrimitive
  {
    if items == [] then Ok("")
    else
      assert forall i :: 1 <= i < |items| ==> items[i] == items[1..][i - 1];
      var head :- if items[0] == JNull then Ok("") else JsString(items[0]);
      if |items| == 1 then Ok(head)
      else
        var tail :- JoinItems(items[1..]);
        Ok(head + "," + tail)
  }

  /** `${v}` for a value that may be undefined. */
  function ToJsString(v: Option<Json>): (r: Result<string>)
    ensures r.Err? <==> Unconvertible(v)
    ensures v.Some? && v.value.JStr? ==> r == Ok(v.value.s)
    ensures v.None? ==> r == Ok("undefined")
  {
    match v
    case None => Ok("undefined")
    case Some(x) => JsString(x)
  }

  /**
   * The message of `new Error(`${prefix}${v}`)`. When `v` cannot be
   * converted, building the text throws first, and that TypeError is what
   * propagates.
   */
  function ErrorText(prefix: string, v: Option<Json>): (r: string)
    ensures Unconvertible(v) ==> r == NotPrimitive
    ensures !Unconvertible(v) ==> r == prefix + ToJsString(v).value
    ensures v.Some? && v.value.JStr? ==> r == prefix + v.value.s
  {
    match ToJsString(v)
    case Ok(s) => prefix + s
    case Err(m) => m
  }
}
