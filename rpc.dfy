/**
 * The JSON-RPC 2.0 reply envelope (sections 5 and 5.1 of the JSON-RPC 2.0
 * specification) as both gateways build it: `jsonrpc`, an optional `id`, and
 * at most one of `result` and `error`.
 */
module Rpc {
  import opened Wrappers
  import opened JsValue

  /** The destructured request body `{ method, params, id }` (`method` is `methodName` here); None is `undefined`. */
  datatype Request = Request(methodName: Option<Json>, params: Option<Json>, id: Option<Json>)

  const Version: string := "2.0"

  /** The only error code either gateway ever sends. */
  const InternalError: int := -32603

  /** What follows `jsonrpc` and `id` in a reply. */
  datatype Payload =
    | Success(result: Json)
    | Failure(code: int, message: string)
    | Acknowledge  // neither `result` nor `error`

  /** A reply; an `id` of None is `undefined`, which JSON.stringify leaves out. */
  datatype Envelope = Envelope(jsonrpc: string, id: Option<Json>, payload: Payload)

  function ErrorObject(code: int, message: string): Json
  {
    JObj([Field("code", JNum(code)), Field("message", JStr(message))])
  }

  function PayloadFields(p: Payload): seq<Field>
  {
    match p
    case Success(r) => [Field("result", r)]
    case Failure(c, m) => [Field("error", ErrorObject(c, m))]
    case Acknowledge => []
  }

  /** The object literal the gateways pass to `res.json`, keys in source order. */
  function ToJson(e: Envelope): Json
  {
    JObj([Field("jsonrpc", JStr(e.jsonrpc))]
         + (if e.id.Some? then [Field("id", e.id.value)] else [])
         + PayloadFields(e.payload))
  }

  /** How a caller reads a reply back; a reply with both `result` and `error` is malformed. */
  function FromJson(j: Json): Option<Envelope>
  {
    match j
    case JObj(fs) =>
      (match (Lookup(fs, "jsonrpc"), Lookup(fs, "result"), Lookup(fs, "error"))
       case (Some(JStr(v)), Some(r), None) => Some(Envelope(v, Lookup(fs, "id"), Success(r)))
       case (Some(JStr(v)), None, Some(JObj(es))) =>
         (match (Lookup(es, "code"), Lookup(es, "message"))
          case (Some(JNum(c)), Some(JStr(m))) => Some(Envelope(v, Lookup(fs, "id"), Failure(c, m)))
          case _ => None)
       case (Some(JStr(v)), None, None) => Some(Envelope(v, Lookup(fs, "id"), Acknowledge))
       case _ => None)
    case JNull => None
    case JBool(_) => None
    case JNum(_) => None
    case JStr(_) => None
    case JArr(_) => None
  }

  /** A reply carries `result` exactly when it succeeded and `error` exactly when it failed; never both. */
  lemma EnvelopeKeys(e: Envelope)
    ensures ToJson(e).JObj?
    ensures Lookup(ToJson(e).fields, "jsonrpc") == Some(JStr(e.jsonrpc))
    ensures Lookup(ToJson(e).fields, "id") == e.id
    ensures Lookup(ToJson(e).fields, "result").Some? <==> e.payload.Success?
    ensures Lookup(ToJson(e).fields, "error").Some? <==> e.payload.Failure?
    ensures !(Lookup(ToJson(e).fields, "result").Some? && Lookup(ToJson(e).fields, "error").Some?)
    ensures e.payload.Success? ==> Lookup(ToJson(e).fields, "result") == Some(e.payload.result)
    ensures e.payload.Failure? ==>
              Lookup(ToJson(e).fields, "error") == Some(ErrorObject(e.payload.code, e.payload.message))
  {
    var head := [Field("jsonrpc", JStr(e.jsonrpc))];
    var ids: seq<Field> := if e.id.Some? then [Field("id", e.id.value)] else [];
    var tail := PayloadFields(e.payload);
    assert ToJson(e).fields == head + ids + tail;
    forall key | key in {"jsonrpc", "id", "result", "error"}
      ensures Lookup(ToJson(e).fields, key)
              == if Lookup(tail, key).Some? then Lookup(tail, key)
                 else if Lookup(ids, key).Some? then Lookup(ids, key)
                 else Lookup(head, key)
    {
      LookupConcat(head + ids, tail, key);
      LookupConcat(head, ids, key);
    }
    LookupSingle(head[0], "jsonrpc");
    LookupSingle(head[0], "id");
    LookupSingle(head[0], "result");
    LookupSingle(head[0], "error");
    if e.id.Some? {
      LookupSingle(ids[0], "jsonrpc");
      LookupSingle(ids[0], "id");
      LookupSingle(ids[0], "result");
      LookupSingle(ids[0], "error");
    }
    if !e.payload.Acknowledge? {
      LookupSingle(tail[0], "jsonrpc");
      LookupSingle(tail[0], "id");
      LookupSingle(tail[0], "result");
      LookupSingle(tail[0], "error");
    }
  }

  /** Reading a reply back gives the envelope that was built: the layout loses nothing. */
  lemma EnvelopeRoundTrip(e: Envelope)
    ensures FromJson(ToJson(e)) == Some(e)
  {
    EnvelopeKeys(e);
    if e.payload.Failure? {
      var es := [Field("code", JNum(e.payload.code))] + [Field("message", JStr(e.payload.message))];
      assert ErrorObject(e.payload.code, e.payload.message).fields == es;
      LookupConcat([es[0]], [es[1]], "code");
      LookupConcat([es[0]], [es[1]], "message");
      LookupSingle(es[0], "code");
      LookupSingle(es[0], "message");
      LookupSingle(es[1], "code");
      LookupSingle(es[1], "message");
    }
  }
}
