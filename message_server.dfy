/**
 * The `POST /message` dispatcher of the stream gateway: a method switch that
 * computes a result or throws, and one reply envelope whose `id` is
 * `id || null` and whose every failure carries code -32603.
 */
module MessageServer {
  import opened Wrappers
  import opened JsValue
  import opened Rpc
  import opened Registry

  /** The `initialize` result; the stream's opening frame carries the same document. */
  const InitializeResult: Json :=
    JObj([Field("protocolVersion", JStr("1.0.0")),
          Field("capabilities", JObj([Field("tools", JObj([Field("listChanged", JBool(true))]))])),
          Field("serverInfo", JObj([Field("name", JStr("vps-mcp-server")), Field("version", JStr("1.0.0"))]))])

  /** `{ tools }`. */
  function ToolsListResult(): Json
  {
    JObj([Field("tools", JArr(DescriptorsToJson(Tools)))])
  }

  /** One text content block. */
  function TextBlock(text: string): Json
  {
    JObj([Field("type", JStr("text")), Field("text", JStr(text))])
  }

  /** The `tools/call` result: the tool's answer, pretty-printed, as the only content block. */
  function ToolCallResult(toolResult: Json, stringify: Stringify): Json
  {
    JObj([Field("content", JArr([TextBlock(stringify(toolResult, 2))]))])
  }

  /** `const { name, arguments: args } = params`: destructuring throws on undefined and null. */
  function ToolCallParams(params: Option<Json>): (r: Result<(Option<Json>, Option<Json>)>)
    ensures r.Err? <==> Nullish(params)
    ensures r.Ok? ==> r.value == (Get(params.value, "name"), Get(params.value, "arguments"))
  {
    match params
    case None => Err("Cannot destructure property 'name' of 'params' as it is undefined.")
    case Some(JNull) => Err("Cannot destructure property 'name' of 'params' as it is null.")
    case Some(p) => Ok((Get(p, "name"), Get(p, "arguments")))
  }

  /**
   * The body of the `try`: the method switch, yielding the result or the
   * thrown message. It returns an object exactly for `initialize`,
   * `tools/list`, and a `tools/call` with params whose tool returns.
   */
  function Handle(req: Request, host: Host, stringify: Stringify): (r: Result<Json>)
    ensures r.Ok? ==> r.value.JObj?
    ensures r.Ok? <==>
              || req.methodName == Some(JStr("initialize"))
              || req.methodName == Some(JStr("tools/list"))
              || (&& req.methodName == Some(JStr("tools/call"))
                  && !Nullish(req.params)
                  && ExecuteTool(Get(req.params.value, "name"), Get(req.params.value, "arguments"), host).Ok?)
  {
    var m := req.methodName;
    if m == Some(JStr("initialize")) then Ok(InitializeResult)
    else if m == Some(JStr("tools/list")) then Ok(ToolsListResult())
    else if m == Some(JStr("tools/call")) then
      var (name, args) :- ToolCallParams(req.params);
      var result :- ExecuteTool(name, args, host);
      Ok(ToolCallResult(result, stringify))
    else Err(ErrorText("Unknown method: ", m))
  }

  /** `id || null`. */
  function ReplyId(id: Option<Json>): Json
  {
    OrElse(id, JNull)
  }

  /** The reply `res.json` sends: the success envelope, or the `catch` block's error envelope. */
  function MessageReply(req: Request, host: Host, stringify: Stringify): (e: Envelope)
    ensures e.jsonrpc == Version
    ensures e.id.Some?
    ensures e.payload.Success? <==> Handle(req, host, stringify).Ok?
    ensures e.payload.Success? ==> e.payload.result == Handle(req, host, stringify).value
    ensures e.payload.Failure? ==>
              e.payload.code == InternalError && e.payload.message == Handle(req, host, stringify).message
    ensures !e.payload.Acknowledge?
  {
    match Handle(req, host, stringify)
    case Ok(r) => Envelope(Version, Some(ReplyId(req.id)), Success(r))
    case Err(msg) => Envelope(Version, Some(ReplyId(req.id)), Failure(InternalError, msg))
  }

  /** Whether the reply is mirrored to the open streams: only on the success path. */
  predicate Broadcasts(e: Envelope)
  {
    e.payload.Success?
  }

  /**
   * The reply always names an id; it is the request's own exactly when that
   * is truthy or null, and null for every other falsy id (absent, false, 0, "").
   */
  lemma ReplyIdIsNormalised(req: Request, host: Host, stringify: Stringify)
    ensures MessageReply(req, host, stringify).id == Some(if Truthy(req.id) then req.id.value else JNull)
    ensures MessageReply(req, host, stringify).id == req.id <==> Truthy(req.id) || req.id == Some(JNull)
    ensures !Truthy(req.id) ==> MessageReply(req, host, stringify).id == Some(JNull)
  {
  }

  /** `tools/list` answers the registry unchanged: read back, it is the five descriptors in order. */
  lemma ToolsListIsRegistry(req: Request, host: Host, stringify: Stringify)
    requires req.methodName == Some(JStr("tools/list"))
    ensures MessageReply(req, host, stringify).payload == Success(ToolsListResult())
    ensures Lookup(ToolsListResult().fields, "tools") == Some(JArr(DescriptorsToJson(Tools)))
    ensures DescriptorsFromJson(DescriptorsToJson(Tools)) == Some(Tools)
    ensures |DescriptorsToJson(Tools)| == 5
    ensures Names(Tools) == ["add", "multiply", "get_weather", "get_time", "system_info"]
  {
    LookupSingle(Field("tools", JArr(DescriptorsToJson(Tools))), "tools");
    DescriptorsRoundTrip(Tools);
    RegistryOrder();
  }

  /**
   * A `tools/call` whose tool returns answers one content block of type
   * "text" holding the pretty-printed result; a tool that throws answers an
   * internal error with its message.
   */
  lemma ToolCallOutcome(req: Request, host: Host, stringify: Stringify, name: Option<Json>, args: Option<Json>)
    requires req.methodName == Some(JStr("tools/call"))
    requires !Nullish(req.params)
    requires name == Get(req.params.value, "name") && args == Get(req.params.value, "arguments")
    ensures ExecuteTool(name, args, host).Ok? ==>
              MessageReply(req, host, stringify).payload
              == Success(JObj([Field("content", JArr([TextBlock(stringify(ExecuteTool(name, args, host).value, 2))]))]))
    ensures ExecuteTool(name, args, host).Err? ==>
              MessageReply(req, host, stringify).payload
              == Failure(InternalError, ExecuteTool(name, args, host).message)
  {
  }

  /** A `tools/call` without params fails before any tool runs. */
  lemma ToolCallWithoutParams(req: Request, host: Host, stringify: Stringify)
    requires req.methodName == Some(JStr("tools/call")) && Nullish(req.params)
    ensures MessageReply(req, host, stringify).payload.Failure?
    ensures MessageReply(req, host, stringify).payload.code == InternalError
  {
  }

  /** Any other method is an internal error naming it, with no `result`. */
  lemma UnknownMethod(req: Request, host: Host, stringify: Stringify)
    requires req.methodName !in {Some(JStr("initialize")), Some(JStr("tools/list")), Some(JStr("tools/call"))}
    ensures MessageReply(req, host, stringify).payload
            == Failure(InternalError, ErrorText("Unknown method: ", req.methodName))
    ensures Lookup(ToJson(MessageReply(req, host, stringify)).fields, "result").None?
    ensures !Broadcasts(MessageReply(req, host, stringify))
  {
    EnvelopeKeys(MessageReply(req, host, stringify));
  }

  /** `initialize` answers the fixed server document. */
  lemma InitializeAnswer(req: Request, host: Host, stringify: Stringify)
    requires req.methodName == Some(JStr("initialize"))
    ensures MessageReply(req, host, stringify).payload == Success(InitializeResult)
  {
  }

  /**
   * The example call `add` on 2 and 3 with id 5: the reply echoes id 5 and
   * its one text block is the serialisation of `{ result: 5 }`.
   */
  lemma AddTwoAndThree(host: Host, stringify: Stringify)
    ensures var args := JObj([Field("a", JNum(2)), Field("b", JNum(3))]);
            var req := Request(Some(JStr("tools/call")),
                               Some(JObj([Field("name", JStr("add")), Field("arguments", args)])),
                               Some(JNum(5)));
            MessageReply(req, host, stringify)
            == Envelope(Version, Some(JNum(5)),
                        Success(ToolCallResult(JObj([Field("result", JNum(5))]), stringify)))
  {
    var args := [Field("a", JNum(2)), Field("b", JNum(3))];
    var params := [Field("name", JStr("add")), Field("arguments", JObj(args))];
    assert args == [args[0]] + [args[1]];
    assert params == [params[0]] + [params[1]];
    LookupConcat([args[0]], [args[1]], "a");
    LookupConcat([args[0]], [args[1]], "b");
    LookupSingle(args[0], "a");
    LookupSingle(args[1], "a");
    LookupSingle(args[0], "b");
    LookupSingle(args[1], "b");
    LookupConcat([params[0]], [params[1]], "name");
    LookupConcat([params[0]], [params[1]], "arguments");
    LookupSingle(params[0], "name");
    LookupSingle(params[1], "name");
    LookupSingle(params[0], "arguments");
    LookupSingle(params[1], "arguments");
    Arithmetic(args, 2, 3, host);
  }

  /**
   * `add` whose `a` is `{"toString": 0}`: converting the operand throws, so
   * the reply is an internal error with the TypeError's message, and nothing
   * is mirrored to the streams.
   */
  lemma ObjectOperand(host: Host, stringify: Stringify)
    ensures var args := JObj([Field("a", JObj([Field("toString", JNum(0))])), Field("b", JNum(1))]);
            var req := Request(Some(JStr("tools/call")),
                               Some(JObj([Field("name", JStr("add")), Field("arguments", args)])),
                               Some(JNum(7)));
            && MessageReply(req, host, stringify) == Envelope(Version, Some(JNum(7)), Failure(InternalError, NotPrimitive))
            && !Broadcasts(MessageReply(req, host, stringify))
  {
    var operand := [Field("toString", JNum(0))];
    var args := [Field("a", JObj(operand)), Field("b", JNum(1))];
    var params := [Field("name", JStr("add")), Field("arguments", JObj(args))];
    assert args == [args[0]] + [args[1]];
    assert params == [params[0]] + [params[1]];
    LookupSingle(operand[0], "toString");
    LookupConcat([args[0]], [args[1]], "a");
    LookupSingle(args[0], "a");
    LookupSingle(args[1], "a");
    LookupConcat([params[0]], [params[1]], "name");
    LookupConcat([params[0]], [params[1]], "arguments");
    LookupSingle(params[0], "name");
    LookupSingle(params[1], "name");
    LookupSingle(params[0], "arguments");
    LookupSingle(params[1], "arguments");
    UnconvertibleOperand(Some(JStr("add")), args, host);
  }
}
