/**
 * The `POST /sse` dispatcher of the ContPAQi gateway: the same method switch
 * with capability stubs, a notification acknowledgement, tool services that
 * may not have been loaded, and replies that echo the request's `id` as given.
 */
module RemoteServer {
  import opened Wrappers
  import opened JsValue
  import opened Rpc
  import MessageServer

  /** What the loaded tool handler's promise settles to. */
  datatype ToolOutcome = Returned(value: Json) | Threw(message: string)

  /** `handleToolCall(name, args)`; its code is not part of this model. */
  type ToolHandler = (Option<Json>, Json) -> ToolOutcome

  /**
   * The module-level service handles, set once at start-up: what
   * `getToolsList()` returns, and `handleToolCall`; None while not loaded.
   */
  datatype Services = Services(toolsList: Option<Json>, toolCall: Option<ToolHandler>)

  const NotInitialized: string := "Servicios no inicializados"

  const InitializeResult: Json :=
    JObj([Field("protocolVersion", JStr("2024-11-05")),
          Field("capabilities", JObj([Field("tools", JObj([]))])),
          Field("serverInfo", JObj([Field("name", JStr("contpaqi-mcp-remote-complete")), Field("version", JStr("1.0.0"))]))])

  /** The text of a tool's answer: a string as it is, anything else pretty-printed. */
  function ToolText(v: Json, stringify: Stringify): string
  {
    if v.JStr? then v.s else stringify(v, 2)
  }

  function ToolCallResult(v: Json, stringify: Stringify): Json
  {
    JObj([Field("content", JArr([MessageServer.TextBlock(ToolText(v, stringify))])), Field("isError", JBool(false))])
  }

  /** What the `try` block ends in. */
  datatype Outcome =
    | Answer(result: Json)  // `result` is set and the switch breaks
    | Acknowledged          // the early `return` of a notification
    | Thrown(message: string)

  /**
   * `const { name, arguments: args } = params`, after the services guard:
   * destructuring throws on undefined and null params; otherwise the handler
   * gets `args || {}` and its answer, or its rejection, is the outcome.
   */
  function ToolCall(params: Option<Json>, handler: ToolHandler, stringify: Stringify): (r: Outcome)
    ensures !r.Acknowledged?
    ensures Nullish(params) ==> r.Thrown?
    ensures !Nullish(params) ==>
              var outcome := handler(Get(params.value, "name"), OrElse(Get(params.value, "arguments"), JObj([])));
              && (outcome.Returned? ==> r == Answer(ToolCallResult(outcome.value, stringify)))
              && (outcome.Threw? ==> r == Thrown(outcome.message))
  {
    match params
    case None => Thrown("Cannot destructure property 'name' of 'params' as it is undefined.")
    case Some(JNull) => Thrown("Cannot destructure property 'name' of 'params' as it is null.")
    case Some(p) =>
      match handler(Get(p, "name"), OrElse(Get(p, "arguments"), JObj([])))
      case Returned(v) => Answer(ToolCallResult(v, stringify))
      case Threw(m) => Thrown(m)
  }

  /**
   * The method switch, after the request log line, whose `${method}` throws
   * first for a method that cannot be converted. Only the two tool methods
   * depend on the services, and only `notifications/initialized` returns early.
   */
  function Handle(req: Request, services: Services, stringify: Stringify): (r: Outcome)
    ensures r.Acknowledged? <==> req.methodName == Some(JStr("notifications/initialized"))
    ensures r.Answer? ==> r.result.JObj?
    ensures (req.methodName == Some(JStr("tools/list")) && services.toolsList.None?)
            || (req.methodName == Some(JStr("tools/call")) && services.toolCall.None?) ==>
              r == Thrown(NotInitialized)
    ensures r.Answer? <==>
              || req.methodName in {Some(JStr("initialize")), Some(JStr("prompts/list")), Some(JStr("resources/list"))}
              || (req.methodName == Some(JStr("tools/list")) && services.toolsList.Some?)
              || (req.methodName == Some(JStr("tools/call")) && services.toolCall.Some?
                  && ToolCall(req.params, services.toolCall.value, stringify).Answer?)
  {
    var m := req.methodName;
    if Unconvertible(m) then Thrown(NotPrimitive)
    else if m == Some(JStr("initialize")) then Answer(InitializeResult)
    else if m == Some(JStr("notifications/initialized")) then Acknowledged
    else if m == Some(JStr("tools/list")) then
      if services.toolsList.None? then Thrown(NotInitialized)
      else Answer(JObj([Field("tools", services.toolsList.value)]))
    else if m == Some(JStr("prompts/list")) then Answer(JObj([Field("prompts", JArr([]))]))
    else if m == Some(JStr("resources/list")) then Answer(JObj([Field("resources", JArr([]))]))
    else if m == Some(JStr("tools/call")) then
      if services.toolCall.None? then Thrown(NotInitialized)
      else ToolCall(req.params, services.toolCall.value, stringify)
    else Thrown(ErrorText("Método no soportado: ", m))
  }

  /**
   * The reply `res.json` sends. Its `id` is the request's, as received, on
   * every path; it acknowledges exactly the `notifications/initialized` method.
   */
  function SseReply(req: Request, services: Services, stringify: Stringify): (e: Envelope)
    ensures e.jsonrpc == Version && e.id == req.id
    ensures e.payload.Acknowledge? <==> req.methodName == Some(JStr("notifications/initialized"))
    ensures e.payload.Failure? ==> e.payload.code == InternalError
    ensures e.payload.Success? <==> Handle(req, services, stringify).Answer?
    ensures e.payload.Success? ==> e.payload.result == Handle(req, services, stringify).result
    ensures e.payload.Failure? ==> e.payload.message == Handle(req, services, stringify).message
  {
    match Handle(req, services, stringify)
    case Answer(r) => Envelope(Version, req.id, Success(r))
    case Acknowledged => Envelope(Version, req.id, Acknowledge)
    case Thrown(msg) => Envelope(Version, req.id, Failure(InternalError, msg))
  }

  /** `initialize` answers the fixed document. */
  lemma InitializeAnswer(req: Request, services: Services, stringify: Stringify)
    requires req.methodName == Some(JStr("initialize"))
    ensures SseReply(req, services, stringify).payload == Success(InitializeResult)
  {
  }

  /** The notification reply is `{ jsonrpc, id }` alone: neither `result` nor `error`. */
  lemma NotificationReply(req: Request, services: Services, stringify: Stringify)
    requires req.methodName == Some(JStr("notifications/initialized"))
    ensures ToJson(SseReply(req, services, stringify))
            == JObj([Field("jsonrpc", JStr(Version))] + (if req.id.Some? then [Field("id", req.id.value)] else []))
    ensures Lookup(ToJson(SseReply(req, services, stringify)).fields, "result").None?
    ensures Lookup(ToJson(SseReply(req, services, stringify)).fields, "error").None?
  {
    EnvelopeKeys(SseReply(req, services, stringify));
  }

  /** The capability stubs answer empty lists. */
  lemma CapabilityStubs(req: Request, services: Services, stringify: Stringify)
    ensures req.methodName == Some(JStr("prompts/list")) ==>
              SseReply(req, services, stringify).payload == Success(JObj([Field("prompts", JArr([]))]))
    ensures req.methodName == Some(JStr("resources/list")) ==>
              SseReply(req, services, stringify).payload == Success(JObj([Field("resources", JArr([]))]))
  {
  }

  /** Without the tool services, listing and calling tools fail with the services message. */
  lemma ServicesGuard(req: Request, services: Services, stringify: Stringify)
    ensures req.methodName == Some(JStr("tools/list")) ==>
              (SseReply(req, services, stringify).payload.Failure? <==> services.toolsList.None?)
    ensures req.methodName == Some(JStr("tools/list")) && services.toolsList.None? ==>
              SseReply(req, services, stringify).payload == Failure(InternalError, NotInitialized)
    ensures req.methodName == Some(JStr("tools/call")) && services.toolCall.None? ==>
              SseReply(req, services, stringify).payload == Failure(InternalError, NotInitialized)
    ensures req.methodName == Some(JStr("tools/list")) && services.toolsList.Some? ==>
              SseReply(req, services, stringify).payload == Success(JObj([Field("tools", services.toolsList.value)]))
  {
  }

  /**
   * With the handler loaded, `tools/call` passes `args || {}`, answers one
   * text block (a string answer verbatim, anything else serialised) with
   * `isError` false, and turns a rejection into an internal error.
   */
  lemma ToolCallOutcome(req: Request, handler: ToolHandler, toolsList: Option<Json>, stringify: Stringify)
    requires req.methodName == Some(JStr("tools/call")) && !Nullish(req.params)
    ensures var p := req.params.value;
            var outcome := handler(Get(p, "name"), OrElse(Get(p, "arguments"), JObj([])));
            var reply := SseReply(req, Services(toolsList, Some(handler)), stringify);
            && (!Truthy(Get(p, "arguments")) ==> outcome == handler(Get(p, "name"), JObj([])))
            && (outcome.Returned? ==>
                  reply.payload == Success(ToolCallResult(outcome.value, stringify))
                  && Lookup(ToolCallResult(outcome.value, stringify).fields, "isError") == Some(JBool(false)))
            && (outcome.Returned? && outcome.value.JStr? ==> ToolText(outcome.value, stringify) == outcome.value.s)
            && (outcome.Returned? && !outcome.value.JStr? ==> ToolText(outcome.value, stringify) == stringify(outcome.value, 2))
            && (outcome.Threw? ==> reply.payload == Failure(InternalError, outcome.message))
  {
    var p := req.params.value;
    var outcome := handler(Get(p, "name"), OrElse(Get(p, "arguments"), JObj([])));
    if outcome.Returned? {
      var fs := ToolCallResult(outcome.value, stringify).fields;
      assert fs == [fs[0]] + [fs[1]];
      LookupConcat([fs[0]], [fs[1]], "isError");
      LookupSingle(fs[1], "isError");
    }
  }

  /** Any other method is an internal error naming it, with the id echoed. */
  lemma UnknownMethod(req: Request, services: Services, stringify: Stringify)
    requires req.methodName !in {Some(JStr("initialize")), Some(JStr("notifications/initialized")),
                                 Some(JStr("tools/list")), Some(JStr("prompts/list")),
                                 Some(JStr("resources/list")), Some(JStr("tools/call"))}
    ensures SseReply(req, services, stringify)
            == Envelope(Version, req.id, Failure(InternalError, ErrorText("Método no soportado: ", req.methodName)))
  {
  }
}
