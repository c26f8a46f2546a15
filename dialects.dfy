/**
 * How the two gateways' dispatchers differ on the same request: the reply
 * `id`, the services guard, the shape of a tool call's answer, and the
 * unknown-method message.
 */
module Dialects {
  import opened Wrappers
  import opened JsValue
  import opened Rpc
  import opened Registry
  import MessageServer
  import RemoteServer

  /**
   * The two replies carry the same `id` exactly when the request's is truthy
   * or null; otherwise the stream gateway sends null and the other echoes it
   * (and leaves the member out when the request had none).
   */
  lemma ReplyIdsAgree(req: Request, host: Host, services: RemoteServer.Services, stringify: Stringify)
    ensures MessageServer.MessageReply(req, host, stringify).id == RemoteServer.SseReply(req, services, stringify).id
            <==> Truthy(req.id) || req.id == Some(JNull)
    ensures req.id.None? ==>
              Lookup(ToJson(MessageServer.MessageReply(req, host, stringify)).fields, "id") == Some(JNull)
              && Lookup(ToJson(RemoteServer.SseReply(req, services, stringify)).fields, "id").None?
  {
    MessageServer.ReplyIdIsNormalised(req, host, stringify);
    EnvelopeKeys(MessageServer.MessageReply(req, host, stringify));
    EnvelopeKeys(RemoteServer.SseReply(req, services, stringify));
  }

  /** A request with id 0 is answered with id null by one gateway and id 0 by the other. */
  lemma ZeroId(m: Option<Json>, params: Option<Json>, host: Host, services: RemoteServer.Services, stringify: Stringify)
    ensures MessageServer.MessageReply(Request(m, params, Some(JNum(0))), host, stringify).id == Some(JNull)
    ensures RemoteServer.SseReply(Request(m, params, Some(JNum(0))), services, stringify).id == Some(JNum(0))
  {
  }

  /**
   * The stream gateway has no services guard: its `tools/list` always
   * answers, where the other gateway fails while its services are not loaded.
   */
  lemma ToolsListGuard(req: Request, host: Host, stringify: Stringify)
    requires req.methodName == Some(JStr("tools/list"))
    ensures MessageServer.MessageReply(req, host, stringify).payload.Success?
    ensures RemoteServer.SseReply(req, RemoteServer.Services(None, None), stringify).payload
            == Failure(InternalError, RemoteServer.NotInitialized)
  {
  }

  /**
   * A successful stream-gateway tool call answers one block holding a
   * serialised object and no `isError` member; the other gateway always sets
   * `isError` to false.
   */
  lemma ToolCallShapes(req: Request, host: Host, stringify: Stringify)
    requires req.methodName == Some(JStr("tools/call"))
    requires MessageServer.MessageReply(req, host, stringify).payload.Success?
    ensures var r := MessageServer.MessageReply(req, host, stringify).payload.result;
            && r.JObj?
            && Lookup(r.fields, "isError").None?
            && exists v: Json :: v.JObj? && r == MessageServer.ToolCallResult(v, stringify)
  {
    var params := req.params;
    var (name, args) := MessageServer.ToolCallParams(params).value;
    var v := ExecuteTool(name, args, host).value;
    var r := MessageServer.ToolCallResult(v, stringify);
    LookupSingle(r.fields[0], "isError");
    assert v.JObj? && r == MessageServer.ToolCallResult(v, stringify);
  }

  /** An unknown method is named in both replies, in each gateway's own words. */
  lemma UnknownMethodMessages(req: Request, host: Host, services: RemoteServer.Services, stringify: Stringify)
    requires req.methodName !in {Some(JStr("initialize")), Some(JStr("notifications/initialized")),
                                 Some(JStr("tools/list")), Some(JStr("prompts/list")),
                                 Some(JStr("resources/list")), Some(JStr("tools/call"))}
    ensures MessageServer.MessageReply(req, host, stringify).payload
            == Failure(InternalError, ErrorText("Unknown method: ", req.methodName))
    ensures RemoteServer.SseReply(req, services, stringify).payload
            == Failure(InternalError, ErrorText("Método no soportado: ", req.methodName))
  {
    MessageServer.UnknownMethod(req, host, stringify);
    RemoteServer.UnknownMethod(req, services, stringify);
  }
}
