# MCP remote gateways: protocol engine in Dafny

This project models the protocol engine of two small JSON-RPC 2.0 ("MCP") gateways, with the HTTP plumbing removed.

- **The stream gateway** (`server.js`):
  - a registry of five tools and the executor `executeTool`;
  - the `POST /message` dispatcher and its reply envelope;
  - the set of open server-sent-event streams (`clients`): opening a stream, heartbeats, closing, and mirroring each successful reply to every open stream.
- **The ContPAQi gateway** (`vps-mcp-remote-complete.js`):
  - the `POST /sse` dispatcher, including the capability stubs and the `notifications/initialized` acknowledgement;
  - the guard used while the tool services are not loaded.

Modules:

- `Wrappers` (wrappers.dfy): `Option` stands for `undefined`. `Result` is a value or a thrown `Error` with its message.
- `JsValue` (json.dfy): parsed JSON values, with integer numbers.
  - property reads `v.key`, which throw a TypeError on `undefined` and `null`;
  - truthiness and `x || d`;
  - `String(v)` as a template literal uses it. Converting an object that has its own `toString` key, or an array holding one, throws `Cannot convert object to primitive value`, because JSON.parse leaves such a key as a non-callable data property.
  - `JSON.stringify(value, null, space)` is a parameter of type `Stringify`, so its text is never modelled.
- `Rpc` (rpc.dfy): the request `{method, params, id}` and the reply envelope (sections 5 and 5.1 of the JSON-RPC 2.0 specification).
  - The envelope is laid out as the object passed to `res.json`.
  - A caller-side reader gives every envelope back.
- `Registry` (registry.dfy): the `tools` array, a reader for a listed registry, and `executeTool`.
- `MessageServer` (message_server.dfy): the `/message` method switch and its envelope. The id is `id || null`, and every failure has code -32603.
- `EventStream` (event_stream.dfy): payload frames `data: …\n\n` and the `:ping\n\n` heartbeat.
  - It includes a small event-stream reader that follows section 9.2 of the WHATWG HTML Standard ("Server-sent events"), with the `data` field. A line ends at CR LF, CR or LF.
  - The reader shows that a payload frame delivers exactly its payload as one event, and that a heartbeat, being a comment line, delivers nothing.
- `Connections` (connections.dfy): class `ClientSet`.
  - `members` is the `clients` set.
  - `log` maps each stream to the sequence of frames written to it.
  - The methods are `Open`, `Close`, `Ping`, `Broadcast` (a loop over the members) and `Message`, which is `/message` together with its broadcast.
  - The object invariant: every stream's first frame is the opening frame, and every stream holds only whole frames.
- `RemoteServer` (remote_server.dfy): the `POST /sse` dispatcher. The injected services are an `Option` of the tools list and an `Option` of an abstract tool handler.
- `Dialects` (dialects.dfy): lemmas on how the two dispatchers differ on the same request.

The model follows what the code does, including where it departs from JSON-RPC 2.0 or from what a reader might expect:

- Neither dispatcher reads `jsonrpc`, and neither converts a numeric-string `id`. The stream gateway's `id || null` does turn every falsy id into null. Neither sends -32600 or -32601: every failure, an unknown method included, is -32603 (`server.js:159`, `server.js:223`, `vps-mcp-remote-complete.js:53`, `vps-mcp-remote-complete.js:128`).
- The stream gateway's `tools/call` has no check that `params.name` is present. A missing name reaches `executeTool` and fails as `Unknown tool: undefined`.
- The ContPAQi gateway answers `notifications/initialized` with `{jsonrpc, id}`. It does not suppress the reply.
- The executor checks no argument types. `add` with `a: "x"` succeeds, through JavaScript's `+` (string concatenation, the opaque `Host.coerce`), rather than failing; `Registry.ExecutesExactlyTheRegistry` states that every registered tool answers whenever the arguments object's operands convert.
- A write failure is not observed by the stream gateway. `Broadcast` writes to every member, and only the stream's `close` event removes it.

## Model

| member | source | states |
|---|---|---|
| `JsValue.Lookup` | server.js:72 | the value read for a key belongs to a member with that key; it is undefined exactly when no member has the key |
| `JsValue.LookupLastWins` | server.js:72 | the value read is that of the last member with the key, as JSON.parse keeps a repeated key: no later member has it |
| `JsValue.Prop` | server.js:72 | `v.key` throws exactly when `v` is undefined or null; otherwise it reads the object's member, or undefined for a non-object; this holds for the keys the gateways read (a, b, location, timezone, name, arguments), which no prototype supplies |
| `JsValue.OrElse` | server.js:91 | `v || d` is `v` when `v` is truthy and `d` otherwise |
| `JsValue.JsString` | server.js:104 | `String(v)` throws exactly when `v` cannot be converted (an object with its own `toString` key, or an array holding such a value, at any depth), always with `Cannot convert object to primitive value` |
| `JsValue.ToJsString` | server.js:104 | a template literal puts a string argument in verbatim and `undefined` as "undefined"; it throws exactly for a value that cannot be converted |
| `JsValue.ErrorText` | server.js:104 | the message of an Error built from a template literal `prefix${v}`: the prefix and a string verbatim; the conversion TypeError instead when `v` cannot be converted |
| `Rpc.EnvelopeKeys` | server.js:201-226 | a reply shows `jsonrpc` and its `id`; it has `result` exactly on success and `error` exactly on failure, never both, with the carried values |
| `Rpc.EnvelopeRoundTrip` | vps-mcp-remote-complete.js:116-131 | reading a laid-out reply back gives the same envelope, for success, error and acknowledgement alike |
| `Registry.RegistryOrder` | server.js:12-66 | the registry names are add, multiply, get_weather, get_time, system_info, in registration order, each registered once |
| `Registry.DescriptorsRoundTrip` | server.js:181-182 | a caller reading a listed registry back gets every descriptor, in the same order |
| `Registry.RegistrySchemas` | server.js:12-66 | every input schema is an object schema that declares each argument it requires; `add` and `multiply` require `a` and `b`, `get_weather` requires `location`, and `get_time` and `system_info` require nothing |
| `Registry.Arith` | server.js:72-75 | `a + b` and `a * b` throw the conversion TypeError exactly when an operand cannot be converted to a primitive |
| `Registry.ExecuteTool` | server.js:69-106 | every tool answer is an object |
| `Registry.ExecutesExactlyTheRegistry` | server.js:70-105 | every unregistered name throws `Unknown tool: <name>`, with or without arguments; with an arguments object whose operands convert, the executor answers exactly the registered names |
| `Registry.UnconvertibleOperand` | server.js:71-75 | `add` or `multiply` with an operand that cannot be converted throws `Cannot convert object to primitive value` |
| `Registry.Arithmetic` | server.js:71-75 | `add` answers `{result: a+b}` and `multiply` answers `{result: a*b}` on integer arguments |
| `Registry.MissingArguments` | server.js:71-101 | with no arguments object, every registered tool except `system_info` throws reading its first argument: `a` for `add` and `multiply`, `location` for `get_weather`, `timezone` for `get_time` |
| `Registry.TimezoneDefault` | server.js:91 | `get_time` reports the timezone "UTC" when the argument is falsy |
| `MessageServer.Handle` | server.js:164-198 | every result is an object; the switch returns exactly for `initialize`, `tools/list`, and a `tools/call` with params whose tool returns |
| `MessageServer.ToolCallParams` | server.js:186 | destructuring params throws exactly on undefined and null; otherwise it yields `name` and `arguments` |
| `MessageServer.MessageReply` | server.js:200-226 | jsonrpc "2.0" and an id are always present; success exactly when the switch returns, with its result; every failure is -32603 with the thrown message; never an acknowledgement |
| `MessageServer.ReplyIdIsNormalised` | server.js:203 | the reply id is `id || null`; it equals the request id exactly when that id is truthy or null; a falsy id (absent, false, 0, "") becomes null |
| `MessageServer.ToolsListIsRegistry` | server.js:181-182 | `tools/list` answers `{tools}` with the five descriptors unchanged; read back, they are the registry |
| `MessageServer.ToolCallOutcome` | server.js:185-193 | a returning tool gives exactly one content block of type "text" whose text is the pretty-printed result; a throwing tool gives -32603 with its message |
| `MessageServer.ToolCallWithoutParams` | server.js:186 | `tools/call` without params fails with -32603 |
| `MessageServer.UnknownMethod` | server.js:196-197 | any other method gives -32603 with `Unknown method: <method>` (the conversion TypeError for a method that cannot be converted), no `result`, and no broadcast |
| `MessageServer.InitializeAnswer` | server.js:166-179 | `initialize` answers the fixed document (protocol 1.0.0, server vps-mcp-server 1.0.0) |
| `MessageServer.AddTwoAndThree` | server.js:185-205 | `add` on 2 and 3 with id 5 replies with id 5 and the serialisation of `{result: 5}` as its text |
| `MessageServer.ObjectOperand` | server.js:185-226 | `add` whose `a` is `{"toString": 0}` replies -32603 with `Cannot convert object to primitive value`, and nothing is broadcast |
| `EventStream.DataFrame` | server.js:211 | a payload without CR or LF makes a payload frame that carries exactly that payload |
| `EventStream.PingIsNotData` | server.js:145 | the heartbeat is not a payload frame |
| `EventStream.DataFrameEvent` | server.js:211 | a payload frame makes the reader dispatch exactly its payload, and leaves the reader ready for the next frame |
| `EventStream.PingFrameEvent` | server.js:145 | a heartbeat makes the reader dispatch nothing |
| `EventStream.StreamEvents` | server.js:138-145 | a stream of whole frames reads as exactly its payloads, in order |
| `EventStream.AppendDataFrame` | server.js:211-214 | appending a payload frame keeps the stream well framed and adds exactly one event, the payload |
| `EventStream.AppendPing` | server.js:144-146 | appending a heartbeat keeps the stream well framed and adds no event |
| `Connections.InitMessage` | server.js:121-136 | the opening message, laid out, has `jsonrpc` "2.0", id 1, the `initialize` document as `result`, and no `error` |
| `Connections.InitFrame` | server.js:138 | the opening frame is a payload frame carrying the compact opening message |
| `Connections.ClientSet.constructor` | server.js:9 | the set starts empty, with nothing written, and the object invariant holds |
| `Connections.ClientSet.Write` | server.js:138 | `res.write` appends one frame to one stream being opened or still open, and changes nothing else |
| `Connections.ClientSet.Open` | server.js:109-141 | a new stream gets its own output: the opening frame is written, then the stream joins the set; its output is exactly that frame, read as one event |
| `Connections.ClientSet.Close` | server.js:149-153 | the stream leaves the set and the outputs are unchanged |
| `Connections.ClientSet.Ping` | server.js:144-146 | an open stream gets `:ping\n\n` and no new event; anything else is unchanged |
| `Connections.ClientSet.Broadcast` | server.js:210-215 | every member gets the same frame appended once; non-members and the set are unchanged |
| `Connections.ClientSet.Message` | server.js:158-228 | the reply is the dispatcher's; on success every member gets one identical frame and reads one more event, the serialised reply; otherwise nothing is written |
| `Connections.TwoStreamsOneCall` | server.js:138-214 | two open streams and one successful call: both outputs are the opening frame followed by the same reply frame |
| `Connections.CloseTwice` | server.js:152 | closing twice leaves the same set and output as closing once |
| `RemoteServer.Handle` | vps-mcp-remote-complete.js:53-114 | only `notifications/initialized` returns early; every result is an object; the tool methods throw "Servicios no inicializados" without their service; the switch answers exactly the stubs, `initialize`, a loaded `tools/list`, and a loaded `tools/call` that answers |
| `RemoteServer.ToolCall` | vps-mcp-remote-complete.js:96-110 | destructuring throws on undefined and null params; otherwise the handler gets `args || {}`, and its answer becomes the text result and its rejection the thrown message |
| `RemoteServer.SseReply` | vps-mcp-remote-complete.js:116-131 | jsonrpc "2.0"; the id is the request's as received on every path; an acknowledgement exactly for `notifications/initialized`; success exactly when the switch answers, with its result; every failure is -32603 with the thrown message |
| `RemoteServer.InitializeAnswer` | vps-mcp-remote-complete.js:59-70 | `initialize` answers protocol 2024-11-05, capabilities `{tools:{}}`, server contpaqi-mcp-remote-complete 1.0.0 |
| `RemoteServer.NotificationReply` | vps-mcp-remote-complete.js:72-78 | the notification reply is `{jsonrpc, id}` alone, with neither `result` nor `error` |
| `RemoteServer.CapabilityStubs` | vps-mcp-remote-complete.js:88-94 | `prompts/list` and `resources/list` answer empty lists under `prompts` and `resources` |
| `RemoteServer.ServicesGuard` | vps-mcp-remote-complete.js:80-99 | `tools/list` fails exactly when its service is not loaded; without services, both tool methods fail with "Servicios no inicializados"; otherwise `tools/list` answers the loaded list |
| `RemoteServer.ToolCallOutcome` | vps-mcp-remote-complete.js:100-109 | the handler gets `args || {}`; a string answer is the text verbatim and anything else is serialised; `isError` is false; a rejection gives -32603 with its message |
| `RemoteServer.UnknownMethod` | vps-mcp-remote-complete.js:112-113 | any other method gives -32603 with `Método no soportado: <method>` (the conversion TypeError for a method that cannot be converted), with the id echoed |
| `Dialects.ReplyIdsAgree` | vps-mcp-remote-complete.js:116-131 | the two gateways reply with the same id exactly when the request id is truthy or null; with no id, one sends null and the other omits the member |
| `Dialects.ZeroId` | server.js:201-205 | id 0 is answered as null by the stream gateway and as 0 by the ContPAQi gateway |
| `Dialects.ToolsListGuard` | vps-mcp-remote-complete.js:80-83 | the stream gateway's `tools/list` always succeeds; the other fails while its services are not loaded |
| `Dialects.ToolCallShapes` | server.js:188-193 | a successful stream-gateway tool call answers a serialised object and has no `isError` member |
| `Dialects.UnknownMethodMessages` | vps-mcp-remote-complete.js:112-113 | each gateway names an unknown method in its own words, both with -32603 |

## Left out

- HTTP plumbing is not modelled: Express, CORS, the body parser, `app.listen`, PORT and environment parsing, and the start-up banners and logging. The request is the already-destructured `{method, params, id}`.
- The 30-second `setInterval` timer is not modelled. `ClientSet.Ping` is one tick, for a stream that is still open.
- `res.end()` on close is not modelled. A closed stream's output is kept in `log`. `ClientSet.Write` and `ClientSet.Open` refuse a closed stream, so nothing more is written to it.
- The host readings of `get_weather`, `get_time` and `system_info` are values of the `Host` parameter. These are the random numbers, the clock and locale formatting, and `process` statistics. The tools' use of their arguments is modelled: the `location` member and the `timezone || 'UTC'` default.
- `Registry.Arithmetic`: numbers are integers, with no floating point. JavaScript's `+` and `*` on operands that convert but are not both integers (string concatenation, NaN) is the opaque `Host.coerce`.
- `JsValue.IntToDecimal`: integers are exact and unbounded. JavaScript numbers lose exactness beyond 2^53, and `String(n)` writes a magnitude of 10^21 or more in exponent form (`1e+21`), which this decimal numeral does not.
- The text of `JSON.stringify` is a parameter. `ClientSet` assumes only that its compact form has no line break, which JSON escaping guarantees.
- The loaded ContPAQi tool module and database connection are not modelled. They are the modules required at `vps-mcp-remote-complete.js:33-34` (`./src/tools/index.js` and `./src/database/connection.js`), which lie outside the two gateway files. What `getToolsList()` returns and an abstract `handleToolCall` are optional inputs. A handler answering `undefined` is not modelled.
- `RemoteServer.ServicesGuard`: `getToolsList()` is modelled as a value that cannot throw. In the source it is a foreign call inside the `try`, so a throw there would also give -32603.
- `RemoteServer.ToolCallOutcome`: a handler rejection is modelled by its `message` when that is a string (`ToolOutcome.Threw`), whether the reason is an `Error` or a plain object. A reason without a `message` (a string, a number, an object without one) sends an `error` with no `message`, and a non-string `message` is sent as it is; neither is modelled. For a null or undefined reason, the `catch` block itself throws and no reply is sent.
- The `GET /`, `GET /health`, informational `GET /sse` and `/test-tool` routes are not modelled. They only format static or host data.
- Signal handlers and `closeConnection` at shutdown are not modelled.
- The TypeError texts for reading a property of, or destructuring, `undefined` or `null` use the V8 engine's wording.
