/**
 * The stream gateway's set of open event streams (`clients`) and what is
 * written to each of them: the opening frame on `GET /sse`, the heartbeat,
 * and the mirror of every successful `POST /message` reply.
 */
module Connections {
  import opened Wrappers
  import opened JsValue
  import opened Rpc
  import opened Registry
  import opened EventStream
  import MessageServer

  /** A response stream; each `GET /sse` request gets one of its own. */
  type ConnId = nat

  /** The message written first on every stream: id 1 and the `initialize` document. */
  function InitMessage(): (e: Envelope)
    ensures Lookup(ToJson(e).fields, "jsonrpc") == Some(JStr(Version))
    ensures Lookup(ToJson(e).fields, "id") == Some(JNum(1))
    ensures Lookup(ToJson(e).fields, "result") == Some(MessageServer.InitializeResult)
    ensures Lookup(ToJson(e).fields, "error").None?
  {
    EnvelopeKeys(Envelope(Version, Some(JNum(1)), Success(MessageServer.InitializeResult)));
    Envelope(Version, Some(JNum(1)), Success(MessageServer.InitializeResult))
  }

  /** The opening frame: a payload frame carrying the compact opening message. */
  function InitFrame(stringify: Stringify): (f: string)
    ensures SingleLine(stringify(ToJson(InitMessage()), 0)) ==>
              IsDataFrame(f) && DataOf(f) == stringify(ToJson(InitMessage()), 0)
  {
    DataFrame(stringify(ToJson(InitMessage()), 0))
  }

  /** JSON.stringify without indentation escapes every CR and LF inside strings. */
  ghost predicate CompactIsSingleLine(stringify: Stringify)
  {
    forall j :: SingleLine(stringify(j, 0))
  }

  class ClientSet {
    /** The runtime's JSON.stringify. */
    const stringify: Stringify

    /** The streams currently in `clients`. */
    var members: set<ConnId>

    /** Everything written to each stream ever opened, in order. */
    var log: map<ConnId, seq<string>>

    /**
     * Members have streams; every stream starts with the opening frame and
     * holds only whole frames, so its client reads exactly the payloads.
     */
    ghost predicate Valid()
      reads this
    {
      && CompactIsSingleLine(stringify)
      && members <= log.Keys
      && (forall c :: c in log ==> log[c] != [] && log[c][0] == InitFrame(stringify))
      && (forall c :: c in log ==> WellFramed(log[c]))
    }

    constructor (stringify: Stringify)
      requires CompactIsSingleLine(stringify)
      ensures Valid()
      ensures this.stringify == stringify && members == {} && log == map[]
    {
      this.stringify := stringify;
      members := {};
      log := map[];
    }

    /** What has been written to stream `c`. */
    function Output(c: ConnId): seq<string>
      reads this
    {
      if c in log then log[c] else []
    }

    /** `res.write(frame)`, on a stream being opened or still open. */
    method Write(c: ConnId, frame: string)
      requires c in members || c !in log
      modifies this
      ensures members == old(members)
      ensures log == old(log)[c := old(Output(c)) + [frame]]
    {
      log := log[c := Output(c) + [frame]];
    }

    /**
     * `GET /sse`: the opening frame is written, then the stream joins
     * `clients`, so nothing reaches it before that frame.
     */
    method Open(c: ConnId)
      requires Valid()
      requires c !in log
      modifies this
      ensures Valid()
      ensures members == old(members) + {c}
      ensures log == old(log)[c := [InitFrame(stringify)]]
      ensures Events(Concat(log[c])) == [stringify(ToJson(InitMessage()), 0)]
    {
      var payload := stringify(ToJson(InitMessage()), 0);
      AppendDataFrame([], payload);
      assert [] + [InitFrame(stringify)] == [InitFrame(stringify)];
      Write(c, InitFrame(stringify));
      members := members + {c};
    }

    /** The stream's `close` event: it leaves `clients`; closing again changes nothing. */
    method Close(c: ConnId)
      requires Valid()
      modifies this
      ensures Valid()
      ensures members == old(members) - {c}
      ensures log == old(log)
    {
      members := members - {c};
    }

    /** One heartbeat tick of an open stream; the timer is cleared on close. */
    method Ping(c: ConnId)
      requires Valid()
      modifies this
      ensures Valid()
      ensures members == old(members)
      ensures c in old(members) ==> log == old(log)[c := old(log[c]) + [PingFrame]]
      ensures c !in old(members) ==> log == old(log)
      ensures c in old(members) ==> Events(Concat(log[c])) == Events(Concat(old(log[c])))
    {
      if c in members {
        AppendPing(log[c]);
        Write(c, PingFrame);
      }
    }

    /** `clients.forEach(client => client.write(frame))`. */
    method Broadcast(frame: string)
      requires Valid()
      requires IsDataFrame(frame)
      modifies this
      ensures Valid()
      ensures members == old(members) && log.Keys == old(log.Keys)
      ensures forall c :: c in members ==> log[c] == old(log[c]) + [frame]
      ensures forall c :: c in log && c !in members ==> log[c] == old(log[c])
    {
      var pending := members;
      while pending != {}
        invariant Valid()
        invariant pending <= members == old(members)
        invariant log.Keys == old(log.Keys)
        invariant forall c :: c in members && c !in pending ==> log[c] == old(log[c]) + [frame]
        invariant forall c :: c in log && (c !in members || c in pending) ==> log[c] == old(log[c])
        decreases pending
      {
        var c :| c in pending;
        AppendWellFramed(log[c], frame);
        Write(c, frame);
        pending := pending - {c};
      }
    }

    /**
     * `POST /message`: the reply is the dispatcher's; a successful reply is
     * also mirrored, as one identical frame, to every open stream, whose
     * client then reads it as one more event.
     */
    method Message(req: Request, host: Host) returns (reply: Envelope)
      requires Valid()
      modifies this
      ensures Valid()
      ensures reply == MessageServer.MessageReply(req, host, stringify)
      ensures members == old(members) && log.Keys == old(log.Keys)
      ensures MessageServer.Broadcasts(reply) ==>
                forall c :: c in members ==> log[c] == old(log[c]) + [DataFrame(stringify(ToJson(reply), 0))]
      ensures MessageServer.Broadcasts(reply) ==>
                forall c :: c in members ==>
                  Events(Concat(log[c])) == Events(Concat(old(log[c]))) + [stringify(ToJson(reply), 0)]
      ensures forall c :: c in log && (c !in members || !MessageServer.Broadcasts(reply)) ==> log[c] == old(log[c])
    {
      reply := MessageServer.MessageReply(req, host, stringify);
      if MessageServer.Broadcasts(reply) && |members| > 0 {
        var payload := stringify(ToJson(reply), 0);
        forall c | c in members
          ensures Events(Concat(log[c] + [DataFrame(payload)])) == Events(Concat(log[c])) + [payload]
        {
          AppendDataFrame(log[c], payload);
        }
        Broadcast(DataFrame(payload));
      }
    }
  }

  /** Two streams open, one successful call: both receive the same frame and the same event. */
  method TwoStreamsOneCall(stringify: Stringify, host: Host, req: Request, a: ConnId, b: ConnId)
    returns (reply: Envelope, clients: ClientSet)
    requires CompactIsSingleLine(stringify)
    requires a != b
    requires MessageServer.Handle(req, host, stringify).Ok?
    ensures clients.Valid() && clients.members == {a, b}
    ensures clients.log[a] == clients.log[b]
            == [InitFrame(stringify), DataFrame(stringify(ToJson(reply), 0))]
  {
    clients := new ClientSet(stringify);
    clients.Open(a);
    clients.Open(b);
    reply := clients.Message(req, host);
  }

  /** Closing a stream twice leaves the same set as closing it once. */
  method CloseTwice(clients: ClientSet, c: ConnId)
    requires clients.Valid()
    modifies clients
    ensures clients.Valid()
    ensures clients.members == old(clients.members) - {c} && clients.log == old(clients.log)
  {
    clients.Close(c);
    clients.Close(c);
  }
}
