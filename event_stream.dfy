/**
  The server-sent events of GET /mcp (http_server.py's `event_generator`):
  JSON-RPC notifications, each dumped to JSON and framed as one event.
 */
module EventStream {
  import opened Json
  import opened Protocol

  /** A JSON-RPC notification: no id, a method and its params. */
  function Notification(methodName: string, params: Json): (n: Json)
    ensures n.JObj? && n.fields.Keys == {"jsonrpc", "method", "params"} && "id" !in n.fields
    ensures n.fields["jsonrpc"] == JStr("2.0") && n.fields["method"] == JStr(methodName) && n.fields["params"] == params
  {
    JObj(map["jsonrpc" := JStr("2.0"), "method" := JStr(methodName), "params" := params])
  }

  /** The first event of the stream. */
  function InitMessage(): (m: Json)
    ensures m.JObj? && "id" !in m.fields && "method" in m.fields && "params" in m.fields
    ensures m.fields["method"] == JStr("notifications/initialized") && m.fields["params"] == InitializeResult
  {
    Notification("notifications/initialized", InitializeResult)
  }

  /** A keep-alive event stamped with an ISO-format time. */
  function Heartbeat(timestamp: string): (m: Json)
    ensures m.JObj? && "id" !in m.fields && "method" in m.fields && "params" in m.fields
    ensures m.fields["method"] == JStr("notifications/heartbeat")
    ensures m.fields["params"] == JObj(map["timestamp" := JStr(timestamp)])
  {
    Notification("notifications/heartbeat", JObj(map["timestamp" := JStr(timestamp)]))
  }

  /** One server-sent event: a `data:` line and the blank line that ends the event. */
  function Frame(payload: string): (f: string)
    ensures |f| == |payload| + 8 && f[..6] == "data: " && f[|f| - 2..] == "\n\n"
    ensures f[6..|f| - 2] == payload
  {
    "data: " + payload + "\n\n"
  }

  /** The payload of a frame, if `f` is one. */
  function ParseFrame(f: string): Option<string> {
    if |f| >= 8 && f[..6] == "data: " && f[|f| - 2..] == "\n\n" then Some(f[6..|f| - 2]) else None
  }

  /** Framing loses nothing: the payload reads back. */
  lemma FrameRoundTrip(payload: string)
    ensures ParseFrame(Frame(payload)) == Some(payload)
  {
    var f := Frame(payload);
    assert f[..6] == "data: " && f[|f| - 2..] == "\n\n";
    assert f[6..|f| - 2] == payload;
  }

  /** Every frame is exactly the framing of the payload it reads back as. */
  lemma ParseFrameRoundTrip(f: string)
    ensures ParseFrame(f).Some? ==> Frame(ParseFrame(f).value) == f
  {
    if ParseFrame(f).Some? {
      assert f == f[..6] + f[6..|f| - 2] + f[|f| - 2..];
    }
  }

  /** The first `1 + |timestamps|` events of the stream, as the generator yields them. */
  function StreamFrames(dumps: Json -> string, timestamps: seq<string>): (frames: seq<string>)
    ensures |frames| == |timestamps| + 1
  {
    [Frame(dumps(InitMessage()))] + HeartbeatFrames(dumps, timestamps)
  }

  /** One heartbeat event per clock reading, in order. */
  function HeartbeatFrames(dumps: Json -> string, timestamps: seq<string>): (frames: seq<string>)
    ensures |frames| == |timestamps|
    ensures forall i | 0 <= i < |timestamps| :: frames[i] == Frame(dumps(Heartbeat(timestamps[i])))
  {
    seq(|timestamps|, i requires 0 <= i < |timestamps| => Frame(dumps(Heartbeat(timestamps[i]))))
  }

  /**
    The stream opens with the `initialized` notification carrying the
    `initialize` block; every later event is a heartbeat carrying its
    timestamp; each event reads back as the dump of its notification.
   */
  lemma StreamReadsBack(dumps: Json -> string, timestamps: seq<string>)
    ensures var frames := StreamFrames(dumps, timestamps);
            && ParseFrame(frames[0]) == Some(dumps(InitMessage()))
            && forall i | 0 <= i < |timestamps| :: ParseFrame(frames[i + 1]) == Some(dumps(Heartbeat(timestamps[i])))
  {
    FirstFrameReadsBack(dumps, timestamps);
    HeartbeatsReadBack(dumps, timestamps);
    var frames := StreamFrames(dumps, timestamps);
    assert frames[1..] == HeartbeatFrames(dumps, timestamps);
  }

  /** The first event reads back as the dump of the `initialized` notification. */
  lemma FirstFrameReadsBack(dumps: Json -> string, timestamps: seq<string>)
    ensures ParseFrame(StreamFrames(dumps, timestamps)[0]) == Some(dumps(InitMessage()))
  {
    FrameRoundTrip(dumps(InitMessage()));
  }

  /** Each heartbeat event reads back as the dump of its heartbeat. */
  lemma HeartbeatsReadBack(dumps: Json -> string, timestamps: seq<string>)
    ensures forall i | 0 <= i < |timestamps| ::
              ParseFrame(HeartbeatFrames(dumps, timestamps)[i]) == Some(dumps(Heartbeat(timestamps[i])))
  {
    forall i | 0 <= i < |timestamps|
      ensures ParseFrame(HeartbeatFrames(dumps, timestamps)[i]) == Some(dumps(Heartbeat(timestamps[i])))
    {
      FrameRoundTrip(dumps(Heartbeat(timestamps[i])));
    }
  }

  /**
    `event_generator`: the `initialized` event, then one heartbeat per clock
    reading. The source loops until the client goes away; the model yields
    the heartbeats for the readings it is given.
   */
  method EventGenerator(dumps: Json -> string, timestamps: seq<string>) returns (frames: seq<string>)
    ensures frames == StreamFrames(dumps, timestamps)
  {
    var first := Frame(dumps(InitMessage()));
    var heartbeats := [];
    var i := 0;
    while i < |timestamps|
      invariant 0 <= i <= |timestamps|
      invariant heartbeats == HeartbeatFrames(dumps, timestamps[..i])
    {
      heartbeats := heartbeats + [Frame(dumps(Heartbeat(timestamps[i])))];
      i := i + 1;
    }
    assert timestamps[..i] == timestamps;
    frames := [first] + heartbeats;
  }
}
