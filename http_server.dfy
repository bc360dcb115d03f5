/**
  The HTTP side of http_server.py: the process-wide `sessions` dictionary,
  the POST /mcp endpoint and its /messages alias, which resolve a session
  and answer one JSON-RPC request, and the GET /mcp endpoint, which opens a
  session and streams server-sent events. `uuid.uuid4()`, the clock and
  `json.dumps` are parameters.
 */
module HttpServer {
  import opened Json
  import opened Py
  import opened JsonRpc
  import opened Protocol
  import opened EventStream

  /** A `datetime.utcnow()` reading. */
  type Instant = nat

  /**
    A session record. `tools` and `capabilities` are `None` when the key is
    absent from the record and `Some(JNull)` when it holds Python's None.
   */
  datatype Session = Session(createdAt: Instant, tools: Option<Json>, capabilities: Option<Json>)

  /** The `StreamingResponse` of GET /mcp, without its body. */
  datatype StreamReply = StreamReply(mediaType: string, headers: map<string, string>)

  /** `not session_id`: the header is missing or empty, so a new id is minted. */
  predicate Mints(header: Option<string>)
    ensures Mints(header) <==> !Truthy(if header.None? then JNull else JStr(header.value))
  {
    header.None? || header.value == ""
  }

  /** The session id a POST answers under: the minted one, or the header verbatim. */
  function SessionIdFor(header: Option<string>, freshId: string): (sid: string)
    ensures Mints(header) ==> sid == freshId
    ensures !Mints(header) ==> header == Some(sid) && sid != ""
  {
    if Mints(header) then freshId else header.value
  }

  /**
    The session map after a POST has resolved its session: a minted id gets a
    record holding only its creation time; a given id is not looked up.
   */
  function SessionsAfterPost(sessions: map<string, Session>, header: Option<string>, freshId: string, now: Instant)
    : (r: map<string, Session>)
    ensures !Mints(header) ==> r == sessions
    ensures Mints(header) ==> SessionIdFor(header, freshId) in r && r[freshId] == Session(now, None, None)
    ensures Mints(header) ==> forall id | id in sessions && id != freshId :: id in r && r[id] == sessions[id]
    ensures Mints(header) ==> r.Keys == sessions.Keys + {freshId}
  {
    if Mints(header) then sessions[freshId := Session(now, None, None)] else sessions
  }

  /** A fresh id adds exactly one session; a given header adds none, even when it is unknown. */
  lemma PostSessionCount(sessions: map<string, Session>, header: Option<string>, freshId: string, now: Instant)
    requires freshId !in sessions
    ensures Mints(header) ==> |SessionsAfterPost(sessions, header, freshId, now)| == |sessions| + 1
    ensures !Mints(header) ==> |SessionsAfterPost(sessions, header, freshId, now)| == |sessions|
  {
    if Mints(header) {
      var r := SessionsAfterPost(sessions, header, freshId, now);
      assert r.Keys == sessions.Keys + {freshId};
      assert |r.Keys| == |sessions.Keys| + 1;
    }
  }

  /** The record GET /mcp opens: `tools` and `capabilities` present and None. */
  function StreamSession(now: Instant): (s: Session)
    ensures s.createdAt == now && s.tools == Some(JNull) && s.capabilities == Some(JNull)
  {
    Session(now, Some(JNull), Some(JNull))
  }

  /** The headers of the event stream, carrying the new session id. */
  function StreamHeaders(sessionId: string): (h: map<string, string>)
    ensures h.Keys == {"Cache-Control", "Connection", "Mcp-Session-Id"}
    ensures h["Mcp-Session-Id"] == sessionId && h["Cache-Control"] == "no-cache" && h["Connection"] == "keep-alive"
  {
    map["Cache-Control" := "no-cache", "Connection" := "keep-alive", "Mcp-Session-Id" := sessionId]
  }

  /** The stream opens with the very block that `initialize` answers with. */
  lemma StreamOpensWithInitialize(dumps: Json -> string, timestamps: seq<string>, request: McpRequest)
    requires request.methodName == "initialize"
    ensures ParseFrame(StreamFrames(dumps, timestamps)[0])
              == Some(dumps(Notification("notifications/initialized", Dispatch(request).value)))
  {
    InitializeIsConstant(request);
    StreamReadsBack(dumps, timestamps);
  }

  /** The gateway process: the `sessions` dictionary shared by its endpoints. */
  class Gateway {
    var sessions: map<string, Session>

    constructor()
      ensures sessions == map[]
    {
      sessions := map[];
    }

    /** The session lookup of POST /mcp: mint `freshId` when the header is missing or empty. */
    method ResolveSession(header: Option<string>, freshId: string, now: Instant) returns (sessionId: string)
      modifies this
      ensures sessionId == SessionIdFor(header, freshId)
      ensures sessions == SessionsAfterPost(old(sessions), header, freshId, now)
    {
      if header.None? || header.value == "" {
        sessionId := freshId;
        sessions := sessions[freshId := Session(now, None, None)];
      } else {
        sessionId := header.value;
      }
    }

    /**
      POST /mcp for a well-formed request: resolve the session, handle the
      request, and answer the result under the session header or, when
      handling raised, the error object with status 500. A minted session
      stays even when handling raised.
     */
    method PostMcp(request: McpRequest, header: Option<string>, freshId: string, now: Instant) returns (reply: HttpReply)
      modifies this
      ensures sessions == SessionsAfterPost(old(sessions), header, freshId, now)
      ensures reply == Respond(request, Dispatch(request), SessionIdFor(header, freshId))
    {
      var sessionId := ResolveSession(header, freshId, now);
      var outcome := HandleMcpRequest(request, sessionId);
      reply := Respond(request, outcome, sessionId);
    }

    /** POST /messages: the legacy alias, answered as POST /mcp. */
    method PostMessages(request: McpRequest, header: Option<string>, freshId: string, now: Instant) returns (reply: HttpReply)
      modifies this
      ensures sessions == SessionsAfterPost(old(sessions), header, freshId, now)
      ensures reply == Respond(request, Dispatch(request), SessionIdFor(header, freshId))
    {
      reply := PostMcp(request, header, freshId, now);
    }

    /** GET /mcp: open a session for the stream and answer with the event-stream headers. */
    method GetMcp(freshId: string, now: Instant) returns (reply: StreamReply)
      modifies this
      ensures sessions == old(sessions)[freshId := StreamSession(now)]
      ensures reply == StreamReply("text/event-stream", StreamHeaders(freshId))
    {
      sessions := sessions[freshId := Session(now, Some(JNull), Some(JNull))];
      reply := StreamReply("text/event-stream", map["Cache-Control" := "no-cache", "Connection" := "keep-alive",
                                                    "Mcp-Session-Id" := freshId]);
    }
  }

  /**
    A successful POST answers under the session it resolved: a minted id is a
    key of the new session map, and a given header comes back unchanged.
   */
  lemma PostEchoesSession(request: McpRequest, sessions: map<string, Session>, header: Option<string>, freshId: string, now: Instant)
    requires Dispatch(request).Ok?
    ensures var reply := Respond(request, Dispatch(request), SessionIdFor(header, freshId));
            && reply.status == 200
            && (Mints(header) ==> reply.headers["Mcp-Session-Id"] in SessionsAfterPost(sessions, header, freshId, now))
            && (!Mints(header) ==> Some(reply.headers["Mcp-Session-Id"]) == header)
  {
  }

  /** Opening a stream with a fresh id adds exactly that one session and keeps the others. */
  lemma StreamSessionCount(sessions: map<string, Session>, freshId: string, now: Instant)
    requires freshId !in sessions
    ensures |sessions[freshId := StreamSession(now)]| == |sessions| + 1
    ensures forall id | id in sessions :: sessions[freshId := StreamSession(now)][id] == sessions[id]
  {
    assert sessions[freshId := StreamSession(now)].Keys == sessions.Keys + {freshId};
  }
}
