/**
  The JSON-RPC side of http_server.py: the request and response envelopes,
  `handle_mcp_request`'s routing on the method name, the two adapters that
  turn the tool server's results into plain JSON, and the mapping of a
  handled request or a raised exception to the HTTP reply of POST /mcp.
 */
module JsonRpc {
  import opened Json
  import opened Py
  import opened Schema
  import opened Registry
  import opened Handlers
  import opened ToolCalls
  import opened Registration
  import opened Protocol

  /** `MCPRequest` once validated: `params` defaults to an empty dictionary. */
  datatype McpRequest = McpRequest(jsonrpc: string, id: Json, methodName: string, params: map<string, Json>)

  /** `MCPResponse`; a `result` or `error` of None is `JNull`. */
  datatype McpResponse = McpResponse(jsonrpc: string, id: Json, result: Json, error: Json)

  /** An HTTP reply: status, headers and JSON body. */
  datatype HttpReply = HttpReply(status: int, headers: map<string, string>, body: Json)

  /** `d[key] = value` for the fields whose value is not None. */
  function PutUnlessNull(fields: map<string, Json>, key: string, value: Json): (r: map<string, Json>)
    ensures value != JNull ==> r == fields[key := value]
    ensures value == JNull ==> r == fields
  {
    if value == JNull then fields else fields[key := value]
  }

  /** `response.dict(exclude_none=True)`: the fields that are not None. */
  function Dump(response: McpResponse): (r: Json)
    ensures r.JObj? && "jsonrpc" in r.fields && r.fields["jsonrpc"] == JStr(response.jsonrpc)
    ensures "id" in r.fields <==> response.id != JNull
    ensures "result" in r.fields <==> response.result != JNull
    ensures "error" in r.fields <==> response.error != JNull
    ensures r.fields.Keys <= {"jsonrpc", "id", "result", "error"}
  {
    var base := map["jsonrpc" := JStr(response.jsonrpc)];
    JObj(PutUnlessNull(PutUnlessNull(PutUnlessNull(base, "id", response.id), "result", response.result),
                       "error", response.error))
  }

  /** Reads an envelope back: a missing field is None. */
  function ParseResponse(body: Json): (r: Option<McpResponse>)
    ensures r.Some? ==> body.JObj?
  {
    if body.JObj? && "jsonrpc" in body.fields && body.fields["jsonrpc"].JStr? then
      Some(McpResponse(body.fields["jsonrpc"].s, GetOr(body.fields, "id", JNull),
                       GetOr(body.fields, "result", JNull), GetOr(body.fields, "error", JNull)))
    else None
  }

  /** Dropping the None fields loses nothing: the envelope reads back as it was. */
  lemma DumpRoundTrip(response: McpResponse)
    ensures ParseResponse(Dump(response)) == Some(response)
  {
    var fields := Dump(response).fields;
    assert GetOr(fields, "id", JNull) == response.id;
    assert GetOr(fields, "result", JNull) == response.result;
    assert GetOr(fields, "error", JNull) == response.error;
  }

  /** `{"status": "pong"}`. */
  const Pong: Json := JObj(map["status" := JStr("pong")])

  /** A tool descriptor as a dictionary with its name, description and input schema. */
  function ToolJson(tool: Tool): (r: Json)
    ensures r.JObj? && r.fields.Keys == {"name", "description", "inputSchema"}
  {
    JObj(map["name" := JStr(tool.name), "description" := JStr(tool.description), "inputSchema" := tool.inputSchema])
  }

  /** Reads a descriptor dictionary back. */
  function ParseTool(j: Json): Option<Tool> {
    if j.JObj? && "name" in j.fields && j.fields["name"].JStr?
       && "description" in j.fields && j.fields["description"].JStr? && "inputSchema" in j.fields
    then Some(Tool(j.fields["name"].s, j.fields["description"].s, j.fields["inputSchema"]))
    else None
  }

  /** The conversion keeps every field of a descriptor. */
  lemma ToolJsonRoundTrip(tool: Tool)
    ensures ParseTool(ToolJson(tool)) == Some(tool)
  {
  }

  /** Every descriptor, converted, in order. */
  function ToolsJson(tools: seq<Tool>): (r: seq<Json>)
    ensures |r| == |tools| && forall i | 0 <= i < |tools| :: r[i] == ToolJson(tools[i])
  {
    seq(|tools|, i requires 0 <= i < |tools| => ToolJson(tools[i]))
  }

  /** A content item as a dictionary with its type and text. */
  function ContentJson(item: TextContent): (r: Json)
    ensures r.JObj? && r.fields.Keys == {"type", "text"}
  {
    JObj(map["type" := JStr(item.kind), "text" := JStr(item.text)])
  }

  /** Reads a content dictionary back. */
  function ParseContent(j: Json): Option<TextContent> {
    if j.JObj? && "type" in j.fields && j.fields["type"].JStr? && "text" in j.fields && j.fields["text"].JStr?
    then Some(TextContent(j.fields["type"].s, j.fields["text"].s))
    else None
  }

  /** The conversion keeps the type and the text of a content item. */
  lemma ContentJsonRoundTrip(item: TextContent)
    ensures ParseContent(ContentJson(item)) == Some(item)
  {
  }

  /** Every content item, converted, in order. */
  function ContentsJson(items: seq<TextContent>): (r: seq<Json>)
    ensures |r| == |items| && forall i | 0 <= i < |items| :: r[i] == ContentJson(items[i])
  {
    seq(|items|, i requires 0 <= i < |items| => ContentJson(items[i]))
  }

  /** `call_tool_from_original_server` as a value: the tool's content items, converted. */
  function ToolCallContent(name: Json, arguments: Json): (r: Result<seq<Json>>)
    ensures r.Ok? <==> CallTool(name, arguments).Ok?
    ensures r.Ok? ==> r.value == ContentsJson(CallTool(name, arguments).value)
  {
    var items :- CallTool(name, arguments);
    Ok(ContentsJson(items))
  }

  /** `handle_mcp_request`: route on the method name; any other name raises a 400 HTTPException. */
  function Dispatch(request: McpRequest): (r: Result<Json>)
    ensures r.Ok? ==> r.value.JObj?
  {
    if request.methodName == "initialize" then Ok(InitializeResult)
    else if request.methodName == "tools/list" then Ok(JObj(map["tools" := JArr(ToolsJson(ListTools()))]))
    else if request.methodName == "tools/call" then
      var content :- ToolCallContent(GetOr(request.params, "name", JNull),
                                     GetOr(request.params, "arguments", JObj(map[])));
      Ok(JObj(map["content" := JArr(content)]))
    else if request.methodName == "ping" then Ok(Pong)
    else Err(HttpException(400, "Unknown method: " + request.methodName))
  }

  /** The methods `handle_mcp_request` knows. */
  predicate KnownMethod(methodName: string) {
    methodName in {"initialize", "tools/list", "tools/call", "ping"}
  }

  /** The error object of the `except` clause. */
  function ErrorObject(e: PyError): (r: Json)
    ensures r.JObj? && r.fields.Keys == {"code", "message", "data"}
    ensures r.fields["code"] == JNum(-32603) && r.fields["message"] == JStr("Internal error")
    ensures r.fields["data"] == JStr(ErrorText(e))
  {
    JObj(map["code" := JNum(-32603), "message" := JStr("Internal error"), "data" := JStr(ErrorText(e))])
  }

  /**
    The reply of POST /mcp once the request has been handled: the result with
    the session header and status 200, or the error object with status 500
    and no session header. Both echo the request id.
   */
  function Respond(request: McpRequest, outcome: Result<Json>, sessionId: string): (r: HttpReply)
    ensures r.body.JObj?
  {
    match outcome
    case Ok(result) =>
      HttpReply(200, map["Mcp-Session-Id" := sessionId], Dump(McpResponse("2.0", request.id, result, JNull)))
    case Err(e) =>
      HttpReply(500, map[], Dump(McpResponse("2.0", request.id, JNull, ErrorObject(e))))
  }

  /** `initialize` answers the same block whatever the id, the params or the session. */
  lemma InitializeIsConstant(request: McpRequest)
    requires request.methodName == "initialize"
    ensures Dispatch(request) == Ok(InitializeResult)
    ensures InitializeResult.fields["protocolVersion"] == JStr("2024-11-05")
    ensures InitializeResult.fields["serverInfo"] == JObj(map["name" := JStr("k-beauty-complete"), "version" := JStr("3.0.0")])
  {
  }

  /** `ping` answers `{"status": "pong"}`, needing no earlier `initialize`. */
  lemma PingIsPong(request: McpRequest, sessionId: string)
    requires request.methodName == "ping"
    ensures Respond(request, Dispatch(request), sessionId).status == 200
    ensures Respond(request, Dispatch(request), sessionId).body.fields["result"] == JObj(map["status" := JStr("pong")])
  {
  }

  /** `handle_mcp_request` raises its own HTTPException for a method it does not know. */
  lemma UnknownMethodRaises(request: McpRequest)
    requires !KnownMethod(request.methodName)
    ensures Dispatch(request) == Err(HttpException(400, "Unknown method: " + request.methodName))
  {
  }

  /** `initialize`, `tools/list` and `ping` always answer. */
  lemma KnownMethodAnswers(request: McpRequest)
    requires KnownMethod(request.methodName) && request.methodName != "tools/call"
    ensures Dispatch(request).Ok?
  {
  }

  /** `tools/call` answers exactly when the tool does, with its content items converted, and raises what the tool raises. */
  lemma ToolsCallAnswersIffTool(request: McpRequest)
    requires request.methodName == "tools/call"
    ensures var outcome := CallTool(GetOr(request.params, "name", JNull), GetOr(request.params, "arguments", JObj(map[])));
            && (Dispatch(request).Ok? <==> outcome.Ok?)
            && (outcome.Ok? ==> Dispatch(request) == Ok(JObj(map["content" := JArr(ContentsJson(outcome.value))])))
            && (outcome.Err? ==> Dispatch(request) == Err(outcome.error))
  {
  }

  /**
    An unknown method is answered with status 500 and the error object:
    code -32603, message "Internal error", the exception text as data, and
    no result.
   */
  lemma UnknownMethodAnswer(request: McpRequest, sessionId: string)
    requires !KnownMethod(request.methodName)
    ensures var reply := Respond(request, Dispatch(request), sessionId);
            && reply.status == 500
            && "result" !in reply.body.fields
            && reply.body.fields["error"] == ErrorObject(HttpException(400, "Unknown method: " + request.methodName))
            && reply.body.fields["error"].fields["data"] == JStr("400: Unknown method: " + request.methodName)
  {
    var e := HttpException(400, "Unknown method: " + request.methodName);
    assert Dispatch(request) == Err(e) by {
      UnknownMethodRaises(request);
    }
    ErrorReply(request, e, sessionId);
    UnknownMethodText(request.methodName);
  }

  /** Whatever handling raised is answered with status 500, no session header, no result and the error object. */
  lemma ErrorReply(request: McpRequest, e: PyError, sessionId: string)
    ensures var reply := Respond(request, Err(e), sessionId);
            && reply.status == 500 && reply.headers == map[]
            && "result" !in reply.body.fields
            && reply.body.fields["error"] == ErrorObject(e)
  {
  }

  /** The text of the exception an unknown method raises. */
  lemma UnknownMethodText(methodName: string)
    ensures ErrorText(HttpException(400, "Unknown method: " + methodName)) == "400: Unknown method: " + methodName
  {
    BadRequestText("Unknown method: " + methodName);
    assert "400: " + ("Unknown method: " + methodName) == "400: Unknown method: " + methodName;
  }

  /**
    A reply carries a result or an error, never both: a result with status 200
    and the session header, or an error with code -32603 and status 500. The
    request id is echoed unless it is None.
   */
  lemma ResultXorError(request: McpRequest, outcome: Result<Json>, sessionId: string)
    requires outcome.Ok? ==> outcome.value != JNull
    ensures var reply := Respond(request, outcome, sessionId);
            && ("result" in reply.body.fields <==> outcome.Ok?)
            && ("error" in reply.body.fields <==> outcome.Err?)
            && (reply.status == 200 <==> outcome.Ok?)
            && (reply.status == 500 <==> outcome.Err?)
            && ("Mcp-Session-Id" in reply.headers <==> outcome.Ok?)
            && (outcome.Ok? ==> reply.headers["Mcp-Session-Id"] == sessionId && reply.body.fields["result"] == outcome.value)
            && (outcome.Err? ==> reply.body.fields["error"].fields["code"] == JNum(-32603))
            && ("id" in reply.body.fields <==> request.id != JNull)
            && (request.id != JNull ==> reply.body.fields["id"] == request.id)
  {
  }

  /**
    `tools/call` answers whatever name it is given: an unregistered or absent
    name gets the fallback text as its one content item.
   */
  lemma ToolsCallUnregistered(request: McpRequest)
    requires request.methodName == "tools/call" && !IsRegistered(GetOr(request.params, "name", JNull))
    ensures Dispatch(request) == Ok(JObj(map["content" := JArr([
              JObj(map["type" := JStr("text"), "text" := JStr(UnknownToolText(GetOr(request.params, "name", JNull)))])])]))
  {
    var name := GetOr(request.params, "name", JNull);
    var item := TextContent("text", UnknownToolText(name));
    FallbackIffUnregistered(name, GetOr(request.params, "arguments", JObj(map[])));
    assert ToolCallContent(name, GetOr(request.params, "arguments", JObj(map[]))) == Ok(ContentsJson([item]));
    assert ContentsJson([item]) == [ContentJson(item)];
  }

  /** `tools/list` answers every registered descriptor, in order, with all its fields. */
  lemma ToolsListAnswersRegistry(request: McpRequest)
    requires request.methodName == "tools/list"
    ensures Dispatch(request).Ok?
    ensures var tools := Dispatch(request).value.fields["tools"];
            && tools.JArr? && |tools.items| == |ListTools()|
            && forall i | 0 <= i < |tools.items| :: ParseTool(tools.items[i]) == Some(ListTools()[i])
  {
    var tools := ToolsJson(ListTools());
    forall i | 0 <= i < |tools|
      ensures ParseTool(tools[i]) == Some(ListTools()[i])
    {
      ToolJsonRoundTrip(ListTools()[i]);
    }
  }

  /** `get_tools_from_original_server`: one dictionary per descriptor, appended in order. */
  method GetToolsFromOriginalServer() returns (mcpTools: seq<Json>)
    ensures mcpTools == ToolsJson(ListTools())
  {
    var tools := ListTools();
    mcpTools := [];
    for i := 0 to |tools|
      invariant mcpTools == ToolsJson(tools[..i])
    {
      mcpTools := mcpTools + [ToolJson(tools[i])];
      assert tools[..i + 1] == tools[..i] + [tools[i]];
    }
    assert tools[..|tools|] == tools;
  }

  /** `call_tool_from_original_server`: run the tool, then one dictionary per content item, in order. */
  method CallToolFromOriginalServer(name: Json, arguments: Json) returns (content: Result<seq<Json>>)
    ensures content == ToolCallContent(name, arguments)
  {
    var result := RunCallTool(name, arguments);
    if result.Err? {
      return Err(result.error);
    }
    var items := result.value;
    var converted := [];
    for i := 0 to |items|
      invariant converted == ContentsJson(items[..i])
    {
      converted := converted + [ContentJson(items[i])];
      assert items[..i + 1] == items[..i] + [items[i]];
    }
    assert items[..|items|] == items;
    return Ok(converted);
  }

  /** `handle_mcp_request` as the gateway runs it; the session id plays no part in the answer. */
  method HandleMcpRequest(request: McpRequest, sessionId: string) returns (r: Result<Json>)
    ensures r == Dispatch(request)
  {
    if request.methodName == "initialize" {
      r := Ok(InitializeResult);
    } else if request.methodName == "tools/list" {
      var tools := GetToolsFromOriginalServer();
      r := Ok(JObj(map["tools" := JArr(tools)]));
    } else if request.methodName == "tools/call" {
      var toolName := GetOr(request.params, "name", JNull);
      var arguments := GetOr(request.params, "arguments", JObj(map[]));
      var content := CallToolFromOriginalServer(toolName, arguments);
      if content.Err? {
        return Err(content.error);
      }
      r := Ok(JObj(map["content" := JArr(content.value)]));
    } else if request.methodName == "ping" {
      r := Ok(Pong);
    } else {
      r := Err(HttpException(400, "Unknown method: " + request.methodName));
    }
  }
}
