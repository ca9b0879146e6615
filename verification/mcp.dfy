/** The MCP bridge's JSON-RPC 2.0 dispatcher: `initialize`, notifications,
    `tools/list`, `tools/call` and "Method not found" (code -32601, section
    5.1 of the JSON-RPC 2.0 specification). What the three tools do past
    their argument checks is given by an oracle. */
module Mcp {
  import opened Wrappers
  import opened Text
  import opened PyJson

  const ProtocolVersion := "2024-11-05"
  const MethodNotFoundCode := -32601
  const PromptRequired := "Error: 'prompt' is required."

  /** The tools' work once their arguments are read: the routed query's text,
      the swarm report or the exception it raised, and the status report. */
  datatype ToolWork = ToolWork(
    query: (Json, Json, int) -> string,
    swarm: (Json, Json, int) -> Result<string, string>,
    status: string)

  /** `_tool_query`: reads prompt, model and timeout (`int()` of it can
      raise), then answers an empty prompt without calling anything. */
  function ToolQuery(arguments: Json, work: ToolWork): (r: Result<string, string>)
    ensures !arguments.JObj? ==> r.Failure?
  {
    match Get(arguments, "prompt", JStr(""))
    case Failure(e) => Failure(Message(e))
    case Success(prompt) =>
      var model := Get(arguments, "model", JNull).value;
      match ToInt(Get(arguments, "timeout", JInt(30)).value)
      case Failure(e) => Failure(Message(e))
      case Success(timeout) =>
        if !Truthy(prompt) then Success(PromptRequired)
        else Success(work.query(prompt, model, timeout))
  }

  /** `_tool_swarm`: reads prompt, tier and max_models, then answers an empty
      prompt without calling anything. */
  function ToolSwarm(arguments: Json, work: ToolWork): (r: Result<string, string>)
    ensures !arguments.JObj? ==> r.Failure?
  {
    match Get(arguments, "prompt", JStr(""))
    case Failure(e) => Failure(Message(e))
    case Success(prompt) =>
      var tier := Get(arguments, "tier", JStr("fast")).value;
      match ToInt(Get(arguments, "max_models", JInt(3)).value)
      case Failure(e) => Failure(Message(e))
      case Success(maxModels) =>
        if !Truthy(prompt) then Success(PromptRequired)
        else work.swarm(prompt, tier, maxModels)
  }

  /** An empty or missing prompt gets the fixed answer, whatever the tools
      would have done: neither tool is consulted. */
  lemma EmptyPromptRequired(arguments: Json, work: ToolWork, other: ToolWork)
    requires arguments.JObj?
    requires !Truthy(Get(arguments, "prompt", JStr("")).value)
    ensures ToInt(Get(arguments, "timeout", JInt(30)).value).Success? ==>
              ToolQuery(arguments, work) == ToolQuery(arguments, other) == Success(PromptRequired)
    ensures ToInt(Get(arguments, "max_models", JInt(3)).value).Success? ==>
              ToolSwarm(arguments, work) == ToolSwarm(arguments, other) == Success(PromptRequired)
  {
  }

  /** A tool with a prompt hands it, with its other arguments, to the work. */
  lemma PromptGoesToWork(arguments: Json, work: ToolWork)
    requires arguments.JObj? && Truthy(Get(arguments, "prompt", JStr("")).value)
    ensures var t := ToInt(Get(arguments, "timeout", JInt(30)).value);
            t.Success? ==>
              ToolQuery(arguments, work) ==
              Success(work.query(Get(arguments, "prompt", JStr("")).value, Get(arguments, "model", JNull).value, t.value))
    ensures var m := ToInt(Get(arguments, "max_models", JInt(3)).value);
            m.Success? ==>
              ToolSwarm(arguments, work) ==
              work.swarm(Get(arguments, "prompt", JStr("")).value, Get(arguments, "tier", JStr("fast")).value, m.value)
  {
  }

  /** `TOOL_HANDLERS.get(name)` run on the arguments: None for a name that
      is not registered. */
  function RunTool(name: string, arguments: Json, work: ToolWork): (r: Option<Result<string, string>>)
    ensures r.Some? <==> name in ToolNames
  {
    if name == "swarm_query" then Some(ToolQuery(arguments, work))
    else if name == "swarm_call" then Some(ToolSwarm(arguments, work))
    else if name == "swarm_status" then Some(Success(work.status))
    else None
  }

  const ToolNames: seq<string> := ["swarm_query", "swarm_call", "swarm_status"]

  function StringProp(description: string): Json {
    JObj([("type", JStr("string")), ("description", JStr(description))])
  }

  /** The `TOOLS` registry as `tools/list` reports it. */
  const Tools: seq<Json> := [
    JObj([
      ("name", JStr("swarm_query")),
      ("description", JStr("Route a query through the best AI model (auto-selected by complexity).")),
      ("inputSchema", JObj([
        ("type", JStr("object")),
        ("properties", JObj([
          ("prompt", StringProp("The query or task")),
          ("model", StringProp("Override model ID (optional)")),
          ("timeout", JObj([("type", JStr("integer")), ("description", JStr("Timeout seconds (default: 30)")), ("default", JInt(30))]))])),
        ("required", JArr([JStr("prompt")]))]))]),
    JObj([
      ("name", JStr("swarm_call")),
      ("description", JStr("Call multiple AI models in parallel. Tiers: fast (3-10s), power (5-14s), deep (21s+).")),
      ("inputSchema", JObj([
        ("type", JStr("object")),
        ("properties", JObj([
          ("prompt", StringProp("The query or task")),
          ("tier", JObj([("type", JStr("string")), ("enum", JArr([JStr("fast"), JStr("power"), JStr("deep")])), ("default", JStr("fast"))])),
          ("max_models", JObj([("type", JStr("integer")), ("default", JInt(3))]))])),
        ("required", JArr([JStr("prompt")]))]))]),
    JObj([
      ("name", JStr("swarm_status")),
      ("description", JStr("Check health of all connected AI services.")),
      ("inputSchema", JObj([("type", JStr("object")), ("properties", JObj([]))]))])
  ]

  /** The registry lists exactly the three dispatchable tools, in order. */
  lemma ToolsAreTheHandlers()
    ensures |Tools| == |ToolNames|
    ensures forall k :: 0 <= k < |Tools| ==>
              Tools[k].JObj? && Lookup(Tools[k].fields, "name") == Some(JStr(ToolNames[k]))
  {
  }

  /** `reply` is a JSON-RPC 2.0 reply to the request with this id: the
      version, the id, then the result or error member. */
  predicate Answers(reply: Json, id: Json) {
    && reply.JObj?
    && |reply.fields| == 3
    && reply.fields[0] == ("jsonrpc", JStr("2.0"))
    && reply.fields[1] == ("id", id)
  }

  function Reply(id: Json, key: string, body: Json): (r: Json)
    ensures Answers(r, id) && r.fields[2] == (key, body)
  {
    JObj([("jsonrpc", JStr("2.0")), ("id", id), (key, body)])
  }

  /** A reply's members read back as written. */
  lemma ReplyLookup(id: Json, key: string, body: Json)
    requires key != "jsonrpc" && key != "id"
    ensures var r := Reply(id, key, body);
            && Lookup(r.fields, "jsonrpc") == Some(JStr("2.0"))
            && Lookup(r.fields, "id") == Some(id)
            && Lookup(r.fields, key) == Some(body)
  {
    var r := Reply(id, key, body);
    assert r.fields[1..] == [("id", id), (key, body)];
    assert r.fields[2..] == [(key, body)];
  }

  function TextResult(id: Json, text: string, isError: bool): (r: Json)
    ensures Answers(r, id)
  {
    Reply(id, "result", JObj([
      ("content", JArr([JObj([("type", JStr("text")), ("text", JStr(text))])])),
      ("isError", JBool(isError))]))
  }

  const Capabilities := JObj([("tools", JObj([("listChanged", JBool(false))]))])

  function InitializeResult(id: Json): (r: Json)
    ensures Answers(r, id)
  {
    Reply(id, "result", JObj([
      ("protocolVersion", JStr(ProtocolVersion)),
      ("capabilities", Capabilities),
      ("serverInfo", JObj([("name", JStr("swarm-router-mcp")), ("version", JStr("0.1.0"))]))]))
  }

  /** A member of a reply's result (or error) object. */
  function Field(reply: Json, key: string, name: string): Option<Json> {
    if !reply.JObj? then None
    else match Lookup(reply.fields, key)
      case Some(JObj(fs)) => Lookup(fs, name)
      case _ => None
  }

  /** The `initialize` reply announces protocol 2024-11-05 and a tool list
      that does not change. */
  lemma InitializeAdvertises(id: Json)
    ensures Field(InitializeResult(id), "result", "protocolVersion") == Some(JStr(ProtocolVersion))
    ensures Field(InitializeResult(id), "result", "capabilities") == Some(Capabilities)
  {
    var body := JObj([
      ("protocolVersion", JStr(ProtocolVersion)),
      ("capabilities", Capabilities),
      ("serverInfo", JObj([("name", JStr("swarm-router-mcp")), ("version", JStr("0.1.0"))]))]);
    ReplyLookup(id, "result", body);
    var info := ("serverInfo", JObj([("name", JStr("swarm-router-mcp")), ("version", JStr("0.1.0"))]));
    assert body.fields == [("protocolVersion", JStr(ProtocolVersion))] + ([("capabilities", Capabilities)] + [info]);
    LookupCons("protocolVersion", JStr(ProtocolVersion), [("capabilities", Capabilities)] + [info], "protocolVersion");
    LookupCons("protocolVersion", JStr(ProtocolVersion), [("capabilities", Capabilities)] + [info], "capabilities");
    LookupCons("capabilities", Capabilities, [info], "capabilities");
  }

  /** `tools/call`: unknown tools and tool exceptions are error results, not
      JSON-RPC errors. A name that cannot be a dict key raises. */
  function CallTool(id: Json, params: Json, work: ToolWork): (r: Result<Json, PyError>)
    ensures r.Success? ==> Answers(r.value, id)
    ensures r.Failure? <==> !params.JObj? || ToolNameOf(params).JArr? || ToolNameOf(params).JObj?
  {
    var toolName :- Get(params, "name", JStr(""));
    var arguments := Get(params, "arguments", JObj([])).value;
    if toolName.JArr? || toolName.JObj? then Failure(TypeError("unhashable type: '" + TypeName(toolName) + "'"))
    else
      match if toolName.JStr? then RunTool(toolName.s, arguments, work) else None
      case None => Success(TextResult(id, "Unknown tool: " + Str(toolName), true))
      case Some(Success(text)) => Success(TextResult(id, text, false))
      case Some(Failure(message)) => Success(TextResult(id, "Tool error: " + message, true))
  }

  function ToolNameOf(params: Json): Json
    requires params.JObj?
  {
    Lookup(params.fields, "name").GetOr(JStr(""))
  }

  function ArgumentsOf(params: Json): Json
    requires params.JObj?
  {
    Lookup(params.fields, "arguments").GetOr(JObj([]))
  }

  /** The method-based decision of `handle_request`, given the request's
      method, params and id. */
  function Dispatch(methodName: Json, params: Json, id: Json, work: ToolWork): (r: Result<Option<Json>, PyError>)
    ensures r.Success? && r.value.Some? ==> Answers(r.value.value, id)
  {
    if methodName == JStr("initialize") then Success(Some(InitializeResult(id)))
    else if !methodName.JStr? then Failure(AttributeError("'" + TypeName(methodName) + "' object has no attribute 'startswith'"))
    else if StartsWith(methodName.s, "notifications/") then Success(None)
    else if methodName.s == "tools/list" then Success(Some(Reply(id, "result", JObj([("tools", JArr(Tools))]))))
    else if methodName.s == "tools/call" then
      var reply :- CallTool(id, params, work);
      Success(Some(reply))
    else Success(Some(MethodNotFoundReply(id, methodName.s)))
  }

  function MethodNotFoundReply(id: Json, methodName: string): Json {
    Reply(id, "error", JObj([
      ("code", JInt(MethodNotFoundCode)),
      ("message", JStr("Method not found: " + methodName))]))
  }

  /** The request's `method`, `params` and `id` as `get` reads them. */
  function MethodOf(request: Json): Json
    requires request.JObj?
  {
    Lookup(request.fields, "method").GetOr(JStr(""))
  }

  function ParamsOf(request: Json): Json
    requires request.JObj?
  {
    Lookup(request.fields, "params").GetOr(JObj([]))
  }

  function IdOf(request: Json): Json
    requires request.JObj?
  {
    Lookup(request.fields, "id").GetOr(JNull)
  }

  /** `handle_request`: the response to send, None for a notification, or
      the exception it raises (a request that is not an object, a method
      that is not a string, `params` that is not an object). */
  function HandleRequest(request: Json, work: ToolWork): (r: Result<Option<Json>, PyError>)
    ensures !request.JObj? ==> r.Failure?
  {
    if !request.JObj? then Failure(AttributeError("'" + TypeName(request) + "' object has no attribute 'get'"))
    else Dispatch(MethodOf(request), ParamsOf(request), IdOf(request), work)
  }

  /** Every reply is a JSON-RPC 2.0 reply echoing the request's id. */
  lemma RepliesEchoId(request: Json, work: ToolWork)
    requires HandleRequest(request, work).Success? && HandleRequest(request, work).value.Some?
    ensures var reply := HandleRequest(request, work).value.value;
            && reply.JObj?
            && Lookup(reply.fields, "jsonrpc") == Some(JStr("2.0"))
            && Lookup(reply.fields, "id") == Some(IdOf(request))
  {
    var reply := HandleRequest(request, work).value.value;
    assert reply.fields[1..][0] == ("id", IdOf(request));
  }

  lemma NotNotification(s: string)
    requires |s| > 0 && s[0] != 'n'
    ensures !StartsWith(s, "notifications/")
  {
    assert "notifications/"[0] == 'n';
  }

  /** `initialize` is answered with the server's protocol and capabilities. */
  lemma Initialize(request: Json, work: ToolWork)
    requires request.JObj? && MethodOf(request) == JStr("initialize")
    ensures HandleRequest(request, work) == Success(Some(InitializeResult(IdOf(request))))
  {
  }

  /** No response is sent exactly for notifications. */
  lemma SilentIffNotification(request: Json, work: ToolWork)
    ensures HandleRequest(request, work) == Success(None) <==>
              request.JObj? && MethodOf(request).JStr? && StartsWith(MethodOf(request).s, "notifications/")
  {
    if request.JObj? && MethodOf(request) == JStr("initialize") {
      NotNotification("initialize");
    }
  }

  /** `tools/list` answers with the registry. */
  lemma ToolsList(request: Json, work: ToolWork)
    requires request.JObj? && MethodOf(request) == JStr("tools/list")
    ensures HandleRequest(request, work) == Success(Some(Reply(IdOf(request), "result", JObj([("tools", JArr(Tools))]))))
  {
    NotNotification("tools/list");
  }

  /** A `tools/call` of an unregistered name is an error result naming it. */
  lemma UnknownTool(request: Json, name: string, work: ToolWork)
    requires request.JObj? && MethodOf(request) == JStr("tools/call")
    requires ParamsOf(request).JObj? && ToolNameOf(ParamsOf(request)) == JStr(name)
    requires name !in ToolNames
    ensures HandleRequest(request, work) == Success(Some(TextResult(IdOf(request), "Unknown tool: " + name, true)))
  {
    NotNotification("tools/call");
    assert CallTool(IdOf(request), ParamsOf(request), work) == Success(TextResult(IdOf(request), "Unknown tool: " + name, true));
  }

  /** A registered tool's text is the result; its exception becomes an
      error result "Tool error: ...". */
  lemma KnownTool(request: Json, name: string, work: ToolWork)
    requires request.JObj? && MethodOf(request) == JStr("tools/call")
    requires ParamsOf(request).JObj? && ToolNameOf(ParamsOf(request)) == JStr(name)
    requires name in ToolNames
    ensures var outcome := RunTool(name, ArgumentsOf(ParamsOf(request)), work).value;
            HandleRequest(request, work) == Success(Some(
              if outcome.Success? then TextResult(IdOf(request), outcome.value, false)
              else TextResult(IdOf(request), "Tool error: " + outcome.error, true)))
  {
    NotNotification("tools/call");
  }

  /** Any other string method, a missing one included, is answered with
      error -32601 naming it. */
  lemma MethodNotFound(request: Json, work: ToolWork)
    requires request.JObj? && MethodOf(request).JStr?
    requires MethodOf(request).s !in {"initialize", "tools/list", "tools/call"}
    requires !StartsWith(MethodOf(request).s, "notifications/")
    ensures HandleRequest(request, work) == Success(Some(MethodNotFoundReply(IdOf(request), MethodOf(request).s)))
    ensures Field(MethodNotFoundReply(IdOf(request), MethodOf(request).s), "error", "code") == Some(JInt(-32601))
  {
    var body := JObj([
      ("code", JInt(MethodNotFoundCode)),
      ("message", JStr("Method not found: " + MethodOf(request).s))]);
    ReplyLookup(IdOf(request), "error", body);
  }

  /** A method that is neither "initialize" nor a string makes the
      dispatcher raise instead of answering. */
  lemma NonStringMethodRaises(request: Json, work: ToolWork)
    requires request.JObj? && !MethodOf(request).JStr?
    ensures HandleRequest(request, work).Failure?
  {
  }
}
