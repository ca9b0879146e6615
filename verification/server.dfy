/** The bridge's stdin loop with its own dispatcher plugged in, and what a
    line that is JSON but not a JSON-RPC object does to it. */
module Server {
  import opened Wrappers
  import opened PyJson
  import opened Framing
  import Mcp

  /** The bridge's dispatcher with the given tools. */
  function McpHandler(work: Mcp.ToolWork): Handler {
    request => Mcp.HandleRequest(request, work)
  }

  /** A line that parses as JSON but not as an object makes the dispatcher
      raise, the loop breaks, and no later line is ever answered. */
  lemma NonObjectLineSilencesServer(line: seq<byte>, rest: seq<seq<byte>>, decode: Decoder, work: Mcp.ToolWork)
    requires Strip(line) != [] && decode(Strip(line)).Parsed? && !decode(Strip(line)).value.JObj?
    ensures ServeLines([line] + rest, decode, McpHandler(work)).0 == []
    ensures ServeLines([line] + rest, decode, McpHandler(work)).1.Some?
  {
    var request := decode(Strip(line)).value;
    assert McpHandler(work)(request).Failure?;
    var steps := Steps([line] + rest, decode, McpHandler(work));
    assert steps[0] == ServeLine(line, decode, McpHandler(work));
    StopsAtFirst(steps);
  }


  /** The dispatcher with a guard: a request that is not an object is
      passed over, the way the loop passes over a line that is not JSON. */
  function GuardedHandler(work: Mcp.ToolWork): Handler {
    (request: Json) => if request.JObj? then Mcp.HandleRequest(request, work) else Success(None)
  }

  /** The guarded dispatcher answers every object request as the bridge
      does, and never raises on one that is not an object. */
  lemma GuardedHandlerAgrees(request: Json, work: Mcp.ToolWork)
    ensures request.JObj? ==> GuardedHandler(work)(request) == McpHandler(work)(request)
    ensures !request.JObj? ==> GuardedHandler(work)(request) == Success(None) && McpHandler(work)(request).Failure?
  {
  }

  /** With the guard, a non-object line is skipped and the lines after it
      are served exactly as if it had not been there. */
  lemma NonObjectLineSkipped(line: seq<byte>, rest: seq<seq<byte>>, decode: Decoder, work: Mcp.ToolWork)
    requires Strip(line) != [] && decode(Strip(line)).Parsed? && !decode(Strip(line)).value.JObj?
    ensures ServeLines([line] + rest, decode, GuardedHandler(work)) == ServeLines(rest, decode, GuardedHandler(work))
  {
    var steps := Steps([line] + rest, decode, GuardedHandler(work));
    assert steps[0] == Skip;
    StepsAppend([line], rest, decode, GuardedHandler(work));
    assert steps[1..] == Steps(rest, decode, GuardedHandler(work));
  }
}
