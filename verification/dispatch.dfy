/**
 * Tool dispatch (`executeToolCalls` and `findToolByName`, which agent.go and
 * craig.go define identically): every requested call gets exactly one
 * response, in order.  A call to an unknown tool and a tool that fails are
 * answered with fixed texts instead of aborting the turn.
 */
module Dispatch {
  import opened Wrappers
  import opened Messages
  import opened Tools

  /** The position of the first tool with this exact name, if any. */
  function FirstToolNamed(tools: seq<Tool>, name: string): (r: Option<nat>)
    ensures r.None? <==> forall j :: 0 <= j < |tools| ==> tools[j].name != name
    ensures r.Some? ==> r.value < |tools| && tools[r.value].name == name
                        && forall j :: 0 <= j < r.value ==> tools[j].name != name
  {
    if tools == [] then None
    else if tools[0].name == name then Some(0)
    else match FirstToolNamed(tools[1..], name)
         case None => None
         case Some(i) => Some(i + 1)
  }

  /** `findToolByName`: the first tool whose name matches, or none. */
  method FindToolByName(tools: seq<Tool>, name: string) returns (r: Option<Tool>)
    ensures r.None? <==> FirstToolNamed(tools, name).None?
    ensures r.Some? ==> r.value == tools[FirstToolNamed(tools, name).value]
  {
    for i := 0 to |tools|
      invariant forall j :: 0 <= j < i ==> tools[j].name != name
    {
      if tools[i].name == name {
        return Some(tools[i]);
      }
    }
    return None;
  }

  /** The argument map of a call: a later argument with the same name overwrites an earlier one. */
  function ArgsOf(args: seq<ToolCallArg>): map<string, ArgValue>
  {
    if args == [] then map[]
    else ArgsOf(args[..|args| - 1])[args[|args| - 1].argName := args[|args| - 1].argValue]
  }

  /** A name is in the argument map iff some argument has it, and it holds the last such value. */
  lemma {:induction false} ArgsOfSpec(args: seq<ToolCallArg>, k: string)
    ensures k in ArgsOf(args) <==> exists i :: 0 <= i < |args| && args[i].argName == k
    ensures k in ArgsOf(args) ==>
              exists i :: 0 <= i < |args| && args[i].argName == k && args[i].argValue == ArgsOf(args)[k]
                          && forall j :: i < j < |args| ==> args[j].argName != k
  {
    if args != [] {
      var prefix := args[..|args| - 1];
      ArgsOfSpec(prefix, k);
      if args[|args| - 1].argName != k && k in ArgsOf(args) {
        var i :| 0 <= i < |prefix| && prefix[i].argName == k && prefix[i].argValue == ArgsOf(prefix)[k]
                 && forall j :: i < j < |prefix| ==> prefix[j].argName != k;
        assert args[i] == prefix[i];
      }
    }
  }

  /** The argument-map loop of `executeToolCalls`. */
  method BuildArgs(args: seq<ToolCallArg>) returns (m: map<string, ArgValue>)
    ensures m == ArgsOf(args)
    ensures forall k :: k in m <==> exists i :: 0 <= i < |args| && args[i].argName == k
  {
    m := map[];
    for i := 0 to |args|
      invariant m == ArgsOf(args[..i])
    {
      assert args[..i + 1][..i] == args[..i];
      m := m[args[i].argName := args[i].argValue];
    }
    assert args[..|args|] == args;
    forall k ensures k in m <==> exists i :: 0 <= i < |args| && args[i].argName == k {
      ArgsOfSpec(args, k);
    }
  }

  /** The text answering a call to a tool that is not in the tool set. */
  function NotFoundText(name: string): string
  {
    "Could not find tool. with name '" + name + "'"
  }

  /** The text answering a call whose tool failed. */
  function ToolFailedText(e: ToolError): string
  {
    "There was an error calling the tool: " + e.message
  }

  /** The response one call gets. */
  function ResponseFor(tools: seq<Tool>, call: ToolCall): ToolResponse
  {
    match FirstToolNamed(tools, call.toolName)
    case None => ToolResponse(NotFoundText(call.toolName))
    case Some(i) =>
      match tools[i].call(ArgsOf(call.toolArgs))
      case Failure(e) => ToolResponse(ToolFailedText(e))
      case Success(text) => ToolResponse(text)
  }

  /** `executeToolCalls`: one response per call, response i answering call i. */
  method ExecuteToolCalls(tools: seq<Tool>, calls: seq<ToolCall>) returns (results: seq<ToolResponse>)
    ensures |results| == |calls|
    ensures forall i :: 0 <= i < |calls| ==> results[i] == ResponseFor(tools, calls[i])
  {
    results := [];
    for i := 0 to |calls|
      invariant |results| == i
      invariant forall j :: 0 <= j < i ==> results[j] == ResponseFor(tools, calls[j])
    {
      var call := calls[i];
      var tool := FindToolByName(tools, call.toolName);
      if tool.None? {
        results := results + [ToolResponse("Could not find tool. with name '" + call.toolName + "'")];
        continue;
      }
      var args := BuildArgs(call.toolArgs);
      var result := tool.value.call(args);
      if result.Failure? {
        results := results + [ToolResponse("There was an error calling the tool: " + result.error.message)];
        continue;
      }
      results := results + [ToolResponse(result.value)];
    }
  }

  /** All the responses of a list of calls. */
  function ResponsesFor(tools: seq<Tool>, calls: seq<ToolCall>): (rs: seq<ToolResponse>)
  {
    seq(|calls|, i requires 0 <= i < |calls| => ResponseFor(tools, calls[i]))
  }

  /** A call naming no tool is answered with the not-found text, whatever its arguments. */
  lemma UnknownToolAnswer(tools: seq<Tool>, call: ToolCall)
    requires forall t :: t in tools ==> t.name != call.toolName
    ensures ResponseFor(tools, call).response == "Could not find tool. with name '" + call.toolName + "'"
  {
    assert forall j :: 0 <= j < |tools| ==> tools[j] in tools;
  }

  /**
   * The first tool with the requested name handles the call, with the
   * argument map of the call; later tools with the same name are never called.
   */
  lemma FirstMatchHandlesCall(before: seq<Tool>, t: Tool, after: seq<Tool>, call: ToolCall)
    requires call.toolName == t.name
    requires forall u :: u in before ==> u.name != t.name
    ensures ResponseFor(before + [t] + after, call)
         == match t.call(ArgsOf(call.toolArgs))
            case Failure(e) => ToolResponse("There was an error calling the tool: " + e.message)
            case Success(text) => ToolResponse(text)
  {
    var tools := before + [t] + after;
    assert tools[|before|] == t;
    assert forall j :: 0 <= j < |before| ==> tools[j] == before[j] && before[j] in before;
  }

  /** Dispatching `a + b` answers `a`'s calls, then `b`'s. */
  lemma ResponsesForAppend(tools: seq<Tool>, a: seq<ToolCall>, b: seq<ToolCall>)
    ensures ResponsesFor(tools, a + b) == ResponsesFor(tools, a) + ResponsesFor(tools, b)
  {
  }
}
