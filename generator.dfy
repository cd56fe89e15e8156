/**
 * `AIGenerator.generate_response`: one exchange with the completion service.
 * The first request carries the system prompt, the parsed transcript and the
 * query, plus the tool definitions when there are any; when the reply asks
 * for tools and a tool manager is at hand, every requested call is run in
 * order and exactly one follow-up request, without tools, gives the answer.
 */
module Generator {
  import opened Wrappers
  import opened Errors
  import opened Json
  import opened Messages
  import History
  import ToolRegistry

  const Temperature := 0
  const MaxTokens := 800
  const ToolCallsReason := "tool_calls"

  /** A definition in the "input_schema" form, turned into the function-wrapper form; any other passes through. */
  function ConvertedTool(tool: JsonObject): (r: Result<JsonObject, PyError>)
    ensures "input_schema" !in tool ==> r == Ok(tool)
    ensures r.Err? <==> "input_schema" in tool && ("name" !in tool || "description" !in tool)
    ensures r.Ok? ==> "input_schema" !in r.value
    ensures r.Ok? && "input_schema" in tool ==>
      r.value.Keys == {"type", "function"} && r.value["type"] == JString("function")
      && r.value["function"].JObject?
      && r.value["function"].fields.Keys == {"name", "description", "parameters"}
      && r.value["function"].fields["name"] == tool["name"]
      && r.value["function"].fields["description"] == tool["description"]
      && r.value["function"].fields["parameters"] == tool["input_schema"]
  {
    if "input_schema" !in tool then Ok(tool)
    else if "name" !in tool then Err(KeyError("name"))
    else if "description" !in tool then Err(KeyError("description"))
    else Ok(map[
      "type" := JString("function"),
      "function" := JObject(map[
        "name" := tool["name"],
        "description" := tool["description"],
        "parameters" := tool["input_schema"]])])
  }

  /** The definitions converted one by one, in order; the first one that cannot be converted raises. */
  function ConvertedTools(tools: seq<JsonObject>): (r: Result<seq<JsonObject>, PyError>)
    ensures r.Ok? ==> |r.value| == |tools| && forall i :: 0 <= i < |tools| ==> ConvertedTool(tools[i]) == Ok(r.value[i])
    decreases |tools|
  {
    if |tools| == 0 then Ok([])
    else match ConvertedTools(tools[..|tools| - 1])
      case Err(e) => Err(e)
      case Ok(done) =>
        match ConvertedTool(tools[|tools| - 1])
        case Err(e) => Err(e)
        case Ok(tool) => Ok(done + [tool])
  }

  /** Once a definition fails to convert, the later ones are not looked at: the conversion raises that error. */
  lemma {:induction false} ConversionErrorStops(tools: seq<JsonObject>, k: nat)
    requires k <= |tools| && ConvertedTools(tools[..k]).Err?
    ensures ConvertedTools(tools) == ConvertedTools(tools[..k])
    decreases |tools|
  {
    if k < |tools| {
      var front := tools[..|tools| - 1];
      assert front[..k] == tools[..k];
      ConversionErrorStops(front, k);
    } else {
      assert tools[..k] == tools;
    }
  }

  /** The transcript turns between the system prompt and the query. */
  function FirstMessages(systemPrompt: string, history: Option<string>, query: string): seq<Message> {
    [SystemMessage(systemPrompt)] + (History.ParsedHistory(history) + [TextMessage(UserRole, query)])
  }

  /** The first request, or the error converting the tool definitions raised. */
  function FirstRequest(model: string, systemPrompt: string, query: string, history: Option<string>,
                        tools: Option<seq<JsonObject>>): Result<Request, PyError>
  {
    var messages := FirstMessages(systemPrompt, history, query);
    if tools.Some? && |tools.value| > 0 then
      match ConvertedTools(tools.value)
      case Err(e) => Err(e)
      case Ok(converted) => Ok(Request(model, Temperature, MaxTokens, messages, Some(converted), Some("auto")))
    else Ok(Request(model, Temperature, MaxTokens, messages, None, None))
  }

  /** The calls an assistant turn carries: None unless there is at least one. */
  function CarriedCalls(toolCalls: Option<seq<ToolCall>>): Option<seq<ToolCall>> {
    if toolCalls.Some? && |toolCalls.value| > 0 then toolCalls else None
  }

  /** One tool turn per call, in order, or the first exception a tool raised. */
  function ToolResults(manager: ToolRegistry.ToolManager, calls: seq<ToolCall>): (r: Result<seq<Message>, PyError>)
    reads manager
    ensures r.Ok? ==> |r.value| == |calls| && forall i :: 0 <= i < |calls| ==>
      manager.Dispatch(calls[i].name, calls[i].arguments).Ok?
      && r.value[i] == ToolMessage(calls[i].id, calls[i].name, manager.Dispatch(calls[i].name, calls[i].arguments).value)
    decreases |calls|
  {
    if |calls| == 0 then Ok([])
    else match ToolResults(manager, calls[..|calls| - 1])
      case Err(e) => Err(e)
      case Ok(done) =>
        var call := calls[|calls| - 1];
        match manager.Dispatch(call.name, call.arguments)
        case Err(e) => Err(e)
        case Ok(text) => Ok(done + [ToolMessage(call.id, call.name, text)])
  }

  /** Once a tool has raised, the later calls are not run: the exchange raises that first exception. */
  lemma {:induction false} ToolErrorStops(manager: ToolRegistry.ToolManager, calls: seq<ToolCall>, k: nat)
    requires k <= |calls| && ToolResults(manager, calls[..k]).Err?
    ensures ToolResults(manager, calls) == ToolResults(manager, calls[..k])
    decreases |calls|
  {
    if k < |calls| {
      var front := calls[..|calls| - 1];
      assert front[..k] == calls[..k];
      ToolErrorStops(manager, front, k);
    } else {
      assert calls[..k] == calls;
    }
  }

  /** The follow-up chain: the system prompt again, the first request's turns, the assistant's call turn, the results. */
  function FollowUpMessages(systemPrompt: string, messages: seq<Message>, content: Option<string>,
                            calls: Option<seq<ToolCall>>, results: seq<Message>): seq<Message>
  {
    [SystemMessage(systemPrompt)] + (messages + [ToolCallMessage(content, calls)] + results)
  }

  /** What `_handle_tool_execution` returns or raises, with the requests made by the whole exchange. */
  function ToolRound(model: string, systemPrompt: string, first: Request, completion: Completion,
                     manager: ToolRegistry.ToolManager, oracle: Oracle): (Result<Option<string>, PyError>, seq<Request>)
    reads manager
  {
    var calls := CarriedCalls(completion.toolCalls);
    match ToolResults(manager, if calls.Some? then calls.value else [])
    case Err(e) => (Err(e), [first])
    case Ok(results) =>
      var second := Request(model, Temperature, MaxTokens,
        FollowUpMessages(systemPrompt, first.messages, completion.content, calls, results), None, None);
      match oracle([first, second])
      case Raised(e) => (Err(ClientError(e)), [first, second])
      case Replied(reply) => (Ok(reply.content), [first, second])
  }

  /** What `generate_response` returns or raises, with every request it sends, in order. */
  function Exchange(model: string, systemPrompt: string, query: string, history: Option<string>,
                    tools: Option<seq<JsonObject>>, manager: ToolRegistry.ToolManager?, oracle: Oracle)
    : (Result<Option<string>, PyError>, seq<Request>)
    reads manager
  {
    match FirstRequest(model, systemPrompt, query, history, tools)
    case Err(e) => (Err(e), [])
    case Ok(first) =>
      match oracle([first])
      case Raised(e) => (Err(ClientError(e)), [first])
      case Replied(completion) =>
        if completion.finishReason == ToolCallsReason && manager != null then
          ToolRound(model, systemPrompt, first, completion, manager, oracle)
        else (Ok(completion.content), [first])
  }

  /** The tool modifications a call to the manager may make: only the search tools' sources. */
  function Footprint(manager: ToolRegistry.ToolManager?): set<object>
    reads manager
  {
    if manager != null then manager.SearchTools() else {}
  }

  class AIGenerator {
    const model: string
    /** The fixed system prompt; its text is not part of this model. */
    const systemPrompt: string

    constructor (model: string, systemPrompt: string)
      ensures this.model == model && this.systemPrompt == systemPrompt
    {
      this.model := model;
      this.systemPrompt := systemPrompt;
    }

    method GenerateResponse(query: string, history: Option<string>, tools: Option<seq<JsonObject>>,
                            manager: ToolRegistry.ToolManager?, oracle: Oracle)
      returns (answer: Result<Option<string>, PyError>, requests: seq<Request>)
      modifies Footprint(manager)
      ensures (answer, requests) == Exchange(model, systemPrompt, query, history, tools, manager, oracle)
    {
      var messages := History.ParseHistory(history);
      messages := messages + [TextMessage(UserRole, query)];
      var fullMessages := [SystemMessage(systemPrompt)] + messages;
      var attached: Option<seq<JsonObject>> := None;
      var toolChoice: Option<string> := None;
      if tools.Some? && |tools.value| > 0 {
        var converted := ConvertTools(tools.value);
        if converted.Err? {
          return Err(converted.error), [];
        }
        attached := Some(converted.value);
        toolChoice := Some("auto");
      }
      var first := Request(model, Temperature, MaxTokens, fullMessages, attached, toolChoice);
      requests := [first];
      var reply := oracle(requests);
      if reply.Raised? {
        return Err(ClientError(reply.error)), requests;
      }
      var completion := reply.completion;
      if completion.finishReason == "tool_calls" && manager != null {
        answer, requests := HandleToolExecution(first, completion, manager, oracle);
        return;
      }
      answer := Ok(completion.content);
    }

    /** Converts the tool definitions one by one, in order. */
    static method ConvertTools(tools: seq<JsonObject>) returns (r: Result<seq<JsonObject>, PyError>)
      ensures r == ConvertedTools(tools)
    {
      var openaiTools: seq<JsonObject> := [];
      for i := 0 to |tools|
        invariant ConvertedTools(tools[..i]) == Ok(openaiTools)
      {
        assert tools[..i + 1][..i] == tools[..i];
        var tool := ConvertedTool(tools[i]);
        if tool.Err? {
          ConversionErrorStops(tools, i + 1);
          return Err(tool.error);
        }
        openaiTools := openaiTools + [tool.value];
      }
      assert tools[..|tools|] == tools;
      r := Ok(openaiTools);
    }

    method HandleToolExecution(first: Request, completion: Completion, manager: ToolRegistry.ToolManager, oracle: Oracle)
      returns (answer: Result<Option<string>, PyError>, requests: seq<Request>)
      modifies manager.SearchTools()
      ensures (answer, requests) == ToolRound(model, systemPrompt, first, completion, manager, oracle)
    {
      var messages := first.messages;
      var calls := if completion.toolCalls.Some? && |completion.toolCalls.value| > 0 then completion.toolCalls else None;
      messages := messages + [ToolCallMessage(completion.content, calls)];
      var toolResults: seq<Message> := [];
      if calls.Some? {
        var toolCalls := calls.value;
        for i := 0 to |toolCalls|
          invariant ToolResults(manager, toolCalls[..i]) == Ok(toolResults)
        {
          assert toolCalls[..i + 1][..i] == toolCalls[..i];
          var call := toolCalls[i];
          var result := manager.ExecuteTool(call.name, call.arguments);
          if result.Err? {
            ToolErrorStops(manager, toolCalls, i + 1);
            return Err(result.error), [first];
          }
          toolResults := toolResults + [ToolMessage(call.id, call.name, result.value)];
        }
        assert toolCalls[..|toolCalls|] == toolCalls;
      }
      messages := messages + toolResults;
      var fullMessages := [SystemMessage(systemPrompt)] + messages;
      var second := Request(model, Temperature, MaxTokens, fullMessages, None, None);
      requests := [first, second];
      var reply := oracle(requests);
      if reply.Raised? {
        return Err(ClientError(reply.error)), requests;
      }
      answer := Ok(reply.completion.content);
    }
  }

  /** A definition that cannot be converted makes the whole conversion raise; otherwise all are converted. */
  lemma {:induction false} ConversionFails(tools: seq<JsonObject>)
    ensures ConvertedTools(tools).Err? <==> exists i :: 0 <= i < |tools| && ConvertedTool(tools[i]).Err?
    decreases |tools|
  {
    if |tools| > 0 {
      var front := tools[..|tools| - 1];
      ConversionFails(front);
      if ConvertedTools(front).Err? {
        var i :| 0 <= i < |front| && ConvertedTool(front[i]).Err?;
        assert tools[i] == front[i];
      }
      forall i | 0 <= i < |front| ensures tools[i] == front[i] {
      }
    }
  }

  /** Converting already converted definitions changes nothing: the wrapper form has no "input_schema". */
  lemma {:induction false} ConversionIdempotent(tools: seq<JsonObject>)
    requires ConvertedTools(tools).Ok?
    ensures ConvertedTools(ConvertedTools(tools).value) == ConvertedTools(tools)
    decreases |tools|
  {
    var converted := ConvertedTools(tools).value;
    if |tools| > 0 {
      var front := tools[..|tools| - 1];
      ConversionIdempotent(front);
      var done := ConvertedTools(front).value;
      assert converted == done + [converted[|tools| - 1]];
      assert converted[..|converted| - 1] == done;
    }
  }

  /** The exception that ends a tool round is the one raised by the first call that raised; the calls before it all ran. */
  lemma {:induction false} FirstToolError(manager: ToolRegistry.ToolManager, calls: seq<ToolCall>)
    requires ToolResults(manager, calls).Err?
    ensures exists i :: (0 <= i < |calls| && ToolResults(manager, calls[..i]).Ok?
                         && manager.Dispatch(calls[i].name, calls[i].arguments) == Err(ToolResults(manager, calls).error))
    decreases |calls|
  {
    var front := calls[..|calls| - 1];
    if ToolResults(manager, front).Err? {
      FirstToolError(manager, front);
      var i :| 0 <= i < |front| && ToolResults(manager, front[..i]).Ok?
        && manager.Dispatch(front[i].name, front[i].arguments) == Err(ToolResults(manager, front).error);
      assert front[..i] == calls[..i];
      assert front[i] == calls[i];
    } else {
      assert calls[..|calls| - 1] == front;
    }
  }

  /** With no transcript the first request holds exactly the system prompt and the query. */
  lemma EmptyHistory(systemPrompt: string, history: Option<string>, query: string)
    requires history.None? || history == Some("")
    ensures FirstMessages(systemPrompt, history, query) == [SystemMessage(systemPrompt), TextMessage(UserRole, query)]
  {
  }

  /**
   * The first request: the system prompt first, the parsed transcript, the
   * query last; tools and "auto" tool choice exactly when definitions were given.
   */
  lemma FirstRequestShape(model: string, systemPrompt: string, query: string, history: Option<string>,
                          tools: Option<seq<JsonObject>>)
    requires FirstRequest(model, systemPrompt, query, history, tools).Ok?
    ensures var first := FirstRequest(model, systemPrompt, query, history, tools).value;
      var n := |first.messages|;
      n >= 2 && first.messages[0] == SystemMessage(systemPrompt)
      && first.messages[n - 1] == TextMessage(UserRole, query)
      && first.messages[1..n - 1] == History.ParsedHistory(history)
      && first.temperature == 0 && first.maxTokens == 800 && first.model == model
      && (first.tools.Some? <==> tools.Some? && |tools.value| > 0)
      && (first.tools.Some? ==> |first.tools.value| == |tools.value|)
      && first.toolChoice == (if first.tools.Some? then Some("auto") else None)
      && (first.tools.Some? ==> ConvertedTools(tools.value) == Ok(first.tools.value))
  {
    var messages := FirstMessages(systemPrompt, history, query);
    var parsed := History.ParsedHistory(history);
    assert messages[1..|messages| - 1] == parsed;
  }

  /** Without a tool request, or without a manager, one request is made and its content is the answer. */
  lemma DirectAnswer(model: string, systemPrompt: string, query: string, history: Option<string>,
                     tools: Option<seq<JsonObject>>, manager: ToolRegistry.ToolManager?, oracle: Oracle)
    requires FirstRequest(model, systemPrompt, query, history, tools).Ok?
    ensures var first := FirstRequest(model, systemPrompt, query, history, tools).value;
      var reply := oracle([first]);
      reply.Replied? && !(reply.completion.finishReason == "tool_calls" && manager != null) ==>
        Exchange(model, systemPrompt, query, history, tools, manager, oracle) == (Ok(reply.completion.content), [first])
    ensures var first := FirstRequest(model, systemPrompt, query, history, tools).value;
      oracle([first]).Raised? ==>
        Exchange(model, systemPrompt, query, history, tools, manager, oracle) == (Err(ClientError(oracle([first]).error)), [first])
  {
  }

  /** At most two requests are made; a second one only after a tool request with a manager at hand. */
  lemma AtMostTwoRequests(model: string, systemPrompt: string, query: string, history: Option<string>,
                          tools: Option<seq<JsonObject>>, manager: ToolRegistry.ToolManager?, oracle: Oracle)
    ensures var (answer, requests) := Exchange(model, systemPrompt, query, history, tools, manager, oracle);
      |requests| <= 2
      && (|requests| == 0 <==> FirstRequest(model, systemPrompt, query, history, tools).Err?)
      && (|requests| >= 1 ==> requests[0] == FirstRequest(model, systemPrompt, query, history, tools).value)
      && (|requests| == 2 ==>
            (manager != null && oracle([requests[0]]).Replied?
             && oracle([requests[0]]).completion.finishReason == "tool_calls"))
      && (answer.Ok? && |requests| == 2 ==> answer.value == oracle(requests).completion.content)
  {
  }

  /**
   * A "tool_calls" reply with a manager at hand starts a tool round: when
   * every carried call returns, exactly two requests are made; when one
   * raises, only the first request is made and the exchange raises the
   * first exception a tool raised.
   */
  lemma ToolRoundRequests(model: string, systemPrompt: string, query: string, history: Option<string>,
                          tools: Option<seq<JsonObject>>, manager: ToolRegistry.ToolManager?, oracle: Oracle)
    requires FirstRequest(model, systemPrompt, query, history, tools).Ok?
    requires var first := FirstRequest(model, systemPrompt, query, history, tools).value;
      oracle([first]).Replied? && oracle([first]).completion.finishReason == "tool_calls" && manager != null
    ensures var first := FirstRequest(model, systemPrompt, query, history, tools).value;
      var calls := CarriedCalls(oracle([first]).completion.toolCalls);
      var outcome := ToolResults(manager, if calls.Some? then calls.value else []);
      var (answer, requests) := Exchange(model, systemPrompt, query, history, tools, manager, oracle);
      (outcome.Ok? ==> |requests| == 2 && requests[0] == first)
      && (outcome.Err? ==> requests == [first] && answer == Err(outcome.error))
  {
  }

  /** The follow-up request carries no tools and its reply's content is the answer. */
  lemma FollowUpWithoutTools(model: string, systemPrompt: string, query: string, history: Option<string>,
                             tools: Option<seq<JsonObject>>, manager: ToolRegistry.ToolManager?, oracle: Oracle)
    ensures var (answer, requests) := Exchange(model, systemPrompt, query, history, tools, manager, oracle);
      |requests| == 2 ==>
        (requests[1].tools.None? && requests[1].toolChoice.None?
         && requests[1].temperature == 0 && requests[1].maxTokens == 800
         && (oracle(requests).Replied? ==> answer == Ok(oracle(requests).completion.content))
         && (oracle(requests).Raised? ==> answer == Err(ClientError(oracle(requests).error))))
  {
  }

  predicate NoToolTurns(messages: seq<Message>) {
    forall k :: 0 <= k < |messages| ==> !messages[k].ToolMessage?
  }

  /** `results` holds one tool turn per carried call, in order, with the call's id and tool name. */
  predicate ResultsFor(calls: Option<seq<ToolCall>>, results: seq<Message>) {
    |results| == (if calls.Some? then |calls.value| else 0)
    && forall i :: 0 <= i < |results| ==>
         results[i].ToolMessage? && results[i].toolCallId == calls.value[i].id && results[i].name == calls.value[i].name
  }

  /**
   * `msgs` is a follow-up chain for `first`: the system prompt, the turns of
   * `first`, the call turn, then one tool turn per call in order.
   */
  predicate ChainOf(systemPrompt: string, first: seq<Message>, content: Option<string>,
                    calls: Option<seq<ToolCall>>, msgs: seq<Message>)
  {
    |msgs| >= |first| + 2
    && msgs[0] == SystemMessage(systemPrompt)
    && msgs[1..|first| + 1] == first
    && msgs[|first| + 1] == ToolCallMessage(content, calls)
    && ResultsFor(calls, msgs[|first| + 2..])
  }

  /** In a follow-up chain every tool turn answers, by id, to the assistant turn just before the results. */
  lemma ChainAnswered(systemPrompt: string, messages: seq<Message>, content: Option<string>,
                      calls: Option<seq<ToolCall>>, results: seq<Message>)
    requires NoToolTurns(messages)
    requires ResultsFor(calls, results)
    ensures ChainOf(systemPrompt, messages, content, calls, FollowUpMessages(systemPrompt, messages, content, calls, results))
    ensures ToolResultsAnswered(FollowUpMessages(systemPrompt, messages, content, calls, results))
  {
    var msgs := FollowUpMessages(systemPrompt, messages, content, calls, results);
    var p := 1 + |messages|;
    assert msgs[p] == ToolCallMessage(content, calls);
    assert msgs[1..p] == messages;
    assert msgs[p + 1..] == results;
    forall k | 0 <= k < |msgs| && msgs[k].ToolMessage?
      ensures AnsweredTurn(msgs, k) == p && msgs[k].toolCallId in CallIds(calls.value)
    {
      assert k > p;
      forall m | p < m < k ensures msgs[m].ToolMessage? {
        assert msgs[m] == results[m - p - 1];
      }
      AnsweredRun(msgs, p, k);
      assert msgs[k] == results[k - p - 1];
      assert CallIds(calls.value)[k - p - 1] == calls.value[k - p - 1].id;
    }
  }

  /** The first request's turns are the system prompt, transcript text turns and the query: no tool turns. */
  lemma FirstHasNoToolTurns(systemPrompt: string, history: Option<string>, query: string)
    ensures NoToolTurns(FirstMessages(systemPrompt, history, query))
  {
    var messages := FirstMessages(systemPrompt, history, query);
    var parsed := History.ParsedHistory(history);
    History.HistoryIsText(history);
    forall k | 0 <= k < |messages| ensures !messages[k].ToolMessage? {
      if 0 < k < |messages| - 1 {
        assert messages[k] == parsed[k - 1];
      }
    }
  }

  /** The chain of a tool round that completed: see `FollowUpChain`. */
  lemma ToolRoundChain(model: string, systemPrompt: string, first: Request, completion: Completion,
                       manager: ToolRegistry.ToolManager, oracle: Oracle)
    requires NoToolTurns(first.messages)
    ensures var requests := ToolRound(model, systemPrompt, first, completion, manager, oracle).1;
      |requests| == 2 ==>
        ChainOf(systemPrompt, first.messages, completion.content, CarriedCalls(completion.toolCalls), requests[1].messages)
        && ToolResultsAnswered(requests[1].messages)
        && (|first.messages| > 0 ==> requests[1].messages[1] == first.messages[0])
  {
    var calls := CarriedCalls(completion.toolCalls);
    var outcome := ToolResults(manager, if calls.Some? then calls.value else []);
    if outcome.Ok? {
      var results := outcome.value;
      assert ResultsFor(calls, results);
      ChainAnswered(systemPrompt, first.messages, completion.content, calls, results);
      var msgs := FollowUpMessages(systemPrompt, first.messages, completion.content, calls, results);
      if |first.messages| > 0 {
        assert msgs[1] == msgs[1..|first.messages| + 1][0];
      }
    }
  }

  /**
   * The follow-up chain: the system prompt, then the whole first request
   * (itself opening with the system prompt, so the chain opens with two),
   * then the assistant's call turn, then one tool turn per call in order,
   * each carrying that call's id and tool name; every tool turn answers to
   * the call turn.
   */
  lemma FollowUpChain(model: string, systemPrompt: string, query: string, history: Option<string>,
                      tools: Option<seq<JsonObject>>, manager: ToolRegistry.ToolManager?, oracle: Oracle)
    ensures var requests := Exchange(model, systemPrompt, query, history, tools, manager, oracle).1;
      |requests| == 2 ==>
        var completion := oracle([requests[0]]).completion;
        ChainOf(systemPrompt, requests[0].messages, completion.content, CarriedCalls(completion.toolCalls),
                requests[1].messages)
        && requests[1].messages[1] == SystemMessage(systemPrompt)
        && ToolResultsAnswered(requests[1].messages)
  {
    var requests := Exchange(model, systemPrompt, query, history, tools, manager, oracle).1;
    if |requests| == 2 {
      AtMostTwoRequests(model, systemPrompt, query, history, tools, manager, oracle);
      var first := requests[0];
      var completion := oracle([first]).completion;
      FirstHasNoToolTurns(systemPrompt, history, query);
      ToolRoundChain(model, systemPrompt, first, completion, manager, oracle);
      assert first.messages[0] == SystemMessage(systemPrompt);
      assert requests == ToolRound(model, systemPrompt, first, completion, manager, oracle).1;
    }
  }
}
