/**
 * The chat-completion wire format the generator speaks: message turns, tool
 * calls, requests and the replies of the completion service.
 */
module Messages {
  import opened Wrappers
  import opened Json

  /** The roles a transcript turn can carry. */
  datatype Role = UserRole | AssistantRole

  /** A tool call requested by the completion service; its JSON arguments are already decoded. */
  datatype ToolCall = ToolCall(id: string, name: string, arguments: JsonObject)

  datatype Message =
    | SystemMessage(content: string)
    | TextMessage(role: Role, content: string)
      /** The assistant turn that carries the tool calls; `toolCalls` is None when there were none. */
    | ToolCallMessage(callContent: Option<string>, toolCalls: Option<seq<ToolCall>>)
      /** One tool result, tied back to its call by id and named after the tool. */
    | ToolMessage(toolCallId: string, name: string, result: string)

  /** The parameters of one completion request. `tools` and `toolChoice` are absent keys when None. */
  datatype Request = Request(
    model: string,
    temperature: int,
    maxTokens: int,
    messages: seq<Message>,
    tools: Option<seq<JsonObject>>,
    toolChoice: Option<string>)

  /** The first choice of a completion response. */
  datatype Completion = Completion(finishReason: string, content: Option<string>, toolCalls: Option<seq<ToolCall>>)

  /** What a completion request comes back with: a completion, or the exception the client raised. */
  datatype Reply = Replied(completion: Completion) | Raised(error: string)

  /**
   * The completion service as an oracle: given every request made so far in
   * this exchange, the last one being the request just sent, it gives the reply.
   */
  type Oracle = seq<Request> -> Reply

  function CallIds(calls: seq<ToolCall>): (ids: seq<string>)
    ensures |ids| == |calls|
    ensures forall i :: 0 <= i < |calls| ==> ids[i] == calls[i].id
  {
    if |calls| == 0 then [] else [calls[0].id] + CallIds(calls[1..])
  }

  /**
   * Index of the nearest turn before `k` that is not a tool result, or -1:
   * the turn a tool result at `k` answers to.
   */
  function AnsweredTurn(msgs: seq<Message>, k: nat): (j: int)
    requires k <= |msgs|
    ensures -1 <= j < k
    ensures j >= 0 ==> !msgs[j].ToolMessage?
    ensures forall m :: j < m < k ==> msgs[m].ToolMessage?
  {
    if k == 0 then -1
    else if msgs[k - 1].ToolMessage? then AnsweredTurn(msgs, k - 1)
    else k - 1
  }

  /**
   * Every tool result refers, by id, to a call carried by the assistant turn
   * that immediately precedes its run of tool results.
   */
  predicate ToolResultsAnswered(msgs: seq<Message>) {
    forall k :: 0 <= k < |msgs| && msgs[k].ToolMessage? ==>
      var j := AnsweredTurn(msgs, k);
      j >= 0 && msgs[j].ToolCallMessage? && msgs[j].toolCalls.Some? &&
      msgs[k].toolCallId in CallIds(msgs[j].toolCalls.value)
  }

  /** Inside a run of tool results that follows turn `p`, every result answers to turn `p`. */
  lemma {:induction false} AnsweredRun(msgs: seq<Message>, p: nat, k: nat)
    requires p < k <= |msgs|
    requires !msgs[p].ToolMessage?
    requires forall m :: p < m < k ==> msgs[m].ToolMessage?
    ensures AnsweredTurn(msgs, k) == p
    decreases k
  {
    if k - 1 > p {
      AnsweredRun(msgs, p, k - 1);
    }
  }
}
