/**
 * The answer generator's two operations as the source runs them: building
 * the first request and making the first model call, and the `while` loop
 * that executes tool calls round by round. Each is proved to compute what
 * the functions of module Negotiation specify, and states the main
 * promises outright.
 */
module AIGenerator {
  import opened Messages
  import opened ToolRound
  import opened Negotiation

  /**
   * The tool-execution handler. `initial` is the response that asked for
   * tools, `base` the request that produced it, `client(i)` the outcome of the
   * handler's model call number i, and `tools(i)` that of the tool manager's
   * call number i. Returns the answer, every request sent and every tool call
   * made.
   */
  method HandleToolExecution(g: Generator, initial: Response, base: Request,
                             client: nat -> CallOutcome, tools: nat -> ToolOutcome)
    returns (reply: Reply, sent: seq<Request>, toolCalls: seq<ToolCall>)
    ensures Run(reply, sent, toolCalls) == Handle(g, initial, base, client, tools)
    ensures |sent| <= MaxRounds
    ensures forall j :: 0 <= j < |sent| ==> base.messages <= sent[j].messages
    ensures |sent| == MaxRounds ==> sent[MaxRounds - 1].tools == None
  {
    var current := initial;
    var messages := base.messages;  // a copy: the caller's list is never appended to
    var roundCount := 0;
    sent, toolCalls := [], [];
    while current.stopReason == ToolUseStop && roundCount < MaxRounds
      invariant roundCount <= MaxRounds
      invariant Rounds(g, base, client, tools, State(current, messages, roundCount, sent, toolCalls))
             == Handle(g, initial, base, client, tools)
      decreases MaxRounds - roundCount
    {
      ghost var before := State(current, messages, roundCount, sent, toolCalls);
      roundCount := roundCount + 1;
      messages := messages + [Message(Assistant, Blocks(current.content))];
      var calls, toolResults := ExecuteToolCalls(current.content, tools, |toolCalls|);
      toolCalls := toolCalls + calls;
      ghost var turns := RoundTurns(current.content, tools, |before.calls|);
      if toolResults != [] {
        messages := messages + [Message(User, Results(toolResults))];
        assert turns == [turns[0], turns[1]];
      } else {
        assert turns == [turns[0]];
      }
      assert messages == before.log + turns;
      var request := NextRequest(g, base, messages, roundCount);
      sent := sent + [request];
      RoundStep(g, base, client, tools, before);
      assert Advance(g, base, tools, before) == State(current, messages, roundCount, sent, toolCalls);
      match client(roundCount - 1)
      case Failed(m) =>
        reply := Answer(RoundError(roundCount, m));
        HandleKeepsCallerMessages(g, initial, base, client, tools);
        HandleRequests(g, initial, base, client, tools);
        return;
      case Returned(r) =>
        current := r;
    }
    reply := FinalText(current);
    HandleKeepsCallerMessages(g, initial, base, client, tools);
    HandleRequests(g, initial, base, client, tools);
  }

  /**
   * Answer generation: builds the first request, calls the model once, and
   * either hands off to the tool loop (the response asks for tools and a tool
   * manager is given) or returns `content[0].text` of the response.
   */
  method GenerateResponse(g: Generator, query: string, history: Option<string>, tools: Option<seq<ToolDef>>,
                          toolManager: Option<nat -> ToolOutcome>, client: nat -> CallOutcome)
    returns (reply: Reply, sent: seq<Request>, toolCalls: seq<ToolCall>)
    ensures Run(reply, sent, toolCalls) == Generate(g, query, history, tools, toolManager, client)
    ensures 1 <= |sent| <= MaxRounds + 1 && sent[0] == InitialRequest(g, query, history, tools)
    ensures forall j :: 0 <= j < |sent| ==>
      sent[j].params == Params(g.model, 0, 800) && sent[j].system == SystemText(history)
    ensures |sent| == MaxRounds + 1 ==> sent[MaxRounds].tools == None
  {
    var request := InitialRequest(g, query, history, tools);
    GenerateCalls(g, query, history, tools, toolManager, client);
    GenerateRequests(g, query, history, tools, toolManager, client);
    match client(0)
    case Failed(m) =>
      reply, sent, toolCalls := Error(Transport(m)), [request], [];
    case Returned(response) =>
      if response.stopReason == ToolUseStop && toolManager.Some? {
        var handled;
        reply, handled, toolCalls := HandleToolExecution(g, response, request, Shift(client), toolManager.value);
        sent := [request] + handled;
      } else {
        reply, sent, toolCalls := DirectText(response), [request], [];
      }
  }
}
