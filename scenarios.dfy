/**
 * Concrete runs of the negotiation, one per scenario the generator's test
 * suite pins down. Each lemma holds for every model script and tool script
 * that agree with the scenario on the calls it makes.
 */
module Scenarios {
  import opened Messages
  import opened ToolRound
  import opened Negotiation

  const TestGenerator: Generator := Generator("test-model")
  const SearchTool: string := "search_course_content"

  function Search(id: string, query: string): Block
  {
    ToolUse(id, SearchTool, map["query" := query])
  }

  /** The request the handler tests hand over: one user turn, a test system text, the given tools. */
  function TestRequest(query: string, defs: seq<ToolDef>): Request
  {
    Request(BaseParams(TestGenerator), "Test system prompt", [Message(User, Plain(query))], Some(defs), None)
  }

  /** The usual test request, offering the search tool only. */
  function TestBase(query: string): Request
  {
    TestRequest(query, [ToolDef(SearchTool, "")])
  }

  /** A turn holding one `tool_use` block: one call, one result under its id, two new turns. */
  lemma OneToolTurn(b: Block, tools: nat -> ToolOutcome, start: nat)
    requires b.ToolUse?
    ensures ToolUses([b]) == [b]
    ensures ToolCallsOf([b]) == [ToolCall(b.name, b.input)]
    ensures RoundTurns([b], tools, start) ==
      [Message(Assistant, Blocks([b])), Message(User, Results([ToolResult(b.id, ResultContent(tools(start)))]))]
  {
    assert ToolUses([b]) == [b];
    assert ToolResults([b], tools, start) == [ToolResult(b.id, ResultContent(tools(start)))];
  }

  /**
   * Two rounds of one `tool_use` block each: whatever the second model call
   * returns, the loop stops there with its final extraction, after the two
   * blocks' tool calls in order.
   */
  lemma TwoToolRounds(base: Request, first: Block, second: Block, client: nat -> CallOutcome, tools: nat -> ToolOutcome)
    requires first.ToolUse? && second.ToolUse?
    requires client(0) == Returned(Response(ToolUseStop, [second])) && client(1).Returned?
    ensures var s0 := State(Response(ToolUseStop, [first]), base.messages, 0, [], []);
      var s1 := Advance(TestGenerator, base, tools, s0).(current := client(0).response);
      var s2 := Advance(TestGenerator, base, tools, s1).(current := client(1).response);
      && Handle(TestGenerator, Response(ToolUseStop, [first]), base, client, tools) ==
           Run(FinalText(client(1).response), s2.sent, s2.calls)
      && |s2.sent| == 2 && s2.sent[1].messages == s2.log
      && s2.calls == [ToolCall(first.name, first.input), ToolCall(second.name, second.input)]
  {
    OneToolTurn(first, tools, 0);
    OneToolTurn(second, tools, 1);
    var s0 := State(Response(ToolUseStop, [first]), base.messages, 0, [], []);
    var s1 := Advance(TestGenerator, base, tools, s0).(current := client(0).response);
    var s2 := Advance(TestGenerator, base, tools, s1).(current := client(1).response);
    assert Rounds(TestGenerator, base, client, tools, s0) == Rounds(TestGenerator, base, client, tools, s1);
    assert Rounds(TestGenerator, base, client, tools, s1) == Rounds(TestGenerator, base, client, tools, s2);
  }

  /** No tools and a final first answer: one call, no tools offered, the text returned. */
  lemma DirectAnswer(client: nat -> CallOutcome)
    requires client(0) == Returned(Response("end_turn", [Text("Direct response without tools")]))
    ensures var run := Generate(TestGenerator, "What is AI?", None, None, None, client);
      && run.reply == Answer("Direct response without tools")
      && |run.requests| == 1 && run.toolCalls == []
      && run.requests[0].tools == None
      && run.requests[0].messages == [Message(User, Plain("What is AI?"))]
  {
  }

  /** The model asks for tools but no tool manager is given: its text is returned directly. */
  lemma MissingToolManager(client: nat -> CallOutcome)
    requires client(0) == Returned(Response(ToolUseStop, [Text("Tool use attempt")]))
    ensures var run := Generate(TestGenerator, "Test query", None, Some([ToolDef("test_tool", "")]), None, client);
      && run.reply == Answer("Tool use attempt")
      && |run.requests| == 1 && run.toolCalls == []
      && run.requests[0].toolChoice == Some(Auto)
  {
  }

  /** One tool call, then a final answer: the log is user, assistant, user with the paired result. */
  lemma SingleTool(client: nat -> CallOutcome, tools: nat -> ToolOutcome)
    requires client(0) == Returned(Response("end_turn", [Text("Here's what I found about Python basics")]))
    requires tools(0) == Value("Python is a programming language...")
    ensures var block := ToolUse("tool_456", SearchTool, map["query" := "Python basics", "course_name" := "Programming Course"]);
      var run := Handle(TestGenerator, Response(ToolUseStop, [block]), TestBase("Search for Python basics"), client, tools);
      && run.reply == Answer("Here's what I found about Python basics")
      && run.toolCalls == [ToolCall(SearchTool, map["query" := "Python basics", "course_name" := "Programming Course"])]
      && |run.requests| == 1
      && run.requests[0].messages == [
           Message(User, Plain("Search for Python basics")),
           Message(Assistant, Blocks([block])),
           Message(User, Results([ToolResult("tool_456", "Python is a programming language...")]))]
  {
    var block := ToolUse("tool_456", SearchTool, map["query" := "Python basics", "course_name" := "Programming Course"]);
    var base := TestBase("Search for Python basics");
    OneToolTurn(block, tools, 0);
    var s0 := State(Response(ToolUseStop, [block]), base.messages, 0, [], []);
    var s1 := Advance(TestGenerator, base, tools, s0).(current := client(0).response);
    assert Rounds(TestGenerator, base, client, tools, s0) == Rounds(TestGenerator, base, client, tools, s1);
  }

  /** Two tool calls in one turn: both run, in order, and their results keep that order. */
  lemma TwoToolsInOneTurn(client: nat -> CallOutcome, tools: nat -> ToolOutcome)
    requires client(0) == Returned(Response("end_turn", [Text("Here's information about both languages")]))
    requires tools(0) == Value("Python content...") && tools(1) == Value("JavaScript content...")
    ensures var turn := [Search("tool_1", "Python basics"), Search("tool_2", "JavaScript fundamentals")];
      var run := Handle(TestGenerator, Response(ToolUseStop, turn), TestBase("Compare Python and JavaScript"), client, tools);
      && run.reply == Answer("Here's information about both languages")
      && |run.toolCalls| == 2
      && run.requests[0].messages[2] == Message(User, Results([
           ToolResult("tool_1", "Python content..."), ToolResult("tool_2", "JavaScript content...")]))
  {
    var turn := [Search("tool_1", "Python basics"), Search("tool_2", "JavaScript fundamentals")];
    var base := TestBase("Compare Python and JavaScript");
    assert turn[1..] == [turn[1]];
    assert ToolUses(turn) == turn;
    var results := ToolResults(turn, tools, 0);
    assert results == [ToolResult("tool_1", "Python content..."), ToolResult("tool_2", "JavaScript content...")];
    var s0 := State(Response(ToolUseStop, turn), base.messages, 0, [], []);
    var s1 := Advance(TestGenerator, base, tools, s0).(current := client(0).response);
    assert s1.log[2] == Message(User, Results(results));
    assert Rounds(TestGenerator, base, client, tools, s0) == Rounds(TestGenerator, base, client, tools, s1);
  }

  /** Two rounds of different tools, then a final answer: both tools run in order, two model calls. */
  lemma TwoRounds(client: nat -> CallOutcome, tools: nat -> ToolOutcome)
    requires client(0) == Returned(Response(ToolUseStop, [ToolUse("tool_round_2", SearchTool,
                map["query" := "machine learning", "course_name" := "ML Course"])]))
    requires client(1) == Returned(Response("end_turn", [Text("Based on both tool results, here's your answer")]))
    ensures var run := Handle(TestGenerator,
                              Response(ToolUseStop, [ToolUse("tool_round_1", "get_course_outline", map["course_name" := "ML Course"])]),
                              TestRequest("Find ML course and related content",
                                          [ToolDef("get_course_outline", ""), ToolDef(SearchTool, "")]), client, tools);
      && run.reply == Answer("Based on both tool results, here's your answer")
      && |run.requests| == 2
      && run.toolCalls == [ToolCall("get_course_outline", map["course_name" := "ML Course"]),
                           ToolCall(SearchTool, map["query" := "machine learning", "course_name" := "ML Course"])]
  {
    var first := ToolUse("tool_round_1", "get_course_outline", map["course_name" := "ML Course"]);
    var base := TestRequest("Find ML course and related content", [ToolDef("get_course_outline", ""), ToolDef(SearchTool, "")]);
    TwoToolRounds(base, first, client(0).response.content[0], client, tools);
  }

  /** Tools on both rounds: two calls, the second offering no tools, and its text returned anyway. */
  lemma CeilingReached(client: nat -> CallOutcome, tools: nat -> ToolOutcome)
    requires client(0) == Returned(Response(ToolUseStop, [Search("tool_2", "second search")]))
    requires client(1) == Returned(Response(ToolUseStop, [Text("Should not reach here")]))
    ensures var run := Handle(TestGenerator, Response(ToolUseStop, [Search("tool_1", "first search")]),
                              TestBase("Test query"), client, tools);
      && run.reply == Answer("Should not reach here")
      && |run.requests| == 2
      && run.toolCalls == [ToolCall(SearchTool, map["query" := "first search"]),
                           ToolCall(SearchTool, map["query" := "second search"])]
      && run.requests[0].tools.Some? && run.requests[1].tools == None
  {
    TwoToolRounds(TestBase("Test query"), Search("tool_1", "first search"), Search("tool_2", "second search"), client, tools);
  }

  /** A tool raising in round 2 is answered with the error text, and the query still completes. */
  lemma ToolErrorInSecondRound(client: nat -> CallOutcome, tools: nat -> ToolOutcome)
    requires client(0) == Returned(Response(ToolUseStop, [Search("tool_2", "second search")]))
    requires client(1) == Returned(Response("end_turn", [Text("Response with error handled")]))
    requires tools(0) == Value("First tool result") && tools(1) == Raised("Tool execution failed")
    ensures var run := Handle(TestGenerator, Response(ToolUseStop, [Search("tool_1", "first search")]),
                              TestBase("Test query"), client, tools);
      && run.reply == Answer("Response with error handled")
      && |run.requests| == 2 && |run.toolCalls| == 2
      && |run.requests[1].messages| == 5
      && run.requests[1].messages[4] ==
           Message(User, Results([ToolResult("tool_2", ToolErrorPrefix + "Tool execution failed")]))
  {
    var first, second := Search("tool_1", "first search"), Search("tool_2", "second search");
    var base := TestBase("Test query");
    TwoToolRounds(base, first, second, client, tools);
    OneToolTurn(first, tools, 0);
    OneToolTurn(second, tools, 1);
    var log1 := base.messages + RoundTurns([first], tools, 0);
    var turns := RoundTurns([second], tools, 1);
    assert |log1| == 3 && (log1 + turns)[4] == turns[1];
  }

  /** The model stops asking for tools after round 1: one call, one tool run. */
  lemma EarlyTermination(client: nat -> CallOutcome, tools: nat -> ToolOutcome)
    requires client(0) == Returned(Response("end_turn", [Text("Final answer after one tool use")]))
    ensures var run := Handle(TestGenerator, Response(ToolUseStop, [Search("tool_1", "search")]),
                              TestBase("Test query"), client, tools);
      && run.reply == Answer("Final answer after one tool use")
      && |run.requests| == 1 && |run.toolCalls| == 1
  {
    assert ToolUses([Search("tool_1", "search")]) == [Search("tool_1", "search")];
  }

  /** The model call of round 1 raises: its message becomes the answer and no further call is made. */
  lemma ModelErrorInRound(client: nat -> CallOutcome, tools: nat -> ToolOutcome)
    requires client(0) == Failed("overloaded")
    ensures var run := Handle(TestGenerator, Response(ToolUseStop, [Search("tool_1", "search")]),
                              TestBase("Test query"), client, tools);
      && run.reply == Answer(RoundError(1, "overloaded"))
      && |run.requests| == 1
  {
    var base := TestBase("Test query");
    RoundStep(TestGenerator, base, client, tools, State(Response(ToolUseStop, [Search("tool_1", "search")]), base.messages, 0, [], []));
  }
}
