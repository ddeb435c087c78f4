/**
 * One round of tool execution: every `tool_use` block of a model turn is run
 * through the tool manager, in emission order, and answered by one
 * `tool_result` carrying its id. An exception raised by a tool becomes the
 * result's text instead of ending the query.
 */
module ToolRound {
  import opened Messages

  const ToolErrorPrefix: string := "Tool execution error: "

  /** The `tool_use` blocks of a turn, in the order the model emitted them. */
  function ToolUses(blocks: seq<Block>): (uses: seq<Block>)
    ensures |uses| <= |blocks|
    ensures forall j :: 0 <= j < |uses| ==> uses[j].ToolUse?
    ensures uses == [] <==> forall i :: 0 <= i < |blocks| ==> !blocks[i].ToolUse?
  {
    if blocks == [] then []
    else if blocks[0].ToolUse? then [blocks[0]] + ToolUses(blocks[1..])
    else ToolUses(blocks[1..])
  }

  /** Filtering a concatenation filters each part. */
  lemma {:induction false} ToolUsesAppend(a: seq<Block>, b: seq<Block>)
    ensures ToolUses(a + b) == ToolUses(a) + ToolUses(b)
  {
    if a == [] {
      assert a + b == b;
    } else {
      assert (a + b)[1..] == a[1..] + b;
      ToolUsesAppend(a[1..], b);
    }
  }

  /** Exactly the `tool_use` blocks of the turn are kept; every other block is skipped. */
  lemma {:induction false} ToolUsesMembership(blocks: seq<Block>)
    ensures forall b :: b in ToolUses(blocks) <==> b in blocks && b.ToolUse?
  {
    if blocks != [] {
      ToolUsesMembership(blocks[1..]);
      assert blocks == [blocks[0]] + blocks[1..];
    }
  }

  /** The `execute_tool(name, **input)` calls a turn asks for, one per `tool_use` block. */
  function ToolCallsOf(blocks: seq<Block>): (calls: seq<ToolCall>)
    ensures |calls| == |ToolUses(blocks)|
  {
    var uses := ToolUses(blocks);
    seq(|uses|, j requires 0 <= j < |uses| => ToolCall(uses[j].name, uses[j].input))
  }

  /** The text of a `tool_result`: the tool's string, or the exception turned into text. */
  function ResultContent(outcome: ToolOutcome): (content: string)
    ensures outcome.Value? ==> content == outcome.result
    ensures outcome.Raised? ==> |content| == |ToolErrorPrefix| + |outcome.message|
  {
    match outcome
    case Value(s) => s
    case Raised(m) => ToolErrorPrefix + m
  }

  /**
   * The `tool_result`s of a turn, when the tool manager's calls number `start`,
   * `start + 1`, ... answer its `tool_use` blocks in order.
   */
  function ToolResults(blocks: seq<Block>, tools: nat -> ToolOutcome, start: nat): (results: seq<ToolResult>)
    ensures |results| == |ToolUses(blocks)|
  {
    var uses := ToolUses(blocks);
    seq(|uses|, j requires 0 <= j < |uses| => ToolResult(uses[j].id, ResultContent(tools(start + j))))
  }

  /**
   * Every result answers a `tool_use` block of the same turn, and every
   * `tool_use` block of the turn is answered.
   */
  lemma ResultsMatchRequests(blocks: seq<Block>, tools: nat -> ToolOutcome, start: nat)
    ensures forall r :: r in ToolResults(blocks, tools, start) ==>
      exists b :: b in blocks && b.ToolUse? && b.id == r.toolUseId
    ensures forall b :: b in blocks && b.ToolUse? ==>
      exists r :: r in ToolResults(blocks, tools, start) && r.toolUseId == b.id
  {
    var uses := ToolUses(blocks);
    var results := ToolResults(blocks, tools, start);
    ToolUsesMembership(blocks);
    forall r | r in results
      ensures exists b :: b in blocks && b.ToolUse? && b.id == r.toolUseId
    {
      var j :| 0 <= j < |results| && results[j] == r;
      assert uses[j] in uses;
    }
    forall b | b in blocks && b.ToolUse?
      ensures exists r :: r in results && r.toolUseId == b.id
    {
      assert b in uses;
      var j :| 0 <= j < |uses| && uses[j] == b;
      assert results[j] in results;
    }
  }

  /**
   * A tool that raises never ends the round: its block is still answered, by a
   * result whose text starts with the error prefix, and later blocks still run.
   */
  lemma RaisedToolIsAnswered(blocks: seq<Block>, tools: nat -> ToolOutcome, start: nat, j: nat)
    requires j < |ToolUses(blocks)|
    requires tools(start + j).Raised?
    ensures ToolResults(blocks, tools, start)[j] ==
      ToolResult(ToolUses(blocks)[j].id, ToolErrorPrefix + tools(start + j).message)
    ensures |ToolResults(blocks, tools, start)| == |ToolCallsOf(blocks)|
  {
  }

  /**
   * The `for` loop over the blocks of a turn: runs each `tool_use` block through
   * the tool manager and collects one result per block.
   */
  method ExecuteToolCalls(blocks: seq<Block>, tools: nat -> ToolOutcome, start: nat)
    returns (calls: seq<ToolCall>, results: seq<ToolResult>)
    ensures calls == ToolCallsOf(blocks)
    ensures results == ToolResults(blocks, tools, start)
  {
    calls, results := [], [];
    for i := 0 to |blocks|
      invariant calls == ToolCallsOf(blocks[..i])
      invariant results == ToolResults(blocks[..i], tools, start)
    {
      var block := blocks[i];
      ToolUsesAppend(blocks[..i], [block]);
      assert blocks[..i + 1] == blocks[..i] + [block];
      if block.ToolUse? {
        ghost var answered := results + [ToolResult(block.id, ResultContent(tools(start + |results|)))];
        assert answered == ToolResults(blocks[..i + 1], tools, start);
        calls := calls + [ToolCall(block.name, block.input)];
        match tools(start + |results|)
        case Value(s) =>
          results := results + [ToolResult(block.id, s)];
        case Raised(m) =>
          results := results + [ToolResult(block.id, ToolErrorPrefix + m)];
      }
    }
    assert blocks[..|blocks|] == blocks;
  }
}
