# Tool-call negotiation of the course-materials answer generator

This project models the answer generator of a retrieval-augmented course
assistant (`AIGenerator` in `backend/ai_generator.py`) and proves what its
negotiation with the language model promises.

`generate_response` sends one request. The request holds the system text, with
the conversation history appended when there is one, a single user turn with
the query, and the tool definitions plus `tool_choice = auto` when the tool
list is non-empty. The generator answers with `content[0].text` unless the
model stopped with `tool_use` and a tool manager is given. In that case
`_handle_tool_execution` runs at most two rounds. Each round appends the
model's turn to a copy of the message log. It then runs every `tool_use` block
through the tool manager, turning an exception into an error string, and
appends one user turn of `tool_result`s paired by id. Last, it calls the model
again; that call offers the tools only while the round ceiling is not reached.

The model and the tool manager are external. Each is modelled as a script of
outcomes indexed by call number:
- `client(i)` is what the model call number i did: returned a response, or raised with a message.
- `tools(i)` is what `execute_tool` call number i did: returned a string, or raised with a message.

Every concrete run corresponds to one pair of scripts. The lemmas hold for all
scripts, so they hold for every behaviour of the model and of the tools. Each
operation returns the answer (or the exception that escapes), every request
it sent and every tool call it made. That way, call counts and request shapes
can be stated in postconditions.

Modules:
- `Messages` (messages.dfy): blocks, responses, turns, requests, outcomes.
- `ToolRound` (tool_round.dfy): the `for` loop over one turn's blocks, the method `ExecuteToolCalls`, and its specification.
- `Negotiation` (negotiation.dfy): the functions that specify request building, the round loop (`Rounds`, `Handle`) and generation (`Generate`), and the lemmas about them.
- `AIGenerator` (ai_generator.dfy): the `while` loop `HandleToolExecution` and `GenerateResponse`, each proved equal to its specification.
- `Scenarios` (scenarios.dfy): the handler runs and the two direct-answer runs the generator's test suite describes, plus one model-failure run, each proved for every script that agrees with it. The suite's remaining cases (history in the system text, tools offered without tool use, the full generate-then-handle path, request parameters) are covered in general by `SystemText`, `GenerateCalls` and `GenerateRequests`.

Notes on the code's behaviour:
- The answer is `content[0].text`. When the first block is a `tool_use` block, `.text` raises `AttributeError`. The model returns `Error(AttributeError)` in that case, on the direct path and after the loop. On the direct path, empty content raises `IndexError`.
- The user turn of tool results is appended only when at least one result was collected.
- The handler re-offers tools when the key `tools` is present in the request it was given, even if that list is empty. `generate_response` only ever sets that key with a non-empty list.
- Model name, temperature and output ceiling of the handler's requests come from the generator's own `base_params`. The system text and the tools come from the request passed to the handler.

## Model

| member | source | states |
|---|---|---|
| `Negotiation.BaseParams` | backend/ai_generator.py:44-49 | the fixed parameters carry the configured model, temperature 0 and max_tokens 800 |
| `Negotiation.SystemText` | backend/ai_generator.py:69-73 | the system text starts with the instructions; it is exactly the instructions iff the history is absent or empty; otherwise it is the instructions, the "Previous conversation" header, then the history |
| `Negotiation.InitialRequest` | backend/ai_generator.py:76-85 | the first request has the base parameters, the system text and a single user turn holding the query; it offers the given tools with `tool_choice` auto iff the tool list is present and non-empty |
| `Negotiation.NextRequest` | backend/ai_generator.py:154-163 | a round's request has the generator's parameters, the original system text and the round's log; it offers the original tools (and auto choice) iff the round is below the ceiling and the original request had tools |
| `Negotiation.DirectText` | backend/ai_generator.py:95 | the direct answer raises `IndexError` iff the content is empty and `AttributeError` iff its first block is a `tool_use` block; otherwise it is the text of the first block |
| `Negotiation.FinalText` | backend/ai_generator.py:172-175 | after the loop, empty content gives "No response generated"; a first `tool_use` block raises `AttributeError`; otherwise the answer is the text of the first block |
| `Negotiation.NatToString` | backend/ai_generator.py:170 | the round number as the f-string prints it: at least one digit, and the single digit of a round below 10 |
| `Negotiation.RoundError` | backend/ai_generator.py:168-170 | the answer after a raising model call starts with "Error in tool execution round ", is longer than prefix, ": " and message together, and ends with ": " and the message; for a round below 10 it is exactly prefix, digit, ": ", message |
| `Negotiation.RoundTurns` | backend/ai_generator.py:124-151 | a round appends the model's turn verbatim, then a second turn exactly when the turn had `tool_use` blocks |
| `Negotiation.Advance` | backend/ai_generator.py:121-163 | the body of a round up to its model call: the round count goes up by one, the log gets longer and keeps the earlier log as its prefix, exactly one request is sent, the tool calls grow by exactly the number of `tool_use` blocks of the turn, and the current response is unchanged |
| `Negotiation.Rounds` | backend/ai_generator.py:117-170 | from a loop state, the loop sends no more requests than rounds remain, and it sends at least one iff the current response asks for tools and the ceiling is not reached |
| `Negotiation.Handle` | backend/ai_generator.py:97-175 | the handler sends at most 2 requests, and sends none iff the response it was given does not ask for tools |
| `Negotiation.Generate` | backend/ai_generator.py:51-95 | 1 to 3 requests, the first being the initial request; more than one iff the first call returned a response asking for tools and a tool manager was given |
| `Negotiation.RoundsCount` | backend/ai_generator.py:117-121 | from any reachable loop state: the loop stops within the ceiling, every round it ran started from a response asking for tools, and it ran all rounds it could; the answer is the round error or the final extraction of the last response |
| `Negotiation.RoundsTrace` | backend/ai_generator.py:121-167 | from any reachable loop state: each new request is the one of its round over the previous log plus that round's turns, and the tool calls are those of the rounds run, in order |
| `Negotiation.HandleStartsAtRoundZero` | backend/ai_generator.py:112-114 | the loop starts on the first response, with the caller's messages, no round, no request and no tool call |
| `Negotiation.HandleCallBound` | backend/ai_generator.py:109-121 | the handler makes at most 2 model calls; round k+1 runs iff rounds 1..k ran, the model call before it returned, and that response still asks for tools |
| `Negotiation.HandleNoToolUse` | backend/ai_generator.py:117-119 | a first response that does not ask for tools makes no model call and no tool call and yields its final extraction |
| `Negotiation.HandleReply` | backend/ai_generator.py:165-175 | the answer is "Error in tool execution round k: msg" when the last call raised in round k; otherwise it is `content[0].text` of the last response, or "No response generated" for empty content, even when that response still asks for tools |
| `Negotiation.HandleRequests` | backend/ai_generator.py:153-163 | every request of the handler carries the generator's parameters and the original system text; request k offers tools iff k < 2 and the original had them, with `tool_choice` auto exactly when it offers them, so the last round's request never does |
| `Negotiation.RoundLogged` | backend/ai_generator.py:123-151 | the shape one round gives the log: earlier turns unchanged, the model turn verbatim, then one user turn whose results answer the turn's `tool_use` blocks in order and by id |
| `Negotiation.HandleLog` | backend/ai_generator.py:123-151 | each round's log is the previous log grown by the model's turn and, when it had `tool_use` blocks, one user turn of results paired by id in order (by 2 turns per round with tool calls) |
| `Negotiation.HandleKeepsCallerMessages` | backend/ai_generator.py:113 | the caller's messages are a proper prefix of the log of every request the handler sends |
| `Negotiation.HandleToolCalls` | backend/ai_generator.py:126-134 | the handler's tool calls are, round after round, one `execute_tool(name, **input)` per `tool_use` block of that round's turn, in emission order |
| `Negotiation.ToolErrorsDoNotAbort` | backend/ai_generator.py:141-147 | for the same model outcomes, whatever the tools return or raise, the handler makes the same number of model calls, the same tool calls, and gives the same answer |
| `Negotiation.GenerateCalls` | backend/ai_generator.py:87-95 | 1 to 3 model calls, the first being the initial request; a raising first call propagates; when the first response does not ask for tools or there is no tool manager there is exactly one call, no tool call, and the answer is `content[0].text` |
| `Negotiation.GenerateRequests` | backend/ai_generator.py:69-92 | every request carries model, temperature 0, max_tokens 800 and the same system text; request j offers the tools iff j < 2 and the tool list is non-empty, with `tool_choice` auto exactly when it offers them, so the third request never does |
| `Negotiation.GenerateToolLoopReply` | backend/ai_generator.py:91-92 | after k rounds (1 <= k <= 2) the answer is the round-k error string if model call k+1 raised, else the final extraction of its response |
| `ToolRound.ToolUses` | backend/ai_generator.py:128-129 | the kept blocks are all `tool_use` blocks, no more than the turn has; none are kept iff the turn has no `tool_use` block |
| `ToolRound.ToolUsesAppend` | backend/ai_generator.py:128-129 | selecting the `tool_use` blocks of a concatenation selects those of each part, in order |
| `ToolRound.ToolUsesMembership` | backend/ai_generator.py:128-129 | a block is kept iff it is in the turn and is a `tool_use` block; every other block is skipped |
| `ToolRound.ToolCallsOf` | backend/ai_generator.py:131-134 | one `execute_tool` call per `tool_use` block |
| `ToolRound.ResultContent` | backend/ai_generator.py:136-147 | a tool's returned string is the result text verbatim; a raised exception gives a text as long as "Tool execution error: " and the message together (its exact text is stated by `RaisedToolIsAnswered`) |
| `ToolRound.ToolResults` | backend/ai_generator.py:136-147 | one `tool_result` per `tool_use` block |
| `ToolRound.ResultsMatchRequests` | backend/ai_generator.py:136-147 | every result's id is the id of a `tool_use` block of the same turn, and every `tool_use` block of the turn gets a result |
| `ToolRound.RaisedToolIsAnswered` | backend/ai_generator.py:141-147 | a raising tool is still answered, under its block's id, with "Tool execution error: " followed by the message |
| `ToolRound.ExecuteToolCalls` | backend/ai_generator.py:127-147 | the loop over the turn's blocks makes exactly the calls of `ToolCallsOf` and collects exactly the results of `ToolResults` |
| `AIGenerator.HandleToolExecution` | backend/ai_generator.py:97-175 | the `while` loop computes exactly `Handle`: at most 2 model calls, the caller's messages a prefix of every log, and no tools offered on the final round |
| `AIGenerator.GenerateResponse` | backend/ai_generator.py:51-95 | computes exactly `Generate`: 1 to 3 model calls, the first being the initial request; every request carries model, temperature 0, max_tokens 800 and the system text; the third request offers no tools |
| `Scenarios.TwoToolRounds` | backend/ai_generator.py:117-170 | two rounds of one `tool_use` block each end the loop after the second model call, whatever it returns: its final extraction is the answer, the second request's log is the full log, and the tool calls are the two blocks' in order |
| `Scenarios.DirectAnswer` | backend/tests/test_ai_generator.py:23-41 | without tools, a final first answer means one model call offering no tools, with the query as the only turn, and its text as the answer |
| `Scenarios.MissingToolManager` | backend/tests/test_ai_generator.py:309-324 | when the model asks for tools but no tool manager is given, the first response's text is the answer and no further call is made |
| `Scenarios.SingleTool` | backend/tests/test_ai_generator.py:130-194 | one `tool_use` block then a final answer: one tool call, the search tool called with `query` and `course_name`, one model call whose log is the user turn, the model turn and the result under id `tool_456`, and the final text returned |
| `Scenarios.TwoToolsInOneTurn` | backend/tests/test_ai_generator.py:196-258 | two `tool_use` blocks in one turn: both run, and one user turn carries both results in block order |
| `Scenarios.TwoRounds` | backend/tests/test_ai_generator.py:326-401 | with both tools offered, two rounds of different tools: the outline tool, then the search tool, then the final answer after exactly two model calls |
| `Scenarios.CeilingReached` | backend/tests/test_ai_generator.py:403-467 | tools asked for on both rounds: exactly two model calls and two tool calls, the second request offers no tools, and the last response's text is returned although it still asks for tools |
| `Scenarios.ToolErrorInSecondRound` | backend/tests/test_ai_generator.py:469-529 | a tool raising in round 2 is answered with "Tool execution error: " and its message as the fifth turn, and the query completes with the final answer |
| `Scenarios.EarlyTermination` | backend/tests/test_ai_generator.py:531-578 | when the model stops asking for tools after round 1, there is one model call and one tool call |
| `Scenarios.ModelErrorInRound` | backend/ai_generator.py:165-170 | a model call raising in round 1 ends the loop after one call, with `RoundError(1, message)`: the prefix, the digit 1, ": " and the message |

## Left out

- The Anthropic client and the network call are not modelled. Each model call's outcome comes from the scripted `client`, independent of the request content.
- The tool manager and the search and outline tools (`search_tools.py`) are not part of this model. `execute_tool` is the scripted `tools`, so result formatting and source tracking are out of scope.
- The wording of the system prompt is not modelled. `SystemPrompt` is an opaque placeholder string; only how it is combined with the history is.
- Tool definitions are passed through untouched, so their schemas are reduced to a name and a description.
- Tool arguments are modelled as a map from parameter name to the argument's JSON text.
- The class of an exception raised by the model client or by a tool is not modelled, only its message (`str(e)`). The exceptions the generator itself raises (`IndexError`, `AttributeError`) and a propagating client error are distinct cases of `Messages.Exception`.
- The `hasattr(current_response, 'content')` guard is not modelled; every response has a (possibly empty) content sequence.
- The `tool_manager` test in the loop condition is not modelled: the handler is only reached with a tool manager, so it always holds there.
- Python truthiness is modelled explicitly: a missing history and an empty history both count as absent, and a missing tool list and an empty one both count as absent.
- Request logs are value snapshots taken when each request is built. In the source every request after the first shares one `messages` list (backend/ai_generator.py:156), so a later append also shows through a request object sent earlier; this aliasing is not modelled.
- The HTTP API, the vector store, document ingestion and session storage are outside the generator and not modelled.
