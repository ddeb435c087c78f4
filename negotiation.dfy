/**
 * The tool-call negotiation of the answer generator, as functions: the
 * request the generator builds, the bounded round loop, and the top-level
 * generation. The lemmas state what the loop promises for every behaviour of
 * the model and of the tools: how many calls are made, what each request
 * carries, how the message log grows, which tool calls run and what is
 * returned.
 *
 * The model is a script `client`: the handler's call number i (0-based) has
 * outcome `client(i)`. The tool manager is a script `tools`: its call number i
 * has outcome `tools(i)`.
 */
module Negotiation {
  import opened Messages
  import opened ToolRound

  /** The fixed instructions sent as the system text; their wording is not modelled. */
  const SystemPrompt: string := "<course-materials assistant instructions>"
  const HistoryHeader: string := "\n\nPrevious conversation:\n"
  const Temperature: int := 0
  const MaxTokens: nat := 800
  /** The round ceiling of the tool loop. */
  const MaxRounds: nat := 2
  const NoResponse: string := "No response generated"
  const RoundErrorPrefix: string := "Error in tool execution round "

  /** The answer generator; only the model name is configurable. */
  datatype Generator = Generator(model: string)

  /** The sampling parameters every request carries. */
  function BaseParams(g: Generator): (p: Params)
    ensures p.model == g.model && p.temperature == 0 && p.maxTokens == 800
  {
    Params(g.model, Temperature, MaxTokens)
  }

  /** The system text: the instructions, followed by the history when there is some. */
  function SystemText(history: Option<string>): (s: string)
    ensures |SystemPrompt| <= |s| && s[..|SystemPrompt|] == SystemPrompt
    ensures s == SystemPrompt <==> history.None? || history.value == ""
    ensures history.Some? && history.value != "" ==>
      |s| == |SystemPrompt| + |HistoryHeader| + |history.value| &&
      s[|SystemPrompt|..|SystemPrompt| + |HistoryHeader|] == HistoryHeader &&
      s[|SystemPrompt| + |HistoryHeader|..] == history.value
  {
    if history.Some? && history.value != "" then SystemPrompt + HistoryHeader + history.value
    else SystemPrompt
  }

  /** The first request: one user turn with the query; tools offered when the list is non-empty. */
  function InitialRequest(g: Generator, query: string, history: Option<string>, tools: Option<seq<ToolDef>>): (r: Request)
    ensures r.params == BaseParams(g) && r.system == SystemText(history)
    ensures r.messages == [Message(User, Plain(query))]
    ensures r.tools.Some? <==> tools.Some? && tools.value != []
    ensures r.tools.Some? ==> r.tools == tools && r.toolChoice == Some(Auto)
    ensures r.tools.None? ==> r.toolChoice == None
  {
    var request := Request(BaseParams(g), SystemText(history), [Message(User, Plain(query))], None, None);
    if tools.Some? && tools.value != [] then request.(tools := tools, toolChoice := Some(Auto))
    else request
  }

  /**
   * The request made at the end of round `round` (1-based) over the log
   * `messages`: the generator's parameters, the original system text, and the
   * original tools only while the round ceiling has not been reached.
   */
  function NextRequest(g: Generator, base: Request, messages: seq<Message>, round: nat): (r: Request)
    ensures r.params == BaseParams(g) && r.system == base.system && r.messages == messages
    ensures r.tools.Some? <==> round < MaxRounds && base.tools.Some?
    ensures r.tools.Some? ==> r.tools == base.tools && r.toolChoice == Some(Auto)
    ensures r.tools.None? ==> r.toolChoice == None
  {
    var request := Request(BaseParams(g), base.system, messages, None, None);
    if round < MaxRounds && base.tools.Some? then request.(tools := base.tools, toolChoice := Some(Auto))
    else request
  }

  /**
   * `content[0].text` on the direct path, which neither checks nor catches
   * anything: empty content raises IndexError, a `tool_use` block first raises
   * AttributeError.
   */
  function DirectText(response: Response): (reply: Reply)
    ensures reply == Error(IndexError) <==> response.content == []
    ensures reply == Error(AttributeError) <==> response.content != [] && response.content[0].ToolUse?
    ensures reply.Answer? <==> response.content != [] && response.content[0].Text?
    ensures reply.Answer? ==> reply.text == response.content[0].text
  {
    if response.content == [] then Error(IndexError)
    else match response.content[0]
      case Text(t) => Answer(t)
      case ToolUse(_, _, _) => Error(AttributeError)
  }

  /**
   * The handler's final extraction: the fallback string when there is no
   * content, else `content[0].text`, which raises AttributeError on a
   * `tool_use` block.
   */
  function FinalText(response: Response): (reply: Reply)
    ensures response.content == [] ==> reply == Answer(NoResponse)
    ensures reply.Error? <==> response.content != [] && response.content[0].ToolUse?
    ensures reply.Error? ==> reply.error == AttributeError
    ensures response.content != [] && response.content[0].Text? ==> reply == Answer(response.content[0].text)
  {
    if response.content == [] then Answer(NoResponse)
    else match response.content[0]
      case Text(t) => Answer(t)
      case ToolUse(_, _, _) => Error(AttributeError)
  }

  /** Decimal notation of a natural number, as an f-string prints it. */
  function NatToString(n: nat): (digits: string)
    ensures 1 <= |digits|
    ensures n < 10 ==> digits == ["0123456789"[n]]
  {
    var digit := "0123456789"[n % 10];
    if n < 10 then [digit] else NatToString(n / 10) + [digit]
  }

  /** The answer returned when the model call of round `round` raises with `message`. */
  function RoundError(round: nat, message: string): (text: string)
    ensures |RoundErrorPrefix| + 2 + |message| < |text|
    ensures text[..|RoundErrorPrefix|] == RoundErrorPrefix
    ensures text[|text| - |message| - 2..] == ": " + message
    ensures round < 10 ==> text == RoundErrorPrefix + ["0123456789"[round]] + ": " + message
  {
    RoundErrorPrefix + NatToString(round) + ": " + message
  }

  /** The turns one round appends: the model's turn verbatim, then its results if there are any. */
  function RoundTurns(turn: seq<Block>, tools: nat -> ToolOutcome, start: nat): (turns: seq<Message>)
    ensures |turns| == if ToolUses(turn) == [] then 1 else 2
    ensures turns[0] == Message(Assistant, Blocks(turn))
  {
    var results := ToolResults(turn, tools, start);
    [Message(Assistant, Blocks(turn))] + if results != [] then [Message(User, Results(results))] else []
  }

  /** The variables of the loop: current response, message log, round count, and the trace so far. */
  datatype State = State(current: Response, log: seq<Message>, round: nat, sent: seq<Request>, calls: seq<ToolCall>)

  /**
   * The body of one round, up to the model call: the log grows by the round's
   * turns, the round's request is sent over it, and the turn's tool calls are
   * made. The response is still the one the round started from.
   */
  function Advance(g: Generator, base: Request, tools: nat -> ToolOutcome, s: State): (next: State)
    ensures next.current == s.current && next.round == s.round + 1
    ensures |s.log| < |next.log| && next.log[..|s.log|] == s.log
    ensures |next.sent| == |s.sent| + 1
    ensures |next.calls| == |s.calls| + |ToolUses(s.current.content)|
  {
    var log := s.log + RoundTurns(s.current.content, tools, |s.calls|);
    var sent := s.sent + [NextRequest(g, base, log, s.round + 1)];
    assert sent[..|s.sent|] == s.sent;
    State(s.current, log, s.round + 1, sent, s.calls + ToolCallsOf(s.current.content))
  }

  /**
   * The round loop, from state `s` on: rounds run while the current response
   * asks for tools and the ceiling is not reached; a raising model call ends
   * the loop with the round error.
   */
  function Rounds(g: Generator, base: Request, client: nat -> CallOutcome, tools: nat -> ToolOutcome, s: State): (run: Run)
    requires s.round <= MaxRounds
    ensures |s.sent| <= |run.requests| <= |s.sent| + MaxRounds - s.round
    ensures |s.sent| < |run.requests| <==> s.current.stopReason == ToolUseStop && s.round < MaxRounds
    decreases MaxRounds - s.round
  {
    if s.current.stopReason == ToolUseStop && s.round < MaxRounds then
      var next := Advance(g, base, tools, s);
      match client(s.round)
      case Failed(m) => Run(Answer(RoundError(next.round, m)), next.sent, next.calls)
      case Returned(r) => Rounds(g, base, client, tools, next.(current := r))
    else
      Run(FinalText(s.current), s.sent, s.calls)
  }

  /** One round of the loop: its model call either ends the loop with the round error or starts the next round. */
  lemma RoundStep(g: Generator, base: Request, client: nat -> CallOutcome, tools: nat -> ToolOutcome, s: State)
    requires s.round < MaxRounds && s.current.stopReason == ToolUseStop
    ensures var next := Advance(g, base, tools, s);
      Rounds(g, base, client, tools, s) ==
        match client(s.round)
        case Failed(m) => Run(Answer(RoundError(s.round + 1, m)), next.sent, next.calls)
        case Returned(r) => Rounds(g, base, client, tools, next.(current := r))
  {
  }

  /** The tool-execution handler: the loop started on the response that asked for tools. */
  function Handle(g: Generator, initial: Response, base: Request, client: nat -> CallOutcome, tools: nat -> ToolOutcome): (run: Run)
    ensures |run.requests| <= MaxRounds
    ensures run.requests == [] <==> initial.stopReason != ToolUseStop
  {
    Rounds(g, base, client, tools, State(initial, base.messages, 0, [], []))
  }

  /** The model script seen by the handler: the calls after the first one. */
  function Shift(client: nat -> CallOutcome): nat -> CallOutcome
  {
    (i: nat) => client(i + 1)
  }

  /** Answer generation: one model call, then either the direct answer or the tool loop. */
  function Generate(g: Generator, query: string, history: Option<string>, tools: Option<seq<ToolDef>>,
                    toolManager: Option<nat -> ToolOutcome>, client: nat -> CallOutcome): (run: Run)
    ensures 1 <= |run.requests| <= MaxRounds + 1
    ensures run.requests[0] == InitialRequest(g, query, history, tools)
    ensures |run.requests| > 1 <==>
      client(0).Returned? && client(0).response.stopReason == ToolUseStop && toolManager.Some?
  {
    var request := InitialRequest(g, query, history, tools);
    match client(0)
    case Failed(m) => Run(Error(Transport(m)), [request], [])
    case Returned(response) =>
      if response.stopReason == ToolUseStop && toolManager.Some? then
        var run := Handle(g, response, request, Shift(client), toolManager.value);
        Run(run.reply, [request] + run.requests, run.toolCalls)
      else
        Run(DirectText(response), [request], [])
  }

  // ---------------------------------------------------------------------------
  // The model's turns, independently of the loop

  /** The response round k+1 starts from: the first response for k = 0, else the reply to call k-1. */
  function Turn(initial: Response, client: nat -> CallOutcome, k: nat): Option<Response>
  {
    if k == 0 then Some(initial)
    else match client(k - 1)
      case Returned(r) => Some(r)
      case Failed(_) => None
  }

  /** Round k+1 starts: its response exists and asks for tools. */
  predicate RoundStarts(initial: Response, client: nat -> CallOutcome, k: nat)
  {
    Turn(initial, client, k).Some? && Turn(initial, client, k).value.stopReason == ToolUseStop
  }

  /** Rounds 1 to k all start. */
  ghost predicate Started(initial: Response, client: nat -> CallOutcome, k: nat)
  {
    forall j :: 0 <= j < k ==> RoundStarts(initial, client, j)
  }

  /** The tool calls the turns of rounds 1 to k ask for, round after round. */
  ghost function CallsUpTo(initial: Response, client: nat -> CallOutcome, k: nat): seq<ToolCall>
    requires Started(initial, client, k)
  {
    if k == 0 then []
    else
      assert RoundStarts(initial, client, k - 1);
      CallsUpTo(initial, client, k - 1) + ToolCallsOf(Turn(initial, client, k - 1).value.content)
  }

  /** The loop state `s` is the one reached after s.round rounds of a handler run. */
  ghost predicate AtRound(base: Request, initial: Response, client: nat -> CallOutcome, s: State)
  {
    && s.round <= MaxRounds
    && Turn(initial, client, s.round) == Some(s.current)
    && |s.sent| == s.round
    && Started(initial, client, s.round)
    && s.calls == CallsUpTo(initial, client, s.round)
    && s.log == (if s.round == 0 then base.messages else s.sent[s.round - 1].messages)
  }

  // ---------------------------------------------------------------------------
  // The loop, from any reachable state

  /** A round that runs and whose model call returns leads from a reachable state to the next one. */
  lemma AdvanceAtRound(g: Generator, base: Request, initial: Response,
                       client: nat -> CallOutcome, tools: nat -> ToolOutcome, s: State)
    requires AtRound(base, initial, client, s)
    requires s.current.stopReason == ToolUseStop && s.round < MaxRounds && client(s.round).Returned?
    ensures AtRound(base, initial, client, Advance(g, base, tools, s).(current := client(s.round).response))
  {
    var next := Advance(g, base, tools, s).(current := client(s.round).response);
    assert RoundStarts(initial, client, s.round);
    assert next.calls == CallsUpTo(initial, client, s.round + 1);
  }

  lemma {:induction false} RoundsCount(g: Generator, base: Request, initial: Response,
                                       client: nat -> CallOutcome, tools: nat -> ToolOutcome, s: State)
    requires AtRound(base, initial, client, s)
    ensures var run := Rounds(g, base, client, tools, s);
      && s.round <= |run.requests| <= MaxRounds
      && run.requests[..s.round] == s.sent
      && Started(initial, client, |run.requests|)
      && (|run.requests| < MaxRounds ==> !RoundStarts(initial, client, |run.requests|))
    ensures var run := Rounds(g, base, client, tools, s);
      && (|run.requests| > s.round && client(|run.requests| - 1).Failed? ==>
            run.reply == Answer(RoundError(|run.requests|, client(|run.requests| - 1).message)))
      && (|run.requests| == 0 || client(|run.requests| - 1).Returned? ==>
            run.reply == FinalText(Turn(initial, client, |run.requests|).value))
    decreases MaxRounds - s.round
  {
    if s.current.stopReason == ToolUseStop && s.round < MaxRounds {
      var advanced := Advance(g, base, tools, s);
      assert advanced.sent[..s.round] == s.sent;
      RoundStep(g, base, client, tools, s);
      match client(s.round)
      case Failed(m) =>
        assert Turn(initial, client, s.round + 1) == None;
      case Returned(r) =>
        var next := advanced.(current := r);
        AdvanceAtRound(g, base, initial, client, tools, s);
        RoundsCount(g, base, initial, client, tools, next);
    }
  }

  /**
   * Request j of a handler run is the request of round j+1: made over the
   * previous log plus that round's turns, with the tools the round allows.
   */
  ghost predicate RoundTraced(g: Generator, base: Request, initial: Response, client: nat -> CallOutcome,
                              tools: nat -> ToolOutcome, requests: seq<Request>, j: nat)
    requires j < |requests| && Started(initial, client, j + 1)
  {
    assert RoundStarts(initial, client, j);
    && requests[j] == NextRequest(g, base, requests[j].messages, j + 1)
    && requests[j].messages ==
         (if j == 0 then base.messages else requests[j - 1].messages) +
         RoundTurns(Turn(initial, client, j).value.content, tools, |CallsUpTo(initial, client, j)|)
  }

  lemma {:induction false} RoundsTrace(g: Generator, base: Request, initial: Response,
                                       client: nat -> CallOutcome, tools: nat -> ToolOutcome, s: State)
    requires AtRound(base, initial, client, s)
    ensures var run := Rounds(g, base, client, tools, s);
      && s.round <= |run.requests|
      && run.requests[..s.round] == s.sent
      && Started(initial, client, |run.requests|)
      && run.toolCalls == CallsUpTo(initial, client, |run.requests|)
    ensures var run := Rounds(g, base, client, tools, s);
      forall j :: s.round <= j < |run.requests| ==> RoundTraced(g, base, initial, client, tools, run.requests, j)
    decreases MaxRounds - s.round
  {
    RoundsCount(g, base, initial, client, tools, s);
    if s.current.stopReason == ToolUseStop && s.round < MaxRounds {
      var advanced := Advance(g, base, tools, s);
      assert advanced.calls == CallsUpTo(initial, client, s.round + 1);
      assert RoundStarts(initial, client, s.round);
      assert RoundTraced(g, base, initial, client, tools, advanced.sent, s.round);
      RoundStep(g, base, client, tools, s);
      match client(s.round)
      case Failed(m) =>
      case Returned(r) =>
        var next := advanced.(current := r);
        AdvanceAtRound(g, base, initial, client, tools, s);
        RoundsTrace(g, base, initial, client, tools, next);
        var run := Rounds(g, base, client, tools, next);
        assert run.requests[s.round] == advanced.sent[s.round];
    }
  }

  // ---------------------------------------------------------------------------
  // What the handler promises

  lemma HandleStartsAtRoundZero(g: Generator, initial: Response, base: Request, client: nat -> CallOutcome)
    ensures AtRound(base, initial, client, State(initial, base.messages, 0, [], []))
  {
  }

  /**
   * The handler makes at most MaxRounds model calls. Round k+1 runs exactly
   * when rounds 1..k ran and the k-th response still asks for tools; the loop
   * stops at the first response that does not, or at the ceiling.
   */
  lemma HandleCallBound(g: Generator, initial: Response, base: Request,
                        client: nat -> CallOutcome, tools: nat -> ToolOutcome)
    ensures var run := Handle(g, initial, base, client, tools);
      && |run.requests| <= MaxRounds
      && (forall j :: 0 <= j < |run.requests| ==> RoundStarts(initial, client, j))
      && (|run.requests| < MaxRounds ==> !RoundStarts(initial, client, |run.requests|))
  {
    HandleStartsAtRoundZero(g, initial, base, client);
    RoundsCount(g, base, initial, client, tools, State(initial, base.messages, 0, [], []));
  }

  /** A response that does not ask for tools ends the handler at once, with no call and no tool run. */
  lemma HandleNoToolUse(g: Generator, initial: Response, base: Request,
                        client: nat -> CallOutcome, tools: nat -> ToolOutcome)
    requires initial.stopReason != ToolUseStop
    ensures Handle(g, initial, base, client, tools) == Run(FinalText(initial), [], [])
  {
  }

  /**
   * The handler's answer: the round error string when the last model call
   * raised, else the first text of the last response, "No response generated"
   * when it has no content (even if that response still asks for tools).
   */
  lemma HandleReply(g: Generator, initial: Response, base: Request,
                    client: nat -> CallOutcome, tools: nat -> ToolOutcome)
    ensures var run := Handle(g, initial, base, client, tools);
      var n := |run.requests|;
      && (n > 0 && client(n - 1).Failed? ==> run.reply == Answer(RoundError(n, client(n - 1).message)))
      && (n == 0 || client(n - 1).Returned? ==> run.reply == FinalText(Turn(initial, client, n).value))
  {
    HandleStartsAtRoundZero(g, initial, base, client);
    RoundsCount(g, base, initial, client, tools, State(initial, base.messages, 0, [], []));
  }

  /**
   * Every request of the handler carries the generator's parameters and the
   * original system text; round k's request offers the original tools iff
   * k < MaxRounds and they were offered before, so the request of the last
   * round never offers tools.
   */
  lemma HandleRequests(g: Generator, initial: Response, base: Request,
                       client: nat -> CallOutcome, tools: nat -> ToolOutcome)
    ensures var run := Handle(g, initial, base, client, tools);
      forall j :: 0 <= j < |run.requests| ==>
        && run.requests[j].params == Params(g.model, 0, 800)
        && run.requests[j].system == base.system
        && (run.requests[j].tools.Some? <==> j + 1 < MaxRounds && base.tools.Some?)
        && (run.requests[j].tools.Some? ==> run.requests[j].tools == base.tools && run.requests[j].toolChoice == Some(Auto))
        && (run.requests[j].tools.None? ==> run.requests[j].toolChoice == None)
    ensures var run := Handle(g, initial, base, client, tools);
      |run.requests| == MaxRounds ==> run.requests[MaxRounds - 1].tools == None
  {
    HandleStartsAtRoundZero(g, initial, base, client);
    var s0 := State(initial, base.messages, 0, [], []);
    RoundsTrace(g, base, initial, client, tools, s0);
    var run := Rounds(g, base, client, tools, s0);
    forall j | 0 <= j < |run.requests|
      ensures run.requests[j] == NextRequest(g, base, run.requests[j].messages, j + 1)
    {
      assert RoundTraced(g, base, initial, client, tools, run.requests, j);
    }
  }

  /**
   * One round's growth of the log from `before` to `after`: the earlier turns
   * unchanged, the model's turn verbatim, then one user turn of results, in
   * order and by id, when the turn had `tool_use` blocks.
   */
  ghost predicate RoundLogged(before: seq<Message>, after: seq<Message>, turn: seq<Block>)
  {
    && |after| == |before| + (if ToolUses(turn) == [] then 1 else 2)
    && after[..|before|] == before
    && after[|before|] == Message(Assistant, Blocks(turn))
    && (ToolUses(turn) != [] ==>
          && after[|before| + 1].role == User
          && after[|before| + 1].content.Results?
          && |after[|before| + 1].content.results| == |ToolUses(turn)|
          && forall i :: 0 <= i < |ToolUses(turn)| ==>
               after[|before| + 1].content.results[i].toolUseId == ToolUses(turn)[i].id)
  }

  /**
   * The message log: each round keeps the previous log unchanged, appends the
   * model's turn verbatim, then one user turn of results when the turn had
   * `tool_use` blocks; the results answer those blocks in order, by id.
   */
  lemma HandleLog(g: Generator, initial: Response, base: Request,
                  client: nat -> CallOutcome, tools: nat -> ToolOutcome, j: nat)
    requires j < |Handle(g, initial, base, client, tools).requests|
    ensures Turn(initial, client, j).Some?
    ensures var run := Handle(g, initial, base, client, tools);
      RoundLogged(if j == 0 then base.messages else run.requests[j - 1].messages,
                  run.requests[j].messages, Turn(initial, client, j).value.content)
  {
    HandleStartsAtRoundZero(g, initial, base, client);
    var s0 := State(initial, base.messages, 0, [], []);
    RoundsTrace(g, base, initial, client, tools, s0);
    var run := Rounds(g, base, client, tools, s0);
    assert Turn(initial, client, j).Some?;
    var before := if j == 0 then base.messages else run.requests[j - 1].messages;
    var turns := RoundTurns(Turn(initial, client, j).value.content, tools, |CallsUpTo(initial, client, j)|);
    assert RoundTraced(g, base, initial, client, tools, run.requests, j);
    assert run.requests[j].messages == before + turns;
    assert (before + turns)[..|before|] == before;
  }

  /** The caller's messages are the start of every log the handler sends. */
  lemma HandleKeepsCallerMessages(g: Generator, initial: Response, base: Request,
                                  client: nat -> CallOutcome, tools: nat -> ToolOutcome)
    ensures var run := Handle(g, initial, base, client, tools);
      forall j :: 0 <= j < |run.requests| ==>
        |base.messages| < |run.requests[j].messages| &&
        run.requests[j].messages[..|base.messages|] == base.messages
  {
    var run := Handle(g, initial, base, client, tools);
    forall j | 0 <= j < |run.requests|
      ensures |base.messages| < |run.requests[j].messages|
      ensures run.requests[j].messages[..|base.messages|] == base.messages
    {
      HandleLog(g, initial, base, client, tools, 0);
      if j > 0 {
        HandleCallBound(g, initial, base, client, tools);
        HandleLog(g, initial, base, client, tools, 1);
        var m0, m1 := run.requests[0].messages, run.requests[1].messages;
        assert m1[..|base.messages|] == m1[..|m0|][..|base.messages|];
      }
    }
  }

  /**
   * The tool calls of the handler: round after round, one `execute_tool` per
   * `tool_use` block of that round's turn, in emission order.
   */
  lemma HandleToolCalls(g: Generator, initial: Response, base: Request,
                        client: nat -> CallOutcome, tools: nat -> ToolOutcome)
    ensures var run := Handle(g, initial, base, client, tools);
      && Started(initial, client, |run.requests|)
      && run.toolCalls == CallsUpTo(initial, client, |run.requests|)
  {
    HandleStartsAtRoundZero(g, initial, base, client);
    RoundsTrace(g, base, initial, client, tools, State(initial, base.messages, 0, [], []));
  }

  /**
   * A tool that raises never aborts the query: for the same model outcomes,
   * whatever the tools return or raise, the handler makes the same number of
   * model calls, the same tool calls, and gives the same answer.
   */
  lemma ToolErrorsDoNotAbort(g: Generator, initial: Response, base: Request,
                             client: nat -> CallOutcome, tools1: nat -> ToolOutcome, tools2: nat -> ToolOutcome)
    ensures var run1 := Handle(g, initial, base, client, tools1);
      var run2 := Handle(g, initial, base, client, tools2);
      && |run1.requests| == |run2.requests|
      && run1.toolCalls == run2.toolCalls
      && run1.reply == run2.reply
  {
    var run1 := Handle(g, initial, base, client, tools1);
    var run2 := Handle(g, initial, base, client, tools2);
    HandleCallBound(g, initial, base, client, tools1);
    HandleCallBound(g, initial, base, client, tools2);
    HandleToolCalls(g, initial, base, client, tools1);
    HandleToolCalls(g, initial, base, client, tools2);
    HandleReply(g, initial, base, client, tools1);
    HandleReply(g, initial, base, client, tools2);
  }

  // ---------------------------------------------------------------------------
  // What answer generation promises

  /**
   * At least one and at most MaxRounds + 1 model calls; the first is the
   * initial request. When the first call raises, its exception propagates.
   * When the first response does not ask for tools, or no tool manager is
   * given, that call is the only one, no tool runs, and the answer is
   * `content[0].text` of the response.
   */
  lemma GenerateCalls(g: Generator, query: string, history: Option<string>, tools: Option<seq<ToolDef>>,
                      toolManager: Option<nat -> ToolOutcome>, client: nat -> CallOutcome)
    ensures var run := Generate(g, query, history, tools, toolManager, client);
      && 1 <= |run.requests| <= MaxRounds + 1
      && run.requests[0] == InitialRequest(g, query, history, tools)
    ensures var run := Generate(g, query, history, tools, toolManager, client);
      client(0).Failed? ==> run == Run(Error(Transport(client(0).message)), [InitialRequest(g, query, history, tools)], [])
    ensures var run := Generate(g, query, history, tools, toolManager, client);
      client(0).Returned? && (client(0).response.stopReason != ToolUseStop || toolManager.None?) ==>
        && |run.requests| == 1
        && run.toolCalls == []
        && run.reply == DirectText(client(0).response)
  {
    if client(0).Returned? && client(0).response.stopReason == ToolUseStop && toolManager.Some? {
      HandleCallBound(g, client(0).response, InitialRequest(g, query, history, tools), Shift(client), toolManager.value);
    }
  }

  /**
   * Every request carries the model name, temperature 0, at most 800 output
   * tokens and the same system text. The first offers tools iff the tool list
   * is non-empty; a later one iff the first did and it is not the request of
   * the last round, so call number MaxRounds + 1 never offers tools.
   */
  lemma GenerateRequests(g: Generator, query: string, history: Option<string>, tools: Option<seq<ToolDef>>,
                         toolManager: Option<nat -> ToolOutcome>, client: nat -> CallOutcome)
    ensures var run := Generate(g, query, history, tools, toolManager, client);
      forall j :: 0 <= j < |run.requests| ==>
        && run.requests[j].params == Params(g.model, 0, 800)
        && run.requests[j].system == SystemText(history)
        && (run.requests[j].tools.Some? <==> j < MaxRounds && tools.Some? && tools.value != [])
        && (run.requests[j].tools.Some? ==> run.requests[j].tools == tools && run.requests[j].toolChoice == Some(Auto))
        && (run.requests[j].tools.None? ==> run.requests[j].toolChoice == None)
  {
    var request := InitialRequest(g, query, history, tools);
    if client(0).Returned? && client(0).response.stopReason == ToolUseStop && toolManager.Some? {
      HandleRequests(g, client(0).response, request, Shift(client), toolManager.value);
    }
  }

  /**
   * The answer after the tool loop: the round error string when the model
   * call of round k raises, else `content[0].text` of the last response,
   * which is the reply to call number k+1 when k rounds ran.
   */
  lemma GenerateToolLoopReply(g: Generator, query: string, history: Option<string>, tools: Option<seq<ToolDef>>,
                              toolManager: Option<nat -> ToolOutcome>, client: nat -> CallOutcome)
    requires client(0).Returned? && client(0).response.stopReason == ToolUseStop && toolManager.Some?
    ensures var run := Generate(g, query, history, tools, toolManager, client);
      var k := |run.requests| - 1;
      && 1 <= k <= MaxRounds
      && (client(k).Failed? ==> run.reply == Answer(RoundError(k, client(k).message)))
      && (client(k).Returned? ==> run.reply == FinalText(client(k).response))
  {
    var request := InitialRequest(g, query, history, tools);
    var initial := client(0).response;
    HandleCallBound(g, initial, request, Shift(client), toolManager.value);
    HandleReply(g, initial, request, Shift(client), toolManager.value);
    assert RoundStarts(initial, Shift(client), 0);
  }
}
