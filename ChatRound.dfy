/** POST /api/chat: the two-round tool-calling exchange with the completion
    provider.

    Round 1 sends the system prompt and the user's message together with the
    tool catalogue. If the assistant answers without tool calls, its content
    is the reply. Otherwise every tool call is run in the order it was
    emitted (arguments decoded, tool invoked, one `tool` message built), the
    videos of the last `youtube_search` call are kept, and round 2 sends the
    whole conversation back; its content is the reply. Any throw on the way
    gives the single generic 500 response.

    The collaborators are parameters: the completion endpoint (`complete`,
    giving `choices[0].message` or throwing), the tool dispatcher
    (`callTool`), `JSON.parse` (`parse`, which may throw) and
    `JSON.stringify` (`stringify`). */
module ChatRound {
  import opened JsValue
  import opened Responses

  const SearchToolName := "youtube_search"
  const DefaultModel := "gpt-4o-mini"
  const SystemPrompt := "\nYou are an AI YouTube agent connected to an MCP server.\n- Provide clean answers.\n- Use markdown.\n- Trigger YouTube search tool when helpful.\n"
  const MessageRequired := "Message is required"
  const ChatProcessingError := "Chat processing error"

  /** One entry of `tool_calls`: its `id`, `function.name` and
      `function.arguments` (None when absent or null). */
  datatype ToolCall = ToolCall(id: string, name: string, arguments: Option<string>)

  /** `choices[0].message` of a completion; an absent `tool_calls` is the
      empty sequence. */
  datatype AssistantMessage = AssistantMessage(content: Value, toolCalls: seq<ToolCall>)

  /** One entry of the `messages` array sent to the provider. */
  datatype Turn =
    | SystemTurn(prompt: string)
    | UserTurn(text: Value)
    | AssistantTurn(assistant: AssistantMessage)
    | ToolTurn(name: string, toolCallId: string, content: string)
  {
    function Role(): string {
      match this
      case SystemTurn(_) => "system"
      case UserTurn(_) => "user"
      case AssistantTurn(_) => "assistant"
      case ToolTurn(_, _, _) => "tool"
    }
  }

  /** The JSON body of a chat-completions request. */
  datatype CompletionRequest = CompletionRequest(
    model: string,
    messages: seq<Turn>,
    tools: Option<seq<Value>>,
    toolChoice: Option<string>)

  /** A call into a collaborator, in the order the handler makes them. */
  datatype Effect =
    | Completion(request: CompletionRequest)
    | ToolInvocation(name: string, args: Value)

  datatype Collaborators = Collaborators(
    configuredModel: Option<string>,     // OPENAI_MODEL
    toolDefinitions: Result<seq<Value>>, // getToolDefinitionsForOpenAI(), which may throw
    complete: CompletionRequest -> Result<AssistantMessage>,
    callTool: (string, Value) -> Result<Value>,
    parse: string -> Result<Value>,
    stringify: Value -> string)

  /** The handler's response together with every collaborator call it made. */
  datatype Exchange = Exchange(response: Response, effects: seq<Effect>)

  /** `process.env.OPENAI_MODEL || "gpt-4o-mini"` */
  function ModelName(configured: Option<string>): (m: string)
    ensures configured.Some? && configured.value != "" ==> m == configured.value
    ensures configured == None || configured == Some("") ==> m == DefaultModel
  {
    if configured.Some? && configured.value != "" then configured.value else DefaultModel
  }

  function FirstRequest(env: Collaborators, message: Value): CompletionRequest
    requires env.toolDefinitions.Ok?
  {
    CompletionRequest(ModelName(env.configuredModel),
                      [SystemTurn(SystemPrompt), UserTurn(message)],
                      Some(env.toolDefinitions.value), Some("auto"))
  }

  function SecondRequest(env: Collaborators, message: Value, first: AssistantMessage, toolMessages: seq<Turn>): CompletionRequest {
    CompletionRequest(ModelName(env.configuredModel),
                      [SystemTurn(SystemPrompt), UserTurn(message), AssistantTurn(first)] + toolMessages,
                      None, None)
  }

  /** `toolCall.function.arguments || "{}"` */
  function ArgumentsText(arguments: Option<string>): (text: string)
    ensures arguments == None || arguments == Some("") ==> text == "{}"
    ensures arguments.Some? && arguments.value != "" ==> text == arguments.value
  {
    if arguments.Some? && arguments.value != "" then arguments.value else "{}"
  }

  function ToolArguments(env: Collaborators, call: ToolCall): Result<Value> {
    env.parse(ArgumentsText(call.arguments))
  }

  /** Decode the arguments, then call the tool; either step may throw. */
  function Invoke(env: Collaborators, call: ToolCall): Result<Value> {
    match ToolArguments(env, call)
    case Fail(e) => Fail(e)
    case Ok(args) => env.callTool(call.name, args)
  }

  function ToolMessage(env: Collaborators, call: ToolCall, result: Value): Turn {
    ToolTurn(call.name, call.id, env.stringify(result))
  }

  /** The state of the tool loop: the tool messages pushed, the aggregated
      videos, the calls made, and whether the loop was aborted by a throw. */
  datatype ToolPhase = ToolPhase(messages: seq<Turn>, videos: Value, effects: seq<Effect>, failed: bool)

  /** The tool loop after the given calls, defined on the last one. */
  function RunTools(env: Collaborators, calls: seq<ToolCall>): ToolPhase
    decreases |calls|
  {
    if calls == [] then ToolPhase([], Arr([]), [], false)
    else
      var p := RunTools(env, calls[..|calls| - 1]);
      var call := calls[|calls| - 1];
      if p.failed then p
      else
        match ToolArguments(env, call)
        case Fail(_) => p.(failed := true)
        case Ok(args) =>
          var effects := p.effects + [ToolInvocation(call.name, args)];
          match env.callTool(call.name, args)
          case Fail(_) => p.(effects := effects, failed := true)
          case Ok(result) =>
            ToolPhase(p.messages + [ToolMessage(env, call, result)],
                      if call.name == SearchToolName then result else p.videos,
                      effects, false)
  }

  const ChatFailure := Response(SERVER_ERROR, Error(ChatProcessingError))

  /** The whole handler, as a function of the request body and the collaborators. */
  function Chat(env: Collaborators, body: Value): Exchange {
    match Member(body, "message")
    case Fail(_) => Exchange(ChatFailure, [])
    case Ok(message) =>
      if !Truthy(message) then Exchange(Response(BAD_REQUEST, Error(MessageRequired)), [])
      else if env.toolDefinitions.Fail? then Exchange(ChatFailure, [])
      else
        var first := FirstRequest(env, message);
        match env.complete(first)
        case Fail(_) => Exchange(ChatFailure, [Completion(first)])
        case Ok(firstMsg) =>
          if |firstMsg.toolCalls| == 0 then
            Exchange(Response(OK, ChatReply(firstMsg.content, Arr([]))), [Completion(first)])
          else
            var p := RunTools(env, firstMsg.toolCalls);
            if p.failed then Exchange(ChatFailure, [Completion(first)] + p.effects)
            else
              var second := SecondRequest(env, message, firstMsg, p.messages);
              var effects := [Completion(first)] + p.effects + [Completion(second)];
              match env.complete(second)
              case Fail(_) => Exchange(ChatFailure, effects)
              case Ok(secondMsg) => Exchange(Response(OK, ChatReply(secondMsg.content, p.videos)), effects)
  }

  /** The `for (const toolCall of firstMsg.tool_calls)` loop: reassigns
      `aggregatedVideos`, pushes onto `toolMessages`, and stops at the first
      throw. */
  method ToolLoop(env: Collaborators, calls: seq<ToolCall>) returns (phase: ToolPhase)
    ensures phase == RunTools(env, calls)
  {
    var aggregatedVideos := Arr([]);
    var toolMessages: seq<Turn> := [];
    var effects: seq<Effect> := [];
    var i := 0;
    while i < |calls|
      invariant 0 <= i <= |calls|
      invariant RunTools(env, calls[..i]) == ToolPhase(toolMessages, aggregatedVideos, effects, false)
    {
      var toolCall := calls[i];
      assert calls[..i + 1][..i] == calls[..i];
      var args := env.parse(ArgumentsText(toolCall.arguments));
      if args.Fail? {
        RunToolsSticky(env, calls, i + 1);
        return ToolPhase(toolMessages, aggregatedVideos, effects, true);
      }
      effects := effects + [ToolInvocation(toolCall.name, args.value)];
      var result := env.callTool(toolCall.name, args.value);
      if result.Fail? {
        RunToolsSticky(env, calls, i + 1);
        return ToolPhase(toolMessages, aggregatedVideos, effects, true);
      }
      if toolCall.name == SearchToolName {
        aggregatedVideos := result.value;
      }
      toolMessages := toolMessages + [ToolTurn(toolCall.name, toolCall.id, env.stringify(result.value))];
      i := i + 1;
    }
    assert calls[..i] == calls;
    return ToolPhase(toolMessages, aggregatedVideos, effects, false);
  }

  /** The handler as written, step by step. */
  method HandleChat(env: Collaborators, body: Value) returns (ex: Exchange)
    ensures ex == Chat(env, body)
  {
    var userMessage := Member(body, "message");
    if userMessage.Fail? {
      return Exchange(ChatFailure, []);
    }
    var message := userMessage.value;
    if !Truthy(message) {
      return Exchange(Response(BAD_REQUEST, Error(MessageRequired)), []);
    }
    var model := ModelName(env.configuredModel);
    var messages := [SystemTurn(SystemPrompt), UserTurn(message)];
    var tools := env.toolDefinitions;
    if tools.Fail? {
      return Exchange(ChatFailure, []);
    }
    var firstRequest := CompletionRequest(model, messages, Some(tools.value), Some("auto"));
    var effects := [Completion(firstRequest)];
    var first := env.complete(firstRequest);
    if first.Fail? {
      return Exchange(ChatFailure, effects);
    }
    var firstMsg := first.value;
    if |firstMsg.toolCalls| > 0 {
      var phase := ToolLoop(env, firstMsg.toolCalls);
      effects := effects + phase.effects;
      if phase.failed {
        return Exchange(ChatFailure, effects);
      }
      var secondRequest := CompletionRequest(model, messages + [AssistantTurn(firstMsg)] + phase.messages, None, None);
      assert secondRequest == SecondRequest(env, message, firstMsg, phase.messages);
      effects := effects + [Completion(secondRequest)];
      var second := env.complete(secondRequest);
      if second.Fail? {
        return Exchange(ChatFailure, effects);
      }
      return Exchange(Response(OK, ChatReply(second.value.content, phase.videos)), effects);
    }
    return Exchange(Response(OK, ChatReply(firstMsg.content, Arr([]))), effects);
  }

  /** Once a call throws, the loop is over: the later calls add nothing. */
  lemma {:induction false} RunToolsSticky(env: Collaborators, calls: seq<ToolCall>, n: nat)
    requires n <= |calls|
    requires RunTools(env, calls[..n]).failed
    ensures RunTools(env, calls) == RunTools(env, calls[..n])
    decreases |calls|
  {
    if n < |calls| {
      var prefix := calls[..|calls| - 1];
      assert prefix[..n] == calls[..n];
      RunToolsSticky(env, prefix, n);
    } else {
      assert calls[..n] == calls;
    }
  }

  /** The loop completes exactly when every call decodes and its tool
      returns; then there is one tool message per call, in order, carrying
      the call's name and id and the encoded result, and the tools were
      invoked once each, in emission order, with the decoded arguments. */
  lemma {:induction false} RunToolsCompletes(env: Collaborators, calls: seq<ToolCall>)
    ensures !RunTools(env, calls).failed <==> forall i | 0 <= i < |calls| :: Invoke(env, calls[i]).Ok?
    ensures !RunTools(env, calls).failed ==>
              var p := RunTools(env, calls);
              && |p.messages| == |calls|
              && |p.effects| == |calls|
              && forall i | 0 <= i < |calls| ::
                   && ToolArguments(env, calls[i]).Ok?
                   && p.messages[i] == ToolMessage(env, calls[i], Invoke(env, calls[i]).value)
                   && p.effects[i] == ToolInvocation(calls[i].name, ToolArguments(env, calls[i]).value)
    decreases |calls|
  {
    if calls != [] {
      var prefix := calls[..|calls| - 1];
      RunToolsCompletes(env, prefix);
      assert forall i | 0 <= i < |prefix| :: prefix[i] == calls[i];
      if !RunTools(env, prefix).failed && Invoke(env, calls[|calls| - 1]).Fail? {
        assert !RunTools(env, calls).failed ==> false;
      }
    }
  }

  /** A throw at call `k` (the first one) aborts the loop: the calls before
      it were all invoked, call `k` was invoked only if its arguments decoded,
      and no later call was invoked. */
  lemma RunToolsAborts(env: Collaborators, calls: seq<ToolCall>, k: nat)
    requires k < |calls|
    requires forall i | 0 <= i < k :: Invoke(env, calls[i]).Ok?
    requires Invoke(env, calls[k]).Fail?
    ensures var p := RunTools(env, calls);
            && p.failed
            && |p.effects| == (if ToolArguments(env, calls[k]).Ok? then k + 1 else k)
            && (forall i | 0 <= i < k ::
                  ToolArguments(env, calls[i]).Ok? &&
                  p.effects[i] == ToolInvocation(calls[i].name, ToolArguments(env, calls[i]).value))
            && (ToolArguments(env, calls[k]).Ok? ==>
                  p.effects[k] == ToolInvocation(calls[k].name, ToolArguments(env, calls[k]).value))
  {
    var prefix := calls[..k];
    RunToolsCompletes(env, prefix);
    assert calls[..k + 1][..k] == prefix;
    RunToolsSticky(env, calls, k + 1);
  }

  /** Last `youtube_search` wins: the aggregated videos are the result of the
      last call to the search tool, other tools never change them, and they
      stay `[]` when the search tool was not called. */
  lemma LastSearchWins(env: Collaborators, calls: seq<ToolCall>)
    requires !RunTools(env, calls).failed
    ensures (forall j | 0 <= j < |calls| :: calls[j].name != SearchToolName) ==>
              RunTools(env, calls).videos == Arr([])
    ensures forall j | 0 <= j < |calls| && calls[j].name == SearchToolName &&
                       (forall k | j < k < |calls| :: calls[k].name != SearchToolName) ::
              Invoke(env, calls[j]).Ok? && RunTools(env, calls).videos == Invoke(env, calls[j]).value
  {
    if forall j | 0 <= j < |calls| :: calls[j].name != SearchToolName {
      NoSearchKeepsVideos(env, calls);
    }
    forall j | 0 <= j < |calls| && calls[j].name == SearchToolName &&
               (forall k | j < k < |calls| :: calls[k].name != SearchToolName)
      ensures Invoke(env, calls[j]).Ok? && RunTools(env, calls).videos == Invoke(env, calls[j]).value
    {
      LastSearchVideos(env, calls, j);
    }
  }

  /** Without a search call the aggregated videos stay `[]`. */
  lemma {:induction false} NoSearchKeepsVideos(env: Collaborators, calls: seq<ToolCall>)
    requires !RunTools(env, calls).failed
    requires forall j | 0 <= j < |calls| :: calls[j].name != SearchToolName
    ensures RunTools(env, calls).videos == Arr([])
    decreases |calls|
  {
    if calls != [] {
      var prefix := calls[..|calls| - 1];
      RunToolsLastStep(env, calls);
      assert forall i | 0 <= i < |prefix| :: prefix[i] == calls[i];
      NoSearchKeepsVideos(env, prefix);
    }
  }

  /** When call j is the last search call, the aggregated videos are its
      result. */
  lemma {:induction false} LastSearchVideos(env: Collaborators, calls: seq<ToolCall>, j: nat)
    requires !RunTools(env, calls).failed
    requires j < |calls| && calls[j].name == SearchToolName
    requires forall k | j < k < |calls| :: calls[k].name != SearchToolName
    ensures Invoke(env, calls[j]).Ok? && RunTools(env, calls).videos == Invoke(env, calls[j]).value
    decreases |calls|
  {
    var n := |calls|;
    RunToolsLastStep(env, calls);
    if j < n - 1 {
      var prefix := calls[..n - 1];
      assert prefix[j] == calls[j];
      assert forall k | j < k < n - 1 :: prefix[k] == calls[k];
      LastSearchVideos(env, prefix, j);
    }
  }

  /** One step of the loop that did not abort: the earlier calls did not
      abort either, the last call returned, and only a search call replaces
      the videos. */
  lemma RunToolsLastStep(env: Collaborators, calls: seq<ToolCall>)
    requires calls != [] && !RunTools(env, calls).failed
    ensures !RunTools(env, calls[..|calls| - 1]).failed
    ensures Invoke(env, calls[|calls| - 1]).Ok?
    ensures RunTools(env, calls).videos ==
            if calls[|calls| - 1].name == SearchToolName then Invoke(env, calls[|calls| - 1]).value
            else RunTools(env, calls[..|calls| - 1]).videos
  {
  }

  /** A falsy or missing `message` is rejected with 400 before any
      collaborator is called. */
  lemma ChatRejectsMissingMessage(env: Collaborators, body: Value)
    requires !Nullish(body) && !Truthy(Get(body, "message"))
    ensures Chat(env, body) == Exchange(Response(BAD_REQUEST, Error(MessageRequired)), [])
  {
  }

  /** A throw while building the tool catalogue, after the message check,
      gives the generic 500 before any completion request is made. */
  lemma ChatCatalogueFailure(env: Collaborators, body: Value)
    requires !Nullish(body) && Truthy(Get(body, "message"))
    requires env.toolDefinitions.Fail?
    ensures Chat(env, body) == Exchange(ChatFailure, [])
  {
  }

  /** The first collaborator call is round 1: exactly the system prompt and
      the user's message, with the tool catalogue and `tool_choice: "auto"`. */
  lemma ChatFirstRound(env: Collaborators, body: Value)
    requires !Nullish(body) && Truthy(Get(body, "message")) && env.toolDefinitions.Ok?
    ensures var ex := Chat(env, body);
            && |ex.effects| >= 1
            && ex.effects[0].Completion?
            && ex.effects[0].request.messages == [SystemTurn(SystemPrompt), UserTurn(Get(body, "message"))]
            && ex.effects[0].request.tools == Some(env.toolDefinitions.value)
            && ex.effects[0].request.toolChoice == Some("auto")
  {
  }

  /** A round-1 throw gives the generic 500 and nothing else is called. */
  lemma ChatFirstRoundFailure(env: Collaborators, body: Value)
    requires !Nullish(body) && Truthy(Get(body, "message")) && env.toolDefinitions.Ok?
    requires env.complete(FirstRequest(env, Get(body, "message"))).Fail?
    ensures Chat(env, body) == Exchange(ChatFailure, [Completion(FirstRequest(env, Get(body, "message")))])
  {
  }

  /** Without tool calls the round short-circuits: round 1's content is the
      reply, the video list is empty, no tool runs and no second request is
      made. */
  lemma ChatWithoutToolCalls(env: Collaborators, body: Value)
    requires !Nullish(body) && Truthy(Get(body, "message")) && env.toolDefinitions.Ok?
    requires env.complete(FirstRequest(env, Get(body, "message"))).Ok?
    requires env.complete(FirstRequest(env, Get(body, "message"))).value.toolCalls == []
    ensures Chat(env, body) ==
            Exchange(Response(OK, ChatReply(env.complete(FirstRequest(env, Get(body, "message"))).value.content, Arr([]))),
                     [Completion(FirstRequest(env, Get(body, "message")))])
  {
  }

  /** With tool calls that all succeed, the handler makes round 1, one tool
      invocation per call in emission order with the decoded arguments, and
      then round 2, which carries no tool catalogue. */
  lemma ChatToolCallEffects(env: Collaborators, body: Value, firstMsg: AssistantMessage)
    requires !Nullish(body) && Truthy(Get(body, "message")) && env.toolDefinitions.Ok?
    requires env.complete(FirstRequest(env, Get(body, "message"))) == Ok(firstMsg)
    requires |firstMsg.toolCalls| > 0
    requires forall i | 0 <= i < |firstMsg.toolCalls| :: Invoke(env, firstMsg.toolCalls[i]).Ok?
    ensures |Chat(env, body).effects| == |firstMsg.toolCalls| + 2
    ensures Chat(env, body).effects[0] == Completion(FirstRequest(env, Get(body, "message")))
    ensures forall i | 0 <= i < |firstMsg.toolCalls| ::
              && ToolArguments(env, firstMsg.toolCalls[i]).Ok?
              && Chat(env, body).effects[i + 1] ==
                 ToolInvocation(firstMsg.toolCalls[i].name, ToolArguments(env, firstMsg.toolCalls[i]).value)
    ensures Chat(env, body).effects[|firstMsg.toolCalls| + 1] ==
            Completion(SecondRequest(env, Get(body, "message"), firstMsg, RunTools(env, firstMsg.toolCalls).messages))
    ensures Chat(env, body).effects[|firstMsg.toolCalls| + 1].request.tools == None
  {
    var calls := firstMsg.toolCalls;
    RunToolsCompletes(env, calls);
    ToolRoundTrace(env, body, firstMsg);
    var effects := Chat(env, body).effects;
    var invocations := RunTools(env, calls).effects;
    assert forall i | 0 <= i < |calls| :: effects[i + 1] == invocations[i];
  }

  /** The trace of a round whose tool loop completed: round 1, the loop's
      invocations, round 2. */
  lemma ToolRoundTrace(env: Collaborators, body: Value, firstMsg: AssistantMessage)
    requires !Nullish(body) && Truthy(Get(body, "message")) && env.toolDefinitions.Ok?
    requires env.complete(FirstRequest(env, Get(body, "message"))) == Ok(firstMsg)
    requires |firstMsg.toolCalls| > 0 && !RunTools(env, firstMsg.toolCalls).failed
    ensures Chat(env, body).effects ==
            [Completion(FirstRequest(env, Get(body, "message")))] + RunTools(env, firstMsg.toolCalls).effects +
            [Completion(SecondRequest(env, Get(body, "message"), firstMsg, RunTools(env, firstMsg.toolCalls).messages))]
  {
  }

  /** Round 2's conversation is the two round-1 turns, the assistant message,
      then one `tool` message per tool call in order (3 + n turns), each
      matched to its call by name and id and carrying the encoded result. */
  lemma SecondRoundConversation(env: Collaborators, message: Value, firstMsg: AssistantMessage)
    requires forall i | 0 <= i < |firstMsg.toolCalls| :: Invoke(env, firstMsg.toolCalls[i]).Ok?
    ensures var second := SecondRequest(env, message, firstMsg, RunTools(env, firstMsg.toolCalls).messages);
            && |second.messages| == 3 + |firstMsg.toolCalls|
            && second.messages[..3] == [SystemTurn(SystemPrompt), UserTurn(message), AssistantTurn(firstMsg)]
            && forall i | 0 <= i < |firstMsg.toolCalls| ::
                 && second.messages[3 + i].Role() == "tool"
                 && second.messages[3 + i].name == firstMsg.toolCalls[i].name
                 && second.messages[3 + i].toolCallId == firstMsg.toolCalls[i].id
                 && second.messages[3 + i].content == env.stringify(Invoke(env, firstMsg.toolCalls[i]).value)
  {
    RunToolsCompletes(env, firstMsg.toolCalls);
  }

  /** With tool calls that all succeed, the reply is round 2's content and
      the videos follow the last-search-wins rule; a round-2 throw fails the
      request as a whole. */
  lemma ChatToolCallReply(env: Collaborators, body: Value, firstMsg: AssistantMessage, secondMsg: Result<AssistantMessage>)
    requires !Nullish(body) && Truthy(Get(body, "message")) && env.toolDefinitions.Ok?
    requires env.complete(FirstRequest(env, Get(body, "message"))) == Ok(firstMsg)
    requires |firstMsg.toolCalls| > 0
    requires forall i | 0 <= i < |firstMsg.toolCalls| :: Invoke(env, firstMsg.toolCalls[i]).Ok?
    requires secondMsg == env.complete(SecondRequest(env, Get(body, "message"), firstMsg, RunTools(env, firstMsg.toolCalls).messages))
    ensures secondMsg.Fail? ==> Chat(env, body).response == ChatFailure
    ensures secondMsg.Ok? ==>
              && Chat(env, body).response.status == OK
              && Chat(env, body).response.body.ChatReply?
              && Chat(env, body).response.body.reply == secondMsg.value.content
    ensures secondMsg.Ok? && (forall j | 0 <= j < |firstMsg.toolCalls| :: firstMsg.toolCalls[j].name != SearchToolName) ==>
              Chat(env, body).response.body.videos == Arr([])
    ensures secondMsg.Ok? ==>
              forall j | 0 <= j < |firstMsg.toolCalls| && firstMsg.toolCalls[j].name == SearchToolName &&
                         (forall k | j < k < |firstMsg.toolCalls| :: firstMsg.toolCalls[k].name != SearchToolName) ::
                Chat(env, body).response.body.videos == Invoke(env, firstMsg.toolCalls[j]).value
  {
    ChatToolCallEffects(env, body, firstMsg);
    RunToolsCompletes(env, firstMsg.toolCalls);
    LastSearchWins(env, firstMsg.toolCalls);
  }

  /** A throw while decoding the arguments of, or running, any tool call
      aborts the request with the generic 500: no reply, no second round, and
      no tool after the failing one is invoked. */
  lemma ChatToolFailure(env: Collaborators, body: Value, k: nat)
    requires !Nullish(body) && Truthy(Get(body, "message")) && env.toolDefinitions.Ok?
    requires env.complete(FirstRequest(env, Get(body, "message"))).Ok?
    requires var calls := env.complete(FirstRequest(env, Get(body, "message"))).value.toolCalls;
             && k < |calls|
             && (forall i | 0 <= i < k :: Invoke(env, calls[i]).Ok?)
             && Invoke(env, calls[k]).Fail?
    ensures var ex := Chat(env, body);
            && ex.response == ChatFailure
            && |ex.effects| <= k + 2
            && forall i | 1 <= i < |ex.effects| :: ex.effects[i].ToolInvocation?
    // exactly round 1 and the invocations the aborted loop made
    ensures var calls := env.complete(FirstRequest(env, Get(body, "message"))).value.toolCalls;
            Chat(env, body).effects == [Completion(FirstRequest(env, Get(body, "message")))] + RunTools(env, calls).effects
  {
    var calls := env.complete(FirstRequest(env, Get(body, "message"))).value.toolCalls;
    RunToolsAborts(env, calls, k);
  }

  /** Every response is one of three: a 200 reply, the 400 rejection, or the
      generic 500 error, never a partial reply. */
  lemma ChatResponses(env: Collaborators, body: Value)
    ensures var r := Chat(env, body).response;
            || (r.status == OK && r.body.ChatReply?)
            || r == Response(BAD_REQUEST, Error(MessageRequired))
            || r == ChatFailure
  {
  }
}
