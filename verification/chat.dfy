/**
  The two-round tool-call exchange with the chat-completion provider that both
  insight operations share: offer a tool, and only if the model elects to call
  it, replay the conversation with the model's turn and a tool-result turn,
  force a JSON response format and parse the answer.

  The provider is a total function from request to completion; an `Exchange`
  records every request sent, so the number of provider calls is observable.
 */
module Chat {
  import opened Js

  datatype ToolCall = ToolCall(id: string, name: string, arguments: string)

  /** The model's message: `content` and `tool_calls` may each be null or absent (`None`). */
  datatype ModelMessage = ModelMessage(content: Option<string>, toolCalls: Option<seq<ToolCall>>)

  datatype FinishReason = Stop | Length | ToolCalls | ContentFilter | FunctionCall

  datatype Choice = Choice(finishReason: FinishReason, message: ModelMessage)

  /** A completion response; `choices` may be missing altogether (`None`). */
  datatype ChatResponse = ChatResponse(choices: Option<seq<Choice>>)

  /** The fixed natural-language prompts; their wording is not modelled. */
  datatype Prompt = HealthSystemPrompt | HealthUserPrompt | ResourcesSystemPrompt | ResourcesUserPrompt

  /** A conversation turn; a user turn is a prompt template with `values` interpolated in order. */
  datatype ChatMessage =
    | SystemTurn(prompt: Prompt)
    | UserTurn(template: Prompt, values: seq<JsValue>)
    | ModelTurn(message: ModelMessage)
    | ToolTurn(content: string, toolCallId: string)

  /** A declared function tool: its parameter names and the ones it declares required. */
  datatype ToolDecl = ToolDecl(name: string, properties: seq<string>, required: seq<string>)

  /** The JSON schemas a second-round request can force on the answer. */
  datatype ResponseFormat = DisparityFormat | RecommendationsAndTrendsFormat

  datatype ChatRequest = ChatRequest(messages: seq<ChatMessage>, tools: seq<ToolDecl>, format: Option<ResponseFormat>)

  /** What an operation returned or threw, and the provider requests it made on the way. */
  datatype Exchange = Exchange(result: Completion<JsValue>, requests: seq<ChatRequest>)

  /** A provider call either answers or fails (the SDK throws an API error). */
  datatype ProviderReply = Answered(response: ChatResponse) | Failed

  type Provider = ChatRequest -> ProviderReply

  /** `JSON.parse`, a partial function: `None` is a SyntaxError. */
  type Parser = string -> Option<JsValue>

  /** `response.choices[0]?.finish_reason === "tool_calls"` (a missing `choices` throws before this is asked). */
  predicate ElectsTool(choices: seq<Choice>) {
    |choices| > 0 && choices[0].finishReason == ToolCalls
  }

  /** The `tool_call_id` of the tool-result turn: the first tool call's id, `""` when
      `tool_calls` is null or absent, and a TypeError when it is an empty array. */
  function ToolCallId(m: ModelMessage): (r: Completion<string>)
    ensures m.toolCalls.None? ==> r == Normal("")
    ensures r.Throw? <==> m.toolCalls == Some([])
    ensures r.Throw? ==> r.error == TypeError
    ensures m.toolCalls.Some? && |m.toolCalls.value| > 0 ==> r == Normal(m.toolCalls.value[0].id)
  {
    match m.toolCalls
    case None => Normal("")
    case Some(calls) => if |calls| == 0 then Throw(TypeError) else Normal(calls[0].id)
  }

  /** The conversation of the second round: the first-round messages, then the
      model's own message, then a tool turn carrying that message's content
      (`""` when null or absent) and the given tool-call id. */
  function FollowUp(messages: seq<ChatMessage>, m: ModelMessage, toolCallId: string): (r: seq<ChatMessage>)
    ensures |r| == |messages| + 2
    ensures r[..|messages|] == messages
    ensures r[|messages|] == ModelTurn(m)
    ensures r[|messages| + 1].ToolTurn? && r[|messages| + 1].toolCallId == toolCallId
    ensures m.content.Some? ==> r[|messages| + 1].content == m.content.value
    ensures m.content.None? ==> r[|messages| + 1].content == ""
  {
    messages + [ModelTurn(m), ToolTurn(m.content.GetOr(""), toolCallId)]
  }

  /** `finalResponse.choices[0].message.content ?? ""`: reading through a missing
      `choices` or a missing first choice throws. */
  function FinalContent(resp: ChatResponse): (r: Completion<string>)
    ensures r.Throw? <==> resp.choices.None? || resp.choices.value == []
    ensures r.Throw? ==> r.error == TypeError
    ensures r.Normal? ==> r.value == resp.choices.value[0].message.content.GetOr("")
  {
    match resp.choices
    case None => Throw(TypeError)
    case Some(cs) => if |cs| == 0 then Throw(TypeError) else Normal(cs[0].message.content.GetOr(""))
  }

  /** The first-round request: the prompt with the tool offered and no forced format. */
  function FirstRequest(messages: seq<ChatMessage>, tools: seq<ToolDecl>): ChatRequest {
    ChatRequest(messages, tools, None)
  }

  /** The two-round protocol. The first call offers `tools`; unless the model
      elects a tool the answer is `null`. Otherwise the second call replays the
      conversation (with no tools) under `format`, and the answer is the parse
      of its content. Every provider failure, TypeError and parse failure
      propagates as a throw. */
  function ToolRound(messages: seq<ChatMessage>, tools: seq<ToolDecl>, format: ResponseFormat,
                     provider: Provider, parse: Parser): (o: Exchange)
    // the first call is always made, with the prompt unchanged
    ensures 1 <= |o.requests| <= 2 && o.requests[0] == FirstRequest(messages, tools)
    // a failed first call, or a response without `choices`, throws after that one call
    ensures provider(FirstRequest(messages, tools)).Failed? ==>
      o == Exchange(Throw(ProviderError), [FirstRequest(messages, tools)])
    ensures provider(FirstRequest(messages, tools)) == Answered(ChatResponse(None)) ==>
      o == Exchange(Throw(TypeError), [FirstRequest(messages, tools)])
    // no tool elected (an empty `choices` list included): null after exactly one call
    ensures provider(FirstRequest(messages, tools)).Answered? &&
            provider(FirstRequest(messages, tools)).response.choices.Some? &&
            !ElectsTool(provider(FirstRequest(messages, tools)).response.choices.value) ==>
      o == Exchange(Normal(Null), [FirstRequest(messages, tools)])
    // an elected tool whose `tool_calls` is an empty array throws a TypeError before a second call
    ensures provider(FirstRequest(messages, tools)).Answered? &&
            provider(FirstRequest(messages, tools)).response.choices.Some? &&
            ElectsTool(provider(FirstRequest(messages, tools)).response.choices.value) &&
            ToolCallId(provider(FirstRequest(messages, tools)).response.choices.value[0].message).Throw? ==>
      o == Exchange(Throw(TypeError), [FirstRequest(messages, tools)])
    // a normal answer after one call is always null
    ensures |o.requests| == 1 && o.result.Normal? ==> o.result.value == Null
    // a second call happens exactly when the tool was elected and a tool-call id could be read
    ensures |o.requests| == 2 <==>
      provider(FirstRequest(messages, tools)).Answered? &&
      provider(FirstRequest(messages, tools)).response.choices.Some? &&
      ElectsTool(provider(FirstRequest(messages, tools)).response.choices.value) &&
      ToolCallId(provider(FirstRequest(messages, tools)).response.choices.value[0].message).Normal?
    // the second call replays the prompt as a prefix, then the model's message and the tool turn
    ensures |o.requests| == 2 ==>
      var m := provider(FirstRequest(messages, tools)).response.choices.value[0].message;
      o.requests[1] == ChatRequest(FollowUp(messages, m, ToolCallId(m).value), [], Some(format))
    // on the tool path a normal answer is exactly the parse of the final content,
    // and a parse failure is thrown rather than turned into null
    ensures |o.requests| == 2 && o.result.Normal? ==>
      provider(o.requests[1]).Answered? && FinalContent(provider(o.requests[1]).response).Normal? &&
      parse(FinalContent(provider(o.requests[1]).response).value) == Some(o.result.value)
    ensures |o.requests| == 2 && provider(o.requests[1]).Answered? &&
            FinalContent(provider(o.requests[1]).response).Normal? &&
            parse(FinalContent(provider(o.requests[1]).response).value).None? ==>
      o.result == Throw(ParseError)
    // and a final content that parses is returned as that value
    ensures |o.requests| == 2 && provider(o.requests[1]).Answered? &&
            FinalContent(provider(o.requests[1]).response).Normal? ==>
      o.result == (match parse(FinalContent(provider(o.requests[1]).response).value)
                   case Some(v) => Normal(v)
                   case None => Throw(ParseError))
    // a second reply without a first choice throws a TypeError
    ensures |o.requests| == 2 && provider(o.requests[1]).Answered? &&
            FinalContent(provider(o.requests[1]).response).Throw? ==>
      o.result == Throw(TypeError)
    // a null or absent final content is parsed as `""`
    ensures |o.requests| == 2 && provider(o.requests[1]).Answered? &&
            FinalContent(provider(o.requests[1]).response).Normal? &&
            provider(o.requests[1]).response.choices.value[0].message.content.None? ==>
      o.result == (if parse("").Some? then Normal(parse("").value) else Throw(ParseError))
    // a provider error is thrown exactly when a call made failed
    ensures o.result == Throw(ProviderError) <==> provider(o.requests[|o.requests| - 1]).Failed?
    // it never reports anything but a provider error, a TypeError or a parse error
    ensures o.result.Throw? ==>
      o.result.error == ProviderError || o.result.error == TypeError || o.result.error == ParseError
  {
    var first := FirstRequest(messages, tools);
    match provider(first)
    case Failed => Exchange(Throw(ProviderError), [first])
    case Answered(response) =>
      match response.choices
      case None => Exchange(Throw(TypeError), [first])
      case Some(choices) =>
        if !ElectsTool(choices) then Exchange(Normal(Null), [first])
        else
          var m := choices[0].message;
          match ToolCallId(m)
          case Throw(e) => Exchange(Throw(e), [first])
          case Normal(id) =>
            var second := ChatRequest(FollowUp(messages, m, id), [], Some(format));
            var answer :=
              match provider(second)
              case Failed => Throw(ProviderError)
              case Answered(final) =>
                match FinalContent(final)
                case Throw(e) => Throw(e)
                case Normal(content) =>
                  match parse(content)
                  case None => Throw(ParseError)
                  case Some(v) => Normal(v);
            Exchange(answer, [first, second])
  }
}
