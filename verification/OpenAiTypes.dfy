/**
 The OpenAI adapter's chunks and responses, and their conversion to the provider-agnostic model
 (fprovider/src/adapters/openai/types.rs). `OpenAiToolCall` has the fields of `ToolCall` and converts field by field,
 so one datatype stands for both.
 */
module OpenAiTypes {
  import opened Wrappers
  import opened ProviderModel
  import opened ChatTurn

  datatype AssistantMessage = AssistantMessage(content: string, toolCalls: seq<ToolCall>)

  datatype FinishReason = Stop | Length | ToolCalls | CancelledReason | OtherReason

  datatype OpenAiResponse = OpenAiResponse(model: string, message: AssistantMessage, finishReason: FinishReason, usage: TokenUsage)

  datatype Chunk =
    | TextDeltaChunk(delta: string)
    | ToolCallDeltaChunk(call: ToolCall)
    | MessageCompleteChunk(message: AssistantMessage)
    | ResponseCompleteChunk(response: OpenAiResponse)

  function ToStopReason(r: FinishReason): (s: StopReason)
    ensures (s == EndTurn <==> r == Stop) && (s == MaxTokens <==> r == Length) && (s == ToolUse <==> r == ToolCalls)
    ensures (s == Cancelled <==> r == CancelledReason) && (s == Other <==> r == OtherReason)
  {
    match r
    case Stop => EndTurn
    case Length => MaxTokens
    case ToolCalls => ToolUse
    case CancelledReason => Cancelled
    case OtherReason => Other
  }

  function CallItems(calls: seq<ToolCall>): (items: seq<OutputItem>)
    ensures |items| == |calls| && forall i :: 0 <= i < |items| ==> items[i] == CallItem(calls[i])
  {
    seq(|calls|, i requires 0 <= i < |calls| => CallItem(calls[i]))
  }

  /** `into_model_response`: an empty text produces no message item. */
  function IntoModelResponse(r: OpenAiResponse): ModelResponse {
    var message := if r.message.content != "" then [MessageItem(Message(Assistant, r.message.content))] else [];
    ModelResponse(r.model, message + CallItems(r.message.toolCalls), ToStopReason(r.finishReason), r.usage)
  }

  function IntoStreamEvent(c: Chunk): (e: StreamEvent)
    ensures c.TextDeltaChunk? ==> e.TextDelta? && e.delta == c.delta
    ensures c.ToolCallDeltaChunk? ==> e.ToolCallDelta? && e.call == c.call
    ensures c.MessageCompleteChunk? ==> e.MessageComplete? && e.message == Message(Assistant, c.message.content)
    ensures c.ResponseCompleteChunk? ==> e.ResponseComplete?
  {
    match c
    case TextDeltaChunk(d) => TextDelta(d)
    case ToolCallDeltaChunk(call) => ToolCallDelta(call)
    case MessageCompleteChunk(m) => MessageComplete(Message(Assistant, m.content))
    case ResponseCompleteChunk(r) => ResponseComplete(IntoModelResponse(r))
  }

  function IntoItems(chunks: seq<Chunk>): (items: StreamItems)
    ensures |items| == |chunks| && forall i :: 0 <= i < |items| ==> items[i] == Ok(IntoStreamEvent(chunks[i]))
  {
    seq(|chunks|, i requires 0 <= i < |chunks| => Ok(IntoStreamEvent(chunks[i])))
  }

  lemma {:induction false} CollectCallItems(calls: seq<ToolCall>)
    ensures OutputText(CallItems(calls)) == "" && OutputCalls(CallItems(calls)) == calls
  {
    if calls != [] {
      assert CallItems(calls)[1..] == CallItems(calls[1..]);
      CollectCallItems(calls[1..]);
    }
  }

  /** The conversion to the common model and back through `collect_output` loses nothing. */
  lemma CollectedResponse(r: OpenAiResponse)
    ensures OutputText(IntoModelResponse(r).output) == r.message.content
    ensures OutputCalls(IntoModelResponse(r).output) == r.message.toolCalls
    ensures IntoModelResponse(r).model == r.model && IntoModelResponse(r).usage == r.usage
    ensures IntoModelResponse(r).stopReason == ToStopReason(r.finishReason)
  {
    CollectCallItems(r.message.toolCalls);
    var output := IntoModelResponse(r).output;
    if r.message.content != "" {
      assert output[1..] == CallItems(r.message.toolCalls);
    } else {
      assert output == CallItems(r.message.toolCalls);
    }
  }
}
