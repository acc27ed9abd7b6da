/** Provider-agnostic messages, requests, responses and stream events (fprovider/src/model.rs, stream.rs, error.rs). */
module ProviderModel {
  import opened Wrappers
  import Text

  type byte = x: int | 0 <= x < 0x100
  type u32 = x: int | 0 <= x < 0x1_0000_0000

  /** A session id is a Rust string, given by its UTF-8 bytes. */
  type SessionId = seq<byte>

  datatype Role = System | User | Assistant | Tool

  datatype Message = Message(role: Role, content: string)

  datatype ToolCall = ToolCall(id: string, name: string, arguments: string)

  datatype ToolResult = ToolResult(toolCallId: string, output: string)

  datatype OutputItem = MessageItem(message: Message) | CallItem(call: ToolCall)

  datatype StopReason = EndTurn | MaxTokens | ToolUse | Cancelled | Other

  datatype TokenUsage = TokenUsage(inputTokens: u32, outputTokens: u32, totalTokens: u32)

  const NO_USAGE := TokenUsage(0, 0, 0)

  datatype ModelResponse = ModelResponse(model: string, output: seq<OutputItem>, stopReason: StopReason, usage: TokenUsage)

  datatype ModelRequest = ModelRequest(
    model: string,
    messages: seq<Message>,
    temperature: Option<real>,
    maxTokens: Option<u32>,
    stream: bool,
    toolResults: seq<ToolResult>)

  datatype StreamEvent =
    | TextDelta(delta: string)
    | ToolCallDelta(call: ToolCall)
    | MessageComplete(message: Message)
    | ResponseComplete(response: ModelResponse)

  datatype ProviderErrorKind =
    | Authentication | RateLimited | InvalidRequest | Timeout | Transport | Unavailable | OtherKind

  datatype ProviderError = ProviderError(kind: ProviderErrorKind, message: string, retryable: bool)

  /** `ModelRequest::validate`: `None` when the request is well formed. */
  function Validate(r: ModelRequest): (e: Option<ProviderError>)
    ensures e == None <==>
      && !Text.IsBlank(r.model) && r.messages != []
      && r.maxTokens != Some(0)
      && (r.temperature.Some? ==> 0.0 <= r.temperature.value <= 2.0)
    ensures e.Some? ==> e.value.kind == InvalidRequest && !e.value.retryable
  {
    if Text.IsBlank(r.model) then
      Some(ProviderError(InvalidRequest, "model must not be empty", false))
    else if r.messages == [] then
      Some(ProviderError(InvalidRequest, "at least one message is required", false))
    else if r.maxTokens == Some(0) then
      Some(ProviderError(InvalidRequest, "max_tokens must be greater than zero", false))
    else if r.temperature.Some? && !(0.0 <= r.temperature.value <= 2.0) then
      Some(ProviderError(InvalidRequest, "temperature must be in the inclusive range 0.0..=2.0", false))
    else
      None
  }
}
