/** The WebSocket transport's event accumulator and its two receive loops (fprovider/src/adapters/openai/responses_ws.rs). */
module ResponsesWs {
  import opened Wrappers
  import opened ProviderModel
  import opened ChatTurn
  import opened OpenAiTypes
  import opened Json
  import opened TurnEquivalence
  import Ordered
  import Text

  // ---- parsing of single events ----

  function AsU32(n: nat): u32 { n % 0x1_0000_0000 }

  function MapWsError(event: Json): (e: ProviderError)
    ensures e.retryable <==> e.kind in {RateLimited, Timeout, Transport, Unavailable}
  {
    var status := event.Number("status") % 0x1_0000;
    var error := event.Get("error").GetOr(Null);
    var code := error.Text("code").GetOr("");
    var message := error.Text("message").GetOr("OpenAI websocket request failed");
    if code == "previous_response_not_found" || code == "websocket_connection_limit_reached" then ProviderError(InvalidRequest, message, false)
    else if status == 401 || status == 403 then ProviderError(Authentication, message, false)
    else if status == 408 || status == 504 then ProviderError(Timeout, message, true)
    else if status == 429 then ProviderError(RateLimited, message, true)
    else if status == 400 || status == 422 then ProviderError(InvalidRequest, message, false)
    else if status == 502 || status == 503 then ProviderError(Unavailable, message, true)
    else ProviderError(Transport, message, true)
  }

  function PartText(part: Json): string {
    if part.Text("type") == Some("output_text") then part.Text("text").GetOr("") else ""
  }

  function PartsText(parts: seq<Json>): string {
    if parts == [] then "" else PartText(parts[0]) + PartsText(parts[1..])
  }

  function MessageText(item: Json): string {
    PartsText(item.Elements("content"))
  }

  /** `parse_message_text`. */
  method ParseMessageText(item: Json) returns (text: string)
    ensures text == MessageText(item)
  {
    text := "";
    var parts := item.Elements("content");
    for i := 0 to |parts|
      invariant PartsText(parts) == text + PartsText(parts[i..])
    {
      ghost var before, rest := text, PartsText(parts[i + 1..]);
      assert parts[i..][1..] == parts[i + 1..];
      assert before + (PartText(parts[i]) + rest) == (before + PartText(parts[i])) + rest;
      if parts[i].Text("type") == Some("output_text") && parts[i].Text("text").Some? {
        text := text + parts[i].Text("text").value;
      }
      assert text == before + PartText(parts[i]);
    }
  }

  function ItemCallId(item: Json): string {
    item.Text("call_id").Or(item.Text("id")).GetOr("tool_call_0")
  }

  function ParseFinishReason(response: Json): FinishReason {
    match response.Text("stop_reason")
    case Some(reason) =>
      var lower := Text.AsciiLower(reason);
      if lower == "stop" then Stop
      else if lower == "length" || lower == "max_output_tokens" then Length
      else if lower == "tool_calls" || lower == "function_call" then ToolCalls
      else if lower == "cancelled" then CancelledReason
      else OtherReason
    case None =>
      var status := response.Text("status").GetOr("");
      if status == "completed" then Stop
      else if status == "incomplete" then Length
      else if status == "cancelled" then CancelledReason
      else OtherReason
  }

  function ParseUsage(response: Json): TokenUsage {
    var usage := response.Get("usage").GetOr(Null);
    TokenUsage(AsU32(usage.Number("input_tokens")), AsU32(usage.Number("output_tokens")), AsU32(usage.Number("total_tokens")))
  }

  // ---- what an event means to the accumulator ----

  datatype Accumulated = Accumulated(text: string, calls: map<string, ToolCall>)

  datatype Change =
    | Fails(error: ProviderError)
    | AddsText(delta: string)
    | ExtendsCall(id: string, name: string, arguments: string)
    | SetsCall(id: string, newName: Option<string>, newArguments: Option<string>)
    | SuggestsText(text: string)
    | Finishes(response: Json)
    | Ignored

  predicate IsTerminal(eventType: string) {
    eventType in {"response.completed", "response.failed", "response.incomplete", "response.cancelled"}
  }

  function Classify(event: Json): Change {
    var eventType := event.Text("type").GetOr("");
    if eventType == "error" then Fails(MapWsError(event))
    else if eventType == "response.output_text.delta" then AddsText(event.Text("delta").GetOr(""))
    else if eventType == "response.function_call_arguments.delta" then
      ExtendsCall(event.Text("call_id").Or(event.NestedText("item", "call_id")).GetOr("tool_call_0"),
                  event.Text("name").Or(event.NestedText("item", "name")).GetOr(""),
                  event.Text("delta").GetOr(""))
    else if eventType == "response.output_item.added" || eventType == "response.output_item.done" then
      match event.Get("item")
      case None => Ignored
      case Some(item) =>
        if item.Text("type") == Some("function_call") then SetsCall(ItemCallId(item), item.Text("name"), item.Text("arguments"))
        else if item.Text("type") == Some("message") then SuggestsText(MessageText(item))
        else Ignored
    else if IsTerminal(eventType) then Finishes(event.Get("response").GetOr(Null))
    else Ignored
  }

  function CallOrNew(calls: map<string, ToolCall>, id: string): ToolCall {
    if id in calls then calls[id] else ToolCall(id, "", "")
  }

  function Extended(c: ToolCall, name: string, arguments: string): ToolCall {
    ToolCall(c.id, if name != "" then name else c.name, c.arguments + arguments)
  }

  function Overwritten(c: ToolCall, name: Option<string>, arguments: Option<string>): ToolCall {
    ToolCall(c.id, name.GetOr(c.name), arguments.GetOr(c.arguments))
  }

  function Changed(a: Accumulated, c: Change): Accumulated {
    match c
    case AddsText(d) => a.(text := a.text + d)
    case ExtendsCall(id, name, arguments) => a.(calls := a.calls[id := Extended(CallOrNew(a.calls, id), name, arguments)])
    case SetsCall(id, name, arguments) => a.(calls := a.calls[id := Overwritten(CallOrNew(a.calls, id), name, arguments)])
    case SuggestsText(t) => if a.text == "" then a.(text := t) else a
    case _ => a
  }

  /** The text of the last non-empty assistant message among the output items, else the accumulated text. */
  function FinalText(text: string, items: seq<Json>): string
    decreases |items|
  {
    if items == [] then text
    else
      var item := items[0];
      var parsed := if item.Text("type") == Some("message") && item.Text("role") == Some("assistant") then MessageText(item) else "";
      FinalText(if parsed != "" then parsed else text, items[1..])
  }

  function FinalCalls(calls: map<string, ToolCall>, items: seq<Json>): map<string, ToolCall>
    decreases |items|
  {
    if items == [] then calls
    else
      var item := items[0];
      FinalCalls(
        if item.Text("type") == Some("function_call") then
          calls[ItemCallId(item) := ToolCall(ItemCallId(item), item.Text("name").GetOr(""), item.Text("arguments").GetOr(""))]
        else calls,
        items[1..])
  }

  function FinalResponse(a: Accumulated, fallbackModel: string, response: Json): OpenAiResponse {
    var items := response.Elements("output");
    OpenAiResponse(
      response.Text("model").GetOr(fallbackModel),
      AssistantMessage(FinalText(a.text, items), Ordered.ByName(FinalCalls(a.calls, items))),
      ParseFinishReason(response),
      ParseUsage(response))
  }

  function Emission(a: Accumulated, fallbackModel: string, c: Change): Result<seq<Chunk>, ProviderError> {
    match c
    case Fails(e) => Err(e)
    case AddsText(d) => Ok(if d == "" then [] else [TextDeltaChunk(d)])
    case ExtendsCall(id, _, _) => Ok([ToolCallDeltaChunk(Changed(a, c).calls[id])])
    case SetsCall(id, _, _) => Ok([ToolCallDeltaChunk(Changed(a, c).calls[id])])
    case Finishes(response) =>
      var final := FinalResponse(a, fallbackModel, response);
      Ok([MessageCompleteChunk(final.message), ResponseCompleteChunk(final)])
    case _ => Ok([])
  }

  /** `ResponsesEventAccumulator`. */
  class ResponsesEventAccumulator {
    const fallbackModel: string
    var text: string
    var toolCalls: map<string, ToolCall>

    constructor (fallbackModel: string)
      ensures this.fallbackModel == fallbackModel && State() == Accumulated("", map[])
    {
      this.fallbackModel, this.text, this.toolCalls := fallbackModel, "", map[];
    }

    function State(): Accumulated
      reads this
    {
      Accumulated(text, toolCalls)
    }

    /** `handle_event`. */
    method HandleEvent(event: Json) returns (r: Result<seq<Chunk>, ProviderError>)
      modifies this
      ensures State() == Changed(old(State()), Classify(event))
      ensures r == Emission(old(State()), fallbackModel, Classify(event))
    {
      hide MapWsError, MessageText, FinalResponse;
      var eventType := event.Text("type").GetOr("");
      if eventType == "error" {
        return Err(MapWsError(event));
      } else if eventType == "response.output_text.delta" {
        var delta := event.Text("delta").GetOr("");
        if delta == "" {
          return Ok([]);
        }
        text := text + delta;
        return Ok([TextDeltaChunk(delta)]);
      } else if eventType == "response.function_call_arguments.delta" {
        var callId := event.Text("call_id").Or(event.NestedText("item", "call_id")).GetOr("tool_call_0");
        var delta := event.Text("delta").GetOr("");
        var name := event.Text("name").Or(event.NestedText("item", "name")).GetOr("");
        var entry := if callId in toolCalls then toolCalls[callId] else ToolCall(callId, "", "");
        if name != "" {
          entry := entry.(name := name);
        }
        assert entry.arguments + "" == entry.arguments;
        if delta != "" {
          entry := entry.(arguments := entry.arguments + delta);
        }
        toolCalls := toolCalls[callId := entry];
        return Ok([ToolCallDeltaChunk(entry)]);
      } else if eventType == "response.output_item.added" || eventType == "response.output_item.done" {
        var item := event.Get("item");
        if item == None {
          return Ok([]);
        }
        if item.value.Text("type") == Some("function_call") {
          var callId := item.value.Text("call_id").Or(item.value.Text("id")).GetOr("tool_call_0");
          var entry := if callId in toolCalls then toolCalls[callId] else ToolCall(callId, "", "");
          var name, arguments := item.value.Text("name"), item.value.Text("arguments");
          if name.Some? {
            entry := entry.(name := name.value);
          }
          if arguments.Some? {
            entry := entry.(arguments := arguments.value);
          }
          toolCalls := toolCalls[callId := entry];
          return Ok([ToolCallDeltaChunk(entry)]);
        }
        if item.value.Text("type") == Some("message") {
          var messageText := ParseMessageText(item.value);
          if text == "" && messageText != "" {
            text := messageText;
          }
        }
        return Ok([]);
      } else if eventType == "response.completed" || eventType == "response.failed" || eventType == "response.incomplete" || eventType == "response.cancelled" {
        var response := ParseCompletedResponse(event.Get("response").GetOr(Null));
        return Ok([MessageCompleteChunk(response.message), ResponseCompleteChunk(response)]);
      } else {
        return Ok([]);
      }
    }

    /** `parse_completed_response`. */
    method ParseCompletedResponse(response: Json) returns (r: OpenAiResponse)
      ensures r == FinalResponse(State(), fallbackModel, response)
    {
      var content, calls := text, toolCalls;
      var output := response.Elements("output");
      for i := 0 to |output|
        invariant FinalText(text, output) == FinalText(content, output[i..])
        invariant FinalCalls(toolCalls, output) == FinalCalls(calls, output[i..])
      {
        assert output[i..][1..] == output[i + 1..];
        var item := output[i];
        if item.Text("type") == Some("message") {
          if item.Text("role") == Some("assistant") {
            var parsed := ParseMessageText(item);
            if parsed != "" {
              content := parsed;
            }
          }
        } else if item.Text("type") == Some("function_call") {
          var callId := item.Text("call_id").Or(item.Text("id")).GetOr("tool_call_0");
          calls := calls[callId := ToolCall(callId, item.Text("name").GetOr(""), item.Text("arguments").GetOr(""))];
        }
      }
      r := OpenAiResponse(response.Text("model").GetOr(fallbackModel), AssistantMessage(content, Ordered.ByName(calls)),
                          ParseFinishReason(response), ParseUsage(response));
    }
  }

  // ---- the receive loops ----

  /** What the socket delivers: text frames parsed, or refused by the JSON parser; pings with the outcome of the pong. */
  datatype Frame =
    | TextFrame(event: Json)
    | Garbled(complaint: string)
    | Ping(pongFailure: Option<string>)
    | Close
    | OtherFrame
    | Failed(message: string)

  const CLOSED := ProviderError(Transport, "OpenAI websocket closed before response completed", true)

  function TransportError(message: string): ProviderError {
    ProviderError(Transport, message, true)
  }

  /** Everything one request receives: the chunks, and the final response or the error that ends it. */
  datatype Received = Received(chunks: seq<Chunk>, end: Result<OpenAiResponse, ProviderError>)

  function Receive(a: Accumulated, fallbackModel: string, frames: seq<Frame>): Received
    decreases |frames|
  {
    if frames == [] then Received([], Err(CLOSED))
    else
      match frames[0]
      case Close => Received([], Err(CLOSED))
      case Failed(message) => Received([], Err(TransportError(message)))
      case OtherFrame => Receive(a, fallbackModel, frames[1..])
      case Ping(failure) =>
        if failure.Some? then Received([], Err(TransportError(failure.value))) else Receive(a, fallbackModel, frames[1..])
      case Garbled(message) => Received([], Err(TransportError(message)))
      case TextFrame(event) =>
        var c := Classify(event);
        match Emission(a, fallbackModel, c)
        case Err(e) => Received([], Err(e))
        case Ok(chunks) =>
          if c.Finishes? then Received(chunks, Ok(FinalResponse(a, fallbackModel, c.response)))
          else
            var rest := Receive(Changed(a, c), fallbackModel, frames[1..]);
            rest.(chunks := chunks + rest.chunks)
  }

  lemma ReceiveStep(a: Accumulated, fallbackModel: string, frames: seq<Frame>, event: Json, earlier: seq<Chunk>, chunks: seq<Chunk>)
    requires frames != [] && frames[0] == TextFrame(event) && !Classify(event).Finishes?
    requires Emission(a, fallbackModel, Classify(event)) == Ok(chunks)
    ensures var here, rest := Receive(a, fallbackModel, frames), Receive(Changed(a, Classify(event)), fallbackModel, frames[1..]);
      here.(chunks := earlier + here.chunks) == rest.(chunks := (earlier + chunks) + rest.chunks)
  {
    hide Classify, Changed, Emission;
    var rest := Receive(Changed(a, Classify(event)), fallbackModel, frames[1..]);
    assert earlier + (chunks + rest.chunks) == (earlier + chunks) + rest.chunks;
  }

  /** The loop of `complete`. */
  method CompleteWs(frames: seq<Frame>, model: string) returns (r: Result<OpenAiResponse, ProviderError>)
    ensures r == Receive(Accumulated("", map[]), model, frames).end
  {
    hide Classify, Changed, FinalResponse;
    var accumulator := new ResponsesEventAccumulator(model);
    ghost var whole := Receive(Accumulated("", map[]), model, frames);
    assert frames[0..] == frames;
    for i := 0 to |frames|
      invariant accumulator.fallbackModel == model
      invariant whole.end == Receive(accumulator.State(), model, frames[i..]).end
    {
      assert frames[i..][1..] == frames[i + 1..];
      match frames[i] {
        case Garbled(message) => return Err(TransportError(message));
        case TextFrame(event) =>
          var chunks := accumulator.HandleEvent(event);
          if chunks.Err? {
            return Err(chunks.error);
          }
          assert Classify(event).Finishes? ==> |chunks.value| == 2 && chunks.value[1].ResponseCompleteChunk?;
          for j := 0 to |chunks.value|
            invariant forall k :: 0 <= k < j ==> !chunks.value[k].ResponseCompleteChunk?
          {
            if chunks.value[j].ResponseCompleteChunk? {
              return Ok(chunks.value[j].response);
            }
          }
        case Ping(failure) =>
          if failure.Some? {
            return Err(TransportError(failure.value));
          }
        case Close => return Err(CLOSED);
        case OtherFrame =>
        case Failed(message) => return Err(TransportError(message));
      }
    }
    r := Err(CLOSED);
  }

  lemma CompletionEmitted(a: Accumulated, model: string, c: Change, chunks: seq<Chunk>)
    requires Emission(a, model, c) == Ok(chunks)
    ensures c.Finishes? <==> exists k :: 0 <= k < |chunks| && chunks[k].ResponseCompleteChunk?
  {
    hide FinalResponse, Changed;
    assert c.Finishes? ==> chunks[1].ResponseCompleteChunk?;
  }

  /** The loop of `stream`: chunks as they arrive, then the error if there is one. */
  method StreamWs(frames: seq<Frame>, model: string) returns (chunks: seq<Chunk>, error: Option<ProviderError>)
    ensures var whole := Receive(Accumulated("", map[]), model, frames);
      chunks == whole.chunks && error == if whole.end.Err? then Some(whole.end.error) else None
  {
    hide Classify, Changed, FinalResponse, Receive, Emission;
    var accumulator := new ResponsesEventAccumulator(model);
    ghost var whole := Receive(Accumulated("", map[]), model, frames);
    chunks := [];
    assert frames[0..] == frames;
    for i := 0 to |frames|
      invariant accumulator.fallbackModel == model
      invariant var rest := Receive(accumulator.State(), model, frames[i..]);
        whole == rest.(chunks := chunks + rest.chunks)
    {
      ghost var a := accumulator.State();
      assert frames[i..][1..] == frames[i + 1..];
      ReceiveOther(a, model, frames[i..]);
      match frames[i] {
        case Garbled(message) => return chunks, Some(TransportError(message));
        case TextFrame(event) =>
          var emitted := accumulator.HandleEvent(event);
          if emitted.Err? {
            return chunks, Some(emitted.error);
          }
          var complete := false;
          ghost var earlier := chunks;
          for j := 0 to |emitted.value|
            invariant chunks == earlier + emitted.value[..j]
            invariant complete <==> exists k :: 0 <= k < j && emitted.value[k].ResponseCompleteChunk?
          {
            if emitted.value[j].ResponseCompleteChunk? {
              complete := true;
            }
            chunks := chunks + [emitted.value[j]];
          }
          assert emitted.value[..|emitted.value|] == emitted.value;
          CompletionEmitted(a, model, Classify(event), emitted.value);
          if complete {
            return chunks, None;
          }
          ReceiveStep(a, model, frames[i..], event, earlier, emitted.value);
        case Ping(failure) =>
          if failure.Some? {
            return chunks, Some(TransportError(failure.value));
          }
        case Close => return chunks, Some(CLOSED);
        case OtherFrame =>
        case Failed(message) => return chunks, Some(TransportError(message));
      }
    }
    ReceiveOther(accumulator.State(), model, frames[|frames|..]);
    error := Some(CLOSED);
  }

  /** The equations of `Receive` other than that of an event that lets it go on. */
  lemma ReceiveOther(a: Accumulated, model: string, frames: seq<Frame>)
    ensures frames == [] || frames[0].Close? ==> Receive(a, model, frames) == Received([], Err(CLOSED))
    ensures frames != [] && (frames[0].OtherFrame? || frames[0] == Ping(None)) ==> Receive(a, model, frames) == Receive(a, model, frames[1..])
    ensures frames != [] && frames[0].Failed? ==> Receive(a, model, frames) == Received([], Err(TransportError(frames[0].message)))
    ensures frames != [] && frames[0].Garbled? ==> Receive(a, model, frames) == Received([], Err(TransportError(frames[0].complaint)))
    ensures frames != [] && frames[0].Ping? && frames[0].pongFailure.Some? ==>
      Receive(a, model, frames) == Received([], Err(TransportError(frames[0].pongFailure.value)))
    ensures frames != [] && frames[0].TextFrame? ==>
      var c := Classify(frames[0].event);
      var emission := Emission(a, model, c);
      && (emission.Err? ==> Receive(a, model, frames) == Received([], Err(emission.error)))
      && (emission.Ok? && c.Finishes? ==> Receive(a, model, frames) == Received(emission.value, Ok(FinalResponse(a, model, c.response))))
  {
    hide Classify, Changed, FinalResponse, Emission;
  }
}
