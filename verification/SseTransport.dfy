/**
 The HTTP stream decoder of fprovider/src/adapters/openai/transport.rs: text fragments go through a line buffer,
 `data:` lines are parsed and merged into content and tool calls. The JSON parser is an arbitrary function.
 The format is a subset of section 9.2.5 of the WHATWG HTML Living Standard: lines end with LF, only `data:` lines count.
 */
module SseTransport {
  import opened Wrappers
  import opened ProviderModel
  import opened OpenAiTypes
  import Ordered
  import Text

  // ---- parsed payloads ----

  /** A tool-call delta; an absent `function` object is one with neither name nor arguments. */
  datatype DeltaCall = DeltaCall(index: Option<u32>, id: Option<string>, name: Option<string>, arguments: Option<string>)

  datatype Choice = Choice(content: Option<string>, toolCalls: Option<seq<DeltaCall>>, finishReason: Option<string>)

  datatype Payload = Payload(model: Option<string>, choices: seq<Choice>)

  type Parser = string -> Result<Payload, string>

  function ParseFinishReason(value: string): (r: FinishReason)
    ensures (r == Stop <==> value == "stop") && (r == Length <==> value == "length")
    ensures (r == ToolCalls <==> value == "tool_calls") && (r == CancelledReason <==> value == "cancelled")
  {
    if value == "stop" then Stop
    else if value == "length" then Length
    else if value == "tool_calls" then ToolCalls
    else if value == "cancelled" then CancelledReason
    else OtherReason
  }

  function Decimal(n: nat): string {
    (if n >= 10 then Decimal(n / 10) else "") + [('0' as int + n % 10) as char]
  }

  // ---- the specification: whole text, line by line ----

  function FindNewline(s: string): (at: Option<nat>)
    ensures match at
      case Some(i) => i < |s| && s[i] == '\n' && '\n' !in s[..i]
      case None => '\n' !in s
  {
    if s == [] then None
    else if s[0] == '\n' then Some(0)
    else
      match FindNewline(s[1..])
      case Some(i) =>
        assert s[..i + 1] == [s[0]] + s[1..][..i];
        Some(i + 1)
      case None =>
        assert s == [s[0]] + s[1..];
        None
  }

  /** The newline-terminated lines of a text, in order. */
  function Lines(text: string): (lines: seq<string>)
    decreases |text|
  {
    match FindNewline(text)
    case None => []
    case Some(i) => [text[..i + 1]] + Lines(text[i + 1..])
  }

  /** What follows the last newline. */
  function Remainder(text: string): string
    decreases |text|
  {
    match FindNewline(text)
    case None => text
    case Some(i) => Remainder(text[i + 1..])
  }

  datatype Line = Skipped | DoneMark | Data(payload: string)

  function ReadLine(line: string): Line {
    var trimmed := Text.Trim(line);
    if !Text.StartsWith(trimmed, "data:") then Skipped
    else
      var payload := Text.Trim(Text.TrimStartMatches(trimmed, "data:"));
      if payload == "[DONE]" then DoneMark else Data(payload)
  }

  /** What the decoder has put together so far. */
  datatype Decoded = Decoded(content: string, calls: map<nat, ToolCall>, model: Option<string>, finishReason: FinishReason)

  const START := Decoded("", map[], None, OtherReason)

  /** A delta as emitted, with the index its snapshot belongs to. */
  datatype Emission = TextPiece(delta: string) | Snapshot(index: nat, call: ToolCall)

  function AsChunk(e: Emission): (c: Chunk)
    ensures e.TextPiece? ==> c.TextDeltaChunk? && c.delta == e.delta
    ensures e.Snapshot? ==> c.ToolCallDeltaChunk? && c.call == e.call
  {
    match e
    case TextPiece(d) => TextDeltaChunk(d)
    case Snapshot(_, call) => ToolCallDeltaChunk(call)
  }

  function AsChunks(es: seq<Emission>): (chunks: seq<Chunk>)
    ensures |chunks| == |es| && forall i :: 0 <= i < |es| ==> chunks[i] == AsChunk(es[i])
  {
    seq(|es|, i requires 0 <= i < |es| => AsChunk(es[i]))
  }

  function IndexOf(d: DeltaCall): nat { d.index.GetOr(0) }

  function MergedCall(calls: map<nat, ToolCall>, d: DeltaCall): ToolCall {
    var i := IndexOf(d);
    var entry := if i in calls then calls[i] else ToolCall("tool_call_" + Decimal(i), "", "");
    ToolCall(d.id.GetOr(entry.id), d.name.GetOr(entry.name), entry.arguments + d.arguments.GetOr(""))
  }

  datatype Merge = Merge(calls: map<nat, ToolCall>, emitted: seq<Emission>)

  function MergeCalls(calls: map<nat, ToolCall>, deltas: seq<DeltaCall>): Merge
    decreases |deltas|
  {
    if deltas == [] then Merge(calls, [])
    else
      var i, call := IndexOf(deltas[0]), MergedCall(calls, deltas[0]);
      var rest := MergeCalls(calls[i := call], deltas[1..]);
      rest.(emitted := [Snapshot(i, call)] + rest.emitted)
  }

  datatype Step = Step(state: Decoded, emitted: seq<Emission>)

  function MergeChoice(s: Decoded, c: Choice): Step {
    var content := c.content.GetOr("");
    var merged := MergeCalls(s.calls, c.toolCalls.GetOr([]));
    var finish := if c.finishReason.Some? then ParseFinishReason(c.finishReason.value) else s.finishReason;
    Step(Decoded(s.content + content, merged.calls, s.model, finish),
         (if content != "" then [TextPiece(content)] else []) + merged.emitted)
  }

  function MergePayload(s: Decoded, p: Payload): Step {
    var s' := s.(model := s.model.Or(p.model));
    if p.choices == [] then Step(s', []) else MergeChoice(s', p.choices[0])
  }

  datatype Halt = Exhausted | SawDone | Broke(message: string)

  datatype Run = Run(state: Decoded, emitted: seq<Emission>, halt: Halt)

  function DecodeLines(parse: Parser, s: Decoded, lines: seq<string>): Run
    decreases |lines|
  {
    if lines == [] then Run(s, [], Exhausted)
    else
      match ReadLine(lines[0])
      case Skipped => DecodeLines(parse, s, lines[1..])
      case DoneMark => Run(s, [], SawDone)
      case Data(payload) =>
        match parse(payload)
        case Err(message) => Run(s, [], Broke(message))
        case Ok(p) =>
          var step := MergePayload(s, p);
          var rest := DecodeLines(parse, step.state, lines[1..]);
          rest.(emitted := step.emitted + rest.emitted)
  }

  function FinalMessage(s: Decoded): AssistantMessage {
    AssistantMessage(s.content, Ordered.ByIndex(s.calls))
  }

  function FinalResponse(s: Decoded, fallbackModel: string): OpenAiResponse {
    OpenAiResponse(s.model.GetOr(fallbackModel), FinalMessage(s), s.finishReason, NO_USAGE)
  }

  function Closing(s: Decoded, fallbackModel: string): seq<Chunk> {
    [MessageCompleteChunk(FinalMessage(s)), ResponseCompleteChunk(FinalResponse(s, fallbackModel))]
  }

  /** Everything the stream yields: chunks, and the error it ends with, if any. */
  datatype Yielded = Yielded(chunks: seq<Chunk>, error: Option<ProviderError>)

  function Broken(message: string): ProviderError { ProviderError(Transport, message, true) }

  /** The whole stream as a function of the text received and of the transport failure behind it. */
  function DecodeText(parse: Parser, fallbackModel: string, text: string, failure: Option<string>): Yielded {
    var run := DecodeLines(parse, START, Lines(text));
    match run.halt
    case Broke(message) => Yielded(AsChunks(run.emitted), Some(Broken(message)))
    case SawDone => Yielded(AsChunks(run.emitted) + Closing(run.state, fallbackModel), None)
    case Exhausted =>
      match failure
      case Some(message) => Yielded(AsChunks(run.emitted), Some(Broken(message)))
      case None => Yielded(AsChunks(run.emitted) + Closing(run.state, fallbackModel), None)
  }

  /** Byte-stream items: text fragments, or a transport or decoding failure. */
  type Fragments = seq<Result<string, string>>

  /** The text before the first failure. */
  function TextOf(fragments: Fragments): string {
    if fragments == [] || fragments[0].Err? then "" else fragments[0].value + TextOf(fragments[1..])
  }

  function FailureOf(fragments: Fragments): Option<string> {
    if fragments == [] then None
    else if fragments[0].Err? then Some(fragments[0].error)
    else FailureOf(fragments[1..])
  }

  // ---- the decoder ----

  lemma FirstLine(buffer: string, later: string, i: nat)
    requires FindNewline(buffer) == Some(i)
    ensures Lines(buffer + later) == [buffer[..i + 1]] + Lines(buffer[i + 1..] + later)
  {
    var text := buffer + later;
    assert text[i] == buffer[i] && text[..i] == buffer[..i];
    var at := FindNewline(text).value;
    assert forall k :: 0 <= k < i ==> text[k] == text[..i][k];
    assert forall k :: 0 <= k < at ==> text[k] == text[..at][k];
    assert at == i;
    assert text[..i + 1] == buffer[..i + 1] && text[i + 1..] == buffer[i + 1..] + later;
  }

  lemma NoLine(buffer: string)
    requires '\n' !in buffer
    ensures Lines(buffer) == []
  {
  }

  /** What one line adds, before what the following lines add. */
  lemma OneLine(parse: Parser, s: Decoded, line: string, rest: seq<string>)
    ensures var run := DecodeLines(parse, s, [line] + rest);
      match ReadLine(line)
      case Skipped => run == DecodeLines(parse, s, rest)
      case DoneMark => run == Run(s, [], SawDone)
      case Data(payload) => parse(payload).Err? ==> run == Run(s, [], Broke(parse(payload).error))
    ensures ReadLine(line).Data? && parse(ReadLine(line).payload).Ok? ==>
      var step := MergePayload(s, parse(ReadLine(line).payload).value);
      var later := DecodeLines(parse, step.state, rest);
      DecodeLines(parse, s, [line] + rest) == later.(emitted := step.emitted + later.emitted)
  {
    hide ReadLine, MergePayload;
    assert ([line] + rest)[1..] == rest;
  }

  /** The same run, behind what was emitted before. */
  function Behind(earlier: seq<Emission>, run: Run): Run {
    run.(emitted := earlier + run.emitted)
  }

  lemma BehindStep(earlier: seq<Emission>, now: seq<Emission>, run: Run)
    ensures Behind(earlier, Behind(now, run)) == Behind(earlier + now, run)
  {
    assert earlier + (now + run.emitted) == (earlier + now) + run.emitted;
  }

  /** The merge of one payload: model, content, tool calls, finish reason. */
  method ApplyPayload(s: Decoded, parsed: Payload) returns (s': Decoded, emitted: seq<Emission>)
    ensures Step(s', emitted) == MergePayload(s, parsed)
  {
    var content, calls, model, finishReason := s.content, s.calls, s.model, s.finishReason;
    emitted := [];
    if model == None && parsed.model.Some? {
      model := parsed.model;
    }
    if parsed.choices != [] {
      var choice := parsed.choices[0];
      if choice.content.Some? && choice.content.value != "" {
        content := content + choice.content.value;
        emitted := emitted + [TextPiece(choice.content.value)];
      }
      assert s.content + "" == s.content;
      if choice.toolCalls.Some? {
        ghost var earlier := emitted;
        var snapshots;
        calls, snapshots := ApplyDeltas(calls, choice.toolCalls.value);
        emitted := emitted + snapshots;
      }
      if choice.finishReason.Some? {
        finishReason := ParseFinishReason(choice.finishReason.value);
      }
    }
    s' := Decoded(content, calls, model, finishReason);
  }

  method ApplyDeltas(calls0: map<nat, ToolCall>, deltas: seq<DeltaCall>) returns (calls: map<nat, ToolCall>, emitted: seq<Emission>)
    ensures Merge(calls, emitted) == MergeCalls(calls0, deltas)
  {
    hide MergeCalls;
    calls, emitted := calls0, [];
    ghost var whole := MergeCalls(calls0, deltas);
    assert deltas[0..] == deltas;
    for k := 0 to |deltas|
      invariant var rest := MergeCalls(calls, deltas[k..]);
        whole == rest.(emitted := emitted + rest.emitted)
    {
      assert deltas[k..][1..] == deltas[k + 1..];
      MergeStep(calls, deltas[k..], emitted);
      var d := deltas[k];
      ghost var merged := MergedCall(calls, d);
      var index := d.index.GetOr(0);
      var entry := if index in calls then calls[index] else ToolCall(d.id.GetOr("tool_call_" + Decimal(index)), "", "");
      if d.id.Some? {
        entry := entry.(id := d.id.value);
      }
      if d.name.Some? {
        entry := entry.(name := d.name.value);
      }
      assert entry.arguments + "" == entry.arguments;
      if d.arguments.Some? {
        entry := entry.(arguments := entry.arguments + d.arguments.value);
      }
      assert entry == merged;
      calls := calls[index := entry];
      emitted := emitted + [Snapshot(index, entry)];
    }
    MergeNothing(calls, deltas[|deltas|..]);
  }

  lemma MergeStep(calls: map<nat, ToolCall>, deltas: seq<DeltaCall>, earlier: seq<Emission>)
    requires deltas != []
    ensures var i, call := IndexOf(deltas[0]), MergedCall(calls, deltas[0]);
      var here, rest := MergeCalls(calls, deltas), MergeCalls(calls[i := call], deltas[1..]);
      here.(emitted := earlier + here.emitted) == rest.(emitted := (earlier + [Snapshot(i, call)]) + rest.emitted)
  {
    hide MergedCall, IndexOf;
    var i, call := IndexOf(deltas[0]), MergedCall(calls, deltas[0]);
    var rest := MergeCalls(calls[i := call], deltas[1..]);
    assert earlier + ([Snapshot(i, call)] + rest.emitted) == (earlier + [Snapshot(i, call)]) + rest.emitted;
  }

  lemma MergeNothing(calls: map<nat, ToolCall>, deltas: seq<DeltaCall>)
    requires deltas == []
    ensures MergeCalls(calls, deltas) == Merge(calls, [])
  {
  }

  /** The inner loop: drains the complete lines of the buffer. */
  method DrainLines(parse: Parser, s0: Decoded, buffer0: string, ghost later: string)
    returns (s: Decoded, buffer: string, emitted: seq<Emission>, halt: Halt)
    ensures var whole := DecodeLines(parse, s0, Lines(buffer0 + later));
      if halt.Exhausted? then '\n' !in buffer && whole == Behind(emitted, DecodeLines(parse, s, Lines(buffer + later)))
      else whole == Run(s, emitted, halt)
  {
    hide ReadLine, MergePayload, Lines, DecodeLines;
    s, buffer, emitted := s0, buffer0, [];
    ghost var whole := DecodeLines(parse, s0, Lines(buffer0 + later));
    var newline := FindNewline(buffer);
    while newline.Some?
      invariant newline == FindNewline(buffer)
      invariant whole == Behind(emitted, DecodeLines(parse, s, Lines(buffer + later)))
      decreases |buffer|
    {
      var line := buffer[..newline.value + 1];
      FirstLine(buffer, later, newline.value);
      buffer := buffer[newline.value + 1..];
      newline := FindNewline(buffer);
      OneLine(parse, s, line, Lines(buffer + later));
      match ReadLine(line) {
        case Skipped =>
        case DoneMark =>
          return s, buffer, emitted, SawDone;
        case Data(payload) =>
          var parsed := parse(payload);
          if parsed.Err? {
            return s, buffer, emitted, Broke(parsed.error);
          }
          var s', pieces := ApplyPayload(s, parsed.value);
          BehindStep(emitted, pieces, DecodeLines(parse, s', Lines(buffer + later)));
          s, emitted := s', emitted + pieces;
      }
    }
    halt := Exhausted;
  }

  /**
   The whole decode loop. Its result is a function of the received text alone:
   however the text was cut into fragments, the same chunks and the same ending come out.
   */
  method DecodeStream(parse: Parser, fallbackModel: string, fragments: Fragments) returns (chunks: seq<Chunk>, error: Option<ProviderError>)
    ensures Yielded(chunks, error) == DecodeText(parse, fallbackModel, TextOf(fragments), FailureOf(fragments))
  {
    hide Lines, DecodeLines, FinalMessage;
    var s, buffer, emitted: seq<Emission> := START, "", [];
    ghost var text := TextOf(fragments);
    ghost var whole := DecodeLines(parse, START, Lines(text));
    assert "" + text == text && fragments[0..] == fragments;
    for i := 0 to |fragments|
      invariant whole == Behind(emitted, DecodeLines(parse, s, Lines(buffer + TextOf(fragments[i..]))))
      invariant '\n' !in buffer
      invariant FailureOf(fragments) == FailureOf(fragments[i..])
    {
      ghost var later := TextOf(fragments[i + 1..]);
      assert fragments[i..][1..] == fragments[i + 1..];
      if fragments[i].Err? {
        NothingLeft(parse, s, buffer);
        return AsChunks(emitted), Some(Broken(fragments[i].error));
      }
      assert buffer + (fragments[i].value + later) == (buffer + fragments[i].value) + later;
      buffer := buffer + fragments[i].value;
      ghost var earlier, before := emitted, DecodeLines(parse, s, Lines(buffer + later));
      var s', buffer', pieces, halt := DrainLines(parse, s, buffer, later);
      emitted := emitted + pieces;
      if halt.Broke? {
        return AsChunks(emitted), Some(Broken(halt.message));
      }
      if halt.SawDone? {
        return AsChunks(emitted) + Closing(s', fallbackModel), None;
      }
      BehindStep(earlier, pieces, DecodeLines(parse, s', Lines(buffer' + later)));
      s, buffer := s', buffer';
    }
    NothingLeft(parse, s, buffer);
    chunks, error := AsChunks(emitted) + Closing(s, fallbackModel), None;
  }

  lemma NothingLeft(parse: Parser, s: Decoded, buffer: string)
    requires '\n' !in buffer
    ensures DecodeLines(parse, s, Lines(buffer + "")) == Run(s, [], Exhausted)
  {
    assert buffer + "" == buffer;
    NoLine(buffer);
  }
}
