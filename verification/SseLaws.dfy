/** Laws of the HTTP decoder: fragmentation, conservation of deltas, and when the streamed turn reads the final response. */
module SseLaws {
  import opened Wrappers
  import opened ProviderModel
  import opened OpenAiTypes
  import opened ChatTurn
  import opened TurnEquivalence
  import opened SseTransport
  import Ordered

  // ---- lines and fragments ----

  /** A line ends with the only newline it has. */
  predicate IsLine(line: string) {
    line != "" && line[|line| - 1] == '\n' && '\n' !in line[..|line| - 1]
  }

  /** The lines and the remainder are the text, cut after each newline and nowhere else. */
  lemma {:induction false} LinesPartition(text: string)
    ensures Flatten(Lines(text)) + Remainder(text) == text
    ensures '\n' !in Remainder(text)
    ensures forall i :: 0 <= i < |Lines(text)| ==> IsLine(Lines(text)[i])
    decreases |text|
  {
    var at := FindNewline(text);
    if at.Some? {
      var line, later := text[..at.value + 1], text[at.value + 1..];
      CutAt(text, at.value);
      CutText(text, at.value);
      hide Lines, Remainder, IsLine, FindNewline, Flatten;
      LinesPartition(later);
      Assemble(line, Lines(later), Remainder(later), later);
    } else {
      assert Lines(text) == [] && Remainder(text) == text;
      assert "" + text == text;
    }
  }

  lemma Assemble(line: string, lines: seq<string>, remainder: string, later: string)
    requires IsLine(line) && Flatten(lines) + remainder == later
    requires forall i :: 0 <= i < |lines| ==> IsLine(lines[i])
    ensures Flatten([line] + lines) + remainder == line + later
    ensures forall i :: 0 <= i < |[line] + lines| ==> IsLine(([line] + lines)[i])
  {
    hide IsLine;
    FlattenCons(line, lines);
    Regroup(line, Flatten(lines), remainder);
  }

  lemma CutAt(text: string, i: nat)
    requires FindNewline(text) == Some(i)
    ensures Lines(text) == [text[..i + 1]] + Lines(text[i + 1..])
    ensures Remainder(text) == Remainder(text[i + 1..])
  {
    hide FindNewline;
  }

  lemma CutText(text: string, i: nat)
    requires FindNewline(text) == Some(i)
    ensures IsLine(text[..i + 1])
    ensures text == text[..i + 1] + text[i + 1..]
  {
    hide FindNewline;
    assert text[..i + 1][..i] == text[..i];
  }

  lemma FlattenCons(line: string, rest: seq<string>)
    ensures Flatten([line] + rest) == line + Flatten(rest)
  {
    assert ([line] + rest)[1..] == rest;
  }

  lemma Regroup(a: string, b: string, c: string)
    ensures a + (b + c) == (a + b) + c
  {
  }

  lemma LineBefore(line: string, rest: string)
    requires IsLine(line)
    ensures Lines(line + rest) == [line] + Lines(rest) && Remainder(line + rest) == Remainder(rest)
  {
    hide Lines, Remainder, FindNewline;
    WholeLine(line);
    FirstLine(line, rest, |line| - 1);
    assert line[..|line|] == line && line[|line|..] + rest == rest;
    FirstRemainder(line, rest);
  }

  /** Any other cut of the text into newline-terminated lines and a remainder is the same one. */
  lemma {:induction false} LinesUnique(lines: seq<string>, remainder: string)
    requires '\n' !in remainder
    requires forall i :: 0 <= i < |lines| ==> IsLine(lines[i])
    ensures Lines(Flatten(lines) + remainder) == lines && Remainder(Flatten(lines) + remainder) == remainder
    decreases |lines|
  {
    if lines == [] {
      assert "" + remainder == remainder;
    } else {
      assert Flatten(lines) == lines[0] + Flatten(lines[1..]);
      hide Lines, Remainder, FindNewline, Flatten, IsLine;
      assert forall i :: 0 <= i < |lines| - 1 ==> lines[1..][i] == lines[i + 1];
      var line, rest := lines[0], Flatten(lines[1..]) + remainder;
      LinesUnique(lines[1..], remainder);
      Regroup(line, Flatten(lines[1..]), remainder);
      assert [line] + lines[1..] == lines;
      LineBefore(line, rest);
    }
  }

  lemma WholeLine(line: string)
    requires IsLine(line)
    ensures FindNewline(line) == Some(|line| - 1)
  {
    var at := FindNewline(line).value;
    assert forall k :: 0 <= k < |line| - 1 ==> line[k] == line[..|line| - 1][k];
    assert forall k :: 0 <= k < at ==> line[k] == line[..at][k];
  }

  lemma FirstRemainder(line: string, rest: string)
    requires FindNewline(line) == Some(|line| - 1)
    ensures Remainder(line + rest) == Remainder(rest)
  {
    var text, i := line + rest, |line| - 1;
    assert text[i] == line[i] && text[..i] == line[..i];
    var at := FindNewline(text).value;
    assert forall k :: 0 <= k < i ==> text[k] == text[..i][k];
    assert forall k :: 0 <= k < at ==> text[k] == text[..at][k];
    assert at == i;
    assert text[i + 1..] == rest;
  }

  /** Fragments of one text, cut anywhere. */
  function AsFragments(parts: seq<string>): (fragments: Fragments)
    ensures |fragments| == |parts| && forall i :: 0 <= i < |parts| ==> fragments[i] == Ok(parts[i])
  {
    seq(|parts|, i requires 0 <= i < |parts| => Ok(parts[i]))
  }

  lemma {:induction false} FragmentsText(parts: seq<string>)
    ensures TextOf(AsFragments(parts)) == Flatten(parts) && FailureOf(AsFragments(parts)) == None
  {
    if parts != [] {
      assert AsFragments(parts)[1..] == AsFragments(parts[1..]);
      FragmentsText(parts[1..]);
    }
  }

  /** A line counts exactly when `data:` comes first after white space; any other field or comment is skipped. */
  lemma LineCountsIff(line: string)
    ensures !ReadLine(line).Skipped? <==>
      exists n :: 0 <= n <= |line| && Text.Blank(line[..n]) && "data:" <= line[n..]
  {
    hide Text.IsWhitespace, Text.TrimStartMatches;
    var n := Text.TrimStartDrops(line);
    var rest, trimmed := line[n..], Text.Trim(line);
    if !ReadLine(line).Skipped? {
      assert Text.Blank(line[..n]) && "data:" <= rest;
    }
    if k :| 0 <= k <= |line| && Text.Blank(line[..k]) && "data:" <= line[k..] {
      DataIsVisible();
      assert line[k] == line[k..][0] == 'd';
      assert forall i :: 0 <= i < k ==> line[..k][i] == line[i];
      assert n < |line| && line[n] == rest[0];
      assert k == n && rest[4] == ':';
      assert |trimmed| > 4;
      assert "data:" == rest[..5] == trimmed[..5];
    }
  }

  lemma DataIsVisible()
    ensures !Text.IsWhitespace('d') && !Text.IsWhitespace(':')
  {
  }

  /** A `data:` line, however it ends, gives back the payload it was written with; `[DONE]` ends the stream. */
  lemma DataLineReads(payload: string, ending: string)
    requires Text.IsTrimmed(payload) && !Text.StartsWith(payload, "data:") && Text.Blank(ending)
    ensures ReadLine("data: " + payload + ending) == if payload == "[DONE]" then DoneMark else Data(payload)
  {
    hide Text.IsWhitespace, Text.Trim;
    DataIsVisible();
    var body := "data: " + payload;
    assert Text.IsTrimmed(body) by {
      assert body[0] == 'd' && body[|body| - 1] == payload[|payload| - 1];
    }
    Text.TrimAround("", body, ending);
    assert "" + body + ending == "data: " + payload + ending;
    assert body[5..] == " " + payload && "data:" <= body;
    assert !Text.StartsWith(" " + payload, "data:") by {
      assert (" " + payload)[0] == ' ';
    }
    SpaceIsBlank();
    Text.TrimAround(" ", payload, "");
    assert " " + payload + "" == " " + payload;
  }

  lemma SpaceIsBlank()
    ensures Text.Blank(" ")
  {
  }

  /** Two ways of cutting the same text are decoded to the same chunks and the same ending. */
  lemma FragmentationIndependence(parse: Parser, model: string, a: seq<string>, b: seq<string>)
    requires Flatten(a) == Flatten(b)
    ensures DecodeText(parse, model, TextOf(AsFragments(a)), FailureOf(AsFragments(a)))
         == DecodeText(parse, model, TextOf(AsFragments(b)), FailureOf(AsFragments(b)))
         == DecodeText(parse, model, Flatten(a), None)
  {
    FragmentsText(a);
    FragmentsText(b);
  }

  // ---- conservation ----

  function PiecesText(es: seq<Emission>): string {
    if es == [] then "" else (if es[0].TextPiece? then es[0].delta else "") + PiecesText(es[1..])
  }

  /** The calls after the snapshots: each index holds the last one emitted for it. */
  function LastSnapshots(calls: map<nat, ToolCall>, es: seq<Emission>): map<nat, ToolCall>
    decreases |es|
  {
    if es == [] then calls
    else LastSnapshots(if es[0].Snapshot? then calls[es[0].index := es[0].call] else calls, es[1..])
  }

  predicate IsSnapshotOf(e: Emission, index: nat) {
    e.Snapshot? && e.index == index
  }

  /** Read directly: an index holds the call of its last snapshot. */
  lemma {:induction false} LastSnapshotStays(calls: map<nat, ToolCall>, es: seq<Emission>, k: nat)
    requires k < |es| && es[k].Snapshot? && forall j :: k < j < |es| ==> !IsSnapshotOf(es[j], es[k].index)
    ensures es[k].index in LastSnapshots(calls, es) && LastSnapshots(calls, es)[es[k].index] == es[k].call
    decreases |es|
  {
    var next := if es[0].Snapshot? then calls[es[0].index := es[0].call] else calls;
    assert forall j :: 0 <= j < |es| - 1 ==> es[1..][j] == es[j + 1];
    if k > 0 {
      LastSnapshotStays(next, es[1..], k - 1);
    } else {
      UntouchedStays(next, es[1..], es[0].index);
    }
  }

  /** An index without snapshots keeps what it held. */
  lemma {:induction false} UntouchedStays(calls: map<nat, ToolCall>, es: seq<Emission>, index: nat)
    requires forall j :: 0 <= j < |es| ==> !IsSnapshotOf(es[j], index)
    ensures index in LastSnapshots(calls, es) <==> index in calls
    ensures index in calls ==> LastSnapshots(calls, es)[index] == calls[index]
    decreases |es|
  {
    if es != [] {
      assert !IsSnapshotOf(es[0], index);
      assert forall j :: 0 <= j < |es| - 1 ==> es[1..][j] == es[j + 1];
      UntouchedStays(if es[0].Snapshot? then calls[es[0].index := es[0].call] else calls, es[1..], index);
    }
  }

  lemma {:induction false} PiecesAppend(a: seq<Emission>, b: seq<Emission>)
    ensures PiecesText(a + b) == PiecesText(a) + PiecesText(b)
  {
    if a == [] {
      assert a + b == b;
    } else {
      assert (a + b)[1..] == a[1..] + b;
      PiecesAppend(a[1..], b);
      var head, middle, tail := if a[0].TextPiece? then a[0].delta else "", PiecesText(a[1..]), PiecesText(b);
      assert head + (middle + tail) == (head + middle) + tail;
    }
  }

  lemma {:induction false} SnapshotsAppend(calls: map<nat, ToolCall>, a: seq<Emission>, b: seq<Emission>)
    ensures LastSnapshots(calls, a + b) == LastSnapshots(LastSnapshots(calls, a), b)
    decreases |a|
  {
    if a == [] {
      assert a + b == b;
    } else {
      assert (a + b)[1..] == a[1..] + b;
      SnapshotsAppend(if a[0].Snapshot? then calls[a[0].index := a[0].call] else calls, a[1..], b);
    }
  }

  lemma {:induction false} MergeConserves(calls: map<nat, ToolCall>, deltas: seq<DeltaCall>)
    ensures var m := MergeCalls(calls, deltas);
      m.calls == LastSnapshots(calls, m.emitted) && PiecesText(m.emitted) == ""
    decreases |deltas|
  {
    if deltas != [] {
      hide MergedCall, IndexOf;
      var i, call := IndexOf(deltas[0]), MergedCall(calls, deltas[0]);
      MergeConserves(calls[i := call], deltas[1..]);
      var rest := MergeCalls(calls[i := call], deltas[1..]).emitted;
      assert ([Snapshot(i, call)] + rest)[1..] == rest;
    }
  }

  lemma PayloadConserves(s: Decoded, p: Payload)
    ensures var step := MergePayload(s, p);
      && step.state.content == s.content + PiecesText(step.emitted)
      && step.state.calls == LastSnapshots(s.calls, step.emitted)
  {
    hide MergeCalls;
    assert s.content + "" == s.content;
    if p.choices != [] {
      var c := p.choices[0];
      var content, merged := c.content.GetOr(""), MergeCalls(s.calls, c.toolCalls.GetOr([]));
      MergeConserves(s.calls, c.toolCalls.GetOr([]));
      var first := if content != "" then [TextPiece(content)] else [];
      PiecesAppend(first, merged.emitted);
      SnapshotsAppend(s.calls, first, merged.emitted);
      if content != "" { assert first[1..] == []; }
      assert content + "" == content;
    }
  }

  /** Nothing is lost or invented: the content is the emitted text, each index's call its last emitted snapshot. */
  lemma {:induction false} Conservation(parse: Parser, s: Decoded, lines: seq<string>)
    ensures var run := DecodeLines(parse, s, lines);
      && run.state.content == s.content + PiecesText(run.emitted)
      && run.state.calls == LastSnapshots(s.calls, run.emitted)
    decreases |lines|
  {
    hide ReadLine, MergePayload;
    assert s.content + "" == s.content;
    if lines != [] {
      match ReadLine(lines[0])
      case Skipped => Conservation(parse, s, lines[1..]);
      case DoneMark =>
      case Data(payload) =>
        if parse(payload).Ok? {
          var step := MergePayload(s, parse(payload).value);
          Conservation(parse, step.state, lines[1..]);
          PayloadConserves(s, parse(payload).value);
          var rest := DecodeLines(parse, step.state, lines[1..]).emitted;
          PiecesAppend(step.emitted, rest);
          SnapshotsAppend(s.calls, step.emitted, rest);
          assert s.content + PiecesText(step.emitted) + PiecesText(rest) == s.content + (PiecesText(step.emitted) + PiecesText(rest));
        }
    }
  }

  /** A stream that does not fail: deltas, then the final message, then the final response, which agree with the deltas. */
  lemma StreamConserves(parse: Parser, model: string, text: string, failure: Option<string>)
    requires DecodeText(parse, model, text, failure).error == None
    ensures var run := DecodeLines(parse, START, Lines(text));
      var final := FinalResponse(run.state, model);
      && DecodeText(parse, model, text, failure).chunks
         == AsChunks(run.emitted) + [MessageCompleteChunk(final.message), ResponseCompleteChunk(final)]
      && final.message.content == PiecesText(run.emitted)
      && final.message.toolCalls == Ordered.ByIndex(LastSnapshots(map[], run.emitted))
  {
    Conservation(parse, START, Lines(text));
    var run := DecodeLines(parse, START, Lines(text));
    assert "" + PiecesText(run.emitted) == PiecesText(run.emitted);
  }

  // ---- the streamed turn over this transport ----

  function SnapshotIds(es: seq<Emission>): set<string> {
    set i | 0 <= i < |es| && es[i].Snapshot? :: es[i].call.id
  }

  /** The provider events of the deltas and of the final message. */
  function DeltaItems(run: Run): StreamItems {
    IntoItems(AsChunks(run.emitted) + [MessageCompleteChunk(FinalMessage(run.state))])
  }

  lemma {:induction false} EmptyPieces(es: seq<Emission>)
    ensures PiecesText(es) == "" <==> forall i :: 0 <= i < |es| && es[i].TextPiece? ==> es[i].delta == ""
  {
    if es != [] {
      EmptyPieces(es[1..]);
      if PiecesText(es) == "" {
        forall i | 0 <= i < |es| && es[i].TextPiece? ensures es[i].delta == "" {
          if i > 0 { assert es[i] == es[1..][i - 1]; }
        }
      } else {
        assert forall i :: 0 <= i < |es| - 1 ==> es[1..][i] == es[i + 1];
      }
    }
  }

  lemma DeltaItemAt(run: Run)
    ensures var items, n := DeltaItems(run), |run.emitted|;
      && |items| == n + 1
      && (forall i :: 0 <= i < n ==> items[i] == Ok(IntoStreamEvent(AsChunk(run.emitted[i]))))
      && items[n] == Ok(MessageComplete(Message(Assistant, run.state.content)))
  {
    hide Ordered.ByIndex;
  }

  lemma DeltaItemsFacts(run: Run)
    ensures var items := DeltaItems(run);
      && Deltas(items)
      && StreamedIds(items) == SnapshotIds(run.emitted)
      && (run.state.content == PiecesText(run.emitted) && run.state.content == "" ==> Quiet(items))
  {
    hide DeltaItems, PiecesText;
    var items, n := DeltaItems(run), |run.emitted|;
    DeltaItemAt(run);
    EmptyPieces(run.emitted);
    forall id | id in SnapshotIds(run.emitted) ensures id in StreamedIds(items) {
      var i :| 0 <= i < n && run.emitted[i].Snapshot? && run.emitted[i].call.id == id;
      assert items[i].value.ToolCallDelta? && items[i].value.call.id == id;
    }
    forall id | id in StreamedIds(items) ensures id in SnapshotIds(run.emitted) {
      var i :| 0 <= i <= n && items[i].Ok? && items[i].value.ToolCallDelta? && items[i].value.call.id == id;
      assert i < n && run.emitted[i].Snapshot?;
    }
  }

  /** The events of a whole run, closed by its final response. */
  function AllItems(run: Run, model: string): StreamItems {
    DeltaItems(run) + [Ok(ResponseComplete(IntoModelResponse(FinalResponse(run.state, model))))]
  }

  /**
   What `stream_turn` gathers from a non-failing stream equals what `collect_output` makes of its final response
   exactly when no snapshot went out under an id that was changed later, and the final ids increase.
   */
  lemma HttpRoundIff(parse: Parser, model: string, text: string)
    ensures var run := DecodeLines(parse, START, Lines(text));
      var final := FinalResponse(run.state, model);
      Output(Drain(NOTHING, AllItems(run, model)).gathered) == Collected(IntoModelResponse(final)) <==>
        IdsIncreasing(final.message.toolCalls) && SnapshotIds(run.emitted) <= CallIds(final.message.toolCalls)
  {
    var run := DecodeLines(parse, START, Lines(text));
    Conservation(parse, START, Lines(text));
    assert "" + PiecesText(run.emitted) == PiecesText(run.emitted);
    RunRoundIff(run, model);
  }

  lemma RunRoundIff(run: Run, model: string)
    requires run.state.content == PiecesText(run.emitted)
    ensures var final := FinalResponse(run.state, model);
      Output(Drain(NOTHING, AllItems(run, model)).gathered) == Collected(IntoModelResponse(final)) <==>
        IdsIncreasing(final.message.toolCalls) && SnapshotIds(run.emitted) <= CallIds(final.message.toolCalls)
  {
    hide PiecesText, IntoModelResponse, Drain, Output, Collected, IdsIncreasing, CallIds, StreamedIds, SnapshotIds, Quiet, Deltas, DeltaItems, Ordered.ByIndex;
    CollectedResponse(FinalResponse(run.state, model));
    DeltaItemsFacts(run);
    RoundAgreementIff(DeltaItems(run), IntoModelResponse(FinalResponse(run.state, model)));
  }

  /** Its text is in any case the content that the final message carries. */
  lemma HttpText(run: Run, model: string)
    requires run.state.content == PiecesText(run.emitted)
    ensures Drain(NOTHING, AllItems(run, model)).gathered.text == run.state.content
  {
    hide PiecesText, IntoModelResponse, Drain, InsertCalls, SnapshotIds, Quiet, Deltas, DeltaItems, Ordered.ByIndex;
    CollectedResponse(FinalResponse(run.state, model));
    DeltaItemsFacts(run);
    GatherDeltas(NOTHING, DeltaItems(run), ResponseComplete(IntoModelResponse(FinalResponse(run.state, model))));
  }

  ghost predicate DistinctIds(calls: seq<ToolCall>) {
    forall i, j :: 0 <= i < j < |calls| ==> calls[i].id != calls[j].id
  }

  /** The id-keyed map holds each final call under its id, and nothing else. */
  ghost predicate HoldsExactly(m: map<string, ToolCall>, finals: seq<ToolCall>) {
    && m.Keys == CallIds(finals) && DistinctIds(finals)
    && forall i :: 0 <= i < |finals| ==> m[finals[i].id] == finals[i]
  }

  lemma {:induction false} DistinctInserted(m: map<string, ToolCall>, calls: seq<ToolCall>)
    requires DistinctIds(calls)
    ensures forall i :: 0 <= i < |calls| ==> calls[i].id in InsertCalls(m, calls) && InsertCalls(m, calls)[calls[i].id] == calls[i]
    decreases |calls|
  {
    if calls != [] {
      var next := m[calls[0].id := calls[0]];
      DistinctInserted(next, calls[1..]);
      InsertCallsKeys(next, calls[1..]);
      forall i | 0 <= i < |calls[1..]| ensures calls[1..][i].id != calls[0].id {
        assert calls[1..][i] == calls[i + 1];
      }
      forall i | 0 <= i < |calls| ensures calls[i].id in InsertCalls(m, calls) && InsertCalls(m, calls)[calls[i].id] == calls[i] {
        if i > 0 { assert calls[i] == calls[1..][i - 1]; }
      }
    }
  }

  /** The map of `stream_turn` holds exactly the final calls iff their ids are distinct and no stale id was streamed. */
  lemma HttpMapIff(run: Run, model: string)
    ensures var finals := FinalMessage(run.state).toolCalls;
      HoldsExactly(Drain(NOTHING, AllItems(run, model)).gathered.calls, finals) <==>
        DistinctIds(finals) && SnapshotIds(run.emitted) <= CallIds(finals)
  {
    hide IntoModelResponse, Drain, InsertCalls, SnapshotIds, CallIds, Quiet, Deltas, DeltaItems, Ordered.ByIndex, DistinctIds;
    CollectedResponse(FinalResponse(run.state, model));
    DeltaItemsFacts(run);
    var response := IntoModelResponse(FinalResponse(run.state, model));
    GatherDeltas(NOTHING, DeltaItems(run), ResponseComplete(response));
    var before, finals := Drain(NOTHING, DeltaItems(run)).gathered.calls, OutputCalls(response.output);
    InsertCallsKeys(before, finals);
    if DistinctIds(finals) {
      DistinctInserted(before, finals);
    }
  }

  // ---- stable ids ----

  /** Every call keeps the id `name` gives to its index. */
  ghost predicate Named(calls: map<nat, ToolCall>, name: nat -> string) {
    forall i :: i in calls ==> calls[i].id == name(i)
  }

  /** The first delta of an index carries its id, later ones the same id or none. */
  ghost predicate StableDeltas(calls: map<nat, ToolCall>, deltas: seq<DeltaCall>, name: nat -> string)
    decreases |deltas|
  {
    deltas != [] ==>
      var i := IndexOf(deltas[0]);
      && (deltas[0].id == Some(name(i)) || (deltas[0].id == None && i in calls))
      && StableDeltas(calls[i := MergedCall(calls, deltas[0])], deltas[1..], name)
  }

  ghost predicate StableLines(parse: Parser, s: Decoded, lines: seq<string>, name: nat -> string)
    decreases |lines|
  {
    lines != [] ==>
      match ReadLine(lines[0])
      case Skipped => StableLines(parse, s, lines[1..], name)
      case DoneMark => true
      case Data(payload) =>
        parse(payload).Ok? ==>
          var p := parse(payload).value;
          && (p.choices != [] ==> StableDeltas(s.calls, p.choices[0].toolCalls.GetOr([]), name))
          && StableLines(parse, MergePayload(s, p).state, lines[1..], name)
  }

  ghost predicate SnapshotsNamed(es: seq<Emission>, name: nat -> string) {
    forall i :: 0 <= i < |es| && es[i].Snapshot? ==> es[i].call.id == name(es[i].index)
  }

  lemma {:induction false} StableMerge(calls: map<nat, ToolCall>, deltas: seq<DeltaCall>, name: nat -> string)
    requires Named(calls, name) && StableDeltas(calls, deltas, name)
    ensures var m := MergeCalls(calls, deltas);
      Named(m.calls, name) && SnapshotsNamed(m.emitted, name) && calls.Keys <= m.calls.Keys
    ensures forall e :: e in MergeCalls(calls, deltas).emitted ==> e.Snapshot? && e.index in MergeCalls(calls, deltas).calls
    decreases |deltas|
  {
    if deltas != [] {
      StableMerge(calls[IndexOf(deltas[0]) := MergedCall(calls, deltas[0])], deltas[1..], name);
    }
  }

  lemma {:induction false} StableRun(parse: Parser, s: Decoded, lines: seq<string>, name: nat -> string)
    requires Named(s.calls, name) && StableLines(parse, s, lines, name)
    ensures var run := DecodeLines(parse, s, lines);
      Named(run.state.calls, name) && SnapshotsNamed(run.emitted, name) && s.calls.Keys <= run.state.calls.Keys
    ensures forall e :: e in DecodeLines(parse, s, lines).emitted && e.Snapshot? ==> e.index in DecodeLines(parse, s, lines).state.calls
    decreases |lines|
  {
    hide ReadLine, StableDeltas, MergeCalls;
    if lines != [] {
      match ReadLine(lines[0])
      case Skipped => StableRun(parse, s, lines[1..], name);
      case DoneMark =>
      case Data(payload) =>
        if parse(payload).Ok? {
          var p := parse(payload).value;
          if p.choices != [] {
            StableMerge(s.calls, p.choices[0].toolCalls.GetOr([]), name);
          }
          StableRun(parse, MergePayload(s, p).state, lines[1..], name);
        }
    }
  }

  /** With stable, distinct ids the map of `stream_turn` holds exactly the final calls. */
  lemma StableIdsSuffice(parse: Parser, model: string, text: string, name: nat -> string)
    requires StableLines(parse, START, Lines(text), name)
    requires forall i, j :: i != j ==> name(i) != name(j)
    ensures var run := DecodeLines(parse, START, Lines(text));
      HoldsExactly(Drain(NOTHING, AllItems(run, model)).gathered.calls, FinalMessage(run.state).toolCalls)
  {
    StableRun(parse, START, Lines(text), name);
    hide DecodeLines, Lines, StableLines, HoldsExactly, FinalMessage, Drain;
    HttpMapIff(DecodeLines(parse, START, Lines(text)), model);
    NamedCalls(DecodeLines(parse, START, Lines(text)), name);
  }

  lemma NamedCalls(run: Run, name: nat -> string)
    requires Named(run.state.calls, name) && SnapshotsNamed(run.emitted, name)
    requires forall e :: e in run.emitted && e.Snapshot? ==> e.index in run.state.calls
    requires forall i, j :: i != j ==> name(i) != name(j)
    ensures var finals := FinalMessage(run.state).toolCalls;
      DistinctIds(finals) && SnapshotIds(run.emitted) <= CallIds(finals)
  {
    var finals, keys := Ordered.ByIndex(run.state.calls), Ordered.SortedKeys(Ordered.IndexLess, run.state.calls.Keys);
    forall i | 0 <= i < |finals| ensures finals[i].id == name(keys[i]) {
      assert keys[i] in keys;
    }
    hide Ordered.ByIndex;
    forall id | id in SnapshotIds(run.emitted) ensures id in CallIds(finals) {
      var k :| 0 <= k < |run.emitted| && run.emitted[k].Snapshot? && run.emitted[k].call.id == id;
      var e := run.emitted[k];
      assert e in run.emitted && e.index in run.state.calls && e.index in keys;
      var i :| 0 <= i < |keys| && keys[i] == e.index;
      assert finals[i].id == id;
    }
  }

  /** The map holds an entry for every id that was streamed and for every final one. */
  lemma HttpMapKeys(run: Run, model: string)
    ensures Drain(NOTHING, AllItems(run, model)).gathered.calls.Keys == SnapshotIds(run.emitted) + CallIds(FinalMessage(run.state).toolCalls)
  {
    hide IntoModelResponse, Drain, InsertCalls, SnapshotIds, CallIds, Quiet, Deltas, DeltaItems, Ordered.ByIndex;
    CollectedResponse(FinalResponse(run.state, model));
    DeltaItemsFacts(run);
    var response := IntoModelResponse(FinalResponse(run.state, model));
    GatherDeltas(NOTHING, DeltaItems(run), ResponseComplete(response));
    InsertCallsKeys(Drain(NOTHING, DeltaItems(run)).gathered.calls, OutputCalls(response.output));
  }

  // ---- a stream in which the id changes ----

  const CHANGING := [DeltaCall(Some(0), Some("a"), Some("f"), None), DeltaCall(Some(0), Some("b"), None, None)]

  const CHANGED_RUN := Run(Decoded("", map[0 := ToolCall("b", "f", "")], None, OtherReason),
                           [Snapshot(0, ToolCall("a", "f", "")), Snapshot(0, ToolCall("b", "f", ""))], Exhausted)

  /** A parser that reads the two deltas from any payload. */
  function ReadsChanging(): Parser {
    (payload: string) => Ok(Payload(None, [Choice(None, Some(CHANGING), None)]))
  }

  /**
   An id that changes after the first delta: the stream does not fail and its response has one call, under the last id,
   but the map of `stream_turn` still holds the call under the first, and its output is not the response's.
   */
  lemma ChangedIdLeavesStaleCall(model: string)
    ensures var text := "data: x\n";
      var run := DecodeLines(ReadsChanging(), START, Lines(text));
      var final, gathered := FinalResponse(run.state, model), Drain(NOTHING, AllItems(run, model)).gathered;
      && DecodeText(ReadsChanging(), model, text, None).error == None
      && final.message.toolCalls == [ToolCall("b", "f", "")]
      && gathered.calls.Keys == {"a", "b"}
      && !HoldsExactly(gathered.calls, final.message.toolCalls)
      && Output(gathered) != Collected(IntoModelResponse(final))
  {
    var text := "data: x\n";
    hide *;
    ChangingRun(text);
    StaleRun(DecodeLines(ReadsChanging(), START, Lines(text)), model);
    ChangingEnds(text, model);
  }

  lemma ChangingEnds(text: string, model: string)
    requires DecodeLines(ReadsChanging(), START, Lines(text)) == CHANGED_RUN
    ensures DecodeText(ReadsChanging(), model, text, None).error == None
  {
    hide DecodeLines, Lines;
  }

  lemma StaleRun(run: Run, model: string)
    requires run == CHANGED_RUN
    ensures var final, gathered := FinalResponse(run.state, model), Drain(NOTHING, AllItems(run, model)).gathered;
      && final.message.toolCalls == [ToolCall("b", "f", "")]
      && gathered.calls.Keys == {"a", "b"}
      && !HoldsExactly(gathered.calls, final.message.toolCalls)
      && Output(gathered) != Collected(IntoModelResponse(final))
  {
    hide AllItems, Drain, Output, Collected, IntoModelResponse, HoldsExactly, IdsIncreasing, DistinctIds, SnapshotIds, CallIds, FinalResponse, FinalMessage, PiecesText;
    EmptyPieces(run.emitted);
    ChangingFinal(run, model);
    RunRoundIff(run, model);
    HttpMapIff(run, model);
    HttpMapKeys(run, model);
    assert "a" !in CallIds(FinalMessage(run.state).toolCalls);
  }

  lemma ChangingRun(text: string)
    requires text == "data: x\n"
    ensures DecodeLines(ReadsChanging(), START, Lines(text))
         == CHANGED_RUN
  {
    SoleLine(text);
    DataLineReads("x", "\n");
    assert text == "data: " + "x" + "\n";
    StaleSnapshots(CHANGING);
    hide ReadLine, MergeCalls, Lines;
    assert [text][1..] == [];
    var step := MergePayload(START, Payload(None, [Choice(None, Some(CHANGING), None)]));
    assert step.emitted == MergeCalls(map[], CHANGING).emitted;
    assert step.emitted + [] == step.emitted;
  }

  lemma SoleLine(text: string)
    requires text == "data: x\n"
    ensures Lines(text) == [text]
  {
    assert text == ['d', 'a', 't', 'a', ':', ' ', 'x'] + ['\n'];
    assert IsLine(text);
    LinesUnique([text], "");
    assert Flatten([text]) == text + Flatten([text][1..]) && Flatten([text]) + "" == text;
  }

  lemma ChangingFinal(run: Run, model: string)
    requires run == CHANGED_RUN
    ensures FinalResponse(run.state, model).message == FinalMessage(run.state)
    ensures FinalMessage(run.state).toolCalls == [ToolCall("b", "f", "")]
    ensures SnapshotIds(run.emitted) == {"a", "b"} && CallIds(FinalMessage(run.state).toolCalls) == {"b"}
  {
    Ordered.SortedKeysUnique(Ordered.IndexLess, run.state.calls.Keys, [0]);
    assert FinalMessage(run.state).toolCalls == [ToolCall("b", "f", "")];
    assert run.emitted[0].call.id == "a" && run.emitted[1].call.id == "b";
  }

  lemma StaleSnapshots(deltas: seq<DeltaCall>)
    requires deltas == [DeltaCall(Some(0), Some("a"), Some("f"), None), DeltaCall(Some(0), Some("b"), None, None)]
    ensures var merged := MergeCalls(map[], deltas);
      && merged.calls == map[0 := ToolCall("b", "f", "")]
      && merged.emitted == [Snapshot(0, ToolCall("a", "f", "")), Snapshot(0, ToolCall("b", "f", ""))]
  {
    var first, second := ToolCall("a", "f", ""), ToolCall("b", "f", "");
    assert MergedCall(map[], deltas[0]) == first;
    assert MergedCall(map[0 := first], deltas[1]) == second;
    assert deltas[1..][1..] == [];
    assert MergeCalls(map[0 := first], deltas[1..]) == Merge(map[0 := second], [Snapshot(0, second)]);
  }
}
