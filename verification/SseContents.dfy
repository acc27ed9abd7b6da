/**
 What a decoded HTTP stream contains, told by the payloads of its `data:` lines: every field of the final message and of
 each call, and where decoding ends. These laws name neither the merge of a delta nor that of a payload.
 */
module SseContents {
  import opened Wrappers
  import opened ProviderModel
  import opened OpenAiTypes
  import opened SseTransport
  import opened SseLaws
  import Ordered
  import Text

  // ---- the deltas of one index ----

  /** Whether a delta belongs to an index; without one it belongs to index 0. */
  predicate Belongs(d: DeltaCall, index: nat) {
    d.index == Some(index) || (d.index == None && index == 0)
  }

  /** All arguments given for an index, one behind the other. */
  function GivenArguments(deltas: seq<DeltaCall>, index: nat): string {
    if deltas == [] then ""
    else (if Belongs(deltas[0], index) && deltas[0].arguments.Some? then deltas[0].arguments.value else "") + GivenArguments(deltas[1..], index)
  }

  /** The last name given for an index. */
  function LastName(deltas: seq<DeltaCall>, index: nat): Option<string> {
    if deltas == [] then None
    else
      var later := LastName(deltas[1..], index);
      if later.Some? then later else if Belongs(deltas[0], index) then deltas[0].name else None
  }

  /** The last id given for an index. */
  function LastId(deltas: seq<DeltaCall>, index: nat): Option<string> {
    if deltas == [] then None
    else
      var later := LastId(deltas[1..], index);
      if later.Some? then later else if Belongs(deltas[0], index) then deltas[0].id else None
  }

  predicate Touched(deltas: seq<DeltaCall>, index: nat) {
    exists k :: 0 <= k < |deltas| && Belongs(deltas[k], index)
  }

  /** The call of an index after some deltas for it, by what it was before. */
  predicate IsMerged(before: Option<ToolCall>, deltas: seq<DeltaCall>, index: nat, call: ToolCall) {
    && call.arguments == (if before.Some? then before.value.arguments else "") + GivenArguments(deltas, index)
    && call.name == (if LastName(deltas, index).Some? then LastName(deltas, index).value else if before.Some? then before.value.name else "")
    && call.id == (if LastId(deltas, index).Some? then LastId(deltas, index).value else if before.Some? then before.value.id else "tool_call_" + Decimal(index))
  }

  function At(calls: map<nat, ToolCall>, index: nat): Option<ToolCall> {
    if index in calls then Some(calls[index]) else None
  }

  lemma FirstDelta(calls: map<nat, ToolCall>, d: DeltaCall, index: nat)
    ensures var after := At(calls[IndexOf(d) := MergedCall(calls, d)], index);
      && (Belongs(d, index) ==>
            && after.Some?
            && after.value.arguments == (if index in calls then calls[index].arguments else "") + (if d.arguments.Some? then d.arguments.value else "")
            && after.value.name == (if d.name.Some? then d.name.value else if index in calls then calls[index].name else "")
            && after.value.id == (if d.id.Some? then d.id.value else if index in calls then calls[index].id else "tool_call_" + Decimal(index)))
      && (!Belongs(d, index) ==> after == At(calls, index))
  {
  }

  /**
   After any deltas an index has a call iff it had one or got a delta. Its arguments are the earlier ones followed by all
   that were given for it, in order; its name and its id are the last ones given, or the earlier ones, or the defaults.
   */
  lemma {:induction false} CallContents(calls: map<nat, ToolCall>, deltas: seq<DeltaCall>, index: nat)
    ensures var after := At(MergeCalls(calls, deltas).calls, index);
      && (after.Some? <==> index in calls || Touched(deltas, index))
      && (after.Some? ==> IsMerged(At(calls, index), deltas, index, after.value))
    decreases |deltas|
  {
    if deltas == [] {
      NothingGiven(calls, index);
    } else {
      hide MergedCall, IndexOf, MergeCalls, Touched, Belongs, Decimal, GivenArguments, LastName, LastId;
      var d := deltas[0];
      FirstDelta(calls, d, index);
      CallContents(calls[IndexOf(d) := MergedCall(calls, d)], deltas[1..], index);
      TouchedCons(deltas, index);
      MergeCallsCons(calls, deltas);
      GivenCons(deltas, index);
      Joins(if index in calls then calls[index].arguments else "", if Belongs(d, index) && d.arguments.Some? then d.arguments.value else "", GivenArguments(deltas[1..], index));
    }
  }

  lemma NothingGiven(calls: map<nat, ToolCall>, index: nat)
    ensures MergeCalls(calls, []).calls == calls && !Touched([], index)
    ensures index in calls ==> IsMerged(At(calls, index), [], index, calls[index])
  {
    if index in calls {
      assert calls[index].arguments + "" == calls[index].arguments;
    }
  }

  lemma GivenCons(deltas: seq<DeltaCall>, index: nat)
    requires deltas != []
    ensures var d, rest := deltas[0], deltas[1..];
      && GivenArguments(deltas, index) == (if Belongs(d, index) && d.arguments.Some? then d.arguments.value else "") + GivenArguments(rest, index)
      && LastName(deltas, index) == (if LastName(rest, index).Some? then LastName(rest, index) else if Belongs(d, index) then d.name else None)
      && LastId(deltas, index) == (if LastId(rest, index).Some? then LastId(rest, index) else if Belongs(d, index) then d.id else None)
  {
    hide Belongs;
  }

  lemma MergeCallsCons(calls: map<nat, ToolCall>, deltas: seq<DeltaCall>)
    requires deltas != []
    ensures MergeCalls(calls, deltas).calls == MergeCalls(calls[IndexOf(deltas[0]) := MergedCall(calls, deltas[0])], deltas[1..]).calls
  {
    hide MergedCall, IndexOf;
  }

  lemma TouchedCons(deltas: seq<DeltaCall>, index: nat)
    requires deltas != []
    ensures Touched(deltas, index) <==> Belongs(deltas[0], index) || Touched(deltas[1..], index)
  {
    if Touched(deltas, index) {
      var k :| 0 <= k < |deltas| && Belongs(deltas[k], index);
      assert k > 0 ==> deltas[1..][k - 1] == deltas[k];
    }
    if Touched(deltas[1..], index) {
      var k :| 0 <= k < |deltas[1..]| && Belongs(deltas[1..][k], index);
      assert deltas[k + 1] == deltas[1..][k];
    }
  }

  lemma Joins(a: string, b: string, c: string)
    ensures a + (b + c) == (a + b) + c && a + "" == a && "" + b == b
  {
  }

  /** The decimal digits of an index read back as the index, and begin with a zero only for zero. */
  function Read(digits: string): int {
    if digits == "" then 0 else Read(digits[..|digits| - 1]) * 10 + (digits[|digits| - 1] as int - '0' as int)
  }

  lemma {:induction false} DecimalReads(n: nat)
    ensures Decimal(n) != "" && Read(Decimal(n)) == n
    ensures forall i :: 0 <= i < |Decimal(n)| ==> '0' <= Decimal(n)[i] <= '9'
    ensures n > 0 ==> Decimal(n)[0] != '0'
  {
    if n >= 10 {
      DecimalReads(n / 10);
      hide Read, Decimal;
      DecimalStep(n);
      ReadSnoc(Decimal(n / 10), ('0' as int + n % 10) as char);
    } else {
      hide Read;
      var digit := ('0' as int + n) as char;
      assert Decimal(n) == "" + [digit];
      ReadSnoc("", digit);
      ReadNothing();
    }
  }

  lemma DecimalStep(n: nat)
    requires n >= 10
    ensures Decimal(n) == Decimal(n / 10) + [('0' as int + n % 10) as char]
  {
  }

  lemma ReadSnoc(digits: string, digit: char)
    ensures Read(digits + [digit]) == Read(digits) * 10 + (digit as int - '0' as int)
  {
    assert (digits + [digit])[..|digits|] == digits;
  }

  lemma ReadNothing()
    ensures Read("") == 0
  {
  }

  /** Each delta emits one snapshot, of its own index, in order. */
  lemma {:induction false} OneSnapshotEach(calls: map<nat, ToolCall>, deltas: seq<DeltaCall>)
    ensures var emitted := MergeCalls(calls, deltas).emitted;
      |emitted| == |deltas| && forall k :: 0 <= k < |deltas| ==> emitted[k].Snapshot? && Belongs(deltas[k], emitted[k].index)
    decreases |deltas|
  {
    if deltas != [] {
      OneSnapshotEach(calls[IndexOf(deltas[0]) := MergedCall(calls, deltas[0])], deltas[1..]);
    }
  }

  /** The `k`-th snapshot is the call of its index after the first `k + 1` deltas. */
  lemma {:induction false} SnapshotAt(calls: map<nat, ToolCall>, deltas: seq<DeltaCall>, k: nat)
    requires k < |deltas|
    ensures var e := MergeCalls(calls, deltas).emitted;
      |e| == |deltas| && e[k].Snapshot? && At(MergeCalls(calls, deltas[..k + 1]).calls, e[k].index) == Some(e[k].call)
    decreases |deltas|
  {
    hide MergedCall;
    OneSnapshotEach(calls, deltas);
    var next := calls[IndexOf(deltas[0]) := MergedCall(calls, deltas[0])];
    assert deltas[..k + 1][1..] == deltas[1..][..k];
    if k > 0 {
      SnapshotAt(next, deltas[1..], k - 1);
    } else {
      assert MergeCalls(next, deltas[1..][..0]) == Merge(next, []);
    }
  }

  lemma {:induction false} MergeAppend(calls: map<nat, ToolCall>, a: seq<DeltaCall>, b: seq<DeltaCall>)
    ensures MergeCalls(calls, a + b).calls == MergeCalls(MergeCalls(calls, a).calls, b).calls
    decreases |a|
  {
    if a == [] {
      assert a + b == b;
    } else {
      hide MergedCall, IndexOf;
      assert (a + b)[1..] == a[1..] + b;
      MergeAppend(calls[IndexOf(a[0]) := MergedCall(calls, a[0])], a[1..], b);
    }
  }

  // ---- the payloads of a text ----

  /** The payloads decoded from some lines, in order, up to the end mark or a payload that does not parse. */
  function Payloads(parse: Parser, lines: seq<string>): seq<Payload>
    decreases |lines|
  {
    if lines == [] then []
    else
      match ReadLine(lines[0])
      case Skipped => Payloads(parse, lines[1..])
      case DoneMark => []
      case Data(payload) => if parse(payload).Err? then [] else [parse(payload).value] + Payloads(parse, lines[1..])
  }

  /** Only the first choice of a payload counts. */
  function ContentOf(p: Payload): string {
    if p.choices != [] && p.choices[0].content.Some? then p.choices[0].content.value else ""
  }

  function DeltasOf(p: Payload): seq<DeltaCall> {
    if p.choices != [] && p.choices[0].toolCalls.Some? then p.choices[0].toolCalls.value else []
  }

  function AllContent(ps: seq<Payload>): string {
    if ps == [] then "" else ContentOf(ps[0]) + AllContent(ps[1..])
  }

  function AllDeltas(ps: seq<Payload>): seq<DeltaCall> {
    if ps == [] then [] else DeltasOf(ps[0]) + AllDeltas(ps[1..])
  }

  function FirstModel(ps: seq<Payload>): Option<string> {
    if ps == [] then None else if ps[0].model.Some? then ps[0].model else FirstModel(ps[1..])
  }

  function LastFinish(ps: seq<Payload>): Option<string> {
    if ps == [] then None
    else
      var later := LastFinish(ps[1..]);
      if later.Some? then later else if ps[0].choices != [] then ps[0].choices[0].finishReason else None
  }

  /** What one payload does to the state, and what it emits: its content first, then a snapshot for each of its deltas. */
  lemma PayloadContents(s: Decoded, p: Payload)
    ensures var step := MergePayload(s, p);
      && step.state.content == s.content + ContentOf(p)
      && step.state.calls == MergeCalls(s.calls, DeltasOf(p)).calls
      && step.state.model == (if s.model.Some? then s.model else p.model)
      && step.state.finishReason == (if p.choices != [] && p.choices[0].finishReason.Some? then ParseFinishReason(p.choices[0].finishReason.value) else s.finishReason)
      && step.emitted == (if ContentOf(p) != "" then [TextPiece(ContentOf(p))] else []) + MergeCalls(s.calls, DeltasOf(p)).emitted
  {
    hide MergedCall;
    assert s.content + "" == s.content;
    assert MergeCalls(s.calls, []) == Merge(s.calls, []);
  }

  /** The state after any lines: the contents joined, the deltas merged, the first model and the last finish reason. */
  lemma {:induction false} StateContents(parse: Parser, s: Decoded, lines: seq<string>)
    ensures var state, ps := DecodeLines(parse, s, lines).state, Payloads(parse, lines);
      && state.content == s.content + AllContent(ps)
      && state.calls == MergeCalls(s.calls, AllDeltas(ps)).calls
      && state.model == (if s.model.Some? then s.model else FirstModel(ps))
      && state.finishReason == (if LastFinish(ps).Some? then ParseFinishReason(LastFinish(ps).value) else s.finishReason)
    decreases |lines|
  {
    hide ReadLine, MergePayload, ContentOf, DeltasOf, ParseFinishReason;
    NoPayloads(s);
    if lines != [] {
      match ReadLine(lines[0])
      case Skipped => StateContents(parse, s, lines[1..]);
      case DoneMark =>
      case Data(payload) =>
        if parse(payload).Ok? {
          var p := parse(payload).value;
          var next, rest := MergePayload(s, p).state, Payloads(parse, lines[1..]);
          PayloadContents(s, p);
          StateContents(parse, next, lines[1..]);
          hide MergeCalls, DecodeLines, AllContent, AllDeltas, FirstModel, LastFinish;
          assert ([p] + rest)[1..] == rest;
          PayloadsCons(p, rest);
          MergeAppend(s.calls, DeltasOf(p), AllDeltas(rest));
          Joins(s.content, ContentOf(p), AllContent(rest));
          OneMoreLine(parse, s, lines, p);
        }
    }
  }

  lemma NoPayloads(s: Decoded)
    ensures AllContent([]) == "" && AllDeltas([]) == [] && FirstModel([]) == None && LastFinish([]) == None
    ensures s.content + "" == s.content && MergeCalls(s.calls, []).calls == s.calls
  {
  }

  lemma PayloadsCons(p: Payload, rest: seq<Payload>)
    ensures var ps := [p] + rest;
      && AllContent(ps) == ContentOf(p) + AllContent(rest)
      && AllDeltas(ps) == DeltasOf(p) + AllDeltas(rest)
      && FirstModel(ps) == (if p.model.Some? then p.model else FirstModel(rest))
      && LastFinish(ps) == (if LastFinish(rest).Some? then LastFinish(rest) else if p.choices != [] then p.choices[0].finishReason else None)
  {
    hide ContentOf, DeltasOf;
    assert ([p] + rest)[1..] == rest;
  }

  lemma OneMoreLine(parse: Parser, s: Decoded, lines: seq<string>, p: Payload)
    requires lines != [] && ReadLine(lines[0]).Data? && parse(ReadLine(lines[0]).payload) == Ok(p)
    ensures DecodeLines(parse, s, lines).state == DecodeLines(parse, MergePayload(s, p).state, lines[1..]).state
    ensures Payloads(parse, lines) == [p] + Payloads(parse, lines[1..])
  {
    hide ReadLine, MergePayload;
  }

  // ---- where decoding ends ----

  /** The line does not end the decoding: it is skipped, or its payload parses. */
  predicate GoesOn(parse: Parser, line: string) {
    var l := ReadLine(line);
    l.Skipped? || (l.Data? && parse(l.payload).Ok?)
  }

  /** Decoding ends at the first line that does not let it go on; what comes behind that line counts for nothing. */
  lemma {:induction false} DecodingEnds(parse: Parser, s: Decoded, lines: seq<string>, k: nat)
    requires k <= |lines| && (forall j :: 0 <= j < k ==> GoesOn(parse, lines[j])) && (k < |lines| ==> !GoesOn(parse, lines[k]))
    ensures var run := DecodeLines(parse, s, lines);
      && run.state == DecodeLines(parse, s, lines[..k]).state && run.emitted == DecodeLines(parse, s, lines[..k]).emitted
      && (k == |lines| ==> run.halt == Exhausted)
      && (k < |lines| && ReadLine(lines[k]).DoneMark? ==> run.halt == SawDone)
      && (k < |lines| && ReadLine(lines[k]).Data? ==> parse(ReadLine(lines[k]).payload).Err? && run.halt == Broke(parse(ReadLine(lines[k]).payload).error))
    decreases |lines|
  {
    hide ReadLine, MergePayload;
    if k > 0 {
      assert lines[..k][0] == lines[0] && lines[..k][1..] == lines[1..][..k - 1];
      assert forall j :: 0 <= j < |lines| - 1 ==> lines[1..][j] == lines[j + 1];
      var next := if ReadLine(lines[0]).Data? then MergePayload(s, parse(ReadLine(lines[0]).payload).value).state else s;
      DecodingEnds(parse, next, lines[1..], k - 1);
    }
  }

  /** How a stream ends: with an error iff a payload does not parse, or the transport fails before an end mark. */
  lemma StreamEnds(parse: Parser, model: string, text: string, failure: Option<string>, k: nat)
    requires var lines := Lines(text); k <= |lines| && (forall j :: 0 <= j < k ==> GoesOn(parse, lines[j])) && (k < |lines| ==> !GoesOn(parse, lines[k]))
    ensures var lines, error := Lines(text), DecodeText(parse, model, text, failure).error;
      && (k == |lines| ==> (error == None <==> failure == None))
      && (k == |lines| && failure.Some? ==> error == Some(ProviderError(Transport, failure.value, true)))
      && (k < |lines| && ReadLine(lines[k]).DoneMark? ==> error == None)
      && (k < |lines| && ReadLine(lines[k]).Data? ==>
            parse(ReadLine(lines[k]).payload).Err? && error == Some(ProviderError(Transport, parse(ReadLine(lines[k]).payload).error, true)))
  {
    hide ReadLine, Lines;
    DecodingEnds(parse, START, Lines(text), k);
  }

  // ---- the final response ----

  /** The indices that got a delta, from small to large, and nothing else. */
  ghost predicate Enumerates(keys: seq<nat>, deltas: seq<DeltaCall>) {
    (forall i, j :: 0 <= i < j < |keys| ==> keys[i] < keys[j]) && forall k: nat :: k in keys <==> Touched(deltas, k)
  }

  /**
   The final response of any text: its content is all content, it has one call for each index that got a delta, in the
   order of the indices, with the arguments, name and id given for it, the first model given or the requested one, the
   last finish reason given and no usage.
   */
  lemma FinalContents(parse: Parser, model: string, text: string) returns (keys: seq<nat>)
    ensures Enumerates(keys, AllDeltas(Payloads(parse, Lines(text))))
    ensures var ps, final := Payloads(parse, Lines(text)), FinalResponse(DecodeLines(parse, START, Lines(text)).state, model);
      && final.message.content == AllContent(ps)
      && |final.message.toolCalls| == |keys|
      && (forall i :: 0 <= i < |keys| ==> IsMerged(None, AllDeltas(ps), keys[i], final.message.toolCalls[i]))
      && final.model == (if FirstModel(ps).Some? then FirstModel(ps).value else model)
      && final.finishReason == (if LastFinish(ps).Some? then ParseFinishReason(LastFinish(ps).value) else OtherReason)
      && final.usage == TokenUsage(0, 0, 0)
  {
    hide Lines, ParseFinishReason, DecodeLines, MergeCalls, AllContent, FirstModel, LastFinish, Touched, IsMerged, Ordered.ByIndex;
    var ps, state := Payloads(parse, Lines(text)), DecodeLines(parse, START, Lines(text)).state;
    StateContents(parse, START, Lines(text));
    assert "" + AllContent(ps) == AllContent(ps);
    forall k: nat ensures k in state.calls <==> Touched(AllDeltas(ps), k) {
      CallContents(map[], AllDeltas(ps), k);
    }
    keys := Ordered.SortedKeys(Ordered.IndexLess, state.calls.Keys);
    assert forall i, j :: 0 <= i < j < |keys| ==> Ordered.IndexLess(keys[i], keys[j]);
    Ordered.ByIndexIs(state.calls, keys);
    forall i | 0 <= i < |keys| ensures IsMerged(None, AllDeltas(ps), keys[i], Ordered.ByIndex(state.calls)[i]) {
      CallContents(map[], AllDeltas(ps), keys[i]);
    }
  }
}
