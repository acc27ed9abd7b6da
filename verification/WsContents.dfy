/**
 What the WebSocket accumulator holds and what a terminal event makes of it, told by the fields of the events: each kind
 of event, any history of events, the final message, and where a reception ends.
 */
module WsContents {
  import opened Wrappers
  import opened ProviderModel
  import opened ChatTurn
  import opened OpenAiTypes
  import opened Json
  import opened TurnEquivalence
  import opened ResponsesWs
  import opened ResponsesWsLaws
  import Ordered
  import Text

  function Or(o: Option<string>, default: string): string {
    if o.Some? then o.value else default
  }

  function Call(a: Accumulated, id: string): Option<ToolCall> {
    if id in a.calls then Some(a.calls[id]) else None
  }

  /** Every call but one is as before. */
  ghost predicate OthersKept(a: Accumulated, b: Accumulated, id: string) {
    forall other :: other != id ==> Call(b, other) == Call(a, other)
  }

  // ---- one event ----

  /** Text deltas are appended and passed on, except empty ones. */
  lemma TextDeltaEvent(a: Accumulated, model: string, event: Json)
    requires event.Text("type") == Some("response.output_text.delta")
    ensures var c, d := Classify(event), Or(event.Text("delta"), "");
      && Changed(a, c) == Accumulated(a.text + d, a.calls)
      && Emission(a, model, c) == Ok(if d == "" then [] else [TextDeltaChunk(d)])
  {
  }

  /** The id an arguments delta names: its own, that of its item, or the default. */
  function DeltaId(event: Json): string {
    if event.Text("call_id").Some? then event.Text("call_id").value else Or(event.NestedText("item", "call_id"), "tool_call_0")
  }

  /** Arguments deltas are appended to the call they name, a name that comes with them replaces its name. */
  lemma ArgumentsDeltaEvent(a: Accumulated, model: string, event: Json)
    requires event.Text("type") == Some("response.function_call_arguments.delta")
    ensures var c, id, before := Classify(event), DeltaId(event), Call(a, DeltaId(event));
      var name := if event.Text("name").Some? then event.Text("name").value else Or(event.NestedText("item", "name"), "");
      var call := ToolCall(
        if before.Some? then before.value.id else id,
        if name != "" then name else if before.Some? then before.value.name else "",
        (if before.Some? then before.value.arguments else "") + Or(event.Text("delta"), ""));
      && Call(Changed(a, c), id) == Some(call) && Changed(a, c).text == a.text && OthersKept(a, Changed(a, c), id)
      && Emission(a, model, c) == Ok([ToolCallDeltaChunk(call)])
  {
    assert "response.function_call_arguments.delta" != "response.output_text.delta" by {
      assert |"response.function_call_arguments.delta"| == 38 && |"response.output_text.delta"| == 26;
    }
  }

  predicate IsItemEvent(event: Json) {
    event.Text("type") == Some("response.output_item.added") || event.Text("type") == Some("response.output_item.done")
  }

  /** The id of an output item: its call id, its own id, or the default. */
  function IdOf(item: Json): string {
    if item.Text("call_id").Some? then item.Text("call_id").value else Or(item.Text("id"), "tool_call_0")
  }

  predicate IsCall(item: Json) {
    item.Text("type") == Some("function_call")
  }

  /** An item with a call replaces name and arguments of the call, where it gives them. */
  lemma CallItemEvent(a: Accumulated, model: string, event: Json, item: Json)
    requires IsItemEvent(event) && event.Get("item") == Some(item) && IsCall(item)
    ensures var c, id, before := Classify(event), IdOf(item), Call(a, IdOf(item));
      var call := ToolCall(
        if before.Some? then before.value.id else id,
        if item.Text("name").Some? then item.Text("name").value else if before.Some? then before.value.name else "",
        if item.Text("arguments").Some? then item.Text("arguments").value else if before.Some? then before.value.arguments else "");
      && Call(Changed(a, c), id) == Some(call) && Changed(a, c).text == a.text && OthersKept(a, Changed(a, c), id)
      && Emission(a, model, c) == Ok([ToolCallDeltaChunk(call)])
  {
    ItemTypes();
  }

  lemma ItemTypes()
    ensures var added, done := "response.output_item.added", "response.output_item.done";
      && added != "error" && added != "response.output_text.delta" && added != "response.function_call_arguments.delta"
      && done != "error" && done != "response.output_text.delta" && done != "response.function_call_arguments.delta"
  {
    assert |"response.output_item.added"| == 26 && |"response.output_item.done"| == 25 && |"response.output_text.delta"| == 26;
    assert |"response.function_call_arguments.delta"| == 38;
    assert "response.output_item.added"[25] == 'd' && "response.output_text.delta"[25] == 'a';
  }

  /** A message item gives the text while there is none; other items, and item events without an item, change nothing. */
  lemma OtherItemEvent(a: Accumulated, model: string, event: Json)
    requires IsItemEvent(event) && (event.Get("item").Some? ==> !IsCall(event.Get("item").value))
    ensures var c, item := Classify(event), event.Get("item");
      && Emission(a, model, c) == Ok([])
      && Changed(a, c) == (if item.Some? && item.value.Text("type") == Some("message") && a.text == "" then Accumulated(MessageText(item.value), a.calls) else a)
  {
    ItemTypes();
  }

  predicate EndsResponse(event: Json) {
    || event.Text("type") == Some("response.completed") || event.Text("type") == Some("response.failed")
    || event.Text("type") == Some("response.incomplete") || event.Text("type") == Some("response.cancelled")
  }

  predicate IsKnown(event: Json) {
    || event.Text("type") == Some("error") || event.Text("type") == Some("response.output_text.delta")
    || event.Text("type") == Some("response.function_call_arguments.delta") || IsItemEvent(event) || EndsResponse(event)
  }

  /** Terminal events finish the response they carry, error events fail, and every event of another type is ignored. */
  lemma OtherEvents(event: Json)
    ensures EndsResponse(event) ==> Classify(event) == Finishes(if event.Get("response").Some? then event.Get("response").value else Null)
    ensures event.Text("type") == Some("error") ==> Classify(event) == Fails(MapWsError(event))
    ensures !IsKnown(event) ==> Classify(event) == Ignored
    ensures Classify(event).Finishes? <==> EndsResponse(event)
    ensures Classify(event).Fails? <==> event.Text("type") == Some("error")
  {
    hide MapWsError, MessageText, ItemCallId;
    TerminalTypes();
    assert event.Text("type") == None ==> event.Text("type").GetOr("") == "";
  }

  ghost predicate IsOtherType(t: string) {
    && t != "error" && t != "" && t != "response.output_text.delta" && t != "response.function_call_arguments.delta"
    && t != "response.output_item.added" && t != "response.output_item.done"
  }

  lemma TerminalTypes()
    ensures IsOtherType("response.completed") && IsOtherType("response.failed")
    ensures IsOtherType("response.incomplete") && IsOtherType("response.cancelled")
  {
    assert |"response.completed"| == 18 && |"response.failed"| == 15 && |"response.incomplete"| == 19 && |"response.cancelled"| == 18;
    assert |"response.output_item.added"| == 26 && |"response.output_item.done"| == 25 && |"response.output_text.delta"| == 26;
    assert |"response.function_call_arguments.delta"| == 38;
  }

  /** The accumulator is changed by none of these, and an error emits nothing. */
  lemma NothingChanged(a: Accumulated, model: string, c: Change)
    requires c.Finishes? || c.Fails? || c.Ignored?
    ensures Changed(a, c) == a
    ensures c.Fails? ==> Emission(a, model, c) == Err(c.error)
    ensures c.Ignored? ==> Emission(a, model, c) == Ok([])
  {
    hide FinalResponse;
  }

  /** The error an error event reports: its message, and a kind told by its code and, for other codes, by its status. */
  lemma ReportedError(event: Json)
    ensures var e, error := MapWsError(event), if event.Get("error").Some? then event.Get("error").value else Null;
      var status, code := event.Number("status") % 65536, Or(error.Text("code"), "");
      var refused := code == "previous_response_not_found" || code == "websocket_connection_limit_reached";
      && e.message == Or(error.Text("message"), "OpenAI websocket request failed")
      && (e.kind == InvalidRequest <==> refused || status == 400 || status == 422)
      && (e.kind == Authentication <==> !refused && (status == 401 || status == 403))
      && (e.kind == Timeout <==> !refused && (status == 408 || status == 504))
      && (e.kind == RateLimited <==> !refused && status == 429)
      && (e.kind == Unavailable <==> !refused && (status == 502 || status == 503))
      && e.kind != OtherKind
      && (e.retryable <==> e.kind == Timeout || e.kind == RateLimited || e.kind == Unavailable || e.kind == Transport)
  {
  }

  // ---- any history of events ----

  function After(a: Accumulated, cs: seq<Change>): Accumulated
    decreases |cs|
  {
    if cs == [] then a else After(Changed(a, cs[0]), cs[1..])
  }

  function Changes(events: seq<Json>): (cs: seq<Change>)
    ensures |cs| == |events|
  {
    seq(|events|, i requires 0 <= i < |events| => Classify(events[i]))
  }

  /** The accumulator after some events is the one after their changes. */
  lemma {:induction false} FeedIsAfter(a: Accumulated, model: string, events: seq<Json>)
    ensures Feed(a, model, events).state == After(a, Changes(events))
    decreases |events|
  {
    if events != [] {
      hide Classify, Changed, ResponsesWsLaws.Emitted;
      assert Changes(events)[1..] == Changes(events[1..]);
      FeedIsAfter(Changed(a, Classify(events[0])), model, events[1..]);
    }
  }

  lemma {:induction false} AfterAppend(a: Accumulated, cs: seq<Change>, ds: seq<Change>)
    ensures After(a, cs + ds) == After(After(a, cs), ds)
    decreases |cs|
  {
    if cs == [] {
      assert cs + ds == ds;
    } else {
      hide Changed;
      assert (cs + ds)[1..] == cs[1..] + ds;
      AfterAppend(Changed(a, cs[0]), cs[1..], ds);
    }
  }

  /** Sets the arguments of a call, whatever they were. */
  predicate SetsArguments(c: Change, id: string) {
    c.SetsCall? && c.id == id && c.newArguments.Some?
  }

  predicate Touches(c: Change, id: string) {
    (c.ExtendsCall? || c.SetsCall?) && c.id == id
  }

  /** All argument deltas for an id, one behind the other. */
  function DeltaArguments(cs: seq<Change>, id: string): string {
    if cs == [] then "" else (if cs[0].ExtendsCall? && cs[0].id == id then cs[0].arguments else "") + DeltaArguments(cs[1..], id)
  }

  function ArgumentsOf(call: Option<ToolCall>): string {
    if call.Some? then call.value.arguments else ""
  }

  /** No change sets the arguments of the call. */
  ghost predicate NoneSets(cs: seq<Change>, id: string) {
    forall j :: 0 <= j < |cs| ==> !SetsArguments(cs[j], id)
  }

  lemma NoneSetsTail(cs: seq<Change>, id: string)
    requires cs != [] && NoneSets(cs, id)
    ensures !SetsArguments(cs[0], id) && NoneSets(cs[1..], id)
  {
    hide SetsArguments;
  }

  /** While no item sets them, arguments grow by exactly the deltas for their call. */
  lemma {:induction false} ArgumentsGrow(a: Accumulated, cs: seq<Change>, id: string)
    requires NoneSets(cs, id)
    ensures ArgumentsOf(Call(After(a, cs), id)) == ArgumentsOf(Call(a, id)) + DeltaArguments(cs, id)
    decreases |cs|
  {
    if cs == [] {
      assert ArgumentsOf(Call(a, id)) + "" == ArgumentsOf(Call(a, id));
    } else {
      hide *;
      var next, delta := Changed(a, cs[0]), if cs[0].ExtendsCall? && cs[0].id == id then cs[0].arguments else "";
      NoneSetsTail(cs, id);
      AfterCons(a, cs);
      ArgumentsGrow(next, cs[1..], id);
      OneChange(a, cs[0], id);
      DeltaArgumentsCons(cs, id);
      Reassociate(ArgumentsOf(Call(a, id)), delta, DeltaArguments(cs[1..], id));
    }
  }

  lemma Reassociate(x: string, y: string, z: string)
    ensures x + (y + z) == (x + y) + z
  {
  }

  lemma AfterCons(a: Accumulated, cs: seq<Change>)
    requires cs != []
    ensures After(a, cs) == After(Changed(a, cs[0]), cs[1..])
  {
    hide Changed;
  }

  lemma DeltaArgumentsCons(cs: seq<Change>, id: string)
    requires cs != []
    ensures DeltaArguments(cs, id) == (if cs[0].ExtendsCall? && cs[0].id == id then cs[0].arguments else "") + DeltaArguments(cs[1..], id)
  {
  }

  lemma OneChange(a: Accumulated, c: Change, id: string)
    requires !SetsArguments(c, id)
    ensures ArgumentsOf(Call(Changed(a, c), id)) == ArgumentsOf(Call(a, id)) + if c.ExtendsCall? && c.id == id then c.arguments else ""
  {
    assert ArgumentsOf(Call(a, id)) + "" == ArgumentsOf(Call(a, id));
  }

  /** After any events the arguments of a call are those an item set last, followed by the deltas that came later. */
  lemma ArgumentsHistory(a: Accumulated, cs: seq<Change>, id: string, k: nat)
    requires k < |cs| && SetsArguments(cs[k], id) && forall j :: k < j < |cs| ==> !SetsArguments(cs[j], id)
    ensures id in After(a, cs).calls
    ensures ArgumentsOf(Call(After(a, cs), id)) == cs[k].newArguments.value + DeltaArguments(cs[k + 1..], id)
  {
    hide Changed, DeltaArguments;
    var before := After(a, cs[..k]);
    assert cs == cs[..k] + cs[k..] && cs[k..][1..] == cs[k + 1..] && cs[k..][0] == cs[k];
    AfterAppend(a, cs[..k], cs[k..]);
    SetChange(before, cs[k], id);
    var later := cs[k + 1..];
    forall j | 0 <= j < |later| ensures !SetsArguments(later[j], id) {
      assert later[j] == cs[k + 1 + j];
    }
    assert NoneSets(later, id);
    ArgumentsGrow(Changed(before, cs[k]), later, id);
    CallsStay(Changed(before, cs[k]), cs[k + 1..], id);
  }

  lemma SetChange(a: Accumulated, c: Change, id: string)
    requires SetsArguments(c, id)
    ensures id in Changed(a, c).calls && ArgumentsOf(Call(Changed(a, c), id)) == c.newArguments.value
  {
  }

  lemma {:induction false} CallsStay(a: Accumulated, cs: seq<Change>, id: string)
    requires id in a.calls
    ensures id in After(a, cs).calls
    decreases |cs|
  {
    if cs != [] {
      CallsStay(Changed(a, cs[0]), cs[1..], id);
    }
  }

  /** The name a change gives to a call: a delta's if it is not empty, an item's if it has one. */
  function GivenName(c: Change, id: string): Option<string> {
    if c.ExtendsCall? && c.id == id && c.name != "" then Some(c.name)
    else if c.SetsCall? && c.id == id then c.newName
    else None
  }

  /** After any events the name of a call is the last one given, and a call is there iff it was or some event touched it. */
  lemma {:induction false} NameHistory(a: Accumulated, cs: seq<Change>, id: string, k: nat)
    requires k <= |cs| && (k < |cs| ==> GivenName(cs[k], id).Some?)
    requires forall j :: (if k == |cs| then 0 else k + 1) <= j < |cs| ==> GivenName(cs[j], id) == None
    ensures var call := Call(After(a, cs), id);
      && (call.Some? <==> id in a.calls || exists j :: 0 <= j < |cs| && Touches(cs[j], id))
      && (call.Some? && k < |cs| ==> call.value.name == GivenName(cs[k], id).value)
      && (call.Some? && k == |cs| ==> call.value.name == if id in a.calls then a.calls[id].name else "")
    decreases |cs|
  {
    if cs != [] {
      var next := Changed(a, cs[0]);
      assert forall j :: 0 <= j < |cs| - 1 ==> cs[1..][j] == cs[j + 1];
      NameChange(a, cs[0], id);
      TouchesCons(cs, id);
      hide Changed, GivenName, Touches;
      NameHistory(next, cs[1..], id, if k == 0 then |cs| - 1 else k - 1);
    }
  }

  lemma TouchesCons(cs: seq<Change>, id: string)
    requires cs != []
    ensures (exists j :: 0 <= j < |cs| && Touches(cs[j], id)) <==> Touches(cs[0], id) || exists j :: 0 <= j < |cs[1..]| && Touches(cs[1..][j], id)
  {
    if j :| 0 <= j < |cs| && Touches(cs[j], id) {
      assert j > 0 ==> cs[1..][j - 1] == cs[j];
    }
    if j :| 0 <= j < |cs[1..]| && Touches(cs[1..][j], id) {
      assert cs[j + 1] == cs[1..][j];
    }
  }

  lemma NameChange(a: Accumulated, c: Change, id: string)
    ensures var before, call := Call(a, id), Call(Changed(a, c), id);
      && (call.Some? <==> id in a.calls || Touches(c, id))
      && (call.Some? ==> call.value.name == if GivenName(c, id).Some? then GivenName(c, id).value else if before.Some? then before.value.name else "")
  {
  }

  // ---- texts of items ----

  /** The text of a message item is that of its `output_text` parts, in order. */
  lemma {:induction false} PartsAppend(a: seq<Json>, b: seq<Json>)
    ensures PartsText(a + b) == PartsText(a) + PartsText(b)
  {
    if a == [] {
      assert a + b == b;
    } else {
      hide PartText;
      assert (a + b)[1..] == a[1..] + b;
      PartsAppend(a[1..], b);
      assert PartText(a[0]) + (PartsText(a[1..]) + PartsText(b)) == (PartText(a[0]) + PartsText(a[1..])) + PartsText(b);
    }
  }

  lemma PartOfOne(part: Json)
    ensures PartsText([]) == ""
    ensures part.Text("type") == Some("output_text") ==> PartsText([part]) == Or(part.Text("text"), "")
    ensures part.Text("type") != Some("output_text") ==> PartsText([part]) == ""
  {
    assert [part][1..] == [];
    assert PartText(part) + "" == PartText(part);
  }

  lemma MessageTextIs(item: Json, parts: seq<Json>)
    ensures item.Get("content") == Some(Array(parts)) ==> MessageText(item) == PartsText(parts)
    ensures item.Get("content") == None ==> MessageText(item) == ""
  {
  }

  // ---- the final response ----

  /** The item carries the final text: an assistant message that is not empty. */
  predicate GivesText(item: Json) {
    item.Text("type") == Some("message") && item.Text("role") == Some("assistant") && MessageText(item) != ""
  }

  /** The final text is that of the last such item, else the accumulated one. */
  lemma {:induction false} FinalTextContents(text: string, items: seq<Json>, k: nat)
    requires k <= |items| && (k < |items| ==> GivesText(items[k]))
    requires forall j :: (if k == |items| then 0 else k + 1) <= j < |items| ==> !GivesText(items[j])
    ensures FinalText(text, items) == if k < |items| then MessageText(items[k]) else text
    decreases |items|
  {
    if items != [] {
      hide GivesText, FinalText;
      var rest := items[1..];
      forall j | 0 <= j < |rest| ensures rest[j] == items[j + 1] {
      }
      OneTextItem(text, items);
      FinalTextContents(if GivesText(items[0]) then MessageText(items[0]) else text, rest, if k == 0 then |items| - 1 else k - 1);
    } else {
      assert FinalText(text, []) == text;
    }
  }

  lemma OneTextItem(text: string, items: seq<Json>)
    requires items != []
    ensures FinalText(text, items) == FinalText(if GivesText(items[0]) then MessageText(items[0]) else text, items[1..])
  {
    hide MessageText;
  }

  /** An id whose last call item is the `k`-th has the name and arguments of that item, and nothing of earlier ones. */
  lemma {:induction false} FinalCallContents(calls: map<string, ToolCall>, items: seq<Json>, k: nat)
    requires k < |items| && IsCall(items[k]) && forall j :: k < j < |items| && IsCall(items[j]) ==> IdOf(items[j]) != IdOf(items[k])
    ensures var id, finals := IdOf(items[k]), FinalCalls(calls, items);
      id in finals && finals[id] == ToolCall(id, Or(items[k].Text("name"), ""), Or(items[k].Text("arguments"), ""))
    decreases |items|
  {
    assert forall j :: 0 <= j < |items| - 1 ==> items[1..][j] == items[j + 1];
    var next := if IsCall(items[0]) then calls[IdOf(items[0]) := ToolCall(IdOf(items[0]), Or(items[0].Text("name"), ""), Or(items[0].Text("arguments"), ""))] else calls;
    OneCallItem(calls, items);
    hide FinalCalls, IdOf, IsCall, Or;
    if k > 0 {
      FinalCallContents(next, items[1..], k - 1);
    } else {
      UnnamedCallStays(next, items[1..], IdOf(items[0]));
    }
  }

  lemma OneCallItem(calls: map<string, ToolCall>, items: seq<Json>)
    requires items != []
    ensures var next := if IsCall(items[0]) then calls[IdOf(items[0]) := ToolCall(IdOf(items[0]), Or(items[0].Text("name"), ""), Or(items[0].Text("arguments"), ""))] else calls;
      FinalCalls(calls, items) == FinalCalls(next, items[1..])
  {
  }

  /** An id without call items keeps the accumulated call, if there is one. */
  lemma {:induction false} UnnamedCallStays(calls: map<string, ToolCall>, items: seq<Json>, id: string)
    requires forall j :: 0 <= j < |items| && IsCall(items[j]) ==> IdOf(items[j]) != id
    ensures id in FinalCalls(calls, items) <==> id in calls
    ensures id in calls ==> FinalCalls(calls, items)[id] == calls[id]
    decreases |items|
  {
    if items != [] {
      assert forall j :: 0 <= j < |items| - 1 ==> items[1..][j] == items[j + 1];
      var next := if IsCall(items[0]) then calls[IdOf(items[0]) := ToolCall(IdOf(items[0]), Or(items[0].Text("name"), ""), Or(items[0].Text("arguments"), ""))] else calls;
      OneCallItem(calls, items);
      UnnamedCallStays(next, items[1..], id);
    }
  }

  /** The final response around its text and calls: the calls come in the order of their ids, each once. */
  lemma FinalResponseContents(a: Accumulated, model: string, response: Json) returns (ids: seq<string>)
    ensures var final, calls := FinalResponse(a, model, response), FinalCalls(a.calls, response.Elements("output"));
      && final.model == Or(response.Text("model"), model)
      && final.message.content == FinalText(a.text, response.Elements("output"))
      && Ordered.Increasing(Ordered.StringLess, ids) && (forall id :: id in ids <==> id in calls)
      && |final.message.toolCalls| == |ids|
      && (forall i :: 0 <= i < |ids| ==> final.message.toolCalls[i] == calls[ids[i]])
  {
    hide ParseFinishReason, ParseUsage, FinalText, FinalCalls, Ordered.StringLess, Ordered.ByName;
    var calls := FinalCalls(a.calls, response.Elements("output"));
    Ordered.StringLessTotal();
    ids := Ordered.SortedKeys(Ordered.StringLess, calls.Keys);
    hide Ordered.StrictTotal, Ordered.SortedKeys, Ordered.Increasing;
    Ordered.ByNameIs(calls, ids);
  }

  /** The finish reason: the stop reason in any letter case if there is one, else the status. */
  lemma FinishContents(response: Json)
    ensures var finish := ResponsesWs.ParseFinishReason(response);
      if response.Text("stop_reason").Some? then
        var reason := Text.AsciiLower(response.Text("stop_reason").value);
        && (finish == Stop <==> reason == "stop")
        && (finish == Length <==> reason == "length" || reason == "max_output_tokens")
        && (finish == ToolCalls <==> reason == "tool_calls" || reason == "function_call")
        && (finish == CancelledReason <==> reason == "cancelled")
      else
        && (finish == Stop <==> response.Text("status") == Some("completed"))
        && (finish == Length <==> response.Text("status") == Some("incomplete"))
        && (finish == CancelledReason <==> response.Text("status") == Some("cancelled"))
        && finish != ToolCalls
    ensures FinalResponse(Accumulated("", map[]), "", response).finishReason == ResponsesWs.ParseFinishReason(response)
  {
    hide FinalText, FinalCalls, ParseUsage, Text.AsciiLower, Ordered.ByName;
  }

  /** The usage is read from its three numbers, cut to 32 bits. */
  lemma UsageContents(a: Accumulated, model: string, response: Json)
    ensures var usage, given := FinalResponse(a, model, response).usage, if response.Get("usage").Some? then response.Get("usage").value else Null;
      && usage.inputTokens == given.Number("input_tokens") % 0x1_0000_0000
      && usage.outputTokens == given.Number("output_tokens") % 0x1_0000_0000
      && usage.totalTokens == given.Number("total_tokens") % 0x1_0000_0000
    ensures FinalResponse(a, model, response).finishReason == ResponsesWs.ParseFinishReason(response)
  {
    hide FinalText, FinalCalls, ParseFinishReason, Ordered.ByName;
  }

  // ---- where a reception ends ----

  /** The frame neither ends the response nor breaks it off. */
  predicate Passes(f: Frame) {
    || f.OtherFrame? || (f.Ping? && f.pongFailure == None)
    || (f.TextFrame? && !EndsResponse(f.event) && f.event.Text("type") != Some("error"))
  }

  function EventsIn(frames: seq<Frame>): seq<Json> {
    if frames == [] then [] else (if frames[0].TextFrame? then [frames[0].event] else []) + EventsIn(frames[1..])
  }

  function Broken(message: string): ProviderError {
    ProviderError(Transport, message, true)
  }

  const CLOSED_EARLY := "OpenAI websocket closed before response completed"

  /** How a reception ends at frame `k`, or when frames run out, with what it was fed before. */
  predicate EndsAt(frames: seq<Frame>, k: nat, model: string, fed: Trace, r: Received)
    requires k <= |frames|
  {
    if k == |frames| then r == Received(fed.chunks, Err(Broken(CLOSED_EARLY)))
    else
      match frames[k]
      case Close => r == Received(fed.chunks, Err(Broken(CLOSED_EARLY)))
      case Failed(message) => r == Received(fed.chunks, Err(Broken(message)))
      case Garbled(complaint) => r == Received(fed.chunks, Err(Broken(complaint)))
      case Ping(failure) => failure.Some? && r == Received(fed.chunks, Err(Broken(failure.value)))
      case OtherFrame => false
      case TextFrame(event) =>
        if EndsResponse(event) then
          var final := FinalResponse(fed.state, model, if event.Get("response").Some? then event.Get("response").value else Null);
          r == Received(fed.chunks + [MessageCompleteChunk(final.message), ResponseCompleteChunk(final)], Ok(final))
        else r == Received(fed.chunks, Err(MapWsError(event)))
  }

  /**
   A reception ends at the first frame that does not pass: with the response it carries, with the error it reports, or
   broken off; and broken off when frames run out. What it yields before is what the events up to there emit.
   */
  lemma {:induction false} ReceptionEnds(a: Accumulated, model: string, frames: seq<Frame>, k: nat)
    requires k <= |frames| && (forall j :: 0 <= j < k ==> Passes(frames[j])) && (k < |frames| ==> !Passes(frames[k]))
    ensures EndsAt(frames, k, model, Feed(a, model, EventsIn(frames[..k])), Receive(a, model, frames))
    decreases |frames|
  {
    if k == 0 {
      EndsAtOnce(a, model, frames);
    } else {
      hide Classify, Changed, FinalResponse, MapWsError, EndsResponse, Receive, Feed, EventsIn, EndsAt;
      assert forall j :: 0 <= j < |frames| - 1 ==> frames[1..][j] == frames[j + 1];
      if frames[0].TextFrame? {
        var c := Classify(frames[0].event);
        OtherEvents(frames[0].event);
        ReceptionEnds(Changed(a, c), model, frames[1..], k - 1);
        PassedOn(a, model, frames, k);
        EndsLater(frames, k, model, Feed(Changed(a, c), model, EventsIn(frames[1..][..k - 1])), Receive(Changed(a, c), model, frames[1..]), ResponsesWsLaws.Emitted(a, model, c));
      } else {
        ReceptionEnds(a, model, frames[1..], k - 1);
        Overlooked(a, model, frames, k);
        var fed, r := Feed(a, model, EventsIn(frames[1..][..k - 1])), Receive(a, model, frames[1..]);
        assert [] + fed.chunks == fed.chunks && [] + r.chunks == r.chunks;
        EndsLater(frames, k, model, fed, r, []);
      }
    }
  }

  /** Frames before, and the chunks they yielded, do not change how a reception ends. */
  lemma EndsLater(frames: seq<Frame>, k: nat, model: string, fed: Trace, r: Received, chunks: seq<Chunk>)
    requires 0 < k <= |frames| && EndsAt(frames[1..], k - 1, model, fed, r)
    ensures EndsAt(frames, k, model, Trace(fed.state, chunks + fed.chunks), r.(chunks := chunks + r.chunks))
  {
    hide FinalResponse, MapWsError, EndsResponse;
    if k < |frames| && frames[k].TextFrame? && EndsResponse(frames[k].event) {
      var event := frames[k].event;
      var final := FinalResponse(fed.state, model, if event.Get("response").Some? then event.Get("response").value else Null);
      var last := [MessageCompleteChunk(final.message), ResponseCompleteChunk(final)];
      assert chunks + (fed.chunks + last) == (chunks + fed.chunks) + last;
    }
  }

  lemma EndsAtOnce(a: Accumulated, model: string, frames: seq<Frame>)
    requires frames != [] ==> !Passes(frames[0])
    ensures EventsIn(frames[..0]) == [] && Feed(a, model, []) == Trace(a, [])
    ensures EndsAt(frames, 0, model, Trace(a, []), Receive(a, model, frames))
  {
    hide Classify, Changed, FinalResponse, MapWsError, EndsResponse;
    NothingFed(a, model);
    if frames != [] && frames[0].TextFrame? {
      OtherEvents(frames[0].event);
    }
  }

  lemma Overlooked(a: Accumulated, model: string, frames: seq<Frame>, k: nat)
    requires 0 < k <= |frames| && !frames[0].TextFrame? && Passes(frames[0])
    ensures Receive(a, model, frames) == Receive(a, model, frames[1..])
    ensures EventsIn(frames[..k]) == EventsIn(frames[1..][..k - 1])
  {
    hide Classify, Changed, FinalResponse, Emission;
    assert frames[..k][0] == frames[0] && frames[..k][1..] == frames[1..][..k - 1];
    assert [] + EventsIn(frames[1..][..k - 1]) == EventsIn(frames[1..][..k - 1]);
  }

  lemma NothingFed(a: Accumulated, model: string)
    ensures Feed(a, model, EventsIn([])) == Trace(a, [])
  {
  }

  lemma PassedOn(a: Accumulated, model: string, frames: seq<Frame>, k: nat)
    requires 0 < k <= |frames| && frames[0].TextFrame? && !Classify(frames[0].event).Finishes? && !Classify(frames[0].event).Fails?
    ensures var c := Classify(frames[0].event);
      var next, rest := Receive(Changed(a, c), model, frames[1..]), Feed(Changed(a, c), model, EventsIn(frames[1..][..k - 1]));
      && Receive(a, model, frames) == next.(chunks := ResponsesWsLaws.Emitted(a, model, c) + next.chunks)
      && Feed(a, model, EventsIn(frames[..k])) == Trace(rest.state, ResponsesWsLaws.Emitted(a, model, c) + rest.chunks)
  {
    hide Classify, Changed, FinalResponse;
    assert frames[..k][0] == frames[0] && frames[..k][1..] == frames[1..][..k - 1];
    var e, events := frames[0].event, EventsIn(frames[1..][..k - 1]);
    assert EventsIn(frames[..k]) == [e] + events && ([e] + events)[1..] == events;
  }
}
