/**
  The two ways from a chat completion to a Responses answer: directly (`chat_response_to_responses`), or by exploding
  the completion into a stream (`_sse_from_chat_completion`, proxy.py) and translating the stream.
 */
module ResponsesAgreement {
  import opened Options
  import opened ResponsesEvents
  import opened ResponsesTranslation
  import opened ResponsesWellFormed

  datatype Call = Call(id: string, name: string, arguments: string)

  datatype ChatMessage = ChatMessage(content: string, reasoning: string, calls: seq<Call>)

  datatype ChatChoice = ChatChoice(message: ChatMessage, finish: string)

  datatype Completion = Completion(choices: seq<ChatChoice>, usage: RawUsage)

  /** An output item without generated ids and without its status; a generated call id reads "". */
  datatype Shape = ReasoningShape(text: string) | MessageShape(text: string) | CallShape(id: string, name: string, arguments: string)

  datatype Response = Response(status: Status, output: seq<Shape>, error: Option<ErrorCode>, incomplete: Option<IncompleteReason>, usage: Usage)

  function ShapeOf(item: Item): Shape {
    match item
    case Reasoning(_, _, text) => ReasoningShape(text)
    case Message(_, _, text) => MessageShape(text)
    case FunctionCall(_, _, text, callId, name) => CallShape(if callId.Given? then callId.id else "", name, text)
  }

  function Shapes(output: seq<Item>): seq<Shape> {
    seq(|output|, i requires 0 <= i < |output| => ShapeOf(output[i]))
  }

  // ---------------------------------------------------------------- the direct way

  function CallShapes(calls: seq<Call>): seq<Shape> {
    seq(|calls|, i requires 0 <= i < |calls| => CallShape(calls[i].id, calls[i].name, calls[i].arguments))
  }

  function ItemsOf(m: ChatMessage): seq<Shape> {
    (if m.reasoning != "" then [ReasoningShape(m.reasoning)] else [])
    + (if m.content != "" && m.content != m.reasoning then [MessageShape(m.content)] else [])
    + CallShapes(m.calls)
  }

  function AllItems(choices: seq<ChatChoice>): seq<Shape> {
    if choices == [] then [] else AllItems(choices[..|choices| - 1]) + ItemsOf(choices[|choices| - 1].message)
  }

  function FinishReasons(choices: seq<ChatChoice>): set<string> {
    if choices == [] then {}
    else
      var finish := choices[|choices| - 1].finish;
      FinishReasons(choices[..|choices| - 1]) + if finish == "" then {} else {finish}
  }

  function DirectResponse(chat: Completion): Response {
    var output := AllItems(chat.choices);
    var usage := ResponsesUsage(chat.usage);
    if "length" in FinishReasons(chat.choices) then Response(Incomplete, output, None, Some(MaxOutputTokens), usage)
    else if "content_filter" in FinishReasons(chat.choices) then Response(Incomplete, output, None, Some(ContentFilter), usage)
    else if output == [] then Response(Failed, output, Some(EmptyResponse), None, usage)
    else Response(Completed, output, None, None, usage)
  }

  lemma ChoiceStep(choices: seq<ChatChoice>, i: nat)
    requires i < |choices|
    ensures AllItems(choices[..i + 1]) == AllItems(choices[..i]) + ItemsOf(choices[i].message)
    ensures FinishReasons(choices[..i + 1]) == FinishReasons(choices[..i]) + if choices[i].finish == "" then {} else {choices[i].finish}
  {
    assert choices[..i + 1][..i] == choices[..i];
  }

  lemma CallStep(calls: seq<Call>, k: nat)
    requires k < |calls|
    ensures CallShapes(calls[..k + 1]) == CallShapes(calls[..k]) + [CallShape(calls[k].id, calls[k].name, calls[k].arguments)]
  {
  }

  /** The items of one choice, appended to the output. */
  method AppendItems(output: seq<Shape>, message: ChatMessage) returns (more: seq<Shape>)
    ensures more == output + ItemsOf(message)
  {
    more := output;
    if message.reasoning != "" {
      more := more + [ReasoningShape(message.reasoning)];
    }
    if message.content != "" && message.content != message.reasoning {
      more := more + [MessageShape(message.content)];
    }
    ghost var texts := more;
    NoCalls(message.calls[..0]);
    for k := 0 to |message.calls|
      invariant more == texts + CallShapes(message.calls[..k])
    {
      var call := message.calls[k];
      CallStep(message.calls, k);
      more := more + [CallShape(call.id, call.name, call.arguments)];
    }
    assert message.calls[..|message.calls|] == message.calls;
  }

  method ChatResponseToResponses(chat: Completion) returns (r: Response)
    ensures r == DirectResponse(chat)
  {
    var output: seq<Shape> := [];
    var finishReasons: set<string> := {};
    for i := 0 to |chat.choices|
      invariant output == AllItems(chat.choices[..i])
      invariant finishReasons == FinishReasons(chat.choices[..i])
    {
      ChoiceStep(chat.choices, i);
      output := AppendItems(output, chat.choices[i].message);
      if chat.choices[i].finish != "" {
        finishReasons := finishReasons + {chat.choices[i].finish};
      }
    }
    assert chat.choices[..|chat.choices|] == chat.choices;
    var usage := ResponsesUsage(chat.usage);
    if "length" in finishReasons {
      return Response(Incomplete, output, None, Some(MaxOutputTokens), usage);
    }
    if "content_filter" in finishReasons {
      return Response(Incomplete, output, None, Some(ContentFilter), usage);
    }
    if output == [] {
      return Response(Failed, output, Some(EmptyResponse), None, usage);
    }
    return Response(Completed, output, None, None, usage);
  }

  lemma NoCalls(calls: seq<Call>)
    requires calls == []
    ensures CallShapes(calls) == []
  {
  }

  // ---------------------------------------------------------------- through the stream

  function FirstChoice(chat: Completion): ChatChoice {
    var c := if chat.choices == [] then ChatChoice(ChatMessage("", "", []), "") else chat.choices[0];
    c.(finish := if c.finish == "" then "stop" else c.finish)
  }

  function ToolDeltas(calls: seq<Call>, from: nat): seq<ToolDelta> {
    seq(|calls|, i requires 0 <= i < |calls| => ToolDelta(from + i, calls[i].id, calls[i].name, calls[i].arguments))
  }

  /** The first choice as two chunks and the end mark. */
  function Explode(chat: Completion): seq<DataEvent> {
    var c := FirstChoice(chat);
    [ Chunk(map[], [ChoiceDelta(0, c.message.reasoning, c.message.content, ToolDeltas(c.message.calls, 0), "")]),
      Chunk(chat.usage, [ChoiceDelta(0, "", "", [], c.finish)]),
      DoneMark ]
  }

  function StreamedResponse(chat: Completion, parses: string -> bool): Response {
    var r := Translate(Explode(chat), parses);
    var last := r.events[|r.events| - 1].payload;
    if last.Terminal? then
      var s := last.response;
      Response(s.status, Shapes(s.output), s.error, s.incomplete, s.usage)
    else Response(InProgress, [], None, None, ResponsesUsage(map[]))
  }

  predicate BadCall(s: Shape, parses: string -> bool) {
    s.CallShape? && !(s.name != "" && parses(s.arguments))
  }

  // ---------------------------------------------------------------- shapes survive closing

  lemma WithStatusShape(output: seq<Item>, i: nat, status: Status)
    requires i < |output|
    ensures Shapes(output[i := output[i].WithStatus(status)]) == Shapes(output)
  {
  }

  lemma CloseBothShapes(e: Emitter, choice: int)
    requires Good(e)
    ensures Good(CloseText(CloseReasoning(e, choice), choice))
    ensures Shapes(CloseText(CloseReasoning(e, choice), choice).output) == Shapes(e.output)
    ensures CloseText(CloseReasoning(e, choice), choice).tools == e.tools
  {
    CloseReasoningShapes(e, choice);
    var e1 := CloseReasoning(e, choice);
    CloseTextGood(e1, choice);
    if choice in e1.text {
      CloseTracks(e1.(text := e1.text - {choice}), e1.text[choice], Completed);
      WithStatusShape(e1.output, e1.text[choice], Completed);
    }
  }

  lemma CloseReasoningShapes(e: Emitter, choice: int)
    requires Good(e)
    ensures Good(CloseReasoning(e, choice))
    ensures Shapes(CloseReasoning(e, choice).output) == Shapes(e.output)
    ensures CloseReasoning(e, choice).tools == e.tools && choice !in CloseReasoning(e, choice).reasoning
  {
    CloseReasoningGood(e, choice);
    if choice in e.reasoning {
      CloseTracks(e.(reasoning := e.reasoning - {choice}), e.reasoning[choice], Completed);
      WithStatusShape(e.output, e.reasoning[choice], Completed);
    }
  }

  lemma AddedCall(e: Emitter, choice: int, tc: ToolDelta)
    requires e.InRange()
    ensures var r := AddCall(e, choice, tc);
            && r.output[..|e.output|] == e.output && |r.output| == |e.output| + 1
            && ShapeOf(r.output[|e.output|]) == CallShape(tc.id, tc.name, "")
            && r.states[|e.output|].text == "" && r.tools == e.tools[(choice, tc.index) := |e.output|]
  {
  }

  lemma CallWritten(e: Emitter, choice: int, tc: ToolDelta, i: nat)
    requires e.InRange() && (choice, tc.index) in e.tools && e.tools[(choice, tc.index)] == i && |e.output| == i + 1
    requires ShapeOf(e.output[i]) == CallShape(tc.id, tc.name, "") && e.states[i].text == ""
    ensures var r := PushTool(e, choice, tc);
            Shapes(r.output) == Shapes(e.output[..i]) + [CallShape(tc.id, tc.name, tc.arguments)] && r.tools == e.tools
  {
    var r := PushTool(e, choice, tc);
    assert MergeName(tc.name, tc.name) == tc.name;
    assert "" + tc.arguments == tc.arguments;
    assert r.output[..i] == e.output[..i] && |r.output| == i + 1;
    assert ShapeOf(r.output[i]) == CallShape(tc.id, tc.name, tc.arguments);
    assert Shapes(r.output)[..i] == Shapes(e.output[..i]);
  }

  /** A call not seen before becomes one more item. */
  lemma NewCallShape(e: Emitter, choice: int, tc: ToolDelta)
    requires Good(e) && (choice, tc.index) !in e.tools
    ensures var r := PushTool(e, choice, tc);
            && Good(r) && r.InRange() && Shapes(r.output) == Shapes(e.output) + [CallShape(tc.id, tc.name, tc.arguments)]
            && r.tools.Keys == e.tools.Keys + {(choice, tc.index)}
  {
    assert e.InRange();
    hide Tracks, Disciplined;
    CloseBothShapes(e, choice);
    PushToolGood(e, choice, tc);
    hide Good;
    var e1 := CloseText(CloseReasoning(e, choice), choice);
    AddedCall(e1, choice, tc);
    var e2 := AddCall(e1, choice, tc);
    CallWritten(e2, choice, tc, |e1.output|);
    SamePush(e, e2, choice, tc);
  }

  lemma SamePush(e: Emitter, e2: Emitter, choice: int, tc: ToolDelta)
    requires e.InRange() && e2.InRange() && (choice, tc.index) in e2.tools && e2 == OpenTool(e, choice, tc)
    ensures PushTool(e, choice, tc) == PushTool(e2, choice, tc)
  {
  }

  lemma CallsSplit(calls: seq<Call>, from: nat)
    requires calls != []
    ensures ToolDeltas(calls, from)[1..] == ToolDeltas(calls[1..], from + 1)
    ensures CallShapes(calls) == [CallShape(calls[0].id, calls[0].name, calls[0].arguments)] + CallShapes(calls[1..])
  {
  }

  lemma {:induction false} NewCallsShapes(e: Emitter, calls: seq<Call>, from: nat)
    requires Good(e) && e.InRange() && forall k | k in e.tools :: k.1 < from
    ensures var r := PushTools(e, 0, ToolDeltas(calls, from));
            Good(r) && Shapes(r.output) == Shapes(e.output) + CallShapes(calls)
    decreases |calls|
  {
    hide Good, PushTool;
    if calls != [] {
      var delta := ToolDeltas(calls, from)[0];
      NewCallShape(e, 0, delta);
      CallsSplit(calls, from);
      hide CallShapes, Shapes;
      var e1 := PushTool(e, 0, delta);
      assert forall k | k in e1.tools :: k.1 < from + 1 by {
        assert forall k | k in e1.tools.Keys :: k.1 < from + 1;
      }
      NewCallsShapes(e1, calls[1..], from + 1);
      var a, b, c := Shapes(e.output), [CallShape(delta.id, delta.name, delta.arguments)], CallShapes(calls[1..]);
      assert a + b + c == a + (b + c);
    } else {
      NoCalls(calls);
    }
  }

  /** Text not begun before becomes one more item. */
  lemma NewReasoningShape(e: Emitter, choice: int, text: string)
    requires Good(e) && choice !in e.reasoning && choice !in e.text && !HasOpenTool(e, choice) && text != ""
    ensures var r := PushReasoning(e, choice, text);
            && Good(r) && Shapes(r.output) == Shapes(e.output) + [ReasoningShape(text)]
            && r.tools == e.tools && r.text == e.text && choice in r.reasoning
            && r.reasoning[choice] < |r.states| && r.states[r.reasoning[choice]].text == text
  {
    OpenReasoningGood(e, choice);
    AppendGood(OpenReasoning(e, choice), OpenReasoning(e, choice).reasoning[choice], text);
    hide Tracks, Disciplined;
    var r := PushReasoning(e, choice, text);
    assert [] + text == text;
    assert r.output[..|e.output|] == e.output;
  }

  lemma NewTextShape(e: Emitter, choice: int, text: string)
    requires Good(e) && choice !in e.text && text != ""
    ensures var r := PushText(e, choice, text);
            && Good(r) && Shapes(r.output) == Shapes(e.output) + [MessageShape(text)] && r.tools == e.tools
  {
    PushTextGood(e, choice, text);
    CloseReasoningShapes(e, choice);
    hide Tracks, Disciplined;
    var e1 := CloseReasoning(e, choice);
    var r := PushText(e, choice, text);
    assert [] + text == text;
    assert r.output[..|e1.output|] == e1.output;
  }

  // ---------------------------------------------------------------- the exploded stream

  /** The texts of a message, before its calls. */
  function TextShapes(m: ChatMessage): seq<Shape> {
    (if m.reasoning != "" then [ReasoningShape(m.reasoning)] else [])
    + (if m.content != "" && m.content != m.reasoning then [MessageShape(m.content)] else [])
  }

  function FirstDelta(m: ChatMessage): ChoiceDelta {
    ChoiceDelta(0, m.reasoning, m.content, ToolDeltas(m.calls, 0), "")
  }

  function WithReasoning(e: Emitter, m: ChatMessage): (r: Emitter)
    requires e.InRange()
    ensures r.InRange()
  {
    if m.reasoning != "" then PushReasoning(e, 0, m.reasoning) else e
  }

  function WithTexts(e: Emitter, m: ChatMessage): (r: Emitter)
    requires e.InRange()
    ensures r.InRange()
  {
    if m.content != "" && m.content != m.reasoning then PushText(WithReasoning(e, m), 0, m.content) else WithReasoning(e, m)
  }

  lemma StartFacts()
    ensures var e := Start().e;
            Good(e) && e.reasoning == map[] && e.text == map[] && e.tools == map[] && Shapes(e.output) == []
  {
    StartGood();
  }

  /** Reasoning and text of the first chunk, written from scratch. */
  lemma TextsWritten(e: Emitter, m: ChatMessage)
    requires e.InRange() && Good(e) && e.reasoning == map[] && e.text == map[] && e.tools == map[] && Shapes(e.output) == []
    ensures ContentToShow(WithReasoning(e, m), FirstDelta(m)) == if m.content == m.reasoning then "" else m.content
    ensures var e2 := WithTexts(e, m);
            Good(e2) && Shapes(e2.output) == TextShapes(m) && e2.tools == map[]
  {
    hide Good, PushReasoning, PushText, Emit, Shapes;
    if m.reasoning != "" {
      NewReasoningShape(e, 0, m.reasoning);
    }
    var e1 := WithReasoning(e, m);
    if m.content != "" && m.content != m.reasoning {
      NewTextShape(e1, 0, m.content);
    }
  }

  lemma FirstChoiceHandled(t: Translation, m: ChatMessage)
    requires t.e.InRange() && t.e.text == map[] && t.e.tools == map[]
    requires ContentToShow(WithReasoning(t.e, m), FirstDelta(m)) == if m.content == m.reasoning then "" else m.content
    ensures HandleChoice(t, FirstDelta(m)) ==
      t.(e := PushTools(WithTexts(t.e, m), 0, ToolDeltas(m.calls, 0)), seen := t.seen + {0},
         productive := if ItemsOf(m) == [] then t.productive else t.productive + {0})
  {
    hide PushTools, PushText, PushReasoning, ContentToShow;
    assert |ToolDeltas(m.calls, 0)| == |m.calls| && |CallShapes(m.calls)| == |m.calls|;
    assert |ItemsOf(m)| == |TextShapes(m)| + |m.calls|;
  }

  lemma FirstChunk(m: ChatMessage)
    ensures var t := HandleChoice(Start(), FirstDelta(m));
            && Good(t.e) && Shapes(t.e.output) == ItemsOf(m)
            && t.seen == {0} && t.finished == map[] && t.error.None? && !t.done && t.usage == map[]
            && t.productive == if ItemsOf(m) == [] then {} else {0}
  {
    hide Good, PushTools, HandleChoice, WithTexts, WithReasoning, Emit, TextShapes, CallShapes, ToolDeltas, ItemsOf;
    StartFacts();
    TextsWritten(Start().e, m);
    FirstChoiceHandled(Start(), m);
    NewCallsShapes(WithTexts(Start().e, m), m.calls, 0);
    ItemsSplit(m);
  }

  lemma ItemsSplit(m: ChatMessage)
    ensures ItemsOf(m) == TextShapes(m) + CallShapes(m.calls)
  {
  }

  lemma {:induction false} ShapesOfClosed(e: Emitter, output: seq<Item>, status: Status)
    requires ClosedOutput(e, output, status)
    ensures Shapes(output) == Shapes(e.output)
  {
    forall i | 0 <= i < |output| ensures ShapeOf(output[i]) == ShapeOf(e.output[i]) {
    }
  }

  /** Some call is bad exactly when some shape says so. */
  lemma BadCallShapes(e: Emitter, parses: string -> bool)
    requires Good(e)
    ensures SomeCallBad(e, parses) <==> exists i :: 0 <= i < |e.output| && BadCall(Shapes(e.output)[i], parses)
  {
    if SomeCallBad(e, parses) {
      var k :| k in e.tools && !e.states[e.tools[k]].closed && !CallOk(e.output[e.tools[k]], e.states[e.tools[k]].text, parses);
      TextInStep(e, e.tools[k]);
      assert BadCall(Shapes(e.output)[e.tools[k]], parses);
    }
    if i :| 0 <= i < |e.output| && BadCall(Shapes(e.output)[i], parses) {
      TextInStep(e, i);
      assert CallPointed(e.tools, i);
    }
  }

  lemma FinishShapes(t: Translation, parses: string -> bool)
    requires Good(t.e)
    ensures var r := Finish(t, parses);
            var v := FinalVerdict(t, parses);
            && r.events[|r.events| - 1].payload == Terminal(Snapshot(v.status, r.output, v.error, v.incomplete, ResponsesUsage(t.usage)))
            && Shapes(r.output) == Shapes(t.e.output)
  {
    var v := FinalVerdict(t, parses);
    var status := if v.status == Completed then Completed else Incomplete;
    CloseFromTracks(t.e, 0, status);
    hide Tracks, Disciplined;
    ShapesOfClosed(t.e, CloseFrom(t.e, 0, status).output, status);
  }

  /** The state of the translator after the exploded stream. */
  function Exploded(chat: Completion): Translation {
    HandleAll(Start(), Explode(chat))
  }

  lemma OneChoice(t: Translation, usage: RawUsage, c: ChoiceDelta)
    requires t.e.InRange() && t.error.None? && HandleChoice(t.(usage := t.usage + usage), c).error.None?
    ensures HandleData(t, Chunk(usage, [c])) == HandleChoice(t.(usage := t.usage + usage), c)
  {
    hide HandleChoice;
    var t1 := t.(usage := t.usage + usage);
    assert [c][1..] == [];
    assert HandleChoices(t1, [c]) == HandleChoices(HandleChoice(t1, c), []);
  }

  lemma ThreeEvents(t: Translation, t1: Translation, t2: Translation, d: seq<DataEvent>)
    requires |d| == 3 && d[2] == DoneMark && t.e.InRange() && t1.e.InRange() && t2.e.InRange()
    requires t.error.None? && !t.done && HandleData(t, d[0]) == t1
    requires t1.error.None? && !t1.done && HandleData(t1, d[1]) == t2
    requires t2.error.None? && !t2.done
    ensures HandleAll(t, d) == t2.(done := true)
  {
    assert d[1..] == [d[1], d[2]] && d[1..][1..] == [d[2]] && d[1..][1..][1..] == [];
    assert HandleAll(t, d) == HandleAll(t1, d[1..]);
    assert HandleAll(t1, d[1..]) == HandleAll(t2, d[1..][1..]);
    assert HandleAll(t2, d[1..][1..]) == HandleAll(t2.(done := true), d[1..][1..][1..]);
  }

  lemma LastChunk(t: Translation, finish: string)
    requires t.e.InRange() && finish != ""
    ensures HandleChoice(t, ChoiceDelta(0, "", "", [], finish)) == t.(seen := t.seen + {0}, finished := t.finished[0 := finish])
  {
  }

  lemma ExplodedState(chat: Completion)
    ensures var t := Exploded(chat);
            var c := FirstChoice(chat);
            && Good(t.e) && Shapes(t.e.output) == ItemsOf(c.message)
            && t.seen == {0} && t.finished == map[0 := c.finish] && t.error.None? && t.done
            && t.usage == chat.usage
            && t.productive == if ItemsOf(c.message) == [] then {} else {0}
  {
    var c := FirstChoice(chat);
    FirstChunk(c.message);
    hide Good, HandleChoice, HandleData, HandleAll;
    var d, t0 := Explode(chat), Start();
    assert t0.(usage := t0.usage + map[]) == t0;
    OneChoice(t0, map[], FirstDelta(c.message));
    var t1 := HandleChoice(t0, FirstDelta(c.message));
    assert t1.usage + chat.usage == chat.usage;
    var t1u := t1.(usage := t1.usage + chat.usage);
    LastChunk(t1u, c.finish);
    var t2 := HandleChoice(t1u, ChoiceDelta(0, "", "", [], c.finish));
    OneChoice(t1, chat.usage, ChoiceDelta(0, "", "", [], c.finish));
    ThreeEvents(t0, t1, t2, d);
  }

  lemma VerdictOfOne(t: Translation, finish: string, parses: string -> bool)
    requires t.e.InRange() && t.seen == {0} && t.finished == map[0 := finish] && t.error.None? && t.done
    requires t.productive == if t.e.output == [] then {} else {0}
    ensures FinalVerdict(t, parses) ==
      if finish == "length" then Verdict(Incomplete, None, Some(MaxOutputTokens))
      else if finish == "content_filter" then Verdict(Incomplete, None, Some(ContentFilter))
      else if t.e.output == [] then Verdict(Failed, Some(EmptyResponse), None)
      else if SomeCallBad(t.e, parses) then Verdict(Failed, Some(InvalidToolArguments), None)
      else Verdict(Completed, None, None)
  {
    assert t.finished[0] == finish && t.finished.Values == {finish};
    assert t.seen - t.finished.Keys == {};
    assert t.finished != map[];
  }

  lemma DirectOfOne(chat: Completion)
    requires |chat.choices| <= 1
    ensures AllItems(chat.choices) == ItemsOf(FirstChoice(chat).message)
    ensures "length" in FinishReasons(chat.choices) <==> FirstChoice(chat).finish == "length"
    ensures "content_filter" in FinishReasons(chat.choices) <==> FirstChoice(chat).finish == "content_filter"
  {
    if chat.choices != [] {
      assert chat.choices[..0] == [];
    } else {
      assert CallShapes([]) == [];
    }
  }

  /** Each call of a message has a name and arguments that parse. */
  predicate CallsUsable(m: ChatMessage, parses: string -> bool) {
    forall k | 0 <= k < |m.calls| :: m.calls[k].name != "" && parses(m.calls[k].arguments)
  }

  lemma UsableShapes(m: ChatMessage, parses: string -> bool)
    ensures CallsUsable(m, parses) <==> forall i | 0 <= i < |ItemsOf(m)| :: !BadCall(ItemsOf(m)[i], parses)
  {
    var texts := |ItemsOf(m)| - |m.calls|;
    forall k | 0 <= k < |m.calls|
      ensures ItemsOf(m)[texts + k] == CallShape(m.calls[k].id, m.calls[k].name, m.calls[k].arguments)
    {
    }
    assert forall i | 0 <= i < texts :: !BadCall(ItemsOf(m)[i], parses);
    if !CallsUsable(m, parses) {
      var k :| 0 <= k < |m.calls| && !(m.calls[k].name != "" && parses(m.calls[k].arguments));
      assert BadCall(ItemsOf(m)[texts + k], parses);
    }
  }

  /** What the streaming way answers, read off the completion. */
  lemma StreamedIs(chat: Completion, parses: string -> bool)
    ensures var s, c := StreamedResponse(chat, parses), FirstChoice(chat);
            s == if c.finish == "length" then Response(Incomplete, ItemsOf(c.message), None, Some(MaxOutputTokens), ResponsesUsage(chat.usage))
                 else if c.finish == "content_filter"
                 then Response(Incomplete, ItemsOf(c.message), None, Some(ContentFilter), ResponsesUsage(chat.usage))
                 else if ItemsOf(c.message) == [] then Response(Failed, [], Some(EmptyResponse), None, ResponsesUsage(chat.usage))
                 else if !CallsUsable(c.message, parses)
                 then Response(Failed, ItemsOf(c.message), Some(InvalidToolArguments), None, ResponsesUsage(chat.usage))
                 else Response(Completed, ItemsOf(c.message), None, None, ResponsesUsage(chat.usage))
  {
    ExplodedState(chat);
    var t := Exploded(chat);
    FinishShapes(t, parses);
    ExplodedCalls(t.e, FirstChoice(chat).message, parses);
    assert t.e.InRange() && |Shapes(t.e.output)| == |t.e.output|;
    hide Good, Explode, HandleAll, FinalVerdict, SomeCallBad, ItemsOf, ResponsesUsage, CallsUsable, Shapes, Finish;
    VerdictOfOne(t, FirstChoice(chat).finish, parses);
  }

  lemma ExplodedCalls(e: Emitter, m: ChatMessage, parses: string -> bool)
    requires Good(e) && Shapes(e.output) == ItemsOf(m)
    ensures SomeCallBad(e, parses) <==> !CallsUsable(m, parses)
  {
    BadCallShapes(e, parses);
    UsableShapes(m, parses);
    hide Good, SomeCallBad, CallsUsable, ItemsOf;
  }

  /**
    The two ways give the same items and usage.  They give the same status, error and reason exactly when the choice
    was cut short or all its calls have names and arguments that parse; otherwise the stream reports a failure where
    the direct way reports a completed response.
   */
  lemma PathsAgree(chat: Completion, parses: string -> bool)
    requires |chat.choices| <= 1
    ensures var s, n := StreamedResponse(chat, parses), DirectResponse(chat);
            && s.output == n.output && s.usage == n.usage
            && (s == n <==> IsCut(FirstChoice(chat).finish) || CallsUsable(FirstChoice(chat).message, parses))
            && (s != n ==> s.status == Failed && s.error == Some(InvalidToolArguments) && n.status == Completed)
  {
    StreamedIs(chat, parses);
    DirectOfOne(chat);
    hide Exploded, ItemsOf, AllItems, FinishReasons, StreamedResponse, ResponsesUsage, CallsUsable;
  }
}
