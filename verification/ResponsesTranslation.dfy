/**
  Translating a Chat Completions stream into Responses events (responses.py, `_chat_stream_to_responses_stream`),
  as functions on the translator's state.  `ResponsesTranslator` is the imperative form.
 */
module ResponsesTranslation {
  import opened Options
  import opened ResponsesEvents

  /** A tool call fragment; an absent or empty field is "". */
  datatype ToolDelta = ToolDelta(index: int, id: string, name: string, arguments: string)

  datatype ChoiceDelta = ChoiceDelta(index: int, reasoning: string, content: string, tools: seq<ToolDelta>, finish: string)

  type RawUsage = map<string, UsageField>
  datatype UsageField = Tokens(n: int) | Details(d: map<string, int>)

  /** One item of the data stream: a parsed event, or the way the stream failed. */
  datatype DataEvent =
    | Blank
    | DoneMark
    | Malformed
    | ErrorEvent
    | StreamFailure
    | Chunk(usage: RawUsage, choices: seq<ChoiceDelta>)

  datatype Kind = ReasoningKind | TextKind | ToolKind

  /** `choice` is the choice that writes the item; nothing that is sent depends on it. */
  datatype ItemState = ItemState(kind: Kind, text: string, closed: bool, choice: int)

  /** The output so far: emitted events, items and item states, and which item each choice or call is writing. */
  datatype Emitter = Emitter(lastSeq: int, events: seq<Event>, output: seq<Item>, states: seq<ItemState>,
                             reasoning: map<int, nat>, text: map<int, nat>, tools: map<(int, int), nat>, nextId: nat)
  {
    /** Every index the maps mention has an item and a state. */
    predicate InRange() {
      && |output| == |states|
      && (forall c | c in reasoning :: reasoning[c] < |states|)
      && (forall c | c in text :: text[c] < |states|)
      && (forall k | k in tools :: tools[k] < |states| && output[tools[k]].FunctionCall?)
    }
  }

  datatype Translation = Translation(e: Emitter, usage: RawUsage, seen: set<int>, finished: map<int, string>,
                                     productive: set<int>, done: bool, error: Option<ErrorCode>)

  // ---------------------------------------------------------------- emitting

  function Emit(e: Emitter, p: Payload): Emitter {
    e.(lastSeq := e.lastSeq + 1, events := e.events + [Event(e.lastSeq + 1, p)])
  }

  function OpenItem(e: Emitter, item: Item, kind: Kind, choice: int): Emitter {
    Emit(e.(output := e.output + [item], states := e.states + [ItemState(kind, "", false, choice)], nextId := e.nextId + 1),
         ItemAdded(|e.output|, item))
  }

  function CloseItem(e: Emitter, i: nat, status: Status): (r: Emitter)
    requires e.InRange() && i < |e.states|
    ensures r.InRange()
    ensures |r.states| == |e.states| && r.states == e.states[i := e.states[i].(closed := true)]
    ensures r.reasoning == e.reasoning && r.text == e.text && r.tools == e.tools && r.nextId == e.nextId
    ensures forall j | 0 <= j < |e.output| && j != i :: r.output[j] == e.output[j]
    ensures r.output[i].FunctionCall? <==> e.output[i].FunctionCall?
    ensures if e.states[i].closed then r == e else r.output[i].status == status
  {
    if e.states[i].closed then e
    else
      var s := e.states[i];
      var item := (if s.kind.ReasoningKind? then e.output[i].WithText(s.text) else e.output[i]).WithStatus(status);
      var e1 := e.(output := e.output[i := item], states := e.states[i := s.(closed := true)]);
      var e2 := if s.kind.ToolKind? then
                  if status == Completed then Emit(e1, TextDone(item.id, i, s.text)) else e1
                else Emit(Emit(e1, TextDone(item.id, i, s.text)), PartDone(item.id, i, s.text));
      Emit(e2, ItemDone(i, item))
  }

  /** Close the reasoning item of a choice, if it has one, and forget it. */
  function CloseReasoning(e: Emitter, choice: int): (r: Emitter)
    requires e.InRange()
    ensures r.InRange()
  {
    if choice in e.reasoning then CloseItem(e.(reasoning := e.reasoning - {choice}), e.reasoning[choice], Completed) else e
  }

  function CloseText(e: Emitter, choice: int): (r: Emitter)
    requires e.InRange()
    ensures r.InRange()
  {
    if choice in e.text then CloseItem(e.(text := e.text - {choice}), e.text[choice], Completed) else e
  }

  /** Append to an item's text and tell the client. */
  function Append(e: Emitter, i: nat, delta: string): (r: Emitter)
    requires e.InRange() && i < |e.states|
    ensures r.InRange()
  {
    var text := e.states[i].text + delta;
    Emit(e.(states := e.states[i := e.states[i].(text := text)], output := e.output[i := e.output[i].WithText(text)]),
         Delta(e.output[i].id, i, delta))
  }

  // ---------------------------------------------------------------- one delta

  function OpenReasoning(e: Emitter, choice: int): (r: Emitter)
    requires e.InRange()
    ensures r.InRange() && choice in r.reasoning
  {
    if choice in e.reasoning then e
    else
      var i := |e.output|;
      var next := OpenItem(e, Reasoning(e.nextId, InProgress, ""), ReasoningKind, choice);
      Emit(next.(reasoning := e.reasoning[choice := i]), PartAdded(e.nextId, i))
  }

  function PushReasoning(e: Emitter, choice: int, delta: string): (r: Emitter)
    requires e.InRange()
    ensures r.InRange()
  {
    var e1 := OpenReasoning(e, choice);
    Append(e1, e1.reasoning[choice], delta)
  }

  function OpenText(e: Emitter, choice: int): (r: Emitter)
    requires e.InRange()
    ensures r.InRange() && choice in r.text
  {
    if choice in e.text then e
    else
      var before := CloseReasoning(e, choice);
      var i := |before.output|;
      var next := OpenItem(before, Message(before.nextId, InProgress, ""), TextKind, choice);
      Emit(next.(text := before.text[choice := i]), PartAdded(before.nextId, i))
  }

  function PushText(e: Emitter, choice: int, delta: string): (r: Emitter)
    requires e.InRange()
    ensures r.InRange()
  {
    var e1 := OpenText(e, choice);
    Append(e1, e1.text[choice], delta)
  }

  predicate StartsWith(s: string, prefix: string) {
    prefix <= s
  }

  predicate EndsWith(s: string, suffix: string) {
    |suffix| <= |s| && s[|s| - |suffix|..] == suffix
  }

  /** Upstreams resend a growing name, or send it in pieces. */
  function MergeName(current: string, name: string): string {
    if name == "" then current
    else if current == "" || StartsWith(name, current) then name
    else if !EndsWith(current, name) then current + name
    else current
  }

  function AddCall(e: Emitter, choice: int, tc: ToolDelta): (r: Emitter)
    requires e.InRange()
    ensures r.InRange() && (choice, tc.index) in r.tools
  {
    var callId := if tc.id != "" then Given(tc.id) else Generated(e.nextId);
    var e1 := if tc.id != "" then e else e.(nextId := e.nextId + 1);
    OpenItem(e1, FunctionCall(e1.nextId, InProgress, "", callId, tc.name), ToolKind, choice).(tools := e.tools[(choice, tc.index) := |e.output|])
  }

  function OpenTool(e: Emitter, choice: int, tc: ToolDelta): (r: Emitter)
    requires e.InRange()
    ensures r.InRange() && (choice, tc.index) in r.tools
  {
    if (choice, tc.index) in e.tools then e else AddCall(CloseText(CloseReasoning(e, choice), choice), choice, tc)
  }

  function PushTool(e: Emitter, choice: int, tc: ToolDelta): (r: Emitter)
    requires e.InRange()
    ensures r.InRange()
  {
    var e1 := OpenTool(e, choice, tc);
    var i := e1.tools[(choice, tc.index)];
    var e2 := e1.(output := e1.output[i := e1.output[i].(name := MergeName(e1.output[i].name, tc.name))]);
    if tc.arguments != "" then Append(e2, i, tc.arguments) else e2
  }

  function PushTools(e: Emitter, choice: int, tools: seq<ToolDelta>): (r: Emitter)
    requires e.InRange()
    ensures r.InRange()
    decreases |tools|
  {
    if tools == [] then e else PushTools(PushTool(e, choice, tools[0]), choice, tools[1..])
  }

  // ---------------------------------------------------------------- one choice, one chunk, one stream

  predicate HasOpenTool(e: Emitter, choice: int)
    requires e.InRange()
  {
    exists k | k in e.tools :: k.0 == choice && !e.states[e.tools[k]].closed
  }

  /** Some upstreams copy the reasoning text into the content. */
  function ContentToShow(e: Emitter, c: ChoiceDelta): string
    requires e.InRange()
  {
    if c.reasoning != "" && c.content == c.reasoning then ""
    else if c.content != "" && c.index in e.reasoning && c.content == e.states[e.reasoning[c.index]].text then ""
    else c.content
  }

  /** Reasoning may not follow the text or a call of the same choice. */
  predicate ReasoningTooLate(e: Emitter, c: ChoiceDelta)
    requires e.InRange()
  {
    c.reasoning != "" && (c.index in e.text || HasOpenTool(e, c.index))
  }

  function WriteChoice(t: Translation, c: ChoiceDelta): (r: Translation)
    requires t.e.InRange()
    ensures r.e.InRange()
  {
    var e1 := if c.reasoning != "" then PushReasoning(t.e, c.index, c.reasoning) else t.e;
    var text := ContentToShow(e1, c);
    var e2 := if text != "" then PushText(e1, c.index, text) else e1;
    t.(e := PushTools(e2, c.index, c.tools),
       productive := if c.reasoning != "" || text != "" || c.tools != [] then t.productive + {c.index} else t.productive)
  }

  function HandleChoice(t: Translation, c: ChoiceDelta): (r: Translation)
    requires t.e.InRange()
    ensures r.e.InRange()
  {
    var t1 := t.(seen := t.seen + {c.index}, finished := if c.finish != "" then t.finished[c.index := c.finish] else t.finished);
    if ReasoningTooLate(t.e, c) then t1.(error := Some(InvalidUpstreamEvent)) else WriteChoice(t1, c)
  }

  function HandleChoices(t: Translation, choices: seq<ChoiceDelta>): (r: Translation)
    requires t.e.InRange()
    ensures r.e.InRange()
    decreases |choices|
  {
    if choices == [] || t.error.Some? then t else HandleChoices(HandleChoice(t, choices[0]), choices[1..])
  }

  function HandleData(t: Translation, d: DataEvent): (r: Translation)
    requires t.e.InRange()
    ensures r.e.InRange()
  {
    match d
    case Blank => t
    case DoneMark => t.(done := true)
    case Malformed => t.(error := Some(InvalidUpstreamEvent))
    case ErrorEvent => t.(error := Some(UpstreamError))
    case StreamFailure => t.(error := Some(UpstreamStreamError))
    case Chunk(usage, choices) => HandleChoices(t.(usage := t.usage + usage), choices)
  }

  function HandleAll(t: Translation, data: seq<DataEvent>): (r: Translation)
    requires t.e.InRange()
    ensures r.e.InRange()
    decreases |data|
  {
    if data == [] || t.done || t.error.Some? then t else HandleAll(HandleData(t, data[0]), data[1..])
  }

  const NewEmitter := Emitter(-1, [], [], [], map[], map[], map[], 0)

  function Start(): (t: Translation)
    ensures t.e.InRange()
  {
    Translation(Emit(Emit(NewEmitter, ResponseCreated), ResponseInProgress), map[], {}, map[], {}, false, None)
  }

  // ---------------------------------------------------------------- the end of the stream

  predicate IsCut(reason: string) {
    reason == "length" || reason == "content_filter"
  }

  datatype Verdict = Verdict(status: Status, error: Option<ErrorCode>, incomplete: Option<IncompleteReason>)

  /** The verdict before the tool calls are looked at. */
  function StreamVerdict(t: Translation): Verdict {
    var unfinished := t.seen - t.finished.Keys;
    if t.error.Some? then Verdict(Failed, t.error, None)
    else if "length" in t.finished.Values then Verdict(Incomplete, None, Some(MaxOutputTokens))
    else if "content_filter" in t.finished.Values then Verdict(Incomplete, None, Some(ContentFilter))
    else if (!t.done && (t.seen == {} || unfinished != {})) || (t.done && t.finished != map[] && unfinished != {})
    then Verdict(Failed, Some(UpstreamStreamEnded), None)
    else if t.seen == {} || t.e.output == [] || (exists c | c in t.finished :: !IsCut(t.finished[c]) && c !in t.productive)
    then Verdict(Failed, Some(EmptyResponse), None)
    else Verdict(Completed, None, None)
  }

  /** A call that may be reported as completed: `parses` says that a text is a JSON object. */
  predicate CallOk(item: Item, text: string, parses: string -> bool)
    requires item.FunctionCall?
  {
    item.name != "" && parses(text)
  }

  predicate SomeCallBad(e: Emitter, parses: string -> bool)
    requires e.InRange()
  {
    exists k | k in e.tools :: !e.states[e.tools[k]].closed && !CallOk(e.output[e.tools[k]], e.states[e.tools[k]].text, parses)
  }

  function FinalVerdict(t: Translation, parses: string -> bool): Verdict
    requires t.e.InRange()
  {
    var v := StreamVerdict(t);
    if v.status == Completed && SomeCallBad(t.e, parses) then Verdict(Failed, Some(InvalidToolArguments), None) else v
  }

  function CloseFrom(e: Emitter, i: nat, status: Status): (r: Emitter)
    requires e.InRange() && i <= |e.states|
    ensures r.InRange() && |r.states| == |e.states|
    decreases |e.states| - i
  {
    if i == |e.states| then e else CloseFrom(CloseItem(e, i, status), i + 1, status)
  }

  function OrElse(u: RawUsage, key: string, other: string): int {
    if key in u && u[key].Tokens? then u[key].n else if other in u && u[other].Tokens? then u[other].n else 0
  }

  function DetailOf(u: RawUsage, key: string, other: string, field: string): int {
    var d := if key in u && u[key].Details? && u[key].d != map[] then u[key].d
             else if other in u && u[other].Details? then u[other].d else map[];
    if field in d then d[field] else 0
  }

  function ResponsesUsage(u: RawUsage): Usage {
    var input := OrElse(u, "prompt_tokens", "input_tokens");
    var output := OrElse(u, "completion_tokens", "output_tokens");
    Usage(input, DetailOf(u, "prompt_tokens_details", "input_tokens_details", "cached_tokens"),
          output, DetailOf(u, "completion_tokens_details", "output_tokens_details", "reasoning_tokens"),
          if "total_tokens" in u && u["total_tokens"].Tokens? then u["total_tokens"].n else input + output)
  }

  function Finish(t: Translation, parses: string -> bool): (r: Emitter)
    requires t.e.InRange()
  {
    var v := FinalVerdict(t, parses);
    var e := CloseFrom(t.e, 0, if v.status == Completed then Completed else Incomplete);
    Emit(e, Terminal(Snapshot(v.status, e.output, v.error, v.incomplete, ResponsesUsage(t.usage))))
  }

  function Translate(data: seq<DataEvent>, parses: string -> bool): Emitter {
    Finish(HandleAll(Start(), data), parses)
  }
}
