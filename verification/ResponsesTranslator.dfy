/** The translator of responses.py as an object: its nested functions and loops update the fields in place. */
module ResponsesTranslator {
  import opened Options
  import opened ResponsesEvents
  import opened ResponsesTranslation
  import opened ResponsesWellFormed

  class Translator {
    var lastSeq: int
    var events: seq<Event>  // what the generator has yielded
    var outputItems: seq<Item>
    var itemStates: seq<ItemState>
    var reasoningStates: map<int, nat>
    var textStates: map<int, nat>
    var toolStates: map<(int, int), nat>
    var nextId: nat
    var usage: RawUsage
    var seenChoices: set<int>
    var finishedChoices: map<int, string>
    var productiveChoices: set<int>
    var sawDone: bool
    var streamError: Option<ErrorCode>

    ghost function Writing(): Emitter
      reads this
    {
      Emitter(lastSeq, events, outputItems, itemStates, reasoningStates, textStates, toolStates, nextId)
    }

    ghost function View(): Translation
      reads this
    {
      Translation(Writing(), usage, seenChoices, finishedChoices, productiveChoices, sawDone, streamError)
    }

    constructor ()
      ensures View() == Start()
    {
      lastSeq, events, outputItems, itemStates := -1, [], [], [];
      reasoningStates, textStates, toolStates, nextId := map[], map[], map[], 0;
      usage, seenChoices, finishedChoices, productiveChoices := map[], {}, map[], {};
      sawDone, streamError := false, None;
      new;
      Yield(ResponseCreated);
      Yield(ResponseInProgress);
    }

    method Yield(p: Payload)
      modifies `lastSeq, `events
      ensures Writing() == Emit(old(Writing()), p)
    {
      lastSeq := lastSeq + 1;
      events := events + [Event(lastSeq, p)];
    }

    method AddItem(item: Item, kind: Kind, choice: int)
      modifies `lastSeq, `events, `outputItems, `itemStates, `nextId
      ensures Writing() == OpenItem(old(Writing()), item, kind, choice)
    {
      outputItems, itemStates, nextId := outputItems + [item], itemStates + [ItemState(kind, "", false, choice)], nextId + 1;
      Yield(ItemAdded(|outputItems| - 1, item));
    }

    method Close(i: nat, status: Status)
      requires Writing().InRange() && i < |itemStates|
      modifies `lastSeq, `events, `outputItems, `itemStates
      ensures Writing() == CloseItem(old(Writing()), i, status)
    {
      if itemStates[i].closed {
        return;
      }
      var state := itemStates[i];
      var item := (if state.kind.ReasoningKind? then outputItems[i].WithText(state.text) else outputItems[i]).WithStatus(status);
      outputItems := outputItems[i := item];
      itemStates := itemStates[i := state.(closed := true)];
      if !state.kind.ToolKind? {
        Yield(TextDone(item.id, i, state.text));
        Yield(PartDone(item.id, i, state.text));
      } else if status == Completed {
        Yield(TextDone(item.id, i, state.text));
      }
      Yield(ItemDone(i, item));
    }

    method PopReasoning(choice: int)
      requires Writing().InRange()
      modifies `lastSeq, `events, `outputItems, `itemStates, `reasoningStates
      ensures Writing() == CloseReasoning(old(Writing()), choice)
    {
      if choice in reasoningStates {
        var i := reasoningStates[choice];
        reasoningStates := reasoningStates - {choice};
        Close(i, Completed);
      }
    }

    method PopText(choice: int)
      requires Writing().InRange()
      modifies `lastSeq, `events, `outputItems, `itemStates, `textStates
      ensures Writing() == CloseText(old(Writing()), choice)
    {
      if choice in textStates {
        var i := textStates[choice];
        textStates := textStates - {choice};
        Close(i, Completed);
      }
    }

    method AppendText(i: nat, delta: string)
      requires Writing().InRange() && i < |itemStates|
      modifies `lastSeq, `events, `outputItems, `itemStates
      ensures Writing() == Append(old(Writing()), i, delta)
    {
      var text := itemStates[i].text + delta;
      itemStates := itemStates[i := itemStates[i].(text := text)];
      outputItems := outputItems[i := outputItems[i].WithText(text)];
      Yield(Delta(outputItems[i].id, i, delta));
    }

    /** Reasoning never finds open text to close here: that was refused before. */
    method OnReasoning(choice: int, delta: string)
      requires Writing().InRange()
      modifies `lastSeq, `events, `outputItems, `itemStates, `reasoningStates, `nextId
      ensures Writing() == PushReasoning(old(Writing()), choice, delta)
    {
      if choice !in reasoningStates {
        var i, id := |outputItems|, nextId;
        AddItem(Reasoning(id, InProgress, ""), ReasoningKind, choice);
        reasoningStates := reasoningStates[choice := i];
        Yield(PartAdded(id, i));
      }
      AppendText(reasoningStates[choice], delta);
    }

    method OnText(choice: int, delta: string)
      requires Writing().InRange()
      modifies `lastSeq, `events, `outputItems, `itemStates, `reasoningStates, `textStates, `nextId
      ensures Writing() == PushText(old(Writing()), choice, delta)
    {
      if choice !in textStates {
        PopReasoning(choice);
        var i, id := |outputItems|, nextId;
        AddItem(Message(id, InProgress, ""), TextKind, choice);
        textStates := textStates[choice := i];
        Yield(PartAdded(id, i));
      }
      AppendText(textStates[choice], delta);
    }

    method BeginCall(choice: int, tc: ToolDelta)
      requires Writing().InRange()
      modifies `lastSeq, `events, `outputItems, `itemStates, `reasoningStates, `textStates, `toolStates, `nextId
      ensures Writing() == OpenTool(old(Writing()), choice, tc)
    {
      hide CloseReasoning, CloseText, OpenItem;
      if (choice, tc.index) in toolStates {
        return;
      }
      PopReasoning(choice);
      PopText(choice);
      ghost var e := Writing();
      var callId := Given(tc.id);
      if tc.id == "" {
        callId, nextId := Generated(nextId), nextId + 1;
      }
      var i := |outputItems|;
      AddItem(FunctionCall(nextId, InProgress, "", callId, tc.name), ToolKind, choice);
      toolStates := toolStates[(choice, tc.index) := i];
      assert toolStates == e.tools[(choice, tc.index) := i];
    }

    method Rename(i: nat, name: string)
      requires i < |outputItems| && outputItems[i].FunctionCall?
      modifies `outputItems
      ensures outputItems == old(outputItems)[i := old(outputItems)[i].(name := MergeName(old(outputItems)[i].name, name))]
    {
      var current := outputItems[i].name;
      if name != "" {
        if current == "" || StartsWith(name, current) {
          outputItems := outputItems[i := outputItems[i].(name := name)];
        } else if !EndsWith(current, name) {
          outputItems := outputItems[i := outputItems[i].(name := current + name)];
        }
      }
    }

    method OnTool(choice: int, tc: ToolDelta)
      requires Writing().InRange()
      modifies `lastSeq, `events, `outputItems, `itemStates, `reasoningStates, `textStates, `toolStates, `nextId
      ensures Writing() == PushTool(old(Writing()), choice, tc)
    {
      hide OpenTool, MergeName, Append;
      BeginCall(choice, tc);
      var i := toolStates[(choice, tc.index)];
      Rename(i, tc.name);
      if tc.arguments != "" {
        AppendText(i, tc.arguments);
      }
    }

    method OnTools(choice: int, tools: seq<ToolDelta>)
      requires Writing().InRange()
      modifies `lastSeq, `events, `outputItems, `itemStates, `reasoningStates, `textStates, `toolStates, `nextId, `productiveChoices
      ensures Writing() == PushTools(old(Writing()), choice, tools)
      ensures productiveChoices == old(productiveChoices) + if tools != [] then {choice} else {}
    {
      hide PushTool;
      for k := 0 to |tools|
        invariant Writing().InRange()
        invariant PushTools(Writing(), choice, tools[k..]) == PushTools(old(Writing()), choice, tools)
        invariant productiveChoices == old(productiveChoices) + if k > 0 then {choice} else {}
      {
        productiveChoices := productiveChoices + {choice};
        assert tools[k..][0] == tools[k] && tools[k..][1..] == tools[k + 1..];
        OnTool(choice, tools[k]);
      }
    }

    method TextToShow(c: ChoiceDelta) returns (text: string)
      requires Writing().InRange()
      ensures text == ContentToShow(Writing(), c)
    {
      text := c.content;
      if c.reasoning != "" && text == c.reasoning {
        text := "";
      }
      if text != "" && c.index in reasoningStates && text == itemStates[reasoningStates[c.index]].text {
        text := "";
      }
    }

    method OnChoice(c: ChoiceDelta)
      requires Writing().InRange()
      modifies this
      ensures View() == HandleChoice(old(View()), c)
    {
      hide WriteChoice;
      seenChoices := seenChoices + {c.index};
      if c.finish != "" {
        finishedChoices := finishedChoices[c.index := c.finish];
      }
      if c.reasoning != "" {
        var hasOpenTool := exists k | k in toolStates :: k.0 == c.index && !itemStates[toolStates[k]].closed;
        if c.index in textStates || hasOpenTool {
          streamError := Some(InvalidUpstreamEvent);
          return;
        }
      }
      OnDelta(c);
    }

    /** Only a delta that shows something makes its choice productive. */
    method OnDelta(c: ChoiceDelta)
      requires Writing().InRange()
      modifies this
      ensures View() == WriteChoice(old(View()), c)
    {
      hide PushReasoning, PushText, PushTools, ContentToShow;
      ghost var before := View();
      var shown := OnTexts(c);
      ghost var middle := View();
      OnTools(c.index, c.tools);
      assert productiveChoices == before.productive + (if shown then {c.index} else {}) + (if c.tools != [] then {c.index} else {});
      assert View() == middle.(e := PushTools(middle.e, c.index, c.tools), productive := productiveChoices);
    }

    method OnTexts(c: ChoiceDelta) returns (shown: bool)
      requires Writing().InRange()
      modifies this
      ensures Writing().InRange()
      ensures var e := old(Writing());
              var e1 := if c.reasoning != "" then PushReasoning(e, c.index, c.reasoning) else e;
              var text := ContentToShow(e1, c);
              && shown == (c.reasoning != "" || text != "")
              && View() == old(View()).(e := if text != "" then PushText(e1, c.index, text) else e1,
                                        productive := old(productiveChoices) + if shown then {c.index} else {})
    {
      hide PushReasoning, PushText, ContentToShow;
      shown := c.reasoning != "";
      if shown {
        productiveChoices := productiveChoices + {c.index};
        OnReasoning(c.index, c.reasoning);
      }
      var text := TextToShow(c);
      if text != "" {
        shown := true;
        productiveChoices := productiveChoices + {c.index};
        OnText(c.index, text);
      }
    }

    method OnChoices(choices: seq<ChoiceDelta>)
      requires Writing().InRange()
      modifies this
      ensures View() == HandleChoices(old(View()), choices)
    {
      hide HandleChoice;
      var k := 0;
      while k < |choices| && streamError.None?
        invariant k <= |choices| && Writing().InRange()
        invariant HandleChoices(View(), choices[k..]) == HandleChoices(old(View()), choices)
      {
        OnChoice(choices[k]);
        assert choices[k..][1..] == choices[k + 1..];
        k := k + 1;
      }
    }

    method OnData(d: DataEvent)
      requires Writing().InRange()
      modifies this
      ensures View() == HandleData(old(View()), d)
    {
      hide HandleChoices;
      match d
      case Blank =>
      case DoneMark => sawDone := true;
      case Malformed => streamError := Some(InvalidUpstreamEvent);
      case ErrorEvent => streamError := Some(UpstreamError);
      case StreamFailure => streamError := Some(UpstreamStreamError);
      case Chunk(more, choices) =>
        usage := usage + more;
        OnChoices(choices);
    }

    method ReadAll(data: seq<DataEvent>)
      requires View() == Start()
      modifies this
      ensures View() == HandleAll(Start(), data)
    {
      hide Start, HandleData;
      var k := 0;
      while k < |data| && !sawDone && streamError.None?
        invariant k <= |data| && Writing().InRange()
        invariant HandleAll(View(), data[k..]) == HandleAll(Start(), data)
      {
        OnData(data[k]);
        assert data[k..][1..] == data[k + 1..];
        k := k + 1;
      }
    }

    method CloseAll(status: Status)
      requires Writing().InRange()
      modifies `lastSeq, `events, `outputItems, `itemStates
      ensures Writing() == CloseFrom(old(Writing()), 0, status)
    {
      hide CloseItem;
      var k := 0;
      while k < |itemStates|
        invariant k <= |itemStates| == |old(itemStates)| && Writing().InRange()
        invariant CloseFrom(Writing(), k, status) == CloseFrom(old(Writing()), 0, status)
      {
        Close(k, status);
        k := k + 1;
      }
    }

    /** Whether some choice that ended of its own accord showed nothing. */
    method SomeUnproductive() returns (found: bool)
      ensures found <==> exists c | c in finishedChoices :: !IsCut(finishedChoices[c]) && c !in productiveChoices
    {
      var rest := finishedChoices.Items;
      while |rest| > 0
        invariant rest <= finishedChoices.Items
        invariant forall c | c in finishedChoices && (c, finishedChoices[c]) !in rest ::
                    IsCut(finishedChoices[c]) || c in productiveChoices
      {
        var entry :| entry in rest;
        var (choice, reason) := entry;
        if reason != "length" && reason != "content_filter" && choice !in productiveChoices {
          return true;
        }
        rest := rest - {entry};
      }
      return false;
    }

    /** Look at the calls still open, one by one, up to the first without a name or arguments that parse. */
    method SomeCallUnusable(parses: string -> bool) returns (found: bool)
      requires Writing().InRange()
      ensures found == SomeCallBad(Writing(), parses)
    {
      var rest := toolStates.Keys;
      while |rest| > 0
        invariant rest <= toolStates.Keys
        invariant forall k | k in toolStates.Keys - rest ::
                    itemStates[toolStates[k]].closed
                    || CallOk(outputItems[toolStates[k]], itemStates[toolStates[k]].text, parses)
      {
        var k :| k in rest;
        rest := rest - {k};
        var i := toolStates[k];
        if itemStates[i].closed {
          continue;
        }
        if outputItems[i].name == "" || !parses(itemStates[i].text) {
          return true;
        }
      }
      return false;
    }

    /** How the stream went: the first of the failures, the two ways of being cut short, or success. */
    method JudgeStream() returns (v: Verdict)
      requires Writing().InRange()
      ensures v == StreamVerdict(View())
    {
      var finishReasons := finishedChoices.Values;
      var unfinished := seenChoices - finishedChoices.Keys;
      if streamError.Some? {
        return Verdict(Failed, streamError, None);
      }
      if "length" in finishReasons {
        return Verdict(Incomplete, None, Some(MaxOutputTokens));
      }
      if "content_filter" in finishReasons {
        return Verdict(Incomplete, None, Some(ContentFilter));
      }
      if !sawDone {
        if seenChoices == {} || unfinished != {} {
          return Verdict(Failed, Some(UpstreamStreamEnded), None);
        }
      } else if finishedChoices != map[] && unfinished != {} {
        return Verdict(Failed, Some(UpstreamStreamEnded), None);
      }
      var unproductive := SomeUnproductive();
      if seenChoices == {} || outputItems == [] || unproductive {
        return Verdict(Failed, Some(EmptyResponse), None);
      }
      return Verdict(Completed, None, None);
    }

    method Judge(parses: string -> bool) returns (v: Verdict)
      requires Writing().InRange()
      ensures v == FinalVerdict(View(), parses)
    {
      hide StreamVerdict, SomeCallBad;
      v := JudgeStream();
      if v.status == Completed {
        var unusable := SomeCallUnusable(parses);
        if unusable {
          v := Verdict(Failed, Some(InvalidToolArguments), None);
        }
      }
    }

    /** Read the data stream to its end, close every item, and report how it went. */
    method Run(data: seq<DataEvent>, parses: string -> bool)
      requires View() == Start()
      modifies this
      ensures Writing() == Translate(data, parses)
      ensures Accepted(events)
    {
      hide Start, HandleAll, FinalVerdict, CloseFrom, Emit, Accepted;
      ReadAll(data);
      var v := Judge(parses);
      CloseAll(if v.status == Completed then Completed else Incomplete);
      Yield(Terminal(Snapshot(v.status, outputItems, v.error, v.incomplete, ResponsesUsage(usage))));
      TranslationAccepted(data, parses);
    }
  }
}
