/** The observer as an object: one loop validates an event, a second one changes the fields. */
module ChatStreamObservers {
  import opened Options
  import opened ChatObserver
  import opened ChatObserverTheorems

  function Then<T>(done: seq<T>, rest: Checked<seq<T>>): Checked<seq<T>> {
    if rest.Err? then rest else Ok(done + rest.value)
  }

  lemma ThenEnds<T>(done: seq<T>, rest: Checked<seq<T>>)
    ensures Then([], rest) == rest && Then(done, Ok([])) == Ok(done)
  {
    assert done + [] == done && (rest.Ok? ==> [] + rest.value == rest.value);
  }

  lemma ThenOne<T>(done: seq<T>, x: T, rest: Checked<seq<T>>)
    ensures Then(done, if rest.Err? then rest else Ok([x] + rest.value)) == Then(done + [x], rest)
  {
    assert rest.Ok? ==> done + ([x] + rest.value) == done + [x] + rest.value;
  }

  method ValidateTools(ts: seq<ToolDelta>) returns (r: Checked<seq<GoodTool>>)
    ensures r == CheckTools(ts, 0)
  {
    hide CheckTool;
    var valid: seq<GoodTool> := [];
    assert ts[0..] == ts;
    ThenEnds(valid, CheckTools(ts, 0));
    for position := 0 to |ts|
      invariant CheckTools(ts, 0) == Then(valid, CheckTools(ts[position..], position))
    {
      assert ts[position..][1..] == ts[position + 1..];
      var t := CheckTool(ts[position], position);
      if t.Err? {
        return Err(t.error);
      }
      ThenOne(valid, t.value, CheckTools(ts[position + 1..], position + 1));
      valid := valid + [t.value];
    }
    ThenEnds(valid, CheckTools(ts, 0));
    r := Ok(valid);
  }

  method ValidateChoice(c: Choice, n: nat, closed: set<int>, seen: set<int>) returns (r: Checked<GoodChoice>)
    ensures r == CheckChoice(c, n, closed, seen)
  {
    hide CheckTools;
    if c.ChoiceNotDict? {
      return Err(BadChoice);
    }
    var index := if c.index.Absent? then Good(0) else c.index;
    if !index.Good? {
      return Err(BadIndex);
    }
    if !(0 <= index.value < n) {
      return Err(NotRequested);
    }
    if index.value in seen {
      return Err(RepeatedIndex);
    }
    if index.value in closed {
      return Err(AfterFinish);
    }
    if c.finish.Bad? {
      return Err(BadFinish);
    }
    if !c.delta.Good? {
      return Err(BadDelta);
    }
    var d := c.delta.value;
    if d.content.Bad? {
      return Err(BadContent);
    }
    if d.reasoning.Bad? {
      return Err(BadReasoning);
    }
    if d.tools.Bad? {
      return Err(BadTools);
    }
    var tools := ValidateTools(if d.tools.Good? then d.tools.value else []);
    if tools.Err? {
      return Err(tools.error);
    }
    r := Ok(GoodChoice(index.value, NonEmpty(c.finish), TextOf(d.content), TextOf(d.reasoning), tools.value));
  }

  method ValidateChoices(cs: seq<Choice>, n: nat, closed: set<int>) returns (r: Checked<seq<GoodChoice>>)
    ensures r == CheckChoices(cs, n, closed, {})
  {
    hide CheckChoice;
    var validated: seq<GoodChoice> := [];
    var seen: set<int> := {};
    assert cs[0..] == cs;
    ThenEnds(validated, CheckChoices(cs, n, closed, {}));
    for k := 0 to |cs|
      invariant CheckChoices(cs, n, closed, {}) == Then(validated, CheckChoices(cs[k..], n, closed, seen))
    {
      assert cs[k..][1..] == cs[k + 1..];
      var c := ValidateChoice(cs[k], n, closed, seen);
      if c.Err? {
        return Err(c.error);
      }
      seen := seen + {c.value.index};
      ThenOne(validated, c.value, CheckChoices(cs[k + 1..], n, closed, seen));
      validated := validated + [c.value];
    }
    ThenEnds(validated, CheckChoices(cs, n, closed, {}));
    r := Ok(validated);
  }

  class ChatStreamObserver {
    const n: nat
    var seenDone: bool
    var sawChatChunk: bool
    var errorEvent: Option<Chunk>
    var malformedDataEvent: bool
    var parserError: Option<ParseError>
    var usage: map<string, int>
    var metadata: map<string, string>
    var finishReasons: map<int, Option<string>>
    var order: seq<int>
    var closedChoices: set<int>
    var contentChoices: set<int>
    var reasoningChoices: set<int>
    var toolCallChoices: set<int>
    var contentParts: seq<string>
    var toolCalls: map<(int, int), Call>

    function Made(): Progress
      reads this
    {
      Progress(finishReasons, order, closedChoices, contentChoices, reasoningChoices, toolCallChoices, contentParts, toolCalls)
    }

    function View(): Obs
      reads this
    {
      Obs(n, seenDone, sawChatChunk, errorEvent, malformedDataEvent, parserError, usage, metadata, Made())
    }

    constructor (requested: Field<int>)
      ensures View() == NewObs(Expected(requested))
    {
      n := Expected(requested);
      seenDone, sawChatChunk, errorEvent, malformedDataEvent, parserError := false, false, None, false, None;
      usage, metadata := map[], map[];
      finishReasons, order, closedChoices, contentChoices, reasoningChoices := map[], [], {}, {}, {};
      toolCallChoices, contentParts, toolCalls := {}, [], map[];
    }

    /** One delta of a call; a changed id or name stops the event. */
    method TakeTool(i: int, t: GoodTool) returns (error: Option<ParseError>)
      modifies this`toolCallChoices, this`toolCalls
      ensures var a := Tool(i, t.index, t.id, t.name, t.arguments);
              Made() == Apply(old(Made()), a) && error == Conflict(old(Made()), a)
    {
      toolCallChoices := toolCallChoices + {i};
      var key := (i, t.index as int);
      var state := if key in toolCalls then toolCalls[key] else Call(None, None, "");
      if t.id.Some? {
        if state.id.Some? && state.id != t.id {
          toolCalls := toolCalls[key := state];
          return Some(CallIdChanged);
        }
        state := state.(id := t.id);
      }
      if t.name.Some? {
        if state.name.Some? && state.name != t.name {
          toolCalls := toolCalls[key := state];
          return Some(NameChanged);
        }
        state := state.(name := t.name);
      }
      if t.arguments.Some? {
        state := state.(arguments := state.arguments + t.arguments.value);
      }
      assert t.arguments.None? ==> state.arguments + "" == state.arguments;
      toolCalls := toolCalls[key := state];
      error := None;
    }

    method TakeTools(i: int, ts: seq<GoodTool>) returns (error: Option<ParseError>)
      modifies this`toolCallChoices, this`toolCalls
      ensures ApplyAll(old(Made()), ToolAtoms(i, ts)) == (Made(), error)
    {
      hide Apply, Conflict;
      for k := 0 to |ts|
        invariant ApplyAll(old(Made()), ToolAtoms(i, ts)) == ApplyAll(Made(), ToolAtoms(i, ts[k..]))
      {
        assert ts[k..][1..] == ts[k + 1..];
        error := TakeTool(i, ts[k]);
        if error.Some? {
          return;
        }
      }
      error := None;
    }

    method TakeChoice(c: GoodChoice) returns (error: Option<ParseError>)
      modifies this`finishReasons, this`order, this`closedChoices, this`contentParts, this`contentChoices,
               this`reasoningChoices, this`toolCallChoices, this`toolCalls
      ensures ApplyAll(old(Made()), ChoiceAtoms(c)) == (Made(), error)
    {
      if c.index !in finishReasons {
        finishReasons := finishReasons[c.index := None];
        order := order + [c.index];
      }
      if c.reason.Some? {
        finishReasons := finishReasons[c.index := c.reason];
        closedChoices := closedChoices + {c.index};
      }
      if c.content != "" {
        contentParts := contentParts + [c.content];
        contentChoices := contentChoices + {c.index};
      }
      if c.reasoning != "" {
        reasoningChoices := reasoningChoices + {c.index};
      }
      ghost var after := Made();
      LeadApplied(old(Made()), after, c);
      error := TakeTools(c.index, c.tools);
    }

    /** The second loop over an event. */
    method TakeChoices(cs: seq<GoodChoice>) returns (error: Option<ParseError>)
      modifies this`finishReasons, this`order, this`closedChoices, this`contentParts, this`contentChoices,
               this`reasoningChoices, this`toolCallChoices, this`toolCalls
      ensures ApplyAll(old(Made()), Atoms(cs)) == (Made(), error)
    {
      hide ChoiceAtoms, Apply, Conflict;
      for k := 0 to |cs|
        invariant ApplyAll(old(Made()), Atoms(cs)) == ApplyAll(Made(), Atoms(cs[k..]))
      {
        assert cs[k..][1..] == cs[k + 1..];
        ApplyAppend(Made(), ChoiceAtoms(cs[k]), Atoms(cs[k + 1..]));
        error := TakeChoice(cs[k]);
        if error.Some? {
          return;
        }
      }
      error := None;
    }

    method ObserveEvent(data: Wire) returns (obj: Option<Chunk>)
      modifies this
      ensures (View(), obj) == Observe(old(View()), data)
    {
      hide Judge;
      obj := None;
      if data.DoneMark? {
        seenDone := true;
        return;
      }
      if seenDone {
        parserError := Some(DataAfterDone);
        return;
      }
      if data.Unparsable? {
        malformedDataEvent := true;
        return;
      }
      var c := data.chunk;
      if c.error {
        errorEvent := Some(c);
        return;
      }
      var chat := c.chunkObject || !c.choices.Absent?;
      if chat && !c.choices.Good? {
        parserError := Some(BadChoices);
        return;
      }
      if chat {
        sawChatChunk := true;
        metadata := metadata + c.metadata;
      }
      if c.usage.Bad? {
        parserError := Some(BadUsage);
        return;
      }
      if c.usage.Good? {
        usage := usage + c.usage.value;
      }
      if !chat {
        parserError := Some(NotAChunk);
        return;
      }
      obj := JudgeChunk(c);
    }

    /** Both loops over the choices of a chunk. */
    method JudgeChunk(c: Chunk) returns (obj: Option<Chunk>)
      requires c.choices.Good?
      modifies this
      ensures (View(), obj) == Judge(old(View()), c)
    {
      hide CheckChoices, ApplyAll, Clean, Atoms;
      obj := None;
      var validated := ValidateChoices(c.choices.value, n, closedChoices);
      if validated.Err? {
        parserError := Some(validated.error);
        return;
      }
      var error := TakeChoices(validated.value);
      if error.Some? {
        parserError := error;
        return;
      }
      obj := Some(Clean(c));
    }
  }

  /** The changes of a choice before its tool calls. */
  lemma LeadApplied(p: Progress, q: Progress, c: GoodChoice)
    requires var p1 := if c.index in p.finish then p else p.(finish := p.finish[c.index := None], order := p.order + [c.index]);
             var p2 := if c.reason.Some? then p1.(finish := p1.finish[c.index := c.reason], closed := p1.closed + {c.index}) else p1;
             var p3 := if c.content != "" then p2.(text := p2.text + [c.content], content := p2.content + {c.index}) else p2;
             q == if c.reasoning != "" then p3.(reasoning := p3.reasoning + {c.index}) else p3
    ensures ApplyAll(p, ChoiceAtoms(c)) == ApplyAll(q, ToolAtoms(c.index, c.tools))
  {
    hide ToolAtoms;
    var i := c.index;
    var a1 := [Seen(i)];
    var a2 := if c.reason.Some? then [Finish(i, c.reason.value)] else [];
    var a3 := if c.content != "" then [Text(i, c.content)] else [];
    var a4 := if c.reasoning != "" then [Reason(i)] else [];
    var lead := a1 + a2 + a3 + a4;
    assert ChoiceAtoms(c) == lead + ToolAtoms(i, c.tools);
    ApplyAppend(p, a1, a2);
    ApplyAppend(p, a1 + a2, a3);
    ApplyAppend(p, a1 + a2 + a3, a4);
    ApplyAppend(p, lead, ToolAtoms(i, c.tools));
    assert ApplyAll(p, a1) == (Apply(p, Seen(i)), None);
    assert ApplyAll(p, lead) == (q, None);
  }
}
