/** Every translated stream is accepted by the strict client, whatever the upstream sends. */
module ResponsesWellFormed {
  import opened Options
  import opened ResponsesEvents
  import opened ResponsesTranslation

  predicate HasKind(item: Item, kind: Kind) {
    match kind
    case ReasoningKind => item.Reasoning?
    case TextKind => item.Message?
    case ToolKind => item.FunctionCall?
  }

  /** The client's slot, the item and its state tell the same story. */
  predicate SlotMatches(s: Slot, item: Item, st: ItemState) {
    && s.item.id == item.id && HasKind(item, st.kind) && HasKind(s.item, st.kind)
    && item.text == st.text
    && if st.closed then s.stage == Done && s.item == item && item.status in {Completed, Incomplete}
       else
         && s.received == st.text && item.status == InProgress
         && (st.kind.ToolKind? ==> s.item.callId == item.callId)
         && s.stage == if st.kind.ToolKind? then Announced else PartOpen
  }

  /** The client has read the events so far and nothing was out of place. */
  predicate Heard(e: Emitter, c: Client) {
    Read(e.events) == c && e.lastSeq == |e.events| - 1 && c.count == |e.events| && c.phase == Live
  }

  predicate SlotsMatch(slots: seq<Slot>, output: seq<Item>, states: seq<ItemState>) {
    && |slots| == |output| == |states|
    && forall i | 0 <= i < |slots| :: SlotMatches(slots[i], output[i], states[i])
  }

  /** Reasoning is written alone, and at most one text is written at a time. */
  predicate MayOverlap(a: Item, b: Item) {
    !a.Reasoning? && !b.Reasoning? && !(a.Message? && b.Message?)
  }

  /** Of the items a client sees unfinished, no two of one choice get in each other's way. */
  predicate Separate(slots: seq<Slot>, states: seq<ItemState>) {
    && |slots| <= |states|
    && forall i, j | 0 <= i < j < |slots| && slots[i].stage != Done && slots[j].stage != Done && states[i].choice == states[j].choice ::
         MayOverlap(slots[i].item, slots[j].item)
  }

  /** At every event so far. */
  predicate InTurn(events: seq<Event>, states: seq<ItemState>) {
    forall n | 0 <= n <= |events| :: Separate(Read(events[..n]).slots, states)
  }

  /** The client is in step with the translator. */
  predicate Tracks(e: Emitter) {
    var c := Read(e.events);
    && Heard(e, c) && SlotsMatch(c.slots, e.output, e.states)
    && (forall i | 0 <= i < |e.output| :: e.output[i].id < e.nextId)
    && InTurn(e.events, e.states)
  }

  predicate SameChoices(a: seq<ItemState>, b: seq<ItemState>) {
    |a| == |b| && forall i | 0 <= i < |a| :: a[i].choice == b[i].choice
  }

  /** An event that announces nothing leaves apart what was apart. */
  lemma QuietEvent(c: Client, e: Event, states: seq<ItemState>)
    requires Separate(c.slots, states) && !e.payload.ItemAdded?
    ensures Separate(Receive(c, e).slots, states)
  {
    var d := Receive(c, e);
    forall i | 0 <= i < |d.slots|
      ensures |d.slots| == |c.slots| && (c.slots[i].stage == Done ==> d.slots[i].stage == Done)
      ensures d.slots[i].stage != Done ==> d.slots[i].item == c.slots[i].item
    {
    }
  }

  /** More events that announce nothing. */
  lemma {:induction false} StillInTurn(events: seq<Event>, more: seq<Event>, states: seq<ItemState>)
    requires InTurn(events, states) && forall k | 0 <= k < |more| :: !more[k].payload.ItemAdded?
    ensures InTurn(events + more, states)
  {
    hide Separate;
    if more == [] {
      assert events + more == events;
    } else {
      var front, e := more[..|more| - 1], more[|more| - 1];
      StillInTurn(events, front, states);
      OneMoreInTurn(events + front, e, states);
      assert events + more == events + front + [e];
    }
  }

  lemma OneMoreInTurn(events: seq<Event>, e: Event, states: seq<ItemState>)
    requires InTurn(events, states)
    requires !e.payload.ItemAdded? || Separate(Receive(Read(events), e).slots, states)
    ensures InTurn(events + [e], states)
  {
    hide Separate;
    var all := events + [e];
    ReadMore(events, e);
    assert events[..|events|] == events;
    if !e.payload.ItemAdded? {
      QuietEvent(Read(events), e, states);
    }
    forall n | 0 <= n <= |all| ensures Separate(Read(all[..n]).slots, states) {
      if n <= |events| {
        assert all[..n] == events[..n];
      } else {
        assert all[..n] == all;
      }
    }
  }

  lemma ChoicesKept(events: seq<Event>, before: seq<ItemState>, after: seq<ItemState>)
    requires InTurn(events, before) && SameChoices(before, after)
    ensures InTurn(events, after)
  {
    forall n | 0 <= n <= |events| ensures Separate(Read(events[..n]).slots, after) {
      assert Separate(Read(events[..n]).slots, before);
    }
  }

  predicate Announces(events: seq<Event>, from: nat) {
    exists k | from <= k < |events| :: events[k].payload.ItemAdded?
  }

  lemma QuietInTurn(e: Emitter, r: Emitter)
    requires InTurn(e.events, e.states) && SameChoices(e.states, r.states)
    requires e.events <= r.events && !Announces(r.events, |e.events|)
    ensures InTurn(r.events, r.states)
  {
    hide InTurn;
    StillInTurn(e.events, r.events[|e.events|..], e.states);
    assert r.events == e.events + r.events[|e.events|..];
    ChoicesKept(r.events, e.states, r.states);
  }

  /** An item of this kind would not get in the way of any open item of the choice. */
  predicate Free(states: seq<ItemState>, choice: int, kind: Kind) {
    forall i | 0 <= i < |states| && !states[i].closed && states[i].choice == choice ::
      !states[i].kind.ReasoningKind? && !kind.ReasoningKind? && !(states[i].kind.TextKind? && kind.TextKind?)
  }


  lemma TextInStep(e: Emitter, i: nat)
    requires Tracks(e) && i < |e.output|
    ensures |e.output| == |e.states| && e.output[i].text == e.states[i].text && HasKind(e.output[i], e.states[i].kind)
  {
    assert SlotMatches(Read(e.events).slots[i], e.output[i], e.states[i]);
  }

  lemma EmitHeard(e: Emitter, c: Client, p: Payload)
    requires Heard(e, c) && Receive(c, Event(c.count, p)).phase == Live
    ensures Heard(Emit(e, p), Receive(c, Event(c.count, p)))
  {
    ReadMore(e.events, Event(e.lastSeq + 1, p));
  }

  /** How the client reads the end of an item. */
  lemma HearTextEnd(e: Emitter, c: Client, i: nat, text: string) returns (d: Client)
    requires Heard(e, c) && i < |c.slots|
    requires c.slots[i].received == text && !c.slots[i].item.FunctionCall? && c.slots[i].stage == PartOpen
    ensures var id := c.slots[i].item.id;
            Heard(Emit(Emit(e, TextDone(id, i, text)), PartDone(id, i, text)), d)
    ensures d.slots == c.slots[i := c.slots[i].(stage := PartClosed)]
  {
    var id := c.slots[i].item.id;
    EmitHeard(e, c, TextDone(id, i, text));
    var c1 := Receive(c, Event(c.count, TextDone(id, i, text)));
    assert c1.slots == c.slots[i := c.slots[i].(stage := TextClosed)];
    EmitHeard(Emit(e, TextDone(id, i, text)), c1, PartDone(id, i, text));
    d := Receive(c1, Event(c1.count, PartDone(id, i, text)));
  }

  lemma HearCallEnd(e: Emitter, c: Client, i: nat, text: string) returns (d: Client)
    requires Heard(e, c) && i < |c.slots|
    requires c.slots[i].received == text && c.slots[i].item.FunctionCall? && c.slots[i].stage == Announced
    ensures Heard(Emit(e, TextDone(c.slots[i].item.id, i, text)), d)
    ensures d.slots == c.slots[i := c.slots[i].(stage := TextClosed)]
  {
    EmitHeard(e, c, TextDone(c.slots[i].item.id, i, text));
    d := Receive(c, Event(c.count, TextDone(c.slots[i].item.id, i, text)));
  }

  lemma HearItemDone(e: Emitter, c: Client, i: nat, item: Item) returns (d: Client)
    requires Heard(e, c) && i < |c.slots| && DoneItemOk(c.slots[i], item)
    ensures Heard(Emit(e, ItemDone(i, item)), d)
    ensures d.slots == c.slots[i := c.slots[i].(item := item, stage := Done)]
  {
    EmitHeard(e, c, ItemDone(i, item));
    d := Receive(c, Event(c.count, ItemDone(i, item)));
  }

  /** The item and its slot are finished together. */
  lemma FinishedTracks(e: Emitter, i: nat, r: Emitter, d: Client)
    requires Tracks(e) && i < |e.states| && i < |r.output| && r.InRange()
    requires r.output[i].status in {Completed, Incomplete} && r.output == e.output[i := e.output[i].WithStatus(r.output[i].status)]
    requires r.states == e.states[i := e.states[i].(closed := true)] && r.nextId == e.nextId
    requires Heard(r, d) && d.slots == Read(e.events).slots[i := Slot(r.output[i], e.states[i].text, Done)]
    requires e.events <= r.events && !Announces(r.events, |e.events|)
    ensures Tracks(r)
  {
    hide InTurn;
    QuietInTurn(e, r);
    var c := Read(e.events);
    assert SlotMatches(c.slots[i], e.output[i], e.states[i]);
  }

  lemma EmitQuiet(e: Emitter, p: Payload, from: nat)
    requires from <= |e.events| && !Announces(e.events, from) && !p.ItemAdded?
    ensures e.events <= Emit(e, p).events && !Announces(Emit(e, p).events, from)
  {
  }

  /** The item of a text or of reasoning at its end, in the order in which the events are sent. */
  lemma CloseTextTracks(e: Emitter, i: nat, status: Status)
    requires Tracks(e) && e.InRange() && i < |e.states| && status in {Completed, Incomplete}
    requires !e.states[i].closed && !e.states[i].kind.ToolKind?
    ensures Tracks(CloseItem(e, i, status))
    ensures CloseItem(e, i, status).output == e.output[i := e.output[i].WithStatus(status)]
  {
    hide InTurn, Announces;
    var s, c := e.states[i], Read(e.events);
    assert SlotMatches(c.slots[i], e.output[i], s);
    var item := e.output[i].WithStatus(status);
    var e1 := e.(output := e.output[i := item], states := e.states[i := s.(closed := true)]);
    var e2 := Emit(e1, TextDone(item.id, i, s.text));
    var e3 := Emit(e2, PartDone(item.id, i, s.text));
    var r := Emit(e3, ItemDone(i, item));
    assert r == CloseItem(e, i, status);
    QuietSoFar(e);
    EmitQuiet(e1, TextDone(item.id, i, s.text), |e.events|);
    EmitQuiet(e2, PartDone(item.id, i, s.text), |e.events|);
    EmitQuiet(e3, ItemDone(i, item), |e.events|);
    var d := HearTextEnd(e1, c, i, s.text);
    d := HearItemDone(e3, d, i, item);
    assert d.slots == c.slots[i := Slot(item, s.text, Done)];
    hide Emit, CloseItem, Read;
    FinishedTracks(e, i, r, d);
  }

  lemma QuietSoFar(e: Emitter)
    ensures !Announces(e.events, |e.events|)
  {
  }

  lemma CloseCallTracks(e: Emitter, i: nat, status: Status)
    requires Tracks(e) && e.InRange() && i < |e.states| && status in {Completed, Incomplete}
    requires !e.states[i].closed && e.states[i].kind.ToolKind?
    ensures Tracks(CloseItem(e, i, status))
    ensures CloseItem(e, i, status).output == e.output[i := e.output[i].WithStatus(status)]
  {
    hide InTurn, Announces;
    var s, c := e.states[i], Read(e.events);
    assert SlotMatches(c.slots[i], e.output[i], s);
    var item := e.output[i].WithStatus(status);
    var e1 := e.(output := e.output[i := item], states := e.states[i := s.(closed := true)]);
    QuietSoFar(e);
    var d, e2 := c, e1;
    if status == Completed {
      d := HearCallEnd(e1, c, i, s.text);
      e2 := Emit(e1, TextDone(item.id, i, s.text));
      EmitQuiet(e1, TextDone(item.id, i, s.text), |e.events|);
    }
    d := HearItemDone(e2, d, i, item);
    var r := Emit(e2, ItemDone(i, item));
    EmitQuiet(e2, ItemDone(i, item), |e.events|);
    assert r == CloseItem(e, i, status);
    assert d.slots == c.slots[i := Slot(item, s.text, Done)];
    hide Emit, CloseItem, Read;
    FinishedTracks(e, i, r, d);
  }

  lemma CloseTracks(e: Emitter, i: nat, status: Status)
    requires Tracks(e) && e.InRange() && i < |e.states| && status in {Completed, Incomplete}
    ensures Tracks(CloseItem(e, i, status))
    ensures CloseItem(e, i, status).output == if e.states[i].closed then e.output else e.output[i := e.output[i].WithStatus(status)]
  {
    if !e.states[i].closed {
      if e.states[i].kind.ToolKind? {
        CloseCallTracks(e, i, status);
      } else {
        CloseTextTracks(e, i, status);
      }
    }
  }

  lemma AppendTracks(e: Emitter, i: nat, delta: string)
    requires Tracks(e) && e.InRange() && i < |e.states| && !e.states[i].closed && delta != ""
    ensures Tracks(Append(e, i, delta))
  {
    var c := Read(e.events);
    assert SlotMatches(c.slots[i], e.output[i], e.states[i]);
    var text := e.states[i].text + delta;
    var e1 := e.(states := e.states[i := e.states[i].(text := text)], output := e.output[i := e.output[i].WithText(text)]);
    var d := HearDelta(e1, c, i, delta);
    assert SlotMatches(d.slots[i], e1.output[i], e1.states[i]);
    assert SlotsMatch(d.slots, e1.output, e1.states);
    hide InTurn;
    QuietInTurn(e, Append(e, i, delta));
  }

  lemma HearDelta(e: Emitter, c: Client, i: nat, delta: string) returns (d: Client)
    requires Heard(e, c) && i < |c.slots| && Receiving(c.slots[i]) && delta != ""
    ensures Heard(Emit(e, Delta(c.slots[i].item.id, i, delta)), d)
    ensures d.slots == c.slots[i := c.slots[i].(received := c.slots[i].received + delta)]
  {
    EmitHeard(e, c, Delta(c.slots[i].item.id, i, delta));
    d := Receive(c, Event(c.count, Delta(c.slots[i].item.id, i, delta)));
  }

  /** A new item that gets in nobody's way. */
  lemma OpenInTurn(e: Emitter, item: Item, kind: Kind, choice: int)
    requires Tracks(e) && HasKind(item, kind) && Free(e.states, choice, kind)
    ensures var next := OpenItem(e, item, kind, choice); InTurn(next.events, next.states)
  {
    var next, c := OpenItem(e, item, kind, choice), Read(e.events);
    var event := Event(e.lastSeq + 1, ItemAdded(|e.output|, item));
    forall n | 0 <= n <= |e.events| ensures Separate(Read(e.events[..n]).slots, next.states) {
      assert Separate(Read(e.events[..n]).slots, e.states);
    }
    assert e.events[..|e.events|] == e.events;
    assert Separate(c.slots, e.states);
    AddedSeparate(c.slots, e.output, e.states, Slot(item, "", Announced), ItemState(kind, "", false, choice));
    OneMoreInTurn(e.events, event, next.states);
  }

  lemma AddedSeparate(slots: seq<Slot>, output: seq<Item>, states: seq<ItemState>, s: Slot, st: ItemState)
    requires SlotsMatch(slots, output, states) && Separate(slots, states)
    requires HasKind(s.item, st.kind) && Free(states, st.choice, st.kind)
    ensures Separate(slots + [s], states + [st])
  {
    forall i | 0 <= i < |slots| && slots[i].stage != Done && states[i].choice == st.choice ensures MayOverlap(slots[i].item, s.item) {
      assert SlotMatches(slots[i], output[i], states[i]);
    }
  }

  /** Announcing a new call, or a new text item with its part. */
  lemma OpenTracks(e: Emitter, item: Item, kind: Kind, choice: int)
    requires Tracks(e) && HasKind(item, kind) && item.id == e.nextId && item.status == InProgress && item.text == ""
    requires Free(e.states, choice, kind)
    ensures kind.ToolKind? ==> Tracks(OpenItem(e, item, kind, choice))
    ensures !kind.ToolKind? ==> Tracks(Emit(OpenItem(e, item, kind, choice), PartAdded(item.id, |e.output|)))
  {
    var next := OpenItem(e, item, kind, choice);
    OpenInTurn(e, item, kind, choice);
    hide InTurn, Free;
    var c := Read(e.events);
    forall i | 0 <= i < |c.slots| ensures c.slots[i].item.id != item.id {
      assert SlotMatches(c.slots[i], e.output[i], e.states[i]);
    }
    EmitHeard(e.(output := next.output, states := next.states, nextId := next.nextId), c, ItemAdded(|e.output|, item));
    var c1 := Receive(c, Event(c.count, ItemAdded(|e.output|, item)));
    assert c1.slots == c.slots + [Slot(item, "", Announced)];
    if !kind.ToolKind? {
      QuietInTurn(next, Emit(next, PartAdded(item.id, |e.output|)));
      EmitHeard(next, c1, PartAdded(item.id, |e.output|));
    }
  }

  // ---------------------------------------------------------------- who is writing what

  /** A map points at open items of one kind, one item per choice. */
  predicate PointsAtOpen(m: map<int, nat>, states: seq<ItemState>, kind: Kind) {
    && (forall c | c in m :: m[c] < |states| && states[m[c]].kind == kind && !states[m[c]].closed && states[m[c]].choice == c)
    && (forall c, d | c in m && d in m && c != d :: m[c] != m[d])
  }

  ghost predicate Pointed(m: map<int, nat>, i: nat) {
    exists c :: c in m && m[c] == i
  }

  /** Every open item of the kind belongs to a choice. */
  ghost predicate AllPointed(m: map<int, nat>, states: seq<ItemState>, kind: Kind) {
    forall i | 0 <= i < |states| && states[i].kind == kind && !states[i].closed :: Pointed(m, i)
  }

  ghost predicate CallPointed(tools: map<(int, int), nat>, i: nat) {
    exists k :: k in tools && tools[k] == i
  }

  /** Calls stay open, and known under their key, to the end. */
  ghost predicate CallsOpen(tools: map<(int, int), nat>, states: seq<ItemState>) {
    && (forall k | k in tools :: tools[k] < |states| && states[tools[k]].kind == ToolKind && states[tools[k]].choice == k.0)
    && (forall i | 0 <= i < |states| && states[i].kind == ToolKind :: !states[i].closed && CallPointed(tools, i))
  }

  /** No choice writes reasoning and text, or reasoning and calls, at the same time. */
  predicate Apart(e: Emitter) {
    && (forall c | c in e.reasoning :: c !in e.text)
    && (forall k | k in e.tools :: k.0 !in e.reasoning)
  }

  predicate ClosedCompleted(output: seq<Item>, states: seq<ItemState>) {
    |output| == |states| && forall i | 0 <= i < |states| && states[i].closed :: output[i].status == Completed
  }

  ghost predicate Disciplined(e: Emitter) {
    && PointsAtOpen(e.reasoning, e.states, ReasoningKind) && AllPointed(e.reasoning, e.states, ReasoningKind)
    && PointsAtOpen(e.text, e.states, TextKind) && AllPointed(e.text, e.states, TextKind)
    && CallsOpen(e.tools, e.states) && Apart(e) && ClosedCompleted(e.output, e.states)
  }

  ghost predicate Good(e: Emitter) {
    e.InRange() && Tracks(e) && Disciplined(e)
  }

  /** A choice that writes neither reasoning nor text is free for text and calls, and without open calls for reasoning. */
  lemma FreeFor(e: Emitter, choice: int, kind: Kind)
    requires e.InRange() && Disciplined(e) && choice !in e.text && choice !in e.reasoning
    requires kind.ReasoningKind? ==> !HasOpenTool(e, choice)
    ensures Free(e.states, choice, kind)
  {
    forall i | 0 <= i < |e.states| && !e.states[i].closed && e.states[i].choice == choice
      ensures e.states[i].kind.ToolKind? && !kind.ReasoningKind?
    {
      if e.states[i].kind.ToolKind? {
        assert CallPointed(e.tools, i);
      }
    }
  }

  /** Forgetting one choice and closing its item. */
  lemma Retire(m: map<int, nat>, states: seq<ItemState>, kind: Kind, choice: int)
    requires PointsAtOpen(m, states, kind) && AllPointed(m, states, kind) && choice in m
    ensures var after := states[m[choice] := states[m[choice]].(closed := true)];
            PointsAtOpen(m - {choice}, after, kind) && AllPointed(m - {choice}, after, kind)
  {
    var after := states[m[choice] := states[m[choice]].(closed := true)];
    forall j | 0 <= j < |after| && after[j].kind == kind && !after[j].closed ensures Pointed(m - {choice}, j) {
      assert Pointed(m, j);
      var c :| c in m && m[c] == j;
      assert c in m - {choice} && (m - {choice})[c] == j;
    }
  }

  /** Closing an item of one kind leaves the others alone. */
  lemma OthersKeep(m: map<int, nat>, tools: map<(int, int), nat>, states: seq<ItemState>, kind: Kind, i: nat)
    requires i < |states| && states[i].kind != kind && !states[i].kind.ToolKind?
    requires PointsAtOpen(m, states, kind) && AllPointed(m, states, kind) && CallsOpen(tools, states)
    ensures var after := states[i := states[i].(closed := true)];
            PointsAtOpen(m, after, kind) && AllPointed(m, after, kind) && CallsOpen(tools, after)
  {
  }

  lemma CloseReasoningDisciplined(e: Emitter, choice: int)
    requires e.InRange() && Disciplined(e)
    ensures Disciplined(CloseReasoning(e, choice))
  {
    if choice in e.reasoning {
      var i := e.reasoning[choice];
      var r := CloseReasoning(e, choice);
      assert r.states == e.states[i := e.states[i].(closed := true)];
      Retire(e.reasoning, e.states, ReasoningKind, choice);
      OthersKeep(e.text, e.tools, e.states, TextKind, i);
    }
  }

  lemma CloseTextDisciplined(e: Emitter, choice: int)
    requires e.InRange() && Disciplined(e)
    ensures Disciplined(CloseText(e, choice))
  {
    if choice in e.text {
      var i := e.text[choice];
      var r := CloseText(e, choice);
      assert r.states == e.states[i := e.states[i].(closed := true)];
      Retire(e.text, e.states, TextKind, choice);
      OthersKeep(e.reasoning, e.tools, e.states, ReasoningKind, i);
    }
  }

  lemma CloseReasoningGood(e: Emitter, choice: int)
    requires Good(e)
    ensures Good(CloseReasoning(e, choice)) && choice !in CloseReasoning(e, choice).reasoning
    ensures CloseReasoning(e, choice).text == e.text && CloseReasoning(e, choice).tools == e.tools
  {
    hide PointsAtOpen, AllPointed, CallsOpen;
    CloseReasoningDisciplined(e, choice);
    if choice in e.reasoning {
      CloseTracks(e.(reasoning := e.reasoning - {choice}), e.reasoning[choice], Completed);
    }
  }

  lemma CloseTextGood(e: Emitter, choice: int)
    requires Good(e)
    ensures Good(CloseText(e, choice)) && choice !in CloseText(e, choice).text
    ensures CloseText(e, choice).reasoning == e.reasoning && CloseText(e, choice).tools == e.tools
  {
    hide PointsAtOpen, AllPointed, CallsOpen;
    CloseTextDisciplined(e, choice);
    if choice in e.text {
      CloseTracks(e.(text := e.text - {choice}), e.text[choice], Completed);
    }
  }

  lemma AppendGood(e: Emitter, i: nat, delta: string)
    requires Good(e) && i < |e.states| && !e.states[i].closed && delta != ""
    ensures Good(Append(e, i, delta))
  {
    hide Tracks, Disciplined, Append;
    AppendTracks(e, i, delta);
    AppendDisciplined(e, i, delta);
  }

  lemma AppendDisciplined(e: Emitter, i: nat, delta: string)
    requires e.InRange() && Disciplined(e) && i < |e.states| && !e.states[i].closed
    ensures Disciplined(Append(e, i, delta))
  {
    hide Pointed, CallPointed;
  }

  lemma PointedGrows(m: map<int, nat>, c: int, i: nat)
    requires c !in m
    ensures Pointed(m[c := i], i)
    ensures forall j | Pointed(m, j) :: Pointed(m[c := i], j)
  {
    var m' := m[c := i];
    assert c in m' && m'[c] == i;
    forall j | Pointed(m, j) ensures Pointed(m', j) {
      var d :| d in m && m[d] == j;
      assert d in m' && m'[d] == j;
    }
  }

  lemma OpenReasoningGood(e: Emitter, choice: int)
    requires Good(e) && choice !in e.text && !HasOpenTool(e, choice)
    ensures Good(OpenReasoning(e, choice))
  {
    if choice !in e.reasoning {
      FreeFor(e, choice, ReasoningKind);
      OpenTracks(e, Reasoning(e.nextId, InProgress, ""), ReasoningKind, choice);
      PointedGrows(e.reasoning, choice, |e.output|);
      OpenReasoningDisciplined(e, choice);
    }
  }

  lemma OpenReasoningDisciplined(e: Emitter, choice: int)
    requires e.InRange() && Disciplined(e) && choice !in e.text && !HasOpenTool(e, choice) && choice !in e.reasoning
    ensures Disciplined(OpenReasoning(e, choice))
  {
    hide AllPointed, CallPointed;
    var st := ItemState(ReasoningKind, "", false, choice);
    GrowOwn(e.reasoning, e.states, st);
    GrowOther(e.text, e.states, TextKind, st);
    GrowCalls(e.tools, e.states, st);
  }

  /** A new item of a choice that had none of its kind. */
  lemma GrowOwn(m: map<int, nat>, states: seq<ItemState>, st: ItemState)
    requires PointsAtOpen(m, states, st.kind) && AllPointed(m, states, st.kind) && st.choice !in m && !st.closed
    ensures var after := m[st.choice := |states|];
            PointsAtOpen(after, states + [st], st.kind) && AllPointed(after, states + [st], st.kind)
  {
    PointedGrows(m, st.choice, |states|);
    hide Pointed;
  }

  /** A new item leaves the items of other kinds alone. */
  lemma GrowOther(m: map<int, nat>, states: seq<ItemState>, kind: Kind, st: ItemState)
    requires PointsAtOpen(m, states, kind) && AllPointed(m, states, kind) && st.kind != kind
    ensures PointsAtOpen(m, states + [st], kind) && AllPointed(m, states + [st], kind)
  {
    hide Pointed;
  }

  lemma GrowCalls(tools: map<(int, int), nat>, states: seq<ItemState>, st: ItemState)
    requires CallsOpen(tools, states) && !st.kind.ToolKind?
    ensures CallsOpen(tools, states + [st])
  {
    hide CallPointed;
  }

  lemma OpenTextDisciplined(e: Emitter, choice: int)
    requires e.InRange() && Disciplined(e) && choice !in e.text && choice !in e.reasoning
    ensures Disciplined(OpenText(e, choice))
  {
    hide AllPointed, CallsOpen;
    var st := ItemState(TextKind, "", false, choice);
    GrowOwn(e.text, e.states, st);
    GrowOther(e.reasoning, e.states, ReasoningKind, st);
    GrowCalls(e.tools, e.states, st);
  }

  lemma OpenTextGood(e: Emitter, choice: int)
    requires Good(e)
    ensures Good(OpenText(e, choice))
  {
    if choice !in e.text {
      CloseReasoningGood(e, choice);
      var before := CloseReasoning(e, choice);
      assert OpenText(e, choice) == OpenText(before, choice);
      FreeFor(before, choice, TextKind);
      OpenTracks(before, Message(before.nextId, InProgress, ""), TextKind, choice);
      OpenTextDisciplined(before, choice);
    }
  }

  /** A new call keeps everyone else's discipline. */
  lemma AddCallDisciplined(e: Emitter, choice: int, tc: ToolDelta)
    requires e.InRange() && Disciplined(e) && choice !in e.text && choice !in e.reasoning && (choice, tc.index) !in e.tools
    ensures Disciplined(AddCall(e, choice, tc))
  {
    hide PointsAtOpen, AllPointed, CallsOpen;
    var r := AddCall(e, choice, tc);
    var call := ItemState(ToolKind, "", false, choice);
    assert r.states == e.states + [call] && r.reasoning == e.reasoning && r.text == e.text;
    assert r.tools == e.tools[(choice, tc.index) := |e.states|];
    GrowOther(e.reasoning, e.states, ReasoningKind, call);
    GrowOther(e.text, e.states, TextKind, call);
    CallOpened(e.tools, e.states, (choice, tc.index), call);
  }

  lemma CallOpened(tools: map<(int, int), nat>, states: seq<ItemState>, key: (int, int), call: ItemState)
    requires CallsOpen(tools, states) && key !in tools && call.kind.ToolKind? && !call.closed && call.choice == key.0
    ensures CallsOpen(tools[key := |states|], states + [call])
  {
    var after, grown := tools[key := |states|], states + [call];
    assert key in after && after[key] == |states|;
    forall i | 0 <= i < |grown| && grown[i].kind == ToolKind ensures !grown[i].closed && CallPointed(after, i) {
      if i < |states| {
        assert grown[i] == states[i] && CallPointed(tools, i);
        var k :| k in tools && tools[k] == i;
        assert k in after && after[k] == i;
      }
    }
  }

  lemma OpenToolGood(e: Emitter, choice: int, tc: ToolDelta)
    requires Good(e)
    ensures Good(OpenTool(e, choice, tc))
  {
    if (choice, tc.index) !in e.tools {
      CloseReasoningGood(e, choice);
      CloseTextGood(CloseReasoning(e, choice), choice);
      var e1 := CloseText(CloseReasoning(e, choice), choice);
      AddCallDisciplined(e1, choice, tc);
      FreeFor(e1, choice, ToolKind);
      AddCallTracks(e1, choice, tc);
    }
  }

  lemma AddCallTracks(e: Emitter, choice: int, tc: ToolDelta)
    requires e.InRange() && Tracks(e) && Free(e.states, choice, ToolKind) && (choice, tc.index) !in e.tools
    ensures Tracks(AddCall(e, choice, tc))
  {
    var callId := if tc.id != "" then Given(tc.id) else Generated(e.nextId);
    var e2 := if tc.id != "" then e else e.(nextId := e.nextId + 1);
    SameTracks(e, e2);
    hide Tracks, Free;
    SameTracks(OpenItem(e2, FunctionCall(e2.nextId, InProgress, "", callId, tc.name), ToolKind, choice), AddCall(e, choice, tc));
    OpenTracks(e2, FunctionCall(e2.nextId, InProgress, "", callId, tc.name), ToolKind, choice);
  }

  /** The maps do not matter, and neither do spare ids. */
  lemma SameTracks(a: Emitter, b: Emitter)
    requires a.events == b.events && a.lastSeq == b.lastSeq && a.output == b.output && a.states == b.states && a.nextId <= b.nextId
    ensures Tracks(a) ==> Tracks(b)
  {
    hide InTurn, SlotsMatch, Read;
  }

  lemma NameTracks(e: Emitter, i: nat, name: string)
    requires e.InRange() && i < |e.states| && e.output[i].FunctionCall? && !e.states[i].closed
    requires Good(e)
    ensures Good(e.(output := e.output[i := e.output[i].(name := name)]))
  {
    assert SlotMatches(Read(e.events).slots[i], e.output[i], e.states[i]);
  }

  lemma PushToolGood(e: Emitter, choice: int, tc: ToolDelta)
    requires Good(e)
    ensures Good(PushTool(e, choice, tc))
  {
    OpenToolGood(e, choice, tc);
    var e1 := OpenTool(e, choice, tc);
    var i := e1.tools[(choice, tc.index)];
    NameTracks(e1, i, MergeName(e1.output[i].name, tc.name));
    if tc.arguments != "" {
      AppendGood(e1.(output := e1.output[i := e1.output[i].(name := MergeName(e1.output[i].name, tc.name))]), i, tc.arguments);
    }
  }

  lemma {:induction false} PushToolsGood(e: Emitter, choice: int, tools: seq<ToolDelta>)
    requires Good(e)
    ensures Good(PushTools(e, choice, tools))
    decreases |tools|
  {
    if tools != [] {
      PushToolGood(e, choice, tools[0]);
      PushToolsGood(PushTool(e, choice, tools[0]), choice, tools[1..]);
    }
  }

  lemma PushReasoningGood(e: Emitter, choice: int, delta: string)
    requires Good(e) && choice !in e.text && !HasOpenTool(e, choice) && delta != ""
    ensures Good(PushReasoning(e, choice, delta))
  {
    hide Tracks, Append, OpenReasoning;
    OpenReasoningGood(e, choice);
    AppendGood(OpenReasoning(e, choice), OpenReasoning(e, choice).reasoning[choice], delta);
  }

  lemma PushTextGood(e: Emitter, choice: int, delta: string)
    requires Good(e) && delta != ""
    ensures Good(PushText(e, choice, delta))
  {
    hide Tracks, Append, OpenText;
    OpenTextGood(e, choice);
    AppendGood(OpenText(e, choice), OpenText(e, choice).text[choice], delta);
  }

  lemma HandleChoiceGood(t: Translation, c: ChoiceDelta)
    requires Good(t.e)
    ensures Good(HandleChoice(t, c).e)
  {
    hide Tracks, Disciplined, PushReasoning, PushText, PushTools, ContentToShow;
    if !ReasoningTooLate(t.e, c) {
      if c.reasoning != "" {
        PushReasoningGood(t.e, c.index, c.reasoning);
      }
      var e1 := if c.reasoning != "" then PushReasoning(t.e, c.index, c.reasoning) else t.e;
      var text := ContentToShow(e1, c);
      if text != "" {
        PushTextGood(e1, c.index, text);
      }
      PushToolsGood(if text != "" then PushText(e1, c.index, text) else e1, c.index, c.tools);
    }
  }

  lemma {:induction false} HandleChoicesGood(t: Translation, choices: seq<ChoiceDelta>)
    requires Good(t.e)
    ensures Good(HandleChoices(t, choices).e)
    decreases |choices|
  {
    if choices != [] && t.error.None? {
      HandleChoiceGood(t, choices[0]);
      HandleChoicesGood(HandleChoice(t, choices[0]), choices[1..]);
    }
  }

  lemma HandleDataGood(t: Translation, d: DataEvent)
    requires Good(t.e)
    ensures Good(HandleData(t, d).e)
  {
    if d.Chunk? {
      HandleChoicesGood(t.(usage := t.usage + d.usage), d.choices);
    }
  }

  /** After any prefix of any stream, the client is in step and the items are written in turn. */
  lemma {:induction false} HandleAllGood(t: Translation, data: seq<DataEvent>)
    requires Good(t.e)
    ensures Good(HandleAll(t, data).e)
    decreases |data|
  {
    if data != [] && !t.done && t.error.None? {
      HandleDataGood(t, data[0]);
      HandleAllGood(HandleData(t, data[0]), data[1..]);
    }
  }

  lemma StartGood()
    ensures Good(Start().e)
  {
    ReadMore([], Event(0, ResponseCreated));
    ReadMore([] + [Event(0, ResponseCreated)], Event(1, ResponseInProgress));
  }

  /** Closing from `i` on: everything before is finished, and nothing changes but the statuses. */
  lemma {:induction false} CloseFromTracks(e: Emitter, i: nat, status: Status)
    requires Tracks(e) && e.InRange() && i <= |e.states| && status in {Completed, Incomplete}
    requires forall j | 0 <= j < i :: e.states[j].closed
    ensures var r := CloseFrom(e, i, status);
            && Tracks(r) && (forall j | 0 <= j < |r.states| :: r.states[j].closed)
            && ClosedOutput(e, r.output, status)
    decreases |e.states| - i
  {
    hide Tracks;
    if i < |e.states| {
      CloseTracks(e, i, status);
      var e1 := CloseItem(e, i, status);
      CloseFromTracks(e1, i + 1, status);
      ClosedOutputStep(e, e1, i, CloseFrom(e1, i + 1, status).output, status);
    }
  }

  lemma ClosedOutputStep(e: Emitter, e1: Emitter, i: nat, output: seq<Item>, status: Status)
    requires |e.output| == |e.states| && i < |e.states| && e1.states == e.states[i := e.states[i].(closed := true)]
    requires e1.output == if e.states[i].closed then e.output else e.output[i := e.output[i].WithStatus(status)]
    requires ClosedOutput(e1, output, status)
    ensures ClosedOutput(e, output, status)
  {
    forall j | 0 <= j < |e.output| ensures output[j] == if e.states[j].closed then e.output[j] else e.output[j].WithStatus(status) {
      assert e1.states[j] == if j == i then e.states[i].(closed := true) else e.states[j];
    }
  }

  /** The output once every item still open is closed with the given status. */
  predicate ClosedOutput(e: Emitter, output: seq<Item>, status: Status) {
    && |output| == |e.output| == |e.states|
    && (forall j | 0 <= j < |e.output| :: output[j] == if e.states[j].closed then e.output[j] else e.output[j].WithStatus(status))
  }

  /** The final response lists the finished items, so the client accepts it. */
  lemma TerminalAccepted(e: Emitter, r: Snapshot)
    requires Tracks(e) && (forall i | 0 <= i < |e.states| :: e.states[i].closed)
    requires r.output == e.output && r.status in {Completed, Incomplete, Failed}
    requires r.status == Completed ==> forall i | 0 <= i < |e.output| :: e.output[i].status == Completed
    requires (r.status == Failed <==> r.error.Some?) && (r.status == Incomplete <==> r.incomplete.Some?)
    ensures Accepted(Emit(e, Terminal(r)).events)
  {
    var c := Read(e.events);
    forall i | 0 <= i < |c.slots| ensures c.slots[i].stage == Done && c.slots[i].item == e.output[i] {
      assert SlotMatches(c.slots[i], e.output[i], e.states[i]);
    }
    ReadMore(e.events, Event(e.lastSeq + 1, Terminal(r)));
  }

  lemma VerdictShape(t: Translation, parses: string -> bool)
    requires t.e.InRange()
    ensures var v := FinalVerdict(t, parses);
            && v.status in {Completed, Incomplete, Failed}
            && (v.status == Failed <==> v.error.Some?) && (v.status == Incomplete <==> v.incomplete.Some?)
            && (v.status == Completed ==> !SomeCallBad(t.e, parses))
  {
  }

  lemma FinishAccepted(t: Translation, parses: string -> bool)
    requires t.e.InRange() && Tracks(t.e) && ClosedCompleted(t.e.output, t.e.states)
    ensures Accepted(Finish(t, parses).events)
  {
    hide Tracks, FinalVerdict, CloseFrom, Accepted, ResponsesUsage, SomeCallBad;
    var v := FinalVerdict(t, parses);
    var status := if v.status == Completed then Completed else Incomplete;
    CloseFromTracks(t.e, 0, status);
    var e := CloseFrom(t.e, 0, status);
    var r := Snapshot(v.status, e.output, v.error, v.incomplete, ResponsesUsage(t.usage));
    VerdictShape(t, parses);
    assert r.status == Completed ==> forall i | 0 <= i < |e.output| :: e.output[i].status == Completed;
    TerminalAccepted(e, r);
  }

  /** Whatever the upstream sends, the client accepts the whole translated stream. */
  lemma TranslationAccepted(data: seq<DataEvent>, parses: string -> bool)
    ensures Accepted(Translate(data, parses).events)
  {
    hide Start;
    StartGood();
    HandleAllGood(Start(), data);
    FinishAccepted(HandleAll(Start(), data), parses);
  }

  /** Before each event of every stream, no choice has two items unfinished that get in each other's way. */
  lemma WrittenInTurn(data: seq<DataEvent>, parses: string -> bool, n: nat)
    requires n <= |Translate(data, parses).events|
    ensures var r := Translate(data, parses);
            var slots := Read(r.events[..n]).slots;
            && |slots| <= |r.states|
            && forall i, j | 0 <= i < j < |slots| && slots[i].stage != Done && slots[j].stage != Done && r.states[i].choice == r.states[j].choice ::
                 MayOverlap(slots[i].item, slots[j].item)
  {
    hide Start, HandleAll, FinalVerdict, InTurn;
    StartGood();
    HandleAllGood(Start(), data);
    FinishInTurn(HandleAll(Start(), data), parses);
    InTurnAt(Translate(data, parses), n);
  }

  lemma InTurnAt(e: Emitter, n: nat)
    requires n <= |e.events| && InTurn(e.events, e.states)
    ensures Separate(Read(e.events[..n]).slots, e.states)
  {
  }

  lemma FinishInTurn(t: Translation, parses: string -> bool)
    requires t.e.InRange() && Tracks(t.e)
    ensures InTurn(Finish(t, parses).events, Finish(t, parses).states)
  {
    hide InTurn, FinalVerdict;
    var status := if FinalVerdict(t, parses).status == Completed then Completed else Incomplete;
    CloseFromTracks(t.e, 0, status);
    QuietInTurn(CloseFrom(t.e, 0, status), Finish(t, parses));
  }

  lemma OpenCallsParse(t: Translation, parses: string -> bool, i: nat)
    requires Good(t.e) && !SomeCallBad(t.e, parses) && i < |t.e.output| && t.e.output[i].FunctionCall?
    ensures t.e.output[i].name != "" && parses(t.e.output[i].text) && !t.e.states[i].closed
  {
    TextInStep(t.e, i);
    hide Tracks;
    assert CallPointed(t.e.tools, i);
  }

  lemma FinishCallsParse(t: Translation, parses: string -> bool)
    requires Good(t.e) && FinalVerdict(t, parses).status == Completed
    ensures var output := Finish(t, parses).output;
            forall i | 0 <= i < |output| && output[i].FunctionCall? :: output[i].name != "" && parses(output[i].text)
  {
    VerdictShape(t, parses);
    CloseFromTracks(t.e, 0, Completed);
    hide Tracks, Disciplined;
    var output := Finish(t, parses).output;
    forall i | 0 <= i < |output| && output[i].FunctionCall? ensures output[i].name != "" && parses(output[i].text) {
      OpenCallsParse(t, parses, i);
    }
  }

  /** A response is reported completed only if each of its calls has a name and arguments that parse. */
  lemma CompletedCallsParse(data: seq<DataEvent>, parses: string -> bool)
    ensures var r := Translate(data, parses);
            var last := r.events[|r.events| - 1].payload;
            last.Terminal? && last.response.output == r.output
            && (last.response.status == Completed ==>
                  forall i | 0 <= i < |r.output| && r.output[i].FunctionCall? :: r.output[i].name != "" && parses(r.output[i].text))
  {
    hide Good, Start;
    StartGood();
    HandleAllGood(Start(), data);
    if FinalVerdict(HandleAll(Start(), data), parses).status == Completed {
      FinishCallsParse(HandleAll(Start(), data), parses);
    }
  }
}
