/**
  The Responses API event stream (responses.py) as a strict client sees it.

  `Client` is the reference: it reads the events one by one and breaks as soon as one is out of place.  Nothing in it
  knows how the events are produced.
 */
module ResponsesEvents {
  import opened Options

  datatype Status = InProgress | Completed | Incomplete | Failed

  datatype CallId = Given(id: string) | Generated(n: nat)

  /** An output item; `text` is the summary text, the message text or the call arguments. */
  datatype Item =
    | Reasoning(id: nat, status: Status, text: string)
    | Message(id: nat, status: Status, text: string)
    | FunctionCall(id: nat, status: Status, text: string, callId: CallId, name: string)
  {
    function WithStatus(s: Status): Item {
      this.(status := s)
    }

    function WithText(t: string): Item {
      this.(text := t)
    }
  }

  datatype ErrorCode = InvalidUpstreamEvent | UpstreamError | UpstreamStreamError | UpstreamStreamEnded | EmptyResponse | InvalidToolArguments

  datatype IncompleteReason = MaxOutputTokens | ContentFilter

  datatype Usage = Usage(input: int, cached: int, output: int, reasoning: int, total: int)

  datatype Snapshot = Snapshot(status: Status, output: seq<Item>, error: Option<ErrorCode>,
                               incomplete: Option<IncompleteReason>, usage: Usage)

  datatype Payload =
    | ResponseCreated
    | ResponseInProgress
    | ItemAdded(index: nat, item: Item)
    | PartAdded(id: nat, index: nat)
    | Delta(id: nat, index: nat, delta: string)
    | TextDone(id: nat, index: nat, text: string)   // summary text, output text, or call arguments
    | PartDone(id: nat, index: nat, text: string)
    | ItemDone(index: nat, item: Item)
    | Terminal(response: Snapshot)

  datatype Event = Event(number: int, payload: Payload)

  // ---------------------------------------------------------------- the client

  datatype Stage = Announced | PartOpen | TextClosed | PartClosed | Done

  /** What the client knows of one output index: the announced item, the deltas so far, and how far it is. */
  datatype Slot = Slot(item: Item, received: string, stage: Stage)

  datatype Phase = Fresh | Opened | Live | Ended | Broken

  datatype Client = Client(phase: Phase, count: nat, slots: seq<Slot>)

  predicate NewItemOk(c: Client, index: nat, item: Item) {
    && index == |c.slots|
    && item.status == InProgress && item.text == ""
    && forall i | 0 <= i < |c.slots| :: c.slots[i].item.id != item.id
  }

  /** Deltas need an open part, except that call arguments have none. */
  predicate Receiving(s: Slot) {
    if s.item.FunctionCall? then s.stage == Announced else s.stage == PartOpen
  }

  /** The finished item is the announced one, holding exactly what the deltas said. */
  predicate DoneItemOk(s: Slot, item: Item) {
    && item.id == s.item.id && item.text == s.received && item.status in {Completed, Incomplete}
    && match s.item
       case Reasoning(_, _, _) => item.Reasoning? && s.stage == PartClosed
       case Message(_, _, _) => item.Message? && s.stage == PartClosed
       case FunctionCall(_, _, _, callId, _) =>
         item.FunctionCall? && item.callId == callId
         && s.stage == if item.status == Completed then TextClosed else Announced
  }

  predicate TerminalOk(c: Client, r: Snapshot) {
    && (forall s | s in c.slots :: s.stage == Done)
    && r.output == seq(|c.slots|, i requires 0 <= i < |c.slots| => c.slots[i].item)
    && r.status in {Completed, Incomplete, Failed}
    && (r.status == Completed ==> forall item | item in r.output :: item.status == Completed)
    && (r.status == Failed <==> r.error.Some?)
    && (r.status == Incomplete <==> r.incomplete.Some?)
  }

  function Receive(c: Client, e: Event): Client {
    var next := c.(count := c.count + 1);
    var broken := next.(phase := Broken);
    if e.number != c.count then broken
    else match e.payload
      case ResponseCreated => if c.phase == Fresh then next.(phase := Opened) else broken
      case ResponseInProgress => if c.phase == Opened then next.(phase := Live) else broken
      case Terminal(r) => if c.phase == Live && TerminalOk(c, r) then next.(phase := Ended) else broken
      case ItemAdded(index, item) =>
        if c.phase == Live && NewItemOk(c, index, item) then next.(slots := c.slots + [Slot(item, "", Announced)]) else broken
      case ItemDone(index, item) =>
        if c.phase == Live && index < |c.slots| && DoneItemOk(c.slots[index], item)
        then next.(slots := c.slots[index := c.slots[index].(item := item, stage := Done)]) else broken
      case _ =>
        if c.phase == Live && e.payload.index < |c.slots| && c.slots[e.payload.index].item.id == e.payload.id
        then
          var s := ReceivePart(c.slots[e.payload.index], e.payload);
          if s.None? then broken else next.(slots := c.slots[e.payload.index := s.value])
        else broken
  }

  function ReceivePart(s: Slot, p: Payload): Option<Slot>
    requires p.PartAdded? || p.Delta? || p.TextDone? || p.PartDone?
  {
    match p
    case PartAdded(_, _) => if s.stage == Announced && !s.item.FunctionCall? then Some(s.(stage := PartOpen)) else None
    case Delta(_, _, delta) => if Receiving(s) && delta != "" then Some(s.(received := s.received + delta)) else None
    case TextDone(_, _, text) => if Receiving(s) && text == s.received then Some(s.(stage := TextClosed)) else None
    case PartDone(_, _, text) =>
      if s.stage == TextClosed && !s.item.FunctionCall? && text == s.received then Some(s.(stage := PartClosed)) else None
  }

  function Read(events: seq<Event>): Client {
    if events == [] then Client(Fresh, 0, [])
    else Receive(Read(events[..|events| - 1]), events[|events| - 1])
  }

  /** The client read a whole stream and found nothing out of place. */
  predicate Accepted(events: seq<Event>) {
    Read(events).phase == Ended
  }

  lemma ReadMore(events: seq<Event>, e: Event)
    ensures Read(events + [e]) == Receive(Read(events), e)
  {
    assert (events + [e])[..|events|] == events;
  }

  // ---------------------------------------------------------------- what acceptance means

  /** All the text sent for one output index, in order. */
  function DeltaText(events: seq<Event>, index: nat): string {
    if events == [] then ""
    else
      var p := events[|events| - 1].payload;
      DeltaText(events[..|events| - 1], index) + if p.Delta? && p.index == index then p.delta else ""
  }

  predicate Touches(p: Payload, index: nat) {
    (p.ItemAdded? || p.PartAdded? || p.Delta? || p.TextDone? || p.PartDone? || p.ItemDone?) && p.index == index
  }

  /** Index `i` was announced at `a`, finished at `d`, and every event about it lies in between. */
  predicate Lifetime(events: seq<Event>, index: nat, a: nat, d: nat, item: Item) {
    && a < d < |events|
    && events[a].payload.ItemAdded? && events[a].payload.index == index
    && events[d].payload == ItemDone(index, item)
    && (forall k | 0 <= k < |events| && Touches(events[k].payload, index) ::
          a <= k <= d && (events[k].payload.ItemAdded? <==> k == a) && (events[k].payload.ItemDone? <==> k == d))
  }

  /** The same for an index not finished yet. */
  predicate Started(events: seq<Event>, index: nat, a: nat) {
    && a < |events|
    && events[a].payload.ItemAdded? && events[a].payload.index == index
    && (forall k | 0 <= k < |events| && Touches(events[k].payload, index) ::
          a <= k && (events[k].payload.ItemAdded? <==> k == a) && !events[k].payload.ItemDone?)
  }

  ghost predicate HasLifetime(events: seq<Event>, index: nat, item: Item) {
    exists a, d :: Lifetime(events, index, a, d, item)
  }

  ghost predicate SlotExplained(events: seq<Event>, index: nat, s: Slot) {
    && DeltaText(events, index) == s.received
    && if s.stage == Done then s.item.text == s.received && HasLifetime(events, index, s.item)
       else exists a :: Started(events, index, a)
  }

  predicate Numbered(events: seq<Event>, c: Client) {
    && c.count == |events|
    && (c.phase != Broken ==> forall k | 0 <= k < |events| :: events[k].number == k)
  }

  predicate TerminalLast(events: seq<Event>, c: Client) {
    c.phase != Broken ==> forall k | 0 <= k < |events| :: events[k].payload.Terminal? <==> c.phase == Ended && k == |events| - 1
  }

  ghost predicate NothingBeyond(events: seq<Event>, c: Client) {
    c.phase != Broken ==> forall k | 0 <= k < |events| :: forall i | i >= |c.slots| :: !Touches(events[k].payload, i)
  }

  ghost predicate SlotsExplained(events: seq<Event>, c: Client) {
    c.phase != Broken ==> forall i | 0 <= i < |c.slots| :: SlotExplained(events, i, c.slots[i])
  }

  lemma LifetimeGrows(events: seq<Event>, e: Event, index: nat, a: nat, d: nat, item: Item)
    requires Lifetime(events, index, a, d, item) && !Touches(e.payload, index)
    ensures Lifetime(events + [e], index, a, d, item)
  {
  }

  lemma StartedGrows(events: seq<Event>, e: Event, index: nat, a: nat)
    requires Started(events, index, a)
    requires Touches(e.payload, index) ==> !e.payload.ItemAdded? && !e.payload.ItemDone?
    ensures Started(events + [e], index, a)
  {
  }

  lemma DeltaGrows(events: seq<Event>, e: Event, index: nat)
    ensures DeltaText(events + [e], index) == DeltaText(events, index) + if e.payload.Delta? && e.payload.index == index then e.payload.delta else ""
  {
    assert (events + [e])[..|events|] == events;
  }

  lemma {:induction false} NoDelta(events: seq<Event>, i: nat)
    requires forall k | 0 <= k < |events| :: !Touches(events[k].payload, i)
    ensures DeltaText(events, i) == ""
  {
    if events != [] {
      NoDelta(events[..|events| - 1], i);
    }
  }

  lemma OnlyAnnounced(c: Client, e: Event)
    requires Receive(c, e).phase != Broken && |Receive(c, e).slots| > |c.slots|
    ensures e.payload.ItemAdded? && e.payload.index == |c.slots| && Receive(c, e).slots == c.slots + [Slot(e.payload.item, "", Announced)]
  {
  }

  /** A slot just announced. */
  lemma NewSlotExplained(events: seq<Event>, e: Event, c: Client)
    requires c.phase != Broken && NothingBeyond(events, c)
    requires Receive(c, e).phase != Broken && |Receive(c, e).slots| > |c.slots|
    ensures SlotExplained(events + [e], |c.slots|, Receive(c, e).slots[|c.slots|])
  {
    OnlyAnnounced(c, e);
    DeltaGrows(events, e, |c.slots|);
    NoDelta(events, |c.slots|);
    hide Receive, DeltaText;
    assert Started(events + [e], |c.slots|, |events|);
  }

  /** A slot that the event is not about. */
  lemma OtherSlotExplained(events: seq<Event>, e: Event, i: nat, s: Slot)
    requires SlotExplained(events, i, s) && !Touches(e.payload, i)
    ensures SlotExplained(events + [e], i, s)
  {
    DeltaGrows(events, e, i);
    hide DeltaText;
    if s.stage == Done {
      var a, d :| Lifetime(events, i, a, d, s.item);
      LifetimeGrows(events, e, i, a, d, s.item);
    } else {
      var a :| Started(events, i, a);
      StartedGrows(events, e, i, a);
    }
  }

  /** A slot that the event is about. */
  lemma TouchedSlotExplained(events: seq<Event>, e: Event, c: Client, i: nat)
    requires c.phase != Broken && i < |c.slots| && SlotExplained(events, i, c.slots[i])
    requires Receive(c, e).phase != Broken && Touches(e.payload, i)
    ensures SlotExplained(events + [e], i, Receive(c, e).slots[i])
  {
    DeltaGrows(events, e, i);
    var s := Receive(c, e).slots[i];
    var a :| Started(events, i, a);
    hide DeltaText;
    if e.payload.ItemDone? {
      assert Lifetime(events + [e], i, a, |events|, s.item);
    } else {
      StartedGrows(events, e, i, a);
    }
  }

  /** One more event keeps every slot explained. */
  lemma SlotStillExplained(events: seq<Event>, e: Event, c: Client, i: nat)
    requires c.phase != Broken && SlotsExplained(events, c) && NothingBeyond(events, c)
    requires Receive(c, e).phase != Broken && i < |Receive(c, e).slots|
    ensures SlotExplained(events + [e], i, Receive(c, e).slots[i])
  {
    hide SlotExplained;
    if i == |c.slots| {
      NewSlotExplained(events, e, c);
    } else if Touches(e.payload, i) {
      TouchedSlotExplained(events, e, c, i);
    } else {
      OtherSlotExplained(events, e, i, c.slots[i]);
    }
  }

  lemma {:induction false} ReadNumbers(events: seq<Event>)
    ensures Numbered(events, Read(events)) && TerminalLast(events, Read(events)) && NothingBeyond(events, Read(events))
  {
    if events != [] {
      ReadNumbers(events[..|events| - 1]);
    }
  }

  lemma {:induction false} ReadSlots(events: seq<Event>)
    ensures SlotsExplained(events, Read(events))
  {
    if events != [] && Read(events).phase != Broken {
      var before, e := events[..|events| - 1], events[|events| - 1];
      ReadSlots(before);
      ReadNumbers(before);
      assert events == before + [e];
      forall i | 0 <= i < |Read(events).slots| ensures SlotExplained(events, i, Read(events).slots[i]) {
        SlotStillExplained(before, e, Read(before), i);
      }
    }
  }

  /** Output indices are announced in increasing order. */
  predicate OpenedInOrder(events: seq<Event>) {
    forall k, l | 0 <= k < l < |events| && events[k].payload.ItemAdded? && events[l].payload.ItemAdded? ::
      events[k].payload.index < events[l].payload.index
  }

  lemma {:induction false} ReadOpens(events: seq<Event>)
    requires Read(events).phase != Broken
    ensures OpenedInOrder(events)
  {
    if events != [] {
      var before, e := events[..|events| - 1], events[|events| - 1];
      ReadOpens(before);
      ReadNumbers(before);
      if e.payload.ItemAdded? {
        forall k | 0 <= k < |before| && events[k].payload.ItemAdded? ensures events[k].payload.index < e.payload.index {
          assert before[k] == events[k] && Touches(before[k].payload, before[k].payload.index);
        }
      }
      assert forall k | 0 <= k < |before| :: before[k] == events[k];
    }
  }

  /** The text that ends an item, its part, or its text. */
  function EndText(p: Payload): Option<string> {
    match p
    case TextDone(_, _, text) => Some(text)
    case PartDone(_, _, text) => Some(text)
    case ItemDone(_, item) => Some(item.text)
    case _ => None
  }

  predicate EndsAnItem(p: Payload) {
    p.TextDone? || p.PartDone? || p.ItemDone?
  }

  /** Each of the three done events carries exactly the deltas sent for its index before it. */
  predicate EndTextsTold(events: seq<Event>) {
    forall k | 0 <= k < |events| && EndsAnItem(events[k].payload) ::
      EndText(events[k].payload) == Some(DeltaText(events[..k], events[k].payload.index))
  }

  lemma EndTextHere(c: Client, e: Event)
    requires Receive(c, e).phase != Broken && EndsAnItem(e.payload)
    ensures c.phase != Broken && e.payload.index < |c.slots| && EndText(e.payload) == Some(c.slots[e.payload.index].received)
  {
  }

  lemma {:induction false} ReadEndTexts(events: seq<Event>)
    requires Read(events).phase != Broken
    ensures EndTextsTold(events)
  {
    if events != [] {
      var before, e := events[..|events| - 1], events[|events| - 1];
      ReadEndTexts(before);
      ReadSlots(before);
      if EndsAnItem(e.payload) {
        EndTextHere(Read(before), e);
        assert SlotExplained(before, e.payload.index, Read(before).slots[e.payload.index]);
      }
      hide DeltaText, Receive;
      forall k | 0 <= k < |events| && EndsAnItem(events[k].payload)
        ensures EndText(events[k].payload) == Some(DeltaText(events[..k], events[k].payload.index))
      {
        if k < |before| {
          assert before[k] == events[k] && before[..k] == events[..k];
        }
      }
    }
  }

  /**
    What a client may rely on once it accepts a stream: numbers 0, 1, 2, ...; one terminal event, which is the last;
    each index announced once, in increasing order, and finished once, with everything about it in between; every
    item of the final response holding exactly the concatenation of its deltas; and every done event before it likewise.
   */
  lemma AcceptedMeans(events: seq<Event>)
    requires Accepted(events)
    ensures forall k | 0 <= k < |events| :: events[k].number == k
    ensures forall k | 0 <= k < |events| :: events[k].payload.Terminal? <==> k == |events| - 1
    ensures events != [] && OpenedInOrder(events) && EndTextsTold(events)
    ensures var output := events[|events| - 1].payload.response.output;
            && (forall i | 0 <= i < |output| :: output[i].text == DeltaText(events, i))
            && (forall i | 0 <= i < |output| :: HasLifetime(events, i, output[i]))
            && (forall k | 0 <= k < |events| :: forall i | i >= |output| :: !Touches(events[k].payload, i))
  {
    ReadNumbers(events);
    ReadSlots(events);
    ReadOpens(events);
    ReadEndTexts(events);
    var c := Read(events);
    var last := events[|events| - 1].payload;
    var before := Read(events[..|events| - 1]);
    assert last.Terminal? && before.slots == c.slots && TerminalOk(before, last.response);
    forall i | 0 <= i < |last.response.output|
      ensures last.response.output[i].text == DeltaText(events, i)
      ensures HasLifetime(events, i, last.response.output[i])
    {
      assert c.slots[i] in before.slots && last.response.output[i] == c.slots[i].item;
      assert SlotExplained(events, i, c.slots[i]);
    }
  }
}
