/**
  Collecting a stream into one completion and exploding a completion into a stream (proxy.py, `_collect_stream` and
  `_sse_from_chat_completion`).

  Fields that the source only tests for truth are strings, "" when absent; an absent tool index is already 0.  A usage object
  is one with at least one field.
 */
module CompletionCollect {
  import opened Options

  datatype ToolPart = ToolPart(index: int, id: string, name: string, arguments: string)

  datatype Part = Part(finish: string, content: string, reasoning: string, tools: seq<ToolPart>)

  datatype Usage = Usage(prompt: int, completion: int, total: int, rest: string)

  datatype Piece = Piece(model: string, usage: Option<Usage>, parts: seq<Part>)

  /** A line of the stream: a data line with a chunk, the end mark, or one that is skipped. */
  datatype Line = Data(piece: Piece) | DoneMark | Skipped

  datatype Slot = Slot(id: string, name: string, arguments: string)

  datatype Call = Call(id: string, name: string, arguments: string)

  /** Empty content, reasoning and call lists stand for absent ones. */
  datatype Completion = Completion(model: string, content: string, reasoning: string, calls: seq<Call>, finish: string, usage: Usage)

  datatype Outcome = Json(c: Completion) | Incomplete

  datatype Acc = Acc(content: seq<string>, reasoning: seq<string>, slots: seq<(int, Slot)>, model: string, finish: string,
                     usage: Option<Usage>, done: bool)

  const NO_USAGE := Usage(0, 0, 0, "")

  // ---------------------------------------------------------------- collecting

  function Slotted(s: Slot, t: ToolPart): Slot {
    Slot(if t.id != "" then t.id else s.id, if t.name != "" then t.name else s.name, s.arguments + t.arguments)
  }

  /** The dictionary of calls, in the order in which its keys were first stored. */
  function Put(slots: seq<(int, Slot)>, t: ToolPart): seq<(int, Slot)> {
    if slots == [] then [(t.index, Slotted(Slot("", "", ""), t))]
    else if slots[0].0 == t.index then [(t.index, Slotted(slots[0].1, t))] + slots[1..]
    else [slots[0]] + Put(slots[1..], t)
  }

  function PutAll(slots: seq<(int, Slot)>, ts: seq<ToolPart>): seq<(int, Slot)>
    decreases |ts|
  {
    if ts == [] then slots else PutAll(Put(slots, ts[0]), ts[1..])
  }

  function AddPart(a: Acc, p: Part): Acc {
    a.(finish := if p.finish != "" then p.finish else a.finish,
       content := if p.content != "" then a.content + [p.content] else a.content,
       reasoning := if p.reasoning != "" then a.reasoning + [p.reasoning] else a.reasoning,
       slots := PutAll(a.slots, p.tools))
  }

  function AddParts(a: Acc, ps: seq<Part>): Acc
    decreases |ps|
  {
    if ps == [] then a else AddParts(AddPart(a, ps[0]), ps[1..])
  }

  function AddPiece(a: Acc, p: Piece): Acc {
    AddParts(a.(model := if p.model != "" then p.model else a.model, usage := if p.usage.Some? then p.usage else a.usage), p.parts)
  }

  function AddLines(a: Acc, lines: seq<Line>): Acc
    decreases |lines|
  {
    if lines == [] then a
    else
      match lines[0]
      case Data(p) => AddLines(AddPiece(a, p), lines[1..])
      case DoneMark => a.(done := true)
      case Skipped => AddLines(a, lines[1..])
  }

  const START := Acc([], [], [], "", "", None, false)

  function InsertByKey(x: (int, Slot), s: seq<(int, Slot)>): seq<(int, Slot)> {
    if s == [] || x.0 <= s[0].0 then [x] + s else [s[0]] + InsertByKey(x, s[1..])
  }

  function SortByKey(s: seq<(int, Slot)>): seq<(int, Slot)> {
    if s == [] then [] else InsertByKey(s[0], SortByKey(s[1..]))
  }

  function CallsOf(s: seq<(int, Slot)>): (r: seq<Call>)
    ensures |r| == |s|
  {
    seq(|s|, k requires 0 <= k < |s| => Call(s[k].1.id, s[k].1.name, s[k].1.arguments))
  }

  function Concat(parts: seq<string>): string {
    if parts == [] then "" else parts[0] + Concat(parts[1..])
  }

  function Finish(a: Acc, modelName: string): Outcome {
    var finish := if a.finish == "" && a.slots != [] then "tool_calls" else a.finish;
    if !a.done && a.finish == "" then Incomplete
    else if finish == "" then Incomplete
    else if a.content == [] && a.reasoning == [] && a.slots == [] && finish != "length" && finish != "content_filter" then Incomplete
    else
      Json(Completion(if a.model != "" then a.model else modelName, Concat(a.content), Concat(a.reasoning),
                      CallsOf(SortByKey(a.slots)), finish, if a.usage.Some? then a.usage.value else NO_USAGE))
  }

  function Collect(lines: seq<Line>, modelName: string): Outcome {
    Finish(AddLines(START, lines), modelName)
  }

  // ---------------------------------------------------------------- exploding

  function ToolParts(calls: seq<Call>): (r: seq<ToolPart>)
    ensures |r| == |calls|
  {
    seq(|calls|, k requires 0 <= k < |calls| => ToolPart(k, calls[k].id, calls[k].name, calls[k].arguments))
  }

  /** One chunk with everything, one with the finish reason, and the end mark. */
  function Explode(c: Completion): seq<Line> {
    var model := if c.model != "" then c.model else "auto";
    [Data(Piece(model, None, [Part("", c.content, c.reasoning, ToolParts(c.calls))])), Skipped,
     Data(Piece(model, Some(c.usage), [Part(if c.finish != "" then c.finish else "stop", "", "", [])])), Skipped,
     DoneMark]
  }

  // ---------------------------------------------------------------- the loops of the source

  lemma PutStep(slots: seq<(int, Slot)>, t: ToolPart, k: nat)
    requires k < |slots|
    ensures Put(slots[k..], t) == if slots[k].0 == t.index then [(t.index, Slotted(slots[k].1, t))] + slots[k + 1..]
                                  else [slots[k]] + Put(slots[k + 1..], t)
  {
    hide Slotted;
    assert slots[k..][1..] == slots[k + 1..];
  }

  lemma PutFirst(slots: seq<(int, Slot)>, t: ToolPart)
    requires slots == []
    ensures Put(slots, t) == [(t.index, Slotted(Slot("", "", ""), t))]
  {
  }

  method PutTool(slots: seq<(int, Slot)>, t: ToolPart) returns (r: seq<(int, Slot)>)
    ensures r == Put(slots, t)
  {
    hide Slotted, Put;
    assert slots[0..] == slots && [] + Put(slots, t) == Put(slots, t);
    for k := 0 to |slots|
      invariant Put(slots, t) == slots[..k] + Put(slots[k..], t)
    {
      PutStep(slots, t, k);
      assert slots[..k + 1] == slots[..k] + [slots[k]];
      if slots[k].0 == t.index {
        r := slots[..k] + ([(t.index, Slotted(slots[k].1, t))] + slots[k + 1..]);
        return;
      }
      assert slots[..k] + ([slots[k]] + Put(slots[k + 1..], t)) == slots[..k + 1] + Put(slots[k + 1..], t);
    }
    assert slots[..|slots|] == slots;
    PutFirst(slots[|slots|..], t);
    r := slots + [(t.index, Slotted(Slot("", "", ""), t))];
  }

  method CollectPart(a: Acc, p: Part) returns (r: Acc)
    ensures r == AddPart(a, p) && r.done == a.done
  {
    hide Put;
    var finish, content, reasoning, slots := a.finish, a.content, a.reasoning, a.slots;
    if p.finish != "" {
      finish := p.finish;
    }
    if p.content != "" {
      content := content + [p.content];
    }
    if p.reasoning != "" {
      reasoning := reasoning + [p.reasoning];
    }
    assert p.tools[0..] == p.tools;
    for k := 0 to |p.tools|
      invariant PutAll(slots, p.tools[k..]) == PutAll(a.slots, p.tools)
    {
      assert p.tools[k..][1..] == p.tools[k + 1..];
      slots := PutTool(slots, p.tools[k]);
    }
    r := Acc(content, reasoning, slots, a.model, finish, a.usage, a.done);
  }

  method CollectStream(lines: seq<Line>, modelName: string) returns (r: Outcome)
    ensures r == Collect(lines, modelName)
  {
    hide AddPart;
    var a := START;
    assert lines[0..] == lines;
    for i := 0 to |lines|
      invariant !a.done && AddLines(a, lines[i..]) == AddLines(START, lines)
    {
      assert lines[i..][1..] == lines[i + 1..];
      if lines[i].DoneMark? {
        a := a.(done := true);
        break;
      }
      if lines[i].Data? {
        var piece := lines[i].piece;
        ghost var target := AddPiece(a, piece);
        if piece.model != "" {
          a := a.(model := piece.model);
        }
        if piece.usage.Some? {
          a := a.(usage := piece.usage);
        }
        assert piece.parts[0..] == piece.parts;
        for j := 0 to |piece.parts|
          invariant !a.done && AddParts(a, piece.parts[j..]) == target
        {
          assert piece.parts[j..][1..] == piece.parts[j + 1..];
          a := CollectPart(a, piece.parts[j]);
        }
      }
    }
    r := Finish(a, modelName);
  }

  // ---------------------------------------------------------------- the round trip

  predicate Ordered(s: seq<(int, Slot)>) {
    forall i, j | 0 <= i < j < |s| :: s[i].0 < s[j].0
  }

  /** The slots that exploded calls make: numbered from zero. */
  function Numbered(calls: seq<Call>): (r: seq<(int, Slot)>)
    ensures |r| == |calls| && Ordered(r)
  {
    seq(|calls|, k requires 0 <= k < |calls| => (k, Slot(calls[k].id, calls[k].name, calls[k].arguments)))
  }

  lemma {:induction false} PutNew(slots: seq<(int, Slot)>, t: ToolPart)
    requires forall k | 0 <= k < |slots| :: slots[k].0 != t.index
    ensures Put(slots, t) == slots + [(t.index, Slotted(Slot("", "", ""), t))]
  {
    hide Slotted;
    if slots != [] {
      PutNew(slots[1..], t);
    }
  }

  lemma {:induction false} PutNumbered(calls: seq<Call>, k: nat)
    requires k <= |calls|
    ensures PutAll(Numbered(calls[..k]), ToolParts(calls)[k..]) == Numbered(calls)
    decreases |calls| - k
  {
    var parts := ToolParts(calls);
    if k == |calls| {
      assert calls[..k] == calls && parts[k..] == [];
    } else {
      var t := parts[k];
      PutNew(Numbered(calls[..k]), t);
      assert "" + t.arguments == t.arguments;
      assert Slotted(Slot("", "", ""), t) == Slot(calls[k].id, calls[k].name, calls[k].arguments);
      assert Numbered(calls[..k]) + [(k, Slotted(Slot("", "", ""), t))] == Numbered(calls[..k + 1]);
      assert parts[k..][0] == t && parts[k..][1..] == parts[k + 1..];
      PutNumbered(calls, k + 1);
    }
  }

  lemma {:induction false} SortOrdered(s: seq<(int, Slot)>)
    requires Ordered(s)
    ensures SortByKey(s) == s
  {
    if s != [] {
      SortOrdered(s[1..]);
      assert |s| > 1 ==> s[0].0 < s[1..][0].0;
    }
  }

  /** A completion that collecting can give back: something in it, or cut short, and a finish reason. */
  predicate Collectable(c: Completion) {
    c.finish != "" && (c.content != "" || c.reasoning != "" || c.calls != [] || c.finish in {"length", "content_filter"})
  }

  lemma ConcatOne(x: string)
    ensures Concat([]) == "" && Concat([x]) == x
  {
    assert [x][1..] == [];
  }

  lemma FirstPart(c: Completion, a: Acc)
    requires a.slots == [] && a.content == [] && a.reasoning == []
    ensures var r := AddPart(a, Part("", c.content, c.reasoning, ToolParts(c.calls)));
            r == a.(content := if c.content != "" then [c.content] else [], reasoning := if c.reasoning != "" then [c.reasoning] else [],
                    slots := Numbered(c.calls))
  {
    AllPut(c.calls);
    hide PutAll, ToolParts, Numbered;
    assert [] + [c.content] == [c.content] && [] + [c.reasoning] == [c.reasoning];
  }

  lemma AllPut(calls: seq<Call>)
    ensures PutAll([], ToolParts(calls)) == Numbered(calls)
  {
    hide PutAll, ToolParts;
    PutNumbered(calls, 0);
    assert calls[..0] == [] && Numbered([]) == [] && ToolParts(calls)[0..] == ToolParts(calls);
  }

  lemma OnePart(a: Acc, p: Part)
    ensures AddParts(a, [p]) == AddPart(a, p)
  {
    hide AddPart;
    assert [p][1..] == [];
  }

  /** What is collected after both chunks of an exploded completion. */
  lemma ExplodedFold(c: Completion)
    requires Collectable(c)
    ensures var a := AddLines(START, Explode(c));
            a == Acc(if c.content != "" then [c.content] else [], if c.reasoning != "" then [c.reasoning] else [],
                     Numbered(c.calls), if c.model != "" then c.model else "auto", c.finish, Some(c.usage), true)
  {
    hide PutAll, Put;
    var lines := Explode(c);
    var p1, p2 := lines[0].piece, lines[2].piece;
    FirstPart(c, START.(model := p1.model));
    OnePart(START.(model := p1.model), p1.parts[0]);
    var a1 := AddPiece(START, p1);
    OnePart(a1.(usage := Some(c.usage)), p2.parts[0]);
    NoTools(a1.slots);
    assert lines[1..][1..] == [Data(p2), Skipped, DoneMark];
    assert [Data(p2), Skipped, DoneMark][1..][1..] == [DoneMark];
    AddSkipping(START, lines);
    AddSkipping(a1, [Data(p2), Skipped, DoneMark]);
  }

  lemma NoTools(slots: seq<(int, Slot)>)
    ensures PutAll(slots, []) == slots
  {
  }

  lemma AddSkipping(a: Acc, lines: seq<Line>)
    requires |lines| >= 2 && lines[0].Data? && lines[1].Skipped?
    ensures AddLines(a, lines) == AddLines(AddPiece(a, lines[0].piece), lines[1..][1..])
  {
    hide AddPiece;
    assert lines[1..][0] == lines[1];
  }

  /**
    Collecting an exploded completion gives it back: content, reasoning, calls, finish reason and usage, and the model unless
    it was missing.
   */
  lemma CollectExploded(c: Completion, modelName: string)
    requires Collectable(c)
    ensures Collect(Explode(c), modelName) == Json(c.(model := if c.model != "" then c.model else "auto"))
  {
    ExplodedFold(c);
    hide AddLines, Explode, Numbered, SortByKey, Ordered;
    SortOrdered(Numbered(c.calls));
    ConcatOne(c.content);
    ConcatOne(c.reasoning);
    assert CallsOf(Numbered(c.calls)) == c.calls by {
      NumberedCalls(c.calls);
    }
  }

  lemma NumberedCalls(calls: seq<Call>)
    ensures CallsOf(Numbered(calls)) == calls && (Numbered(calls) == [] <==> calls == [])
  {
  }

  predicate NoEmpty(parts: seq<string>) {
    forall k | 0 <= k < |parts| :: parts[k] != ""
  }

  lemma {:induction false} PartsNotEmpty(a: Acc, ps: seq<Part>)
    requires NoEmpty(a.content) && NoEmpty(a.reasoning)
    ensures NoEmpty(AddParts(a, ps).content) && NoEmpty(AddParts(a, ps).reasoning)
    decreases |ps|
  {
    if ps != [] {
      hide PutAll;
      PartsNotEmpty(AddPart(a, ps[0]), ps[1..]);
    }
  }

  lemma {:induction false} LinesNotEmpty(a: Acc, lines: seq<Line>)
    requires NoEmpty(a.content) && NoEmpty(a.reasoning)
    ensures NoEmpty(AddLines(a, lines).content) && NoEmpty(AddLines(a, lines).reasoning)
    decreases |lines|
  {
    hide AddParts;
    if lines != [] {
      match lines[0]
      case Data(p) =>
        PartsNotEmpty(a.(model := if p.model != "" then p.model else a.model, usage := if p.usage.Some? then p.usage else a.usage), p.parts);
        LinesNotEmpty(AddPiece(a, p), lines[1..]);
      case DoneMark =>
      case Skipped => LinesNotEmpty(a, lines[1..]);
    }
  }

  lemma {:induction false} SortSize(s: seq<(int, Slot)>)
    ensures |SortByKey(s)| == |s|
  {
    if s != [] {
      SortSize(s[1..]);
      InsertSize(s[0], SortByKey(s[1..]));
    }
  }

  lemma {:induction false} InsertSize(x: (int, Slot), s: seq<(int, Slot)>)
    ensures |InsertByKey(x, s)| == |s| + 1
  {
    if s != [] {
      InsertSize(x, s[1..]);
    }
  }

  /** Everything that collecting returns is collectable. */
  lemma CollectedCollectable(lines: seq<Line>, modelName: string)
    requires Collect(lines, modelName).Json?
    ensures Collectable(Collect(lines, modelName).c)
  {
    LinesNotEmpty(START, lines);
    var a := AddLines(START, lines);
    hide AddLines, SortByKey;
    SortSize(a.slots);
  }

  /** For every stream that collects, collecting its explosion gives the same completion. */
  lemma CollectStable(lines: seq<Line>, modelName: string)
    requires Collect(lines, modelName).Json?
    ensures var c := Collect(lines, modelName).c;
            Collect(Explode(c), modelName) == Json(c.(model := if c.model != "" then c.model else "auto"))
  {
    hide Collect, Explode, Collectable;
    CollectedCollectable(lines, modelName);
    CollectExploded(Collect(lines, modelName).c, modelName);
  }
}
