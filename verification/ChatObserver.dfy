/**
  Watching an upstream chat stream (proxy.py, class `_ChatStreamObserver`).

  Parsed JSON is typed field by field: a field is absent, null, of the type that the code asks for, or of another type.
  An event is first validated as a whole; only then do its choices touch the state, one small change after another.
 */
module ChatObserver {
  import opened Options

  datatype Field<+T> = Absent | Null | Good(value: T) | Bad

  datatype Fn = Fn(name: Field<string>, arguments: Field<string>)

  datatype ToolDelta = ToolDelta(index: Field<int>, id: Field<string>, kind: Field<string>, fn: Field<Fn>) | ToolNotDict

  datatype Delta = Delta(content: Field<string>, reasoning: Field<string>, tools: Field<seq<ToolDelta>>)

  datatype Choice = Choice(index: Field<int>, finish: Field<string>, delta: Field<Delta>) | ChoiceNotDict

  /**
    One event object.  `error` says that it has an error which is not null, `chunkObject` that its object name is that of a
    chat chunk, `encoded` how many bytes it takes when printed.
   */
  datatype Chunk = Chunk(error: bool, chunkObject: bool, choices: Field<seq<Choice>>, usage: Field<map<string, int>>,
                         metadata: map<string, string>, encoded: nat)

  datatype Wire = DoneMark | Unparsable | Event(chunk: Chunk)

  datatype ParseError =
    | DataAfterDone | BadChoices | BadUsage | NotAChunk | BadChoice | BadIndex | NotRequested | RepeatedIndex
    | AfterFinish | BadFinish | BadDelta | BadContent | BadReasoning | BadTools | BadToolDelta | BadToolIndex
    | BadCallId | BadCallType | BadFunction | BadName | BadArguments | CallIdChanged | NameChanged
    | TerminalTooLong | Undecodable

  datatype Call = Call(id: Option<string>, name: Option<string>, arguments: string)

  /** What the choices have brought so far; `order` lists the keys of `finish` as they were first stored. */
  datatype Progress = Progress(finish: map<int, Option<string>>, order: seq<int>, closed: set<int>, content: set<int>,
                               reasoning: set<int>, tools: set<int>, text: seq<string>, calls: map<(int, int), Call>)

  const NOTHING := Progress(map[], [], {}, {}, {}, {}, [], map[])

  datatype Obs = Obs(n: nat, seenDone: bool, sawChunk: bool, errorEvent: Option<Chunk>, malformed: bool,
                     parserError: Option<ParseError>, usage: map<string, int>, metadata: map<string, string>, p: Progress)
  {
    function Fail(e: ParseError): Obs {
      this.(parserError := Some(e))
    }
  }

  function Expected(n: Field<int>): nat {
    if n.Good? && 1 <= n.value <= 128 then n.value else 1
  }

  function NewObs(n: nat): Obs {
    Obs(n, false, false, None, false, None, map[], map[], NOTHING)
  }

  // ---------------------------------------------------------------- validation

  datatype Checked<+T> = Ok(value: T) | Err(error: ParseError)

  /** Validated forms: defaults filled in, empty strings dropped. */
  datatype GoodTool = GoodTool(index: nat, id: Option<string>, name: Option<string>, arguments: Option<string>)

  datatype GoodChoice = GoodChoice(index: int, reason: Option<string>, content: string, reasoning: string, tools: seq<GoodTool>)

  function NonEmpty(f: Field<string>): Option<string> {
    if f.Good? && f.value != "" then Some(f.value) else None
  }

  function TextOf(f: Field<string>): string {
    if f.Good? then f.value else ""
  }

  function CheckTool(t: ToolDelta, position: nat): Checked<GoodTool> {
    if t.ToolNotDict? then Err(BadToolDelta)
    else
      var index := if t.index.Absent? then Good(position) else t.index;
      if !index.Good? || index.value < 0 then Err(BadToolIndex)
      else if t.id.Bad? then Err(BadCallId)
      else if t.kind.Bad? || (t.kind.Good? && t.kind.value != "" && t.kind.value != "function") then Err(BadCallType)
      else if t.fn.Bad? then Err(BadFunction)
      else if !t.fn.Good? then Ok(GoodTool(index.value, NonEmpty(t.id), None, None))
      else if t.fn.value.name.Bad? then Err(BadName)
      else if t.fn.value.arguments.Bad? then Err(BadArguments)
      else Ok(GoodTool(index.value, NonEmpty(t.id), NonEmpty(t.fn.value.name),
                       if t.fn.value.arguments.Good? then Some(t.fn.value.arguments.value) else None))
  }

  function CheckTools(ts: seq<ToolDelta>, position: nat): Checked<seq<GoodTool>>
    decreases |ts|
  {
    if ts == [] then Ok([])
    else
      var first := CheckTool(ts[0], position);
      if first.Err? then Err(first.error)
      else
        var rest := CheckTools(ts[1..], position + 1);
        if rest.Err? then rest else Ok([first.value] + rest.value)
  }

  function CheckDelta(index: int, reason: Option<string>, d: Delta): Checked<GoodChoice> {
    if d.content.Bad? then Err(BadContent)
    else if d.reasoning.Bad? then Err(BadReasoning)
    else if d.tools.Bad? then Err(BadTools)
    else
      var tools := CheckTools(if d.tools.Good? then d.tools.value else [], 0);
      if tools.Err? then Err(tools.error)
      else Ok(GoodChoice(index, reason, TextOf(d.content), TextOf(d.reasoning), tools.value))
  }

  function CheckChoice(c: Choice, n: nat, closed: set<int>, seen: set<int>): Checked<GoodChoice> {
    if c.ChoiceNotDict? then Err(BadChoice)
    else
      var index := if c.index.Absent? then Good(0) else c.index;
      if !index.Good? then Err(BadIndex)
      else if !(0 <= index.value < n) then Err(NotRequested)
      else if index.value in seen then Err(RepeatedIndex)
      else if index.value in closed then Err(AfterFinish)
      else if c.finish.Bad? then Err(BadFinish)
      else if !c.delta.Good? then Err(BadDelta)
      else CheckDelta(index.value, NonEmpty(c.finish), c.delta.value)
  }

  function CheckChoices(cs: seq<Choice>, n: nat, closed: set<int>, seen: set<int>): Checked<seq<GoodChoice>>
    decreases |cs|
  {
    if cs == [] then Ok([])
    else
      var first := CheckChoice(cs[0], n, closed, seen);
      if first.Err? then Err(first.error)
      else
        var rest := CheckChoices(cs[1..], n, closed, seen + {first.value.index});
        if rest.Err? then rest else Ok([first.value] + rest.value)
  }

  // ---------------------------------------------------------------- changes

  /** The single changes that a valid event makes. */
  datatype Atom =
    | Seen(i: int)
    | Finish(i: int, reason: string)
    | Text(i: int, s: string)
    | Reason(i: int)
    | Tool(i: int, t: nat, id: Option<string>, name: Option<string>, arguments: Option<string>)

  function ToolAtoms(i: int, ts: seq<GoodTool>): seq<Atom> {
    if ts == [] then [] else [Tool(i, ts[0].index, ts[0].id, ts[0].name, ts[0].arguments)] + ToolAtoms(i, ts[1..])
  }

  function ChoiceAtoms(c: GoodChoice): seq<Atom> {
    [Seen(c.index)] + (if c.reason.Some? then [Finish(c.index, c.reason.value)] else [])
    + (if c.content != "" then [Text(c.index, c.content)] else [])
    + (if c.reasoning != "" then [Reason(c.index)] else []) + ToolAtoms(c.index, c.tools)
  }

  function Atoms(cs: seq<GoodChoice>): seq<Atom> {
    if cs == [] then [] else ChoiceAtoms(cs[0]) + Atoms(cs[1..])
  }

  function CallAt(p: Progress, key: (int, int)): Call {
    if key in p.calls then p.calls[key] else Call(None, None, "")
  }

  predicate Conflicts(was: Option<string>, is_: Option<string>) {
    was.Some? && is_.Some? && was.value != is_.value
  }

  function Or(is_: Option<string>, was: Option<string>): Option<string> {
    if is_.Some? then is_ else was
  }

  /** A call keeps its first id and name. */
  function Conflict(p: Progress, a: Atom): Option<ParseError> {
    if !a.Tool? then None
    else if Conflicts(CallAt(p, (a.i, a.t as int)).id, a.id) then Some(CallIdChanged)
    else if Conflicts(CallAt(p, (a.i, a.t as int)).name, a.name) then Some(NameChanged)
    else None
  }

  /** A delta of a call; at a conflict, what came before the conflict is kept. */
  function ApplyTool(was: Call, a: Atom): Call
    requires a.Tool?
  {
    if Conflicts(was.id, a.id) then was
    else if Conflicts(was.name, a.name) then was.(id := Or(a.id, was.id))
    else Call(Or(a.id, was.id), Or(a.name, was.name), was.arguments + if a.arguments.Some? then a.arguments.value else "")
  }

  function Apply(p: Progress, a: Atom): Progress {
    match a
    case Seen(i) => if i in p.finish then p else p.(finish := p.finish[i := None], order := p.order + [i])
    case Finish(i, reason) => p.(finish := p.finish[i := Some(reason)], closed := p.closed + {i})
    case Text(i, s) => p.(text := p.text + [s], content := p.content + {i})
    case Reason(i) => p.(reasoning := p.reasoning + {i})
    case Tool(i, t, _, _, _) =>
      p.(tools := p.tools + {i}, calls := p.calls[(i, t as int) := ApplyTool(CallAt(p, (i, t as int)), a)])
  }

  /** All changes, or those up to the first conflict. */
  function ApplyAll(p: Progress, atoms: seq<Atom>): (Progress, Option<ParseError>)
    decreases |atoms|
  {
    if atoms == [] then (p, None)
    else if Conflict(p, atoms[0]).Some? then (Apply(p, atoms[0]), Conflict(p, atoms[0]))
    else ApplyAll(Apply(p, atoms[0]), atoms[1..])
  }

  // ---------------------------------------------------------------- one event

  function CleanTool(t: ToolDelta): ToolDelta {
    if t.ToolNotDict? then t
    else
      var fn := if t.fn.Good? && t.fn.value.name == Good("") then Good(t.fn.value.(name := Absent)) else t.fn;
      ToolDelta(t.index, if t.id == Good("") then Absent else t.id, if t.kind == Good("") then Absent else t.kind, fn)
  }

  function CleanDelta(d: Delta): Delta {
    if d.tools.Good? then
      d.(tools := Good(seq(|d.tools.value|, k requires 0 <= k < |d.tools.value| => CleanTool(d.tools.value[k]))))
    else d
  }

  function CleanChoice(c: Choice): Choice {
    if c.ChoiceNotDict? then c
    else Choice(c.index, if c.finish == Good("") then Null else c.finish,
                if c.delta.Good? then Good(CleanDelta(c.delta.value)) else c.delta)
  }

  /** What is forwarded: the event without its empty strings. */
  function Clean(c: Chunk): Chunk {
    if !c.choices.Good? then c
    else c.(choices := Good(seq(|c.choices.value|, k requires 0 <= k < |c.choices.value| => CleanChoice(c.choices.value[k]))))
  }

  /** An event after its usage and metadata are merged and before its choices are checked. */
  function Merged(o: Obs, c: Chunk): Obs {
    var chat := c.chunkObject || !c.choices.Absent?;
    if chat && !c.choices.Good? then o.Fail(BadChoices)
    else
      var o1 := if chat then o.(sawChunk := true, metadata := o.metadata + c.metadata) else o;
      if c.usage.Bad? then o1.Fail(BadUsage)
      else
        var o2 := if c.usage.Good? then o1.(usage := o1.usage + c.usage.value) else o1;
        if !chat then o2.Fail(NotAChunk) else o2
  }

  /** The choices of an event that parsed as a chat chunk. */
  function Judge(o: Obs, c: Chunk): (Obs, Option<Chunk>)
    requires c.choices.Good?
  {
    var valid := CheckChoices(c.choices.value, o.n, o.p.closed, {});
    if valid.Err? then (o.Fail(valid.error), None)
    else
      var r := ApplyAll(o.p, Atoms(valid.value));
      if r.1.Some? then (o.(p := r.0).Fail(r.1.value), None) else (o.(p := r.0), Some(Clean(c)))
  }

  function Observe(o: Obs, w: Wire): (Obs, Option<Chunk>) {
    match w
    case DoneMark => (o.(seenDone := true), None)
    case Unparsable => if o.seenDone then (o.Fail(DataAfterDone), None) else (o.(malformed := true), None)
    case Event(c) =>
      if o.seenDone then (o.Fail(DataAfterDone), None)
      else if c.error then (o.(errorEvent := Some(c)), None)
      else
        var merged := Merged(o, c);
        if c.usage.Bad? || !c.choices.Good? then (merged, None) else Judge(merged, c)
  }

  // ---------------------------------------------------------------- the end of the stream

  datatype EofError = Parser(e: ParseError) | MalformedEvent | ErrorEvent | NoChunk | MissingChoices | ChoiceNotComplete

  predicate CutShort(r: Option<string>) {
    r == Some("length") || r == Some("content_filter")
  }

  /** One call of a choice that was not cut short: identified, with an object for arguments. */
  predicate CallComplete(c: Call, object_: string -> bool) {
    c.id.Some? && c.name.Some? && object_(c.arguments)
  }

  predicate ReasonFits(p: Progress, i: int)
    requires i in p.finish
  {
    var r := p.finish[i];
    && (r == Some("tool_calls") ==> i in p.tools)
    && (i in p.tools ==> r.None? || r.value == "tool_calls" || CutShort(r))
    && (r.None? ==> i in p.tools)
  }

  predicate CallsFit(p: Progress, i: int, object_: string -> bool) {
    (exists k | k in p.calls :: k.0 == i)
    && forall k | k in p.calls && k.0 == i :: (i in p.finish && CutShort(p.finish[i])) || CallComplete(p.calls[k], object_)
  }

  predicate Productive(p: Progress, i: int)
    requires i in p.finish
  {
    CutShort(p.finish[i]) || i in p.content || i in p.reasoning || i in p.tools
  }

  /** The per-choice checks; which failing choice is reported first is left open. */
  predicate ChoicesComplete(p: Progress, object_: string -> bool) {
    && (forall i | i in p.finish :: ReasonFits(p, i))
    && (forall i | i in p.tools :: CallsFit(p, i, object_))
    && (forall i | i in p.finish :: Productive(p, i))
  }

  function Eof(o: Obs, object_: string -> bool): Option<EofError> {
    if o.parserError.Some? then Some(Parser(o.parserError.value))
    else if o.malformed then Some(MalformedEvent)
    else if o.errorEvent.Some? then Some(ErrorEvent)
    else if !o.sawChunk then Some(NoChunk)
    else if exists i | 0 <= i < o.n   :: i !in o.p.finish then Some(MissingChoices)
    else if !ChoicesComplete(o.p, object_) then Some(ChoiceNotComplete)
    else None
  }

  /** Choices seen without a finish reason, in order. */
  function MissingFinish(o: Obs, from: nat): seq<int>
    requires from <= o.n
    decreases o.n - from
  {
    if from == o.n then []
    else (if from in o.p.finish && o.p.finish[from].None? then [from] else []) + MissingFinish(o, from + 1)
  }
}
