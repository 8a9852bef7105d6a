/**
  Repairing tool history before a channel forwards it (providers/tool_history.py, `repair_openai_tool_history`, and
  its twin `prepare_messages` in providers/qoder/chat.py).

  Strict upstreams accept a tool result only directly after the assistant message that asked for it.  Identifiers and
  names are the strings that `str(... or "")` gives, so an absent one is "".
 */
module ToolHistory {
  import opened Options
  import opened Whitespace

  datatype Part = StringPart(s: string) | DictPart(text: string, content: string) | OtherPart

  datatype Content = NoContent | Text(s: string) | Parts(parts: seq<Part>) | OtherContent(printed: string)

  /** A call argument field: absent, a string, null, or another value with its JSON text. */
  datatype Field = Absent | Str(s: string) | Null | Json(printed: string)

  datatype Call = Call(id: string, fnName: string, name: string, fnArguments: Field, arguments: Field, input: Field)

  /** `calls` and `callsAlias` are the lists under `tool_calls` and `toolCalls`; `extra` stands for all other keys. */
  datatype Message = Message(role: string, content: Content, name: string, toolId: string, toolIdAlias: string,
                             calls: Option<seq<Call>>, callsAlias: Option<seq<Call>>, extra: string)

  // ---------------------------------------------------------------- helpers of the source

  function PartText(p: Part): string {
    match p
    case StringPart(s) => s
    case DictPart(text, content) => if text != "" then text else content
    case OtherPart => ""
  }

  /** The nonempty part texts, joined by newlines. */
  function JoinParts(parts: seq<Part>): string {
    if parts == [] then ""
    else
      var rest := JoinParts(parts[1..]);
      if PartText(parts[0]) == "" then rest
      else if rest == "" then PartText(parts[0])
      else PartText(parts[0]) + "\n" + rest
  }

  function TextOf(c: Content): string {
    match c
    case NoContent => ""
    case Text(s) => s
    case Parts(parts) => Strip(JoinParts(parts))
    case OtherContent(printed) => printed
  }

  function RawCalls(m: Message): seq<Call> {
    if m.calls.Some? then m.calls.value else if m.callsAlias.Some? then m.callsAlias.value else []
  }

  function FieldText(f: Field): string
    requires f != Absent
  {
    match f
    case Str(s) => s
    case Null => "{}"
    case Json(printed) => printed
  }

  function Digits(n: nat): string {
    if n < 10 then ['0' + n as char] else Digits(n / 10) + ['0' + (n % 10) as char]
  }

  function NormalizeCall(c: Call, index: nat): Call {
    var arguments := if c.fnArguments != Absent then FieldText(c.fnArguments)
                     else if c.arguments != Absent then FieldText(c.arguments)
                     else if c.input != Absent then FieldText(c.input) else "{}";
    Call(if c.id != "" then c.id else "call_" + Digits(index), if c.fnName != "" then c.fnName else c.name, "",
         Str(if arguments != "" then arguments else "{}"), Absent, Absent)
  }

  function IdsOf(calls: seq<Call>): set<string> {
    set i | 0 <= i < |calls| && calls[i].id != "" :: calls[i].id
  }

  function CallIds(m: Message): set<string> {
    IdsOf(RawCalls(m))
  }

  function ToolId(m: Message): string {
    if m.toolId != "" then m.toolId else m.toolIdAlias
  }

  function UserNote(m: Message): Message {
    var name := if m.name != "" then m.name else if ToolId(m) != "" then ToolId(m) else "tool";
    Message("user", Text(Strip("[工具结果 " + name + "]\n" + TextOf(m.content))), "", "", "", None, None, "")
  }

  function ToolResult(m: Message): Message {
    Message("tool", Text(TextOf(m.content)), "", ToolId(m), "", None, None, "")
  }

  // ---------------------------------------------------------------- the repair, window by window

  predicate IsTool(m: Message) {
    m.role == "tool"
  }

  /** An assistant message that asks for results. */
  predicate IsCalling(m: Message) {
    m.role == "assistant" && CallIds(m) != {}
  }

  predicate Answers(m: Message, wanted: set<string>) {
    IsTool(m) && ToolId(m) in wanted
  }

  /** Messages up to the next calling assistant. */
  function WindowLength(rest: seq<Message>): (n: nat)
    ensures n <= |rest|
    ensures forall i | 0 <= i < n :: !IsCalling(rest[i])
    ensures n < |rest| ==> IsCalling(rest[n])
  {
    if rest == [] || IsCalling(rest[0]) then 0 else 1 + WindowLength(rest[1..])
  }

  function Plain(m: Message): Message {
    if IsTool(m) then UserNote(m) else m
  }

  function Matches(window: seq<Message>, wanted: set<string>): seq<Message> {
    if window == [] then []
    else (if Answers(window[0], wanted) then [window[0]] else []) + Matches(window[1..], wanted)
  }

  function Between(window: seq<Message>, wanted: set<string>): seq<Message> {
    if window == [] then []
    else (if Answers(window[0], wanted) then [] else [Plain(window[0])]) + Between(window[1..], wanted)
  }

  function ResultIds(matches: seq<Message>): set<string> {
    set i | 0 <= i < |matches| :: ToolId(matches[i])
  }

  function Surviving(calls: seq<Call>, index: nat, answered: set<string>): seq<Call> {
    if calls == [] then []
    else
      var c := NormalizeCall(calls[0], index);
      (if c.id in answered then [c] else []) + Surviving(calls[1..], index + 1, answered)
  }

  function Results(matches: seq<Message>): (r: seq<Message>)
    ensures |r| == |matches|
  {
    seq(|matches|, i requires 0 <= i < |matches| => ToolResult(matches[i]))
  }

  function WithCalls(m: Message, calls: seq<Call>): Message {
    if calls == [] then m.(calls := None, callsAlias := None)
    else
      var text := Strip(TextOf(m.content));
      m.(content := Text(if text != "" then text else " "), calls := Some(calls), callsAlias := None)
  }

  /** A calling assistant, its results, and the rest of its window. */
  function Assemble(m: Message, matches: seq<Message>, between: seq<Message>): seq<Message> {
    var surviving := Surviving(RawCalls(m), 0, ResultIds(matches));
    [WithCalls(m, surviving)] + (if surviving != [] then Results(matches) else Notes(matches)) + between
  }

  function Block(m: Message, window: seq<Message>): seq<Message> {
    Assemble(m, Matches(window, CallIds(m)), Between(window, CallIds(m)))
  }

  function Notes(matches: seq<Message>): (r: seq<Message>)
    ensures |r| == |matches|
  {
    seq(|matches|, i requires 0 <= i < |matches| => UserNote(matches[i]))
  }

  /** Where the window of the first message ends. */
  function NextCalling(source: seq<Message>): (n: nat)
    requires source != []
    ensures 1 <= n <= |source|
  {
    1 + WindowLength(source[1..])
  }

  function Repair(source: seq<Message>): seq<Message>
    decreases |source|
  {
    if source == [] then []
    else if !IsCalling(source[0]) then [Plain(source[0])] + Repair(source[1..])
    else Block(source[0], source[1..NextCalling(source)]) + Repair(source[NextCalling(source)..])
  }

  /** Items that are not dictionaries are dropped first. */
  function Dicts(items: seq<Option<Message>>): seq<Message> {
    if items == [] then [] else (if items[0].Some? then [items[0].value] else []) + Dicts(items[1..])
  }

  // ---------------------------------------------------------------- the loops of the source

  method CollectDicts(items: seq<Option<Message>>) returns (source: seq<Message>)
    ensures source == Dicts(items)
  {
    source := [];
    for i := 0 to |items|
      invariant source + Dicts(items[i..]) == Dicts(items)
    {
      assert items[i..][1..] == items[i + 1..];
      if items[i].Some? {
        source := source + [items[i].value];
      }
    }
  }

  method SurvivingCalls(calls: seq<Call>, answered: set<string>) returns (surviving: seq<Call>)
    ensures surviving == Surviving(calls, 0, answered)
  {
    hide NormalizeCall;
    surviving := [];
    for k := 0 to |calls|
      invariant surviving + Surviving(calls[k..], k, answered) == Surviving(calls, 0, answered)
    {
      assert calls[k..][1..] == calls[k + 1..];
      var c := NormalizeCall(calls[k], k);
      if c.id in answered {
        surviving := surviving + [c];
      }
    }
  }

  /** The inner loop: look ahead to the next calling assistant and sort what is found. */
  method LookAhead(source: seq<Message>, index: nat, wanted: set<string>, done: set<int>)
    returns (matches: seq<Message>, between: seq<Message>, consumed: set<int>, later: nat)
    requires index < |source|
    requires forall k | index < k < |source| :: k !in done
    ensures later == index + 1 + WindowLength(source[index + 1..]) <= |source|
    ensures matches == Matches(source[index + 1..later], wanted)
    ensures between == Between(source[index + 1..later], wanted)
    ensures forall k | index < k < |source| :: k in consumed <==> k < later
  {
    hide IsCalling, UserNote, ToolId, WindowLength, Matches, Between;
    matches, between, consumed, later := [], [], done, index + 1;
    SortedNothing(source[index + 1..later], wanted);
    while later < |source| && !IsCalling(source[later])
      invariant index + 1 <= later <= |source|
      invariant forall k | index < k < later :: !IsCalling(source[k])
      invariant matches == Matches(source[index + 1..later], wanted)
      invariant between == Between(source[index + 1..later], wanted)
      invariant forall k | index < k < |source| :: k in consumed <==> k < later
    {
      var nxt := source[later];
      assert source[index + 1..later + 1] == source[index + 1..later] + [nxt];
      SortedAppend(source[index + 1..later], nxt, wanted);
      if IsTool(nxt) && ToolId(nxt) in wanted {
        matches := matches + [nxt];
      } else if IsTool(nxt) {
        between := between + [UserNote(nxt)];
      } else {
        between := between + [nxt];
      }
      consumed := consumed + {later};
      later := later + 1;
    }
    WindowEnds(source, index, later);
  }

  lemma SortedNothing(window: seq<Message>, wanted: set<string>)
    requires window == []
    ensures Matches(window, wanted) == [] && Between(window, wanted) == []
  {
  }

  /** One more message at the end of a window. */
  lemma SortedAppend(window: seq<Message>, m: Message, wanted: set<string>)
    ensures Matches(window + [m], wanted) == Matches(window, wanted) + if Answers(m, wanted) then [m] else []
    ensures Between(window + [m], wanted) == Between(window, wanted) + if Answers(m, wanted) then [] else [Plain(m)]
  {
    MatchesAppend(window, m, wanted);
    BetweenAppend(window, m, wanted);
  }

  lemma {:induction false} MatchesAppend(window: seq<Message>, m: Message, wanted: set<string>)
    ensures Matches(window + [m], wanted) == Matches(window, wanted) + if Answers(m, wanted) then [m] else []
  {
    hide Answers;
    if window == [] {
      assert [m][1..] == [] && window + [m] == [m];
    } else {
      assert (window + [m])[0] == window[0] && (window + [m])[1..] == window[1..] + [m];
      MatchesAppend(window[1..], m, wanted);
      var first := if Answers(window[0], wanted) then [window[0]] else [];
      var last := if Answers(m, wanted) then [m] else [];
      assert first + (Matches(window[1..], wanted) + last) == (first + Matches(window[1..], wanted)) + last;
    }
  }

  lemma {:induction false} BetweenAppend(window: seq<Message>, m: Message, wanted: set<string>)
    ensures Between(window + [m], wanted) == Between(window, wanted) + if Answers(m, wanted) then [] else [Plain(m)]
  {
    hide Answers, Plain;
    if window == [] {
      assert [m][1..] == [] && window + [m] == [m];
    } else {
      assert (window + [m])[0] == window[0] && (window + [m])[1..] == window[1..] + [m];
      BetweenAppend(window[1..], m, wanted);
      var first := if Answers(window[0], wanted) then [] else [Plain(window[0])];
      var last := if Answers(m, wanted) then [] else [Plain(m)];
      assert first + (Between(window[1..], wanted) + last) == (first + Between(window[1..], wanted)) + last;
    }
  }

  lemma WindowEnds(source: seq<Message>, index: nat, later: nat)
    requires index < later <= |source| && forall k | index < k < later :: !IsCalling(source[k])
    requires later == |source| || IsCalling(source[later])
    ensures later == index + 1 + WindowLength(source[index + 1..])
  {
    hide IsCalling;
    var rest := source[index + 1..];
    var n := later - index - 1;
    assert forall k | 0 <= k < n :: !IsCalling(rest[k]) by {
      assert forall k | 0 <= k < n :: rest[k] == source[index + 1 + k];
    }
    assert n < |rest| ==> IsCalling(rest[n]);
  }

  method BuildBlock(message: Message, matches: seq<Message>, between: seq<Message>) returns (block: seq<Message>)
    ensures block == Assemble(message, matches, between)
  {
    hide WithCalls, Surviving, Results, Notes, ResultIds;
    var surviving := SurvivingCalls(RawCalls(message), ResultIds(matches));
    block := [WithCalls(message, surviving)];
    if surviving != [] {
      block := block + Results(matches);
    } else {
      block := block + Notes(matches);
    }
    block := block + between;
  }

  /** The same step as `prepare_messages` writes it: the assistant first, the alias key dropped last. */
  method BuildPrepared(message: Message, matches: seq<Message>, between: seq<Message>) returns (block: seq<Message>)
    ensures block == Assemble(message, matches, between)
  {
    hide Surviving, ResultIds, Strip, TextOf;
    var assistant := message;
    var surviving := SurvivingCalls(RawCalls(assistant), ResultIds(matches));
    if surviving != [] {
      var text := Strip(TextOf(assistant.content));
      assistant := assistant.(content := Text(if text != "" then text else " "));
      assistant := assistant.(calls := Some(surviving));
      assistant := assistant.(callsAlias := None);
      block := [assistant];
      for k := 0 to |matches|
        invariant block == [assistant] + Results(matches)[..k]
      {
        block := block + [ToolResult(matches[k])];
      }
      assert Results(matches)[..|matches|] == Results(matches);
    } else {
      assistant := assistant.(calls := None);
      assistant := assistant.(callsAlias := None);
      block := [assistant] + Notes(matches);
    }
    block := block + between;
  }

  method RepairOpenAiToolHistory(messages: seq<Option<Message>>) returns (ordered: seq<Message>)
    ensures ordered == Repair(Dicts(messages))
  {
    hide UserNote, Assemble, Matches, Between, IsCalling, IsTool, Repair, WindowLength, CallIds, Dicts;
    var source := CollectDicts(messages);
    var consumed: set<int> := {};
    ordered := [];
    ghost var next := 0;  // where the output stands: everything before is consumed or done
    for index := 0 to |source|
      invariant index <= next <= |source|
      invariant forall k | index <= k < |source| :: k in consumed <==> k < next
      invariant ordered + Repair(source[next..]) == Repair(source)
    {
      if index in consumed {
        continue;
      }
      var message := source[index];
      if !IsCalling(message) {
        RepairBeyond(source, index);
        Joined(ordered, [Plain(message)], Repair(source[index + 1..]), Repair(source));
        ordered := ordered + [if IsTool(message) then UserNote(message) else message];
        next := index + 1;
        continue;
      }
      var matches, between, later;
      matches, between, consumed, later := LookAhead(source, index, CallIds(message), consumed);
      var block := BuildBlock(message, matches, between);
      RepairFrom(source, index, later);
      Joined(ordered, block, Repair(source[later..]), Repair(source));
      ordered := ordered + block;
      next := later;
    }
    RepairNothing(source[next..]);
  }

  /** The twin in providers/qoder/chat.py, with its own way to assemble a block. */
  method PrepareMessages(messages: seq<Option<Message>>) returns (ordered: seq<Message>)
    ensures ordered == Repair(Dicts(messages))
  {
    hide UserNote, Assemble, Matches, Between, IsCalling, IsTool, Repair, WindowLength, CallIds, Dicts;
    var source := CollectDicts(messages);
    var consumed: set<int> := {};
    ordered := [];
    ghost var next := 0;  // where the output stands: everything before is consumed or done
    for index := 0 to |source|
      invariant index <= next <= |source|
      invariant forall k | index <= k < |source| :: k in consumed <==> k < next
      invariant ordered + Repair(source[next..]) == Repair(source)
    {
      if index in consumed {
        continue;
      }
      var message := source[index];
      if !IsCalling(message) {
        RepairBeyond(source, index);
        Joined(ordered, [Plain(message)], Repair(source[index + 1..]), Repair(source));
        ordered := ordered + [if IsTool(message) then UserNote(message) else message];
        next := index + 1;
        continue;
      }
      var matches, between, later;
      matches, between, consumed, later := LookAhead(source, index, CallIds(message), consumed);
      var block := BuildPrepared(message, matches, between);
      RepairFrom(source, index, later);
      Joined(ordered, block, Repair(source[later..]), Repair(source));
      ordered := ordered + block;
      next := later;
    }
    RepairNothing(source[next..]);
  }

  lemma Joined(a: seq<Message>, b: seq<Message>, c: seq<Message>, all: seq<Message>)
    requires a + (b + c) == all
    ensures a + b + c == all
  {
  }

  lemma RepairNothing(rest: seq<Message>)
    requires rest == []
    ensures Repair(rest) == []
  {
  }

  lemma RepairPlain(rest: seq<Message>)
    requires rest != [] && !IsCalling(rest[0])
    ensures Repair(rest) == [Plain(rest[0])] + Repair(rest[1..])
  {
    hide Block, Plain, IsCalling, WindowLength;
  }

  lemma RepairCalling(rest: seq<Message>)
    requires rest != [] && IsCalling(rest[0])
    ensures Repair(rest) == Block(rest[0], rest[1..NextCalling(rest)]) + Repair(rest[NextCalling(rest)..])
  {
    hide Block, Plain, IsCalling, NextCalling;
  }

  lemma RepairBeyond(source: seq<Message>, index: nat)
    requires index < |source| && !IsCalling(source[index])
    ensures Repair(source[index..]) == [Plain(source[index])] + Repair(source[index + 1..])
  {
    hide Block, Plain, IsCalling, WindowLength, Repair;
    assert source[index..][1..] == source[index + 1..];
    RepairPlain(source[index..]);
  }

  lemma RepairFrom(source: seq<Message>, index: nat, later: nat)
    requires index < later <= |source| && IsCalling(source[index]) && later == index + 1 + WindowLength(source[index + 1..])
    ensures Repair(source[index..]) == Block(source[index], source[index + 1..later]) + Repair(source[later..])
  {
    hide Block, Plain, IsCalling, WindowLength, Repair;
    var rest := source[index..];
    assert rest[1..] == source[index + 1..];
    RepairCalling(rest);
    var n := later - index;
    assert NextCalling(rest) == n;
    assert rest[1..n] == source[index + 1..later] && rest[n..] == source[later..];
  }
}
