/**
  The WorkBuddy repair of tool history (workbuddy_outbound.py, `_repack_tool_results` and `_drop_orphan_tools`).

  The first pass moves results behind the assistant that asked for them, the second drops calls without results and results
  without calls.  Ids are the strings that `str(... or "")` gives.
 */
module OutboundRepair {
  import opened Options

  datatype Call = Call(id: string, rest: string) | CallNotDict(printed: string)

  /** The field `tool_calls`: absent, a list, or something else. */
  datatype Calls = NoCalls | Calls(list: seq<Call>) | NotList(printed: string)

  datatype Message = Message(role: string, calls: Calls, toolId: string, rest: string) | NotDict(printed: string)

  function IdsOf(calls: seq<Call>): set<string> {
    set k | 0 <= k < |calls| && calls[k].Call? && calls[k].id != "" :: calls[k].id
  }

  function CallIds(m: Message): set<string> {
    if m.NotDict? || m.role != "assistant" || !m.calls.Calls? then {} else IdsOf(m.calls.list)
  }

  predicate IsCalling(m: Message) {
    CallIds(m) != {}
  }

  function ToolId(m: Message): string {
    if m.NotDict? || m.role != "tool" then "" else m.toolId
  }

  predicate Answers(m: Message, wanted: set<string>) {
    ToolId(m) in wanted
  }

  // ---------------------------------------------------------------- repacking

  function WindowLength(rest: seq<Message>): (n: nat)
    ensures n <= |rest| && forall i | 0 <= i < n :: !IsCalling(rest[i])
    ensures n < |rest| ==> IsCalling(rest[n])
  {
    if rest == [] || IsCalling(rest[0]) then 0 else 1 + WindowLength(rest[1..])
  }

  /** The messages that answer, or those that do not, in order. */
  function Sift(window: seq<Message>, wanted: set<string>, answers: bool): seq<Message> {
    if window == [] then []
    else (if Answers(window[0], wanted) == answers then [window[0]] else []) + Sift(window[1..], wanted, answers)
  }

  function Packed(m: Message, window: seq<Message>): seq<Message> {
    [m] + Sift(window, CallIds(m), true) + Sift(window, CallIds(m), false)
  }

  /** Where the window of the first message ends. */
  function NextCalling(messages: seq<Message>): (n: nat)
    requires messages != []
    ensures 1 <= n <= |messages|
  {
    1 + WindowLength(messages[1..])
  }

  function Repack(messages: seq<Message>): seq<Message>
    decreases |messages|
  {
    if messages == [] then []
    else if !IsCalling(messages[0]) then [messages[0]] + Repack(messages[1..])
    else Packed(messages[0], messages[1..NextCalling(messages)]) + Repack(messages[NextCalling(messages)..])
  }

  // ---------------------------------------------------------------- dropping

  predicate CalledIn(messages: seq<Message>, id: string) {
    exists k :: 0 <= k < |messages| && id in CallIds(messages[k])
  }

  predicate AnsweredIn(messages: seq<Message>, id: string) {
    id != "" && exists k :: 0 <= k < |messages| && ToolId(messages[k]) == id
  }

  predicate Paired(all: seq<Message>, id: string) {
    CalledIn(all, id) && AnsweredIn(all, id)
  }

  function SurvivingCalls(calls: seq<Call>, all: seq<Message>): seq<Call> {
    if calls == [] then []
    else (if calls[0].Call? && Paired(all, calls[0].id) then [calls[0]] else []) + SurvivingCalls(calls[1..], all)
  }

  /** What is left of one message; None if it is dropped. */
  function Left(m: Message, all: seq<Message>): Option<Message> {
    if m.NotDict? then Some(m)
    else if m.role == "tool" then if Paired(all, m.toolId) then Some(m) else None
    else if !m.calls.Calls? || m.calls.list == [] then Some(m)
    else
      var surviving := SurvivingCalls(m.calls.list, all);
      Some(m.(calls := if surviving != [] then Calls(surviving) else NoCalls))
  }

  function Leave(messages: seq<Message>, all: seq<Message>): seq<Message> {
    if messages == [] then []
    else
      var m := Left(messages[0], all);
      (if m.Some? then [m.value] else []) + Leave(messages[1..], all)
  }

  function DropOrphans(messages: seq<Message>): seq<Message> {
    Leave(messages, messages)
  }

  function Repair(messages: seq<Message>): seq<Message> {
    DropOrphans(Repack(messages))
  }

  // ---------------------------------------------------------------- the loops of the source

  method LookAhead(messages: seq<Message>, index: nat, wanted: set<string>, done: set<int>)
    returns (matches: seq<Message>, between: seq<Message>, consumed: set<int>, later: nat)
    requires index < |messages|
    requires forall k | index < k < |messages| :: k !in done
    ensures later == index + 1 + WindowLength(messages[index + 1..]) <= |messages|
    ensures matches == Sift(messages[index + 1..later], wanted, true)
    ensures between == Sift(messages[index + 1..later], wanted, false)
    ensures forall k | index < k < |messages| :: k in consumed <==> k < later
  {
    hide IsCalling, Answers, WindowLength, Sift;
    matches, between, consumed, later := [], [], done, index + 1;
    SiftNothing(wanted);
    assert messages[index + 1..index + 1] == [];
    while later < |messages| && !IsCalling(messages[later])
      invariant index + 1 <= later <= |messages|
      invariant forall k | index < k < later :: !IsCalling(messages[k])
      invariant matches == Sift(messages[index + 1..later], wanted, true)
      invariant between == Sift(messages[index + 1..later], wanted, false)
      invariant forall k | index < k < |messages| :: k in consumed <==> k < later
    {
      var nxt := messages[later];
      assert messages[index + 1..later + 1] == messages[index + 1..later] + [nxt];
      SiftSnoc(messages[index + 1..later], nxt, wanted, true);
      SiftSnoc(messages[index + 1..later], nxt, wanted, false);
      if Answers(nxt, wanted) {
        matches := matches + [nxt];
      } else {
        between := between + [nxt];
      }
      consumed := consumed + {later};
      later := later + 1;
    }
    WindowEnds(messages, index, later);
  }

  lemma SiftNothing(wanted: set<string>)
    ensures Sift([], wanted, true) == [] && Sift([], wanted, false) == []
  {
  }

  lemma {:induction false} SiftAppend(a: seq<Message>, b: seq<Message>, wanted: set<string>, answers: bool)
    ensures Sift(a + b, wanted, answers) == Sift(a, wanted, answers) + Sift(b, wanted, answers)
  {
    hide Answers;
    if a == [] {
      assert a + b == b;
    } else {
      assert (a + b)[0] == a[0] && (a + b)[1..] == a[1..] + b;
      SiftAppend(a[1..], b, wanted, answers);
      var first := if Answers(a[0], wanted) == answers then [a[0]] else [];
      assert first + (Sift(a[1..], wanted, answers) + Sift(b, wanted, answers))
             == (first + Sift(a[1..], wanted, answers)) + Sift(b, wanted, answers);
    }
  }

  lemma SiftSnoc(a: seq<Message>, m: Message, wanted: set<string>, answers: bool)
    ensures Sift(a + [m], wanted, answers) == Sift(a, wanted, answers) + if Answers(m, wanted) == answers then [m] else []
  {
    hide Answers;
    SiftAppend(a, [m], wanted, answers);
    assert [m][1..] == [];
  }

  lemma WindowEnds(messages: seq<Message>, index: nat, later: nat)
    requires index < later <= |messages| && forall k | index < k < later :: !IsCalling(messages[k])
    requires later == |messages| || IsCalling(messages[later])
    ensures later == index + 1 + WindowLength(messages[index + 1..])
  {
    hide IsCalling;
    var rest := messages[index + 1..];
    var n := later - index - 1;
    assert forall k | 0 <= k < n :: !IsCalling(rest[k]) by {
      assert forall k | 0 <= k < n :: rest[k] == messages[index + 1 + k];
    }
    assert n < |rest| ==> IsCalling(rest[n]);
  }

  lemma RepackPlain(rest: seq<Message>)
    requires rest != [] && !IsCalling(rest[0])
    ensures Repack(rest) == [rest[0]] + Repack(rest[1..])
  {
    hide IsCalling, Packed, NextCalling;
  }

  lemma RepackCalling(rest: seq<Message>)
    requires rest != [] && IsCalling(rest[0])
    ensures Repack(rest) == Packed(rest[0], rest[1..NextCalling(rest)]) + Repack(rest[NextCalling(rest)..])
  {
    hide IsCalling, Packed, NextCalling;
  }

  lemma RepackStep(messages: seq<Message>, index: nat)
    requires index < |messages|
    ensures !IsCalling(messages[index]) ==> Repack(messages[index..]) == [messages[index]] + Repack(messages[index + 1..])
    ensures IsCalling(messages[index]) ==>
              var later := index + 1 + WindowLength(messages[index + 1..]);
              Repack(messages[index..]) == Packed(messages[index], messages[index + 1..later]) + Repack(messages[later..])
  {
    hide IsCalling, Packed, WindowLength, Repack;
    var rest := messages[index..];
    assert rest[0] == messages[index] && rest[1..] == messages[index + 1..];
    if !IsCalling(messages[index]) {
      RepackPlain(rest);
    } else {
      RepackCalling(rest);
      var n := NextCalling(rest);
      assert rest[1..n] == messages[index + 1..index + n] && rest[n..] == messages[index + n..];
    }
  }

  method RepackToolResults(messages: seq<Message>) returns (result: seq<Message>)
    ensures result == Repack(messages)
  {
    hide IsCalling, Repack, WindowLength, CallIds, Sift;
    var consumed: set<int> := {};
    result := [];
    assert messages[0..] == messages && [] + Repack(messages) == Repack(messages);
    ghost var next := 0;
    for index := 0 to |messages|
      invariant index <= next <= |messages|
      invariant forall k | index <= k < |messages| :: k in consumed <==> k < next
      invariant result + Repack(messages[next..]) == Repack(messages)
    {
      if index in consumed {
        continue;
      }
      RepackStep(messages, index);
      var before := result;
      if !IsCalling(messages[index]) {
        result := result + [messages[index]];
        next := index + 1;
        assert before + ([messages[index]] + Repack(messages[next..])) == result + Repack(messages[next..]);
        continue;
      }
      var matches, between, later;
      result := result + [messages[index]];
      matches, between, consumed, later := LookAhead(messages, index, CallIds(messages[index]), consumed);
      result := result + matches;
      result := result + between;
      next := later;
      assert before + ([messages[index]] + matches + between + Repack(messages[next..])) == result + Repack(messages[next..]);
    }
    RepackNothing(messages[next..]);
  }

  lemma RepackNothing(rest: seq<Message>)
    requires rest == []
    ensures Repack(rest) == []
  {
  }

  method CollectIds(messages: seq<Message>) returns (called: set<string>, answered: set<string>)
    ensures forall id :: id in called <==> CalledIn(messages, id)
    ensures forall id :: id in answered <==> AnsweredIn(messages, id)
  {
    hide CallIds, ToolId;
    called, answered := {}, {};
    for k := 0 to |messages|
      invariant forall id :: id in called <==> exists j :: 0 <= j < k && id in CallIds(messages[j])
      invariant forall id :: id in answered <==> id != "" && exists j :: 0 <= j < k && ToolId(messages[j]) == id
    {
      called := called + CallIds(messages[k]);
      var toolId := ToolId(messages[k]);
      if toolId != "" {
        answered := answered + {toolId};
      }
    }
  }

  lemma SurvivingUnfolds(calls: seq<Call>, all: seq<Message>, k: nat, done: seq<Call>)
    requires k < |calls|
    ensures var here := if calls[k].Call? && Paired(all, calls[k].id) then [calls[k]] else [];
            done + SurvivingCalls(calls[k..], all) == done + here + SurvivingCalls(calls[k + 1..], all)
  {
    hide Paired;
    assert calls[k..][1..] == calls[k + 1..];
  }

  method FilterCalls(calls: seq<Call>, paired: set<string>, ghost all: seq<Message>) returns (surviving: seq<Call>)
    requires forall id :: id in paired <==> Paired(all, id)
    ensures surviving == SurvivingCalls(calls, all)
  {
    hide Paired, SurvivingCalls;
    surviving := [];
    assert calls[0..] == calls && [] + SurvivingCalls(calls, all) == SurvivingCalls(calls, all);
    for k := 0 to |calls|
      invariant surviving + SurvivingCalls(calls[k..], all) == SurvivingCalls(calls, all)
    {
      SurvivingUnfolds(calls, all, k, surviving);
      if calls[k].Call? && calls[k].id in paired {
        surviving := surviving + [calls[k]];
      } else {
        assert surviving + [] == surviving;
      }
    }
    NoneSurviving(calls[|calls|..], all);
  }

  lemma NoneSurviving(calls: seq<Call>, all: seq<Message>)
    requires calls == []
    ensures SurvivingCalls(calls, all) == []
  {
  }

  lemma LeaveUnfolds(messages: seq<Message>, all: seq<Message>, k: nat, done: seq<Message>)
    requires k < |messages|
    ensures var m := Left(messages[k], all); var here := if m.Some? then [m.value] else [];
            done + Leave(messages[k..], all) == done + here + Leave(messages[k + 1..], all)
  {
    hide Left;
    assert messages[k..][1..] == messages[k + 1..];
  }

  lemma LeaveNothing(messages: seq<Message>, all: seq<Message>)
    requires messages == []
    ensures Leave(messages, all) == []
  {
  }

  method LeftOf(message: Message, paired: set<string>, ghost all: seq<Message>) returns (kept: Option<Message>)
    requires forall id :: id in paired <==> Paired(all, id)
    ensures kept == Left(message, all)
  {
    hide Paired, SurvivingCalls;
    if message.NotDict? {
      return Some(message);
    }
    if message.role == "tool" {
      return if message.toolId in paired then Some(message) else None;
    }
    if !message.calls.Calls? || message.calls.list == [] {
      return Some(message);
    }
    var surviving := FilterCalls(message.calls.list, paired, all);
    var copied := message;
    if surviving != [] {
      copied := copied.(calls := Calls(surviving));
    } else {
      copied := copied.(calls := NoCalls);
    }
    kept := Some(copied);
  }

  method DropOrphanTools(messages: seq<Message>) returns (kept: seq<Message>)
    ensures kept == DropOrphans(messages)
  {
    hide Paired, Leave, Left;
    var called, answered := CollectIds(messages);
    var paired := called * answered;
    PairedIds(messages, called, answered, paired);
    kept := [];
    assert messages[0..] == messages && [] + Leave(messages, messages) == Leave(messages, messages);
    for k := 0 to |messages|
      invariant kept + Leave(messages[k..], messages) == Leave(messages, messages)
    {
      LeaveUnfolds(messages, messages, k, kept);
      var message := LeftOf(messages[k], paired, messages);
      if message.Some? {
        kept := kept + [message.value];
      } else {
        assert kept + [] == kept;
      }
    }
    LeaveNothing(messages[|messages|..], messages);
  }

  lemma PairedIds(messages: seq<Message>, called: set<string>, answered: set<string>, paired: set<string>)
    requires forall id :: id in called <==> CalledIn(messages, id)
    requires forall id :: id in answered <==> AnsweredIn(messages, id)
    requires forall id :: id in paired <==> id in called && id in answered
    ensures forall id :: id in paired <==> Paired(messages, id)
  {
  }
}
