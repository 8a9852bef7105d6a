/** What the repaired history guarantees. */
module ToolHistoryTheorems {
  import opened Options
  import opened Whitespace
  import opened ToolHistory

  // ---------------------------------------------------------------- settled histories

  /** Only tool messages lie between the two places. */
  predicate RunsFrom(out: seq<Message>, a: int, k: int) {
    0 <= a < k < |out| && forall j | a < j < k :: IsTool(out[j])
  }

  /** The result at k lies in the run directly after an assistant that asks for it. */
  ghost predicate Placed(out: seq<Message>, k: int) {
    exists a :: RunsFrom(out, a, k) && IsCalling(out[a]) && ToolId(out[k]) in CallIds(out[a])
  }

  /** The call is answered in the run directly after place a. */
  ghost predicate AnsweredAt(out: seq<Message>, a: int, id: string) {
    exists k :: RunsFrom(out, a, k) && IsTool(out[k]) && ToolId(out[k]) == id
  }

  predicate NormalCall(c: Call) {
    c.id != "" && c.name == "" && c.fnArguments.Str? && c.fnArguments.s != "" && c.arguments == Absent && c.input == Absent
  }

  predicate NormalCalls(calls: seq<Call>) {
    forall i | 0 <= i < |calls| :: NormalCall(calls[i])
  }

  /** A calling assistant as the repair leaves it. */
  predicate NormalAssistant(m: Message) {
    m.calls.Some? && NormalCalls(m.calls.value) && m == WithCalls(m, m.calls.value)
  }

  ghost predicate AllAnswered(out: seq<Message>, a: int)
    requires 0 <= a < |out|
  {
    forall i | 0 <= i < |RawCalls(out[a])| :: AnsweredAt(out, a, RawCalls(out[a])[i].id)
  }

  /** Nothing left to repair. */
  ghost predicate Settled(out: seq<Message>) {
    && (forall k | 0 <= k < |out| && IsTool(out[k]) :: Placed(out, k) && ToolResult(out[k]) == out[k])
    && (forall a | 0 <= a < |out| && IsCalling(out[a]) :: NormalAssistant(out[a]) && AllAnswered(out, a))
  }

  // ---------------------------------------------------------------- normal forms

  lemma NormalizeNormal(c: Call, i: nat)
    ensures NormalCall(NormalizeCall(c, i))
    ensures NormalCall(c) ==> NormalizeCall(c, i) == c
  {
  }

  lemma {:induction false} SurvivingNormal(calls: seq<Call>, index: nat, answered: set<string>)
    ensures NormalCalls(Surviving(calls, index, answered))
    ensures forall i | 0 <= i < |Surviving(calls, index, answered)| :: Surviving(calls, index, answered)[i].id in answered
    decreases |calls|
  {
    hide NormalCall, NormalizeCall;
    if calls != [] {
      NormalizeNormal(calls[0], index);
      SurvivingNormal(calls[1..], index + 1, answered);
    }
  }

  lemma {:induction false} SurvivingAll(calls: seq<Call>, index: nat, answered: set<string>)
    requires NormalCalls(calls) && forall i | 0 <= i < |calls| :: calls[i].id in answered
    ensures Surviving(calls, index, answered) == calls
    decreases |calls|
  {
    hide NormalCall, NormalizeCall;
    if calls != [] {
      NormalizeNormal(calls[0], index);
      SurvivingAll(calls[1..], index + 1, answered);
    }
  }

  /** A call whose id was answered survives. */
  lemma {:induction false} SurvivingKeeps(calls: seq<Call>, index: nat, answered: set<string>, i: nat)
    requires i < |calls| && calls[i].id != "" && calls[i].id in answered
    ensures calls[i].id in IdsOf(Surviving(calls, index, answered))
    decreases |calls|
  {
    var c := NormalizeCall(calls[0], index);
    var rest := Surviving(calls[1..], index + 1, answered);
    var all := Surviving(calls, index, answered);
    if i == 0 {
      assert c.id == calls[0].id && all[0] == c;
    } else {
      SurvivingKeeps(calls[1..], index + 1, answered, i - 1);
      var j :| 0 <= j < |rest| && rest[j].id == calls[i].id;
      assert all[|all| - |rest| + j] == rest[j];
    }
  }

  lemma WithCallsNormal(m: Message, calls: seq<Call>)
    requires calls != [] && NormalCalls(calls)
    ensures NormalAssistant(WithCalls(m, calls)) && RawCalls(WithCalls(m, calls)) == calls
  {
    hide NormalCall;
    var text := Strip(TextOf(m.content));
    StripTwice(TextOf(m.content));
    if text == "" {
      assert Strip(" ") == "" by {
        assert " "[1..] == "";
        assert StripLeft(" ") == StripLeft("") == "";
      }
    }
  }

  // ---------------------------------------------------------------- one block

  lemma {:induction false} MatchesAnswer(window: seq<Message>, wanted: set<string>)
    ensures forall i | 0 <= i < |Matches(window, wanted)| :: Answers(Matches(window, wanted)[i], wanted)
    ensures |Matches(window, wanted)| + |Between(window, wanted)| == |window|
    decreases |window|
  {
    if window != [] {
      MatchesAnswer(window[1..], wanted);
    }
  }

  /** Neither a result nor a request. */
  predicate Quiet(m: Message) {
    !IsTool(m) && !IsCalling(m)
  }

  lemma {:induction false} BetweenQuiet(window: seq<Message>, wanted: set<string>)
    requires forall i | 0 <= i < |window| :: !IsCalling(window[i])
    ensures forall i | 0 <= i < |Between(window, wanted)| :: Quiet(Between(window, wanted)[i])
    decreases |window|
  {
    if window != [] {
      PlainQuiet(window[0]);
      hide Plain, IsCalling, Quiet;
      BetweenQuiet(window[1..], wanted);
    }
  }

  lemma PlainQuiet(m: Message)
    requires !IsCalling(m)
    ensures Quiet(Plain(m))
  {
  }

  /** A block: an assistant, the run of its results, and quiet messages. */
  ghost predicate BlockParts(head: Message, results: seq<Message>, between: seq<Message>) {
    && !IsTool(head)
    && (forall i | 0 <= i < |results| :: IsTool(results[i]) && ToolResult(results[i]) == results[i] && ToolId(results[i]) in CallIds(head))
    && (forall i | 0 <= i < |between| :: Quiet(between[i]))
    && (IsCalling(head) ==> NormalAssistant(head))
    && (!IsCalling(head) ==> results == [] && RawCalls(head) == [])
    && (forall i | 0 <= i < |RawCalls(head)| :: HasResult(results, RawCalls(head)[i].id))
  }

  ghost predicate HasResult(results: seq<Message>, id: string) {
    exists k :: 0 <= k < |results| && ToolId(results[k]) == id
  }

  lemma ToolResultNormal(m: Message)
    ensures IsTool(ToolResult(m)) && ToolResult(ToolResult(m)) == ToolResult(m) && ToolId(ToolResult(m)) == ToolId(m)
  {
  }

  lemma NoMatchNoSurvivor(calls: seq<Call>, index: nat)
    ensures Surviving(calls, index, {}) == []
    decreases |calls|
  {
    hide NormalizeCall;
  }

  /** Results survive only with their calls, so the branch that turns matched results into notes never runs. */
  lemma SurvivorsForMatches(m: Message, matches: seq<Message>)
    requires forall i | 0 <= i < |matches| :: Answers(matches[i], CallIds(m))
    ensures var surviving := Surviving(RawCalls(m), 0, ResultIds(matches));
            && (surviving == [] <==> matches == [])
            && forall i | 0 <= i < |matches| :: ToolId(matches[i]) in IdsOf(surviving)
  {
    hide ToolId;
    var surviving := Surviving(RawCalls(m), 0, ResultIds(matches));
    forall i | 0 <= i < |matches| ensures ToolId(matches[i]) in IdsOf(surviving) {
      assert Answers(matches[i], CallIds(m));
      assert ToolId(matches[i]) in CallIds(m);
      var k :| 0 <= k < |RawCalls(m)| && RawCalls(m)[k].id != "" && RawCalls(m)[k].id == ToolId(matches[i]);
      SurvivingKeeps(RawCalls(m), 0, ResultIds(matches), k);
    }
    if matches == [] {
      assert ResultIds(matches) == {};
      NoMatchNoSurvivor(RawCalls(m), 0);
    } else {
      assert ToolId(matches[0]) in IdsOf(surviving);
    }
  }

  lemma ResultsNormal(matches: seq<Message>)
    ensures forall i | 0 <= i < |matches| ::
              var r := Results(matches)[i]; IsTool(r) && ToolResult(r) == r && ToolId(r) == ToolId(matches[i])
  {
    hide ToolResult, ToolId;
    forall i | 0 <= i < |matches| ensures var r := Results(matches)[i]; IsTool(r) && ToolResult(r) == r && ToolId(r) == ToolId(matches[i]) {
      ToolResultNormal(matches[i]);
    }
  }

  /** An assistant with answered calls, and its results. */
  lemma AnsweredParts(m: Message, matches: seq<Message>, between: seq<Message>, calls: seq<Call>)
    requires m.role == "assistant" && calls != [] && NormalCalls(calls)
    requires forall i | 0 <= i < |matches| :: ToolId(matches[i]) in IdsOf(calls)
    requires forall i | 0 <= i < |calls| :: calls[i].id in ResultIds(matches)
    requires forall i | 0 <= i < |between| :: Quiet(between[i])
    ensures BlockParts(WithCalls(m, calls), Results(matches), between) && IsCalling(WithCalls(m, calls))
  {
    WithCallsNormal(m, calls);
    ResultsNormal(matches);
    var head := WithCalls(m, calls);
    assert head.role == "assistant";
    assert calls[0].id in IdsOf(calls) by {
      assert NormalCall(calls[0]);
    }
    hide WithCalls, NormalAssistant, NormalCalls, ToolResult, ToolId, Quiet;
    forall i | 0 <= i < |calls| ensures HasResult(Results(matches), calls[i].id) {
      var j :| 0 <= j < |matches| && ToolId(matches[j]) == calls[i].id;
      assert ToolId(Results(matches)[j]) == calls[i].id;
    }
  }

  lemma AssembleParts(m: Message, matches: seq<Message>, between: seq<Message>) returns (head: Message, results: seq<Message>)
    requires IsCalling(m)
    requires forall i | 0 <= i < |matches| :: Answers(matches[i], CallIds(m))
    requires forall i | 0 <= i < |between| :: Quiet(between[i])
    ensures Assemble(m, matches, between) == [head] + results + between && BlockParts(head, results, between)
    ensures |results| == |matches|
  {
    var surviving := Surviving(RawCalls(m), 0, ResultIds(matches));
    SurvivorsForMatches(m, matches);
    SurvivingNormal(RawCalls(m), 0, ResultIds(matches));
    head := WithCalls(m, surviving);
    if surviving != [] {
      results := Results(matches);
      AnsweredParts(m, matches, between, surviving);
    } else {
      results := [];
      assert RawCalls(head) == [] && CallIds(head) == {};
      assert Notes(matches) == [];
    }
  }

  // ---------------------------------------------------------------- the result is settled

  lemma PlacedLeft(x: seq<Message>, y: seq<Message>, k: int)
    requires 0 <= k < |x| && Placed(x, k)
    ensures Placed(x + y, k)
  {
    var a :| RunsFrom(x, a, k) && IsCalling(x[a]) && ToolId(x[k]) in CallIds(x[a]);
    hide IsCalling, ToolId, CallIds, IsTool;
    assert RunsFrom(x + y, a, k);
  }

  lemma PlacedRight(x: seq<Message>, y: seq<Message>, k: int)
    requires 0 <= k < |y| && Placed(y, k)
    ensures Placed(x + y, |x| + k)
  {
    var a :| RunsFrom(y, a, k) && IsCalling(y[a]) && ToolId(y[k]) in CallIds(y[a]);
    hide IsCalling, ToolId, CallIds, IsTool;
    assert RunsFrom(x + y, |x| + a, |x| + k) by {
      assert forall j | |x| + a < j < |x| + k :: (x + y)[j] == y[j - |x|];
    }
  }

  lemma AnsweredLeft(x: seq<Message>, y: seq<Message>, a: int)
    requires 0 <= a < |x| && AllAnswered(x, a)
    ensures AllAnswered(x + y, a)
  {
    hide IsTool, ToolId, RawCalls;
    forall i | 0 <= i < |RawCalls(x[a])| ensures AnsweredAt(x + y, a, RawCalls(x[a])[i].id) {
      var id := RawCalls(x[a])[i].id;
      assert AnsweredAt(x, a, id);
      var k :| RunsFrom(x, a, k) && IsTool(x[k]) && ToolId(x[k]) == id;
      assert RunsFrom(x + y, a, k);
    }
  }

  lemma AnsweredRight(x: seq<Message>, y: seq<Message>, a: int)
    requires 0 <= a < |y| && AllAnswered(y, a)
    ensures AllAnswered(x + y, |x| + a)
  {
    hide IsTool, ToolId, RawCalls;
    assert (x + y)[|x| + a] == y[a];
    forall i | 0 <= i < |RawCalls(y[a])| ensures AnsweredAt(x + y, |x| + a, RawCalls(y[a])[i].id) {
      var id := RawCalls(y[a])[i].id;
      assert AnsweredAt(y, a, id);
      var k :| RunsFrom(y, a, k) && IsTool(y[k]) && ToolId(y[k]) == id;
      assert RunsFrom(x + y, |x| + a, |x| + k) by {
        assert forall j | |x| + a < j < |x| + k :: (x + y)[j] == y[j - |x|];
      }
    }
  }

  lemma SettledAppend(x: seq<Message>, y: seq<Message>)
    requires Settled(x) && Settled(y)
    ensures Settled(x + y)
  {
    hide IsTool, IsCalling, Placed, AllAnswered, NormalAssistant, ToolResult;
    forall k | 0 <= k < |x + y| && IsTool((x + y)[k]) ensures Placed(x + y, k) && ToolResult((x + y)[k]) == (x + y)[k] {
      if k < |x| { PlacedLeft(x, y, k); } else { PlacedRight(x, y, k - |x|); }
    }
    forall a | 0 <= a < |x + y| && IsCalling((x + y)[a]) ensures NormalAssistant((x + y)[a]) && AllAnswered(x + y, a) {
      if a < |x| { AnsweredLeft(x, y, a); } else { AnsweredRight(x, y, a - |x|); }
    }
  }

  /** Where the parts of a block stand. */
  lemma BlockLayout(head: Message, results: seq<Message>, between: seq<Message>, b: seq<Message>)
    requires BlockParts(head, results, between) && b == [head] + results + between
    ensures |b| == 1 + |results| + |between| && b[0] == head && (results != [] ==> IsCalling(head))
    ensures forall j | 0 < j <= |results| :: b[j] == results[j - 1] && IsTool(b[j])
    ensures forall j | |results| < j < |b| :: Quiet(b[j])
  {
    hide IsCalling, NormalAssistant, ToolResult, ToolId, CallIds, RawCalls, HasResult, IsTool, Quiet;
    forall j | |results| < j < |b| ensures Quiet(b[j]) {
      assert b[j] == between[j - 1 - |results|];
    }
    forall j | 0 < j <= |results| ensures b[j] == results[j - 1] && IsTool(b[j]) {
      assert b[j] == results[j - 1];
    }
  }

  lemma BlockPlaced(head: Message, results: seq<Message>, between: seq<Message>, b: seq<Message>, k: nat)
    requires BlockParts(head, results, between) && b == [head] + results + between && k < |b| && IsTool(b[k])
    ensures Placed(b, k) && ToolResult(b[k]) == b[k]
  {
    BlockLayout(head, results, between, b);
    assert 1 <= k <= |results|;
    hide IsCalling, NormalAssistant, ToolResult, ToolId, CallIds, RawCalls, HasResult, Quiet;
    assert b[k] == results[k - 1];
    assert RunsFrom(b, 0, k);
  }

  lemma BlockAnswered(head: Message, results: seq<Message>, between: seq<Message>, b: seq<Message>)
    requires BlockParts(head, results, between) && b == [head] + results + between
    ensures AllAnswered(b, 0)
  {
    BlockLayout(head, results, between, b);
    hide IsCalling, NormalAssistant, ToolResult, ToolId, CallIds, RawCalls, Quiet;
    forall i | 0 <= i < |RawCalls(head)| ensures AnsweredAt(b, 0, RawCalls(head)[i].id) {
      assert HasResult(results, RawCalls(head)[i].id);
      var k :| 0 <= k < |results| && ToolId(results[k]) == RawCalls(head)[i].id;
      assert b[1 + k] == results[k] && RunsFrom(b, 0, 1 + k);
    }
  }

  /** Nothing in a block asks for results but its head. */
  lemma BlockHead(head: Message, results: seq<Message>, between: seq<Message>, b: seq<Message>)
    requires BlockParts(head, results, between) && b == [head] + results + between
    ensures forall a | 0 < a < |b| :: !IsCalling(b[a])
    ensures IsCalling(head) ==> NormalAssistant(head)
  {
    BlockLayout(head, results, between, b);
    hide NormalAssistant, ToolResult, ToolId, CallIds, RawCalls, HasResult;
    forall a | 0 < a < |b| ensures !IsCalling(b[a]) {
      ToolNotCalling(b[a]);
    }
  }

  lemma BlockSettled(head: Message, results: seq<Message>, between: seq<Message>)
    requires BlockParts(head, results, between)
    ensures Settled([head] + results + between)
  {
    var b := [head] + results + between;
    hide *;
    forall k | 0 <= k < |b| && IsTool(b[k]) ensures Placed(b, k) && ToolResult(b[k]) == b[k] {
      BlockPlaced(head, results, between, b, k);
    }
    BlockAnswered(head, results, between, b);
    BlockHead(head, results, between, b);
    SettledByHead(b);
  }

  lemma SettledByHead(b: seq<Message>)
    requires b != [] && forall k | 0 <= k < |b| && IsTool(b[k]) :: Placed(b, k) && ToolResult(b[k]) == b[k]
    requires (forall a | 0 < a < |b| :: !IsCalling(b[a])) && (IsCalling(b[0]) ==> NormalAssistant(b[0])) && AllAnswered(b, 0)
    ensures Settled(b)
  {
    hide Placed, ToolResult, NormalAssistant, AllAnswered, IsTool, IsCalling;
  }

  lemma ToolNotCalling(m: Message)
    ensures !(IsTool(m) && IsCalling(m))
  {
  }

  lemma QuietSettled(m: Message)
    requires Quiet(m)
    ensures Settled([m])
  {
  }

  lemma BlockOfWindow(m: Message, window: seq<Message>) returns (head: Message, results: seq<Message>, between: seq<Message>)
    requires IsCalling(m) && forall i | 0 <= i < |window| :: !IsCalling(window[i])
    ensures Block(m, window) == [head] + results + between && BlockParts(head, results, between)
    ensures |results| + |between| == |window| && between == Between(window, CallIds(m))
  {
    MatchesAnswer(window, CallIds(m));
    BetweenQuiet(window, CallIds(m));
    between := Between(window, CallIds(m));
    head, results := AssembleParts(m, Matches(window, CallIds(m)), between);
  }

  lemma {:induction false} RepairSettled(source: seq<Message>)
    ensures Settled(Repair(source)) && |Repair(source)| == |source|
    decreases |source|
  {
    hide Settled, Block, IsCalling, Plain;
    if source == [] {
      RepairUnsettledNothing();
    } else {
      if !IsCalling(source[0]) {
        RepairPlain(source);
        PlainQuiet(source[0]);
        QuietSettled(Plain(source[0]));
        RepairSettled(source[1..]);
        SettledAppend([Plain(source[0])], Repair(source[1..]));
      } else {
        RepairCalling(source);
        var n := 1 + WindowLength(source[1..]);
        var head, results, between := BlockOfWindow(source[0], source[1..n]);
        BlockSettled(head, results, between);
        RepairSettled(source[n..]);
        SettledAppend([head] + results + between, Repair(source[n..]));
      }
    }
  }

  lemma RepairUnsettledNothing()
    ensures Repair([]) == [] && Settled([])
  {
  }

  // ---------------------------------------------------------------- a settled history is left alone

  lemma {:induction false} AllMatch(results: seq<Message>, quiet: seq<Message>, wanted: set<string>)
    requires forall i | 0 <= i < |results| :: Answers(results[i], wanted)
    requires forall i | 0 <= i < |quiet| :: !IsTool(quiet[i])
    ensures Matches(results + quiet, wanted) == results && Between(results + quiet, wanted) == quiet
    decreases |results| + |quiet|
  {
    hide ToolId;
    var window := results + quiet;
    if results != [] {
      assert window[0] == results[0] && window[1..] == results[1..] + quiet;
      AllMatch(results[1..], quiet, wanted);
    } else if quiet != [] {
      assert window[0] == quiet[0] && window[1..] == [] + quiet[1..];
      AllMatch([], quiet[1..], wanted);
    }
  }

  /** In a settled history the window of a calling assistant is its results, then quiet messages. */
  lemma SettledWindow(out: seq<Message>, n: nat) returns (r: nat)
    requires Settled(out) && out != [] && IsCalling(out[0]) && 1 <= n <= |out|
    requires forall i | 1 <= i < n :: !IsCalling(out[i])
    requires n < |out| ==> IsCalling(out[n])
    ensures r < n
    ensures forall i | 1 <= i <= r :: Answers(out[i], CallIds(out[0])) && ToolResult(out[i]) == out[i]
    ensures forall i | r < i < n :: !IsTool(out[i])
    ensures forall i | 0 <= i < |RawCalls(out[0])| :: HasResult(out[1..r + 1], RawCalls(out[0])[i].id)
  {
    hide IsCalling, ToolResult, ToolId, CallIds, RawCalls, NormalAssistant;
    r := 0;
    while r + 1 < n && IsTool(out[r + 1])
      invariant r < n && forall i | 1 <= i <= r :: IsTool(out[i])
    {
      r := r + 1;
    }
    assert r + 1 < n ==> !IsTool(out[r + 1]);
    forall i | 1 <= i < n && IsTool(out[i]) ensures i <= r && Answers(out[i], CallIds(out[0])) {
      assert Placed(out, i);
      var a :| RunsFrom(out, a, i) && IsCalling(out[a]) && ToolId(out[i]) in CallIds(out[a]);
      assert a == 0;
    }
    forall i | 0 <= i < |RawCalls(out[0])| ensures HasResult(out[1..r + 1], RawCalls(out[0])[i].id) {
      var id := RawCalls(out[0])[i].id;
      assert AllAnswered(out, 0) && AnsweredAt(out, 0, id);
      var k :| RunsFrom(out, 0, k) && IsTool(out[k]) && ToolId(out[k]) == id;
      assert n < k ==> IsTool(out[n]);
      assert n < |out| ==> !IsTool(out[n]) by {
        if n < |out| { ToolNotCalling(out[n]); }
      }
      assert out[1..r + 1][k - 1] == out[k];
    }
  }

  /** The two kinds of place where a settled history can be cut. */
  ghost predicate Cut(out: seq<Message>, n: nat) {
    0 < n <= |out| && ((n < |out| ==> IsCalling(out[n])) || (n == 1 && !IsCalling(out[0])))
  }

  lemma PlacedInTail(out: seq<Message>, n: nat, k: nat)
    requires Cut(out, n) && n + k < |out| && IsTool(out[n + k]) && Placed(out, n + k)
    ensures Placed(out[n..], k)
  {
    hide IsCalling, ToolId, CallIds, IsTool;
    var a :| RunsFrom(out, a, n + k) && IsCalling(out[a]) && ToolId(out[n + k]) in CallIds(out[a]);
    ToolNotCalling(out[n]);
    assert n <= a;
    assert RunsFrom(out[n..], a - n, k);
  }

  lemma AnsweredInTail(out: seq<Message>, n: nat, a: nat)
    requires n + a < |out| && AllAnswered(out, n + a)
    ensures AllAnswered(out[n..], a)
  {
    hide IsTool, ToolId, RawCalls;
    var tail := out[n..];
    forall i | 0 <= i < |RawCalls(tail[a])| ensures AnsweredAt(tail, a, RawCalls(tail[a])[i].id) {
      var id := RawCalls(tail[a])[i].id;
      assert AnsweredAt(out, n + a, id);
      var k :| RunsFrom(out, n + a, k) && IsTool(out[k]) && ToolId(out[k]) == id;
      assert RunsFrom(tail, a, k - n);
    }
  }

  lemma ToolsInTail(out: seq<Message>, n: nat)
    requires Settled(out) && Cut(out, n)
    ensures forall k | 0 <= k < |out[n..]| && IsTool(out[n..][k]) :: Placed(out[n..], k) && ToolResult(out[n..][k]) == out[n..][k]
  {
    hide IsCalling, IsTool, Placed, AllAnswered, NormalAssistant, ToolResult;
    forall k | 0 <= k < |out[n..]| && IsTool(out[n..][k])
      ensures Placed(out[n..], k) && ToolResult(out[n..][k]) == out[n..][k]
    {
      assert out[n..][k] == out[n + k];
      PlacedInTail(out, n, k);
    }
  }

  /** Cutting before a calling assistant, or after a quiet message, keeps a history settled. */
  lemma SettledTail(out: seq<Message>, n: nat)
    requires Settled(out) && Cut(out, n)
    ensures Settled(out[n..])
  {
    hide IsCalling, IsTool, Placed, AllAnswered, NormalAssistant, ToolResult;
    ToolsInTail(out, n);
    var tail := out[n..];
    forall a | 0 <= a < |tail| && IsCalling(tail[a]) ensures NormalAssistant(tail[a]) && AllAnswered(tail, a) {
      assert tail[a] == out[n + a];
      AnsweredInTail(out, n, a);
    }
  }

  lemma ResultsFixed(results: seq<Message>)
    requires forall i | 0 <= i < |results| :: ToolResult(results[i]) == results[i]
    ensures Results(results) == results
  {
    hide ToolResult;
  }

  /** The block of a settled window is the window itself. */
  lemma BlockFixed(m: Message, results: seq<Message>, quiet: seq<Message>)
    requires IsCalling(m) && NormalAssistant(m)
    requires forall i | 0 <= i < |results| :: Answers(results[i], CallIds(m)) && ToolResult(results[i]) == results[i]
    requires forall i | 0 <= i < |quiet| :: !IsTool(quiet[i])
    requires forall i | 0 <= i < |RawCalls(m)| :: HasResult(results, RawCalls(m)[i].id)
    ensures Block(m, results + quiet) == [m] + results + quiet
  {
    AllMatch(results, quiet, CallIds(m));
    ResultsFixed(results);
    forall i | 0 <= i < |RawCalls(m)| ensures RawCalls(m)[i].id in ResultIds(results) {
      assert HasResult(results, RawCalls(m)[i].id);
    }
    SurvivingAll(RawCalls(m), 0, ResultIds(results));
    assert RawCalls(m) != [];
  }

  lemma SettledBlock(out: seq<Message>, n: nat)
    requires Settled(out) && out != [] && IsCalling(out[0]) && n == 1 + WindowLength(out[1..])
    ensures Block(out[0], out[1..n]) == out[..n] && Cut(out, n)
  {
    hide Block, IsCalling, ToolResult, ToolId, CallIds, RawCalls, NormalAssistant, Repair, WindowLength, AllAnswered, Placed, HasResult;
    assert forall i | 1 <= i < n :: out[i] == out[1..][i - 1];
    assert n < |out| ==> out[n] == out[1..][n - 1];
    var r := SettledWindow(out, n);
    var results, quiet := out[1..r + 1], out[r + 1..n];
    BlockFixed(out[0], results, quiet);
    assert out[1..n] == results + quiet;
    assert [out[0]] + results + quiet == out[..n];
  }

  lemma {:induction false} SettledFixed(out: seq<Message>)
    requires Settled(out)
    ensures Repair(out) == out
    decreases |out|
  {
    hide Block, IsCalling, ToolResult, ToolId, CallIds, RawCalls, NormalAssistant, Repair, WindowLength;
    if out == [] {
      RepairUnsettledNothing();
    } else {
      if !IsCalling(out[0]) {
        RepairPlain(out);
        assert IsTool(out[0]) ==> Placed(out, 0);
        SettledTail(out, 1);
        SettledFixed(out[1..]);
        assert [out[0]] + out[1..] == out;
      } else {
        RepairCalling(out);
        var n := 1 + WindowLength(out[1..]);
        SettledBlock(out, n);
        SettledTail(out, n);
        SettledFixed(out[n..]);
        assert out[..n] + out[n..] == out;
      }
    }
  }

  /** Every result stands in the run of an assistant that asks for it, every call asked for is answered there. */
  lemma RepairedIsSettled(source: seq<Message>)
    ensures Settled(Repair(source))
  {
    RepairSettled(source);
  }

  /** Repairing twice is repairing once. */
  lemma RepairIdempotent(source: seq<Message>)
    ensures Repair(Repair(source)) == Repair(source)
  {
    RepairSettled(source);
    SettledFixed(Repair(source));
  }
}
