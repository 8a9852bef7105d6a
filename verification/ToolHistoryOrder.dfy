/**
  Where each message of a repaired history comes from.

  The repair walks with windows and a consumed set.  Seen from outside it rearranges the source: messages move only inside
  the block of one calling assistant, results that answer it come first, and nothing else changes places.
 */
module ToolHistoryOrder {
  import opened Whitespace
  import opened ToolHistory
  import opened ToolHistoryTheorems

  // ---------------------------------------------------------------- the rearrangement, without windows

  /** The last calling assistant before the message at i is the one at a. */
  predicate Owns(source: seq<Message>, a: int, i: int) {
    0 <= a < i < |source| && IsCalling(source[a]) && forall j | a < j <= i :: !IsCalling(source[j])
  }

  /** A result that its owner asks for. */
  ghost predicate Wanted(source: seq<Message>, i: int)
    requires 0 <= i < |source|
  {
    IsTool(source[i]) && exists a :: Owns(source, a, i) && ToolId(source[i]) in CallIds(source[a])
  }

  /** The ids of the results that the assistant at a asks for and gets. */
  ghost function AnsweredIds(source: seq<Message>, a: int): set<string>
    requires 0 <= a < |source|
  {
    set i | 0 <= i < |source| && Owns(source, a, i) && IsTool(source[i]) && ToolId(source[i]) in CallIds(source[a])
      :: ToolId(source[i])
  }

  /** What becomes of the message at i. */
  ghost function Rewritten(source: seq<Message>, i: int): Message
    requires 0 <= i < |source|
  {
    if IsCalling(source[i]) then WithCalls(source[i], Surviving(RawCalls(source[i]), 0, AnsweredIds(source, i)))
    else if Wanted(source, i) then ToolResult(source[i])
    else Plain(source[i])
  }

  /** No calling assistant separates the two messages. */
  ghost predicate SameBlock(source: seq<Message>, i: int, j: int)
    requires 0 <= i < |source| && 0 <= j < |source|
  {
    forall c | (i < c <= j) || (j < c <= i) :: !IsCalling(source[c])
  }

  /** The assistant, then its results, then the rest. */
  ghost function Class(source: seq<Message>, i: int): int
    requires 0 <= i < |source|
  {
    if IsCalling(source[i]) then 0 else if Wanted(source, i) then 1 else 2
  }

  /** The order of the repaired history: by class inside a block, by place otherwise. */
  ghost predicate Before(source: seq<Message>, i: int, j: int)
    requires 0 <= i < |source| && 0 <= j < |source|
  {
    if SameBlock(source, i, j) && Class(source, i) != Class(source, j) then Class(source, i) < Class(source, j) else i < j
  }

  /** The messages of out are those of source[lo..hi], rewritten and put in order; origin says which is which. */
  ghost predicate Rearranges(source: seq<Message>, lo: int, hi: int, origin: seq<int>, out: seq<Message>) {
    && 0 <= lo <= hi <= |source| && |origin| == |out| == hi - lo
    && (forall k | 0 <= k < |origin| :: lo <= origin[k] < hi && out[k] == Rewritten(source, origin[k]))
    && (forall i | lo <= i < hi :: i in origin)
    && (forall k, l | 0 <= k < l < |origin| :: Before(source, origin[k], origin[l]))
  }

  // ---------------------------------------------------------------- picking from a window

  /** The places in [lo, hi) whose message answers, or those whose message does not. */
  function Picked(source: seq<Message>, lo: nat, hi: nat, wanted: set<string>, answers: bool): (r: seq<int>)
    requires lo <= hi <= |source|
    decreases hi - lo
  {
    if lo == hi then []
    else (if Answers(source[lo], wanted) == answers then [lo] else []) + Picked(source, lo + 1, hi, wanted, answers)
  }

  /** p lists, in order, the places in [lo, hi) whose message answers, or those whose message does not. */
  ghost predicate Lists(source: seq<Message>, lo: int, hi: int, wanted: set<string>, answers: bool, p: seq<int>) {
    && 0 <= lo <= hi <= |source|
    && (forall k | 0 <= k < |p| :: lo <= p[k] < hi && Answers(source[p[k]], wanted) == answers)
    && (forall k, l | 0 <= k < l < |p| :: p[k] < p[l])
    && (forall i | lo <= i < hi && Answers(source[i], wanted) == answers :: i in p)
  }

  lemma ListsOneMore(source: seq<Message>, lo: nat, hi: nat, wanted: set<string>, answers: bool, rest: seq<int>)
    requires lo < hi && Lists(source, lo + 1, hi, wanted, answers, rest) && Answers(source[lo], wanted) == answers
    ensures Lists(source, lo, hi, wanted, answers, [lo] + rest)
  {
    hide Answers;
    var p := [lo] + rest;
    forall k | 0 <= k < |p| ensures lo <= p[k] < hi && Answers(source[p[k]], wanted) == answers {
      assert k > 0 ==> p[k] == rest[k - 1];
    }
    forall k, l | 0 <= k < l < |p| ensures p[k] < p[l] {
      assert p[l] == rest[l - 1] && (k > 0 ==> p[k] == rest[k - 1]);
    }
    forall i | lo <= i < hi && Answers(source[i], wanted) == answers ensures i in p {
      assert i == lo || i in rest;
    }
  }

  lemma ListsMore(source: seq<Message>, lo: nat, hi: nat, wanted: set<string>, answers: bool, rest: seq<int>)
    requires lo < hi && Lists(source, lo + 1, hi, wanted, answers, rest)
    ensures Lists(source, lo, hi, wanted, answers, (if Answers(source[lo], wanted) == answers then [lo] else []) + rest)
  {
    hide Answers;
    if Answers(source[lo], wanted) == answers {
      ListsOneMore(source, lo, hi, wanted, answers, rest);
    } else {
      assert [] + rest == rest;
    }
  }

  lemma {:induction false} PickedExactly(source: seq<Message>, lo: nat, hi: nat, wanted: set<string>, answers: bool)
    requires lo <= hi <= |source|
    ensures Lists(source, lo, hi, wanted, answers, Picked(source, lo, hi, wanted, answers))
    decreases hi - lo
  {
    hide Answers, Lists;
    if lo < hi {
      PickedExactly(source, lo + 1, hi, wanted, answers);
      ListsMore(source, lo, hi, wanted, answers, Picked(source, lo + 1, hi, wanted, answers));
    } else {
      ListsNothing(source, lo, wanted, answers);
    }
  }

  lemma ListsNothing(source: seq<Message>, lo: nat, wanted: set<string>, answers: bool)
    requires lo <= |source|
    ensures Lists(source, lo, lo, wanted, answers, [])
  {
  }

  lemma {:induction false} PickedMatches(source: seq<Message>, lo: nat, hi: nat, wanted: set<string>)
    requires lo <= hi <= |source|
    ensures var p := Picked(source, lo, hi, wanted, true); var m := Matches(source[lo..hi], wanted);
            |p| == |m| && forall k | 0 <= k < |p| :: 0 <= p[k] < |source| && m[k] == source[p[k]]
    decreases hi - lo
  {
    hide Answers;
    if lo < hi {
      assert source[lo..hi][1..] == source[lo + 1..hi];
      PickedMatches(source, lo + 1, hi, wanted);
    }
  }

  lemma {:induction false} PickedBetween(source: seq<Message>, lo: nat, hi: nat, wanted: set<string>)
    requires lo <= hi <= |source|
    ensures var p := Picked(source, lo, hi, wanted, false); var b := Between(source[lo..hi], wanted);
            |p| == |b| && forall k | 0 <= k < |p| :: 0 <= p[k] < |source| && b[k] == Plain(source[p[k]])
    decreases hi - lo
  {
    hide Answers, Plain;
    if lo < hi {
      assert source[lo..hi][1..] == source[lo + 1..hi];
      PickedBetween(source, lo + 1, hi, wanted);
    }
  }

  // ---------------------------------------------------------------- one block

  /** [a, hi) is the block of the calling assistant at a. */
  ghost predicate IsBlock(source: seq<Message>, a: int, hi: int) {
    && 0 <= a < hi <= |source| && IsCalling(source[a]) && (forall j | a < j < hi :: !IsCalling(source[j]))
    && (hi < |source| ==> IsCalling(source[hi]))
  }

  lemma OwnedInBlock(source: seq<Message>, a: int, hi: int, b: int, i: int)
    requires IsBlock(source, a, hi) && a < i < |source|
    ensures Owns(source, a, i) <==> i < hi
    ensures i < hi ==> (Owns(source, b, i) <==> b == a)
  {
    hide IsCalling;
  }

  lemma WantedInBlock(source: seq<Message>, a: int, hi: int, i: int)
    requires IsBlock(source, a, hi) && a < i < hi
    ensures Wanted(source, i) <==> Answers(source[i], CallIds(source[a]))
    ensures Class(source, i) == (if Answers(source[i], CallIds(source[a])) then 1 else 2)
  {
    hide IsCalling, IsTool, ToolId, CallIds;
    OwnedInBlock(source, a, hi, a, i);
    if Wanted(source, i) {
      var b :| Owns(source, b, i) && ToolId(source[i]) in CallIds(source[b]);
      OwnedInBlock(source, a, hi, b, i);
    }
  }

  lemma AnsweredInBlock(source: seq<Message>, a: int, hi: int)
    requires IsBlock(source, a, hi)
    ensures AnsweredIds(source, a) == ResultIds(Matches(source[a + 1..hi], CallIds(source[a])))
  {
    hide IsCalling, IsTool, ToolId, CallIds, Owns, Matches, Picked;
    var wanted := CallIds(source[a]);
    var p := Picked(source, a + 1, hi, wanted, true);
    var m := Matches(source[a + 1..hi], wanted);
    PickedExactly(source, a + 1, hi, wanted, true);
    PickedMatches(source, a + 1, hi, wanted);
    forall id | id in AnsweredIds(source, a) ensures id in ResultIds(m) {
      var i :| 0 <= i < |source| && Owns(source, a, i) && IsTool(source[i]) && ToolId(source[i]) in wanted && id == ToolId(source[i]);
      OwnsLater(source, a, i);
      OwnedInBlock(source, a, hi, a, i);
      var k :| 0 <= k < |p| && p[k] == i;
      assert ToolId(m[k]) == id;
    }
    forall id | id in ResultIds(m) ensures id in AnsweredIds(source, a) {
      var k :| 0 <= k < |m| && ToolId(m[k]) == id;
      OwnedInBlock(source, a, hi, a, p[k]);
      assert Answers(source[p[k]], wanted);
    }
  }

  lemma OwnsLater(source: seq<Message>, a: int, i: int)
    requires Owns(source, a, i)
    ensures 0 <= a < i < |source|
  {
  }

  ghost function BlockOrigin(source: seq<Message>, a: nat, hi: nat): seq<int>
    requires a < hi <= |source|
  {
    [a] + Picked(source, a + 1, hi, CallIds(source[a]), true) + Picked(source, a + 1, hi, CallIds(source[a]), false)
  }

  /** The assistant, then the places that answer, then the others: complete, and in order. */
  lemma BlockPlaces(source: seq<Message>, a: nat, hi: nat, yes: seq<int>, no: seq<int>)
    requires IsBlock(source, a, hi)
    requires Lists(source, a + 1, hi, CallIds(source[a]), true, yes) && Lists(source, a + 1, hi, CallIds(source[a]), false, no)
    ensures forall k | 0 <= k < |[a] + yes + no| :: a <= ([a] + yes + no)[k] < hi
    ensures forall i | a <= i < hi :: i in [a] + yes + no
  {
    hide IsCalling, Answers, CallIds;
    var o := [a] + yes + no;
    forall k | 0 <= k < |o| ensures a <= o[k] < hi {
      assert o[k] == if k == 0 then a else if k <= |yes| then yes[k - 1] else no[k - 1 - |yes|];
    }
    forall i | a <= i < hi ensures i in o {
      assert i == a || i in yes || i in no;
    }
  }

  lemma BlockBefore(source: seq<Message>, a: nat, hi: nat, yes: seq<int>, no: seq<int>, k: nat, l: nat)
    requires IsBlock(source, a, hi) && k < l < 1 + |yes| + |no|
    requires Lists(source, a + 1, hi, CallIds(source[a]), true, yes) && Lists(source, a + 1, hi, CallIds(source[a]), false, no)
    ensures var o := [a] + yes + no; a <= o[k] < hi && a < o[l] < hi && Before(source, o[k], o[l])
  {
    hide IsCalling, Answers, CallIds, Wanted, Class, SameBlock;
    var o := [a] + yes + no;
    assert o[l] == if l <= |yes| then yes[l - 1] else no[l - 1 - |yes|];
    assert k > 0 ==> o[k] == if k <= |yes| then yes[k - 1] else no[k - 1 - |yes|];
    BlockPair(source, a, hi, o[k], o[l]);
  }

  /** The places of a block, in order and complete. */
  lemma BlockOrder(source: seq<Message>, a: nat, hi: nat)
    requires IsBlock(source, a, hi)
    ensures var o := BlockOrigin(source, a, hi);
            && (forall k | 0 <= k < |o| :: a <= o[k] < hi)
            && (forall i | a <= i < hi :: i in o)
            && (forall k, l | 0 <= k < l < |o| :: Before(source, o[k], o[l]))
  {
    hide IsCalling, Answers, CallIds, Picked, Before, Lists;
    var wanted := CallIds(source[a]);
    var yes, no := Picked(source, a + 1, hi, wanted, true), Picked(source, a + 1, hi, wanted, false);
    PickedExactly(source, a + 1, hi, wanted, true);
    PickedExactly(source, a + 1, hi, wanted, false);
    var o := [a] + yes + no;
    assert o == BlockOrigin(source, a, hi);
    BlockPlaces(source, a, hi, yes, no);
    forall k, l | 0 <= k < l < |o| ensures Before(source, o[k], o[l]) {
      BlockBefore(source, a, hi, yes, no, k, l);
    }
  }

  /** Inside a block, the order is by class and then by place. */
  lemma BlockPair(source: seq<Message>, a: nat, hi: nat, i: int, j: int)
    requires IsBlock(source, a, hi) && a <= i < hi && a < j < hi
    requires i == a || (var w := CallIds(source[a]);
                        if Answers(source[i], w) == Answers(source[j], w) then i < j else Answers(source[i], w))
    ensures Before(source, i, j)
  {
    hide IsCalling, Answers, CallIds, Wanted;
    WantedInBlock(source, a, hi, j);
    if i != a {
      WantedInBlock(source, a, hi, i);
    }
  }

  lemma BlockRearranges(source: seq<Message>, a: nat, hi: nat)
    requires IsBlock(source, a, hi)
    ensures Rearranges(source, a, hi, BlockOrigin(source, a, hi), Block(source[a], source[a + 1..hi]))
  {
    hide IsCalling, Answers, CallIds, Wanted, Class, Before, WithCalls, Surviving, RawCalls, UserNote, ToolResult, IsTool, Picked, Matches, Between, ResultIds, AnsweredIds, BlockOrigin;
    BlockOrder(source, a, hi);
    BlockRewrites(source, a, hi);
    MatchesAnswer(source[a + 1..hi], CallIds(source[a]));
  }

  lemma BlockRewrites(source: seq<Message>, a: nat, hi: nat)
    requires IsBlock(source, a, hi)
    ensures var o := BlockOrigin(source, a, hi); var out := Block(source[a], source[a + 1..hi]);
            |o| == |out| == hi - a && forall k | 0 <= k < |o| :: a <= o[k] < hi && out[k] == Rewritten(source, o[k])
  {
    hide IsCalling, Answers, CallIds, Wanted, WithCalls, Surviving, RawCalls, UserNote, ToolResult, IsTool, Picked, Matches, Between, ResultIds, AnsweredIds;
    var wanted, window := CallIds(source[a]), source[a + 1..hi];
    var yes, no := Picked(source, a + 1, hi, wanted, true), Picked(source, a + 1, hi, wanted, false);
    PickedExactly(source, a + 1, hi, wanted, true);
    PickedExactly(source, a + 1, hi, wanted, false);
    PickedMatches(source, a + 1, hi, wanted);
    PickedBetween(source, a + 1, hi, wanted);
    MatchesAnswer(window, wanted);
    AnsweredInBlock(source, a, hi);
    SurvivorsForMatches(source[a], Matches(window, wanted));
    forall i | a < i < hi
      ensures Rewritten(source, i) == if Answers(source[i], wanted) then ToolResult(source[i]) else Plain(source[i])
    {
      WantedInBlock(source, a, hi, i);
    }
    AssembledParts(source[a], Matches(window, wanted), Between(window, wanted));
    assert Block(source[a], window) == [Rewritten(source, a)] + Results(Matches(window, wanted)) + Between(window, wanted);
  }

  lemma AssembledParts(m: Message, matches: seq<Message>, between: seq<Message>)
    requires forall i | 0 <= i < |matches| :: Answers(matches[i], CallIds(m))
    ensures Assemble(m, matches, between) ==
              [WithCalls(m, Surviving(RawCalls(m), 0, ResultIds(matches)))] + Results(matches) + between
  {
    SurvivorsForMatches(m, matches);
    hide WithCalls, Surviving, RawCalls, ResultIds, Answers, CallIds;
    assert matches == [] ==> Results(matches) == [] && Notes(matches) == [];
  }

  // ---------------------------------------------------------------- the whole history

  /** A place where the walk stands. */
  ghost predicate Boundary(source: seq<Message>, p: int) {
    0 <= p <= |source| && (p < |source| ==> IsCalling(source[p]) || forall j | 0 <= j < p :: !IsCalling(source[j]))
  }

  lemma AcrossBoundary(source: seq<Message>, i: int, mid: int, j: int)
    requires Boundary(source, mid) && 0 <= i < mid <= j < |source|
    ensures Before(source, i, j)
  {
    hide IsCalling, IsTool, ToolId, CallIds;
    assert !IsCalling(source[mid]) ==> Class(source, i) == 2;
    if SameBlock(source, i, j) {
      assert !IsCalling(source[mid]);
      assert Class(source, j) == 2;
    }
  }

  lemma RearrangesAppend(source: seq<Message>, lo: int, mid: int, hi: int, o1: seq<int>, out1: seq<Message>, o2: seq<int>, out2: seq<Message>)
    requires Rearranges(source, lo, mid, o1, out1) && Rearranges(source, mid, hi, o2, out2) && Boundary(source, mid)
    ensures Rearranges(source, lo, hi, o1 + o2, out1 + out2)
  {
    hide Boundary, Before, Rewritten;
    var o := o1 + o2;
    forall k, l | 0 <= k < l < |o| ensures Before(source, o[k], o[l]) {
      if k < |o1| <= l {
        AcrossBoundary(source, o[k], mid, o[l]);
      }
    }
    forall i | lo <= i < hi ensures i in o {
      assert i in o1 || i in o2;
    }
  }

  /** A message before the first calling assistant stays where it is. */
  lemma LeadRearranges(source: seq<Message>, p: nat)
    requires p < |source| && Boundary(source, p) && !IsCalling(source[p])
    ensures Rearranges(source, p, p + 1, [p], [Plain(source[p])]) && Boundary(source, p + 1)
  {
    hide IsCalling, Plain, ToolId, CallIds, ToolResult, WithCalls, Surviving;
    assert forall a :: !Owns(source, a, p);
    assert !Wanted(source, p);
  }

  lemma BlockHere(source: seq<Message>, p: nat, hi: nat)
    requires p < |source| && IsCalling(source[p]) && hi == p + 1 + WindowLength(source[p + 1..])
    ensures IsBlock(source, p, hi) && Boundary(source, hi)
  {
    hide IsCalling, WindowLength;
    var rest := source[p + 1..];
    assert forall j | p < j < hi :: source[j] == rest[j - p - 1];
    assert hi < |source| ==> source[hi] == rest[hi - p - 1];
  }

  lemma {:induction false} RearrangedFrom(source: seq<Message>, p: nat) returns (origin: seq<int>)
    requires Boundary(source, p)
    ensures Rearranges(source, p, |source|, origin, Repair(source[p..]))
    decreases |source| - p
  {
    hide IsCalling, Block, Plain, Repair, WindowLength, Rearranges, Boundary, IsBlock;
    if p == |source| {
      origin := [];
      RearrangesNothing(source);
    } else {
      InRange(source, p);
      if !IsCalling(source[p]) {
        RepairBeyond(source, p);
        LeadRearranges(source, p);
        var rest := RearrangedFrom(source, p + 1);
        RearrangesAppend(source, p, p + 1, |source|, [p], [Plain(source[p])], rest, Repair(source[p + 1..]));
        origin := [p] + rest;
      } else {
        var hi := p + 1 + WindowLength(source[p + 1..]);
        RepairFrom(source, p, hi);
        BlockHere(source, p, hi);
        BlockRearranges(source, p, hi);
        var rest := RearrangedFrom(source, hi);
        RearrangesAppend(source, p, hi, |source|, BlockOrigin(source, p, hi), Block(source[p], source[p + 1..hi]), rest, Repair(source[hi..]));
        origin := BlockOrigin(source, p, hi) + rest;
      }
    }
  }

  lemma InRange(source: seq<Message>, p: nat)
    requires Boundary(source, p)
    ensures p <= |source|
  {
  }

  lemma RearrangesNothing(source: seq<Message>)
    ensures source[|source|..] == [] && Rearranges(source, |source|, |source|, [], Repair([]))
  {
    hide IsCalling;
  }

  /**
    The repaired history is the source rearranged: one output per input, results that answer their assistant directly
    after it, everything else in its old order, and each message rewritten as its class says.
   */
  lemma RepairRearranges(source: seq<Message>) returns (origin: seq<int>)
    ensures Rearranges(source, 0, |source|, origin, Repair(source))
  {
    hide Repair, Rearranges, IsCalling;
    origin := RearrangedFrom(source, 0);
    assert source[0..] == source;
  }

  // ---------------------------------------------------------------- calls without ids

  /** Every call that an assistant of the history still makes is answered directly after it. */
  ghost predicate EveryCallAnswered(out: seq<Message>) {
    forall a | 0 <= a < |out| && out[a].role == "assistant" :: AllAnswered(out, a)
  }

  /** An assistant whose calls all lack ids. */
  predicate Nameless(m: Message) {
    m.role == "assistant" && RawCalls(m) != [] && CallIds(m) == {}
  }

  lemma NamelessNotAnswered(out: seq<Message>, k: int)
    requires Settled(out) && 0 <= k < |out| && Nameless(out[k])
    ensures !AllAnswered(out, k)
  {
    assert RawCalls(out[k])[0].id == "" by {
      assert RawCalls(out[k])[0].id !in CallIds(out[k]);
    }
    ResultsHaveIds(out);
    assert !AnsweredAt(out, k, "");
  }

  lemma ResultsHaveIds(out: seq<Message>)
    requires Settled(out)
    ensures forall t | 0 <= t < |out| && IsTool(out[t]) :: ToolId(out[t]) != ""
  {
    hide IsTool, ToolId, IsCalling, RawCalls, NormalAssistant, ToolResult;
    forall t | 0 <= t < |out| && IsTool(out[t]) ensures ToolId(out[t]) != "" {
      assert Placed(out, t);
    }
  }

  lemma RewrittenAssistant(source: seq<Message>, i: int)
    requires 0 <= i < |source|
    ensures Rewritten(source, i).role == "assistant" && RawCalls(Rewritten(source, i)) != [] && !IsCalling(Rewritten(source, i))
            ==> Rewritten(source, i) == source[i] && Nameless(source[i])
    ensures Nameless(source[i]) ==> Rewritten(source, i) == source[i]
  {
    if IsCalling(source[i]) {
      var surviving := Surviving(RawCalls(source[i]), 0, AnsweredIds(source, i));
      hide NormalizeCall, UserNote, ToolResult, Strip, TextOf;
      SurvivingNormal(RawCalls(source[i]), 0, AnsweredIds(source, i));
      if surviving != [] {
        assert NormalCall(surviving[0]);
        assert surviving[0].id in CallIds(WithCalls(source[i], surviving));
      }
    }
  }

  /** The repair leaves no call unanswered exactly when no assistant of the source calls without any id. */
  lemma KeptCallsAnswered(source: seq<Message>)
    ensures EveryCallAnswered(Repair(source)) <==> forall i | 0 <= i < |source| :: !Nameless(source[i])
  {
    hide Repair, IsCalling, RawCalls, CallIds, AllAnswered, Before, Nameless, Placed, ToolResult, Rewritten, NormalAssistant;
    var out := Repair(source);
    var origin := RepairRearranges(source);
    RepairedIsSettled(source);
    if i :| 0 <= i < |source| && Nameless(source[i]) {
      assert i in origin;
      var k :| 0 <= k < |origin| && origin[k] == i;
      RewrittenAssistant(source, i);
      NamelessNotAnswered(out, k);
      NamelessRole(out[k]);
    } else {
      forall a | 0 <= a < |out| && out[a].role == "assistant" ensures AllAnswered(out, a) {
        RewrittenAssistant(source, origin[a]);
        NothingToAnswer(out, a);
      }
    }
  }

  lemma NamelessRole(m: Message)
    requires Nameless(m)
    ensures m.role == "assistant"
  {
  }

  lemma NothingToAnswer(out: seq<Message>, a: int)
    requires 0 <= a < |out|
    ensures RawCalls(out[a]) == [] ==> AllAnswered(out, a)
  {
  }
}
