/** What trimming keeps, and that it drops no more than it must. */
module HistoryTrimTheorems {
  import opened HistoryTrim

  // ---------------------------------------------------------------- segments

  /** One unlinked item, or a run of linked ones. */
  predicate IsSegment(s: seq<Value>) {
    s != [] && ((forall k | 0 <= k < |s| :: IsLinked(s[k])) || (|s| == 1 && !IsLinked(s[0])))
  }

  ghost predicate WellCut(segments: seq<seq<Value>>) {
    && (forall k | 0 <= k < |segments| :: IsSegment(segments[k]))
    && (forall k | 0 <= k < |segments| - 1 :: !(IsLinked(segments[k][0]) && IsLinked(segments[k + 1][0])))
  }

  /** How many items the first segment takes. */
  function FirstLength(items: seq<Value>): (n: nat)
    requires items != []
    ensures 0 < n <= |items| && IsSegment(items[..n])
    ensures n < |items| ==> !(IsLinked(items[0]) && IsLinked(items[n]))
  {
    hide IsLinked;
    if IsLinked(items[0]) then LinkedRun(items) else 1
  }

  lemma FirstSegment(items: seq<Value>)
    requires items != []
    ensures Segments(items) == [items[..FirstLength(items)]] + Segments(items[FirstLength(items)..])
  {
    hide IsLinked, Segments, LinkedRun, IsSegment;
    SegmentAt(items, 0);
    var n := FirstLength(items);
    assert items[0..] == items && items[0..0 + n] == items[..n] && items[0 + n..] == items[n..];
  }

  /** Segments put together give the items back, and linked neighbours, a call and its results, are never separated. */
  lemma {:induction false} SegmentsCut(items: seq<Value>)
    ensures Flatten(Segments(items)) == items && WellCut(Segments(items))
    decreases |items|
  {
    hide IsLinked, IsSegment, Segments, LinkedRun, FirstLength;
    SegmentsJoin(items);
    if items == [] {
      NoSegments(items);
    } else {
      FirstSegment(items);
      var n := FirstLength(items);
      var rest := Segments(items[n..]);
      SegmentsCut(items[n..]);
      if n < |items| {
        FirstSegment(items[n..]);
        assert rest[0][0] == items[n];
      } else {
        NoSegments(items[n..]);
      }
      assert Segments(items) == [items[..n]] + rest;
    }
  }

  // ---------------------------------------------------------------- cost

  function Costs(items: seq<Value>): nat {
    if items == [] then 0 else Estimate(items[0]) + Costs(items[1..])
  }

  lemma {:induction false} ItemsCost(items: seq<Value>, whole: Value)
    requires forall k | 0 <= k < |items| :: items[k] < whole
    ensures ItemsEstimate(items, whole) == Costs(items)
    decreases |items|
  {
    if items != [] {
      ItemsCost(items[1..], whole);
    }
  }

  lemma {:induction false} CostsAppend(a: seq<Value>, b: seq<Value>)
    ensures Costs(a + b) == Costs(a) + Costs(b)
  {
    if a == [] {
      assert a + b == b;
    } else {
      assert (a + b)[0] == a[0] && (a + b)[1..] == a[1..] + b;
      CostsAppend(a[1..], b);
    }
  }

  lemma ListCost(items: seq<Value>)
    ensures Estimate(List(items)) == Costs(items)
  {
    ItemsCost(items, List(items));
  }

  lemma FirstEntry(entries: seq<(string, Value)>, w: Value)
    requires entries != [] && forall k | 0 <= k < |entries| :: entries[k].1 < w
    ensures EntriesEstimate(entries, w) == TextTokens(entries[0].0) + Estimate(entries[0].1) + EntriesEstimate(entries[1..], w)
  {
    hide Estimate, TextTokens;
  }

  lemma {:induction false} EntriesCost(entries: seq<(string, Value)>, key: string, items: seq<Value>, w0: Value, w: Value)
    requires forall k | 0 <= k < |Replaced(entries, key, List([]))| :: Replaced(entries, key, List([]))[k].1 < w0
    requires forall k | 0 <= k < |Replaced(entries, key, List(items))| :: Replaced(entries, key, List(items))[k].1 < w
    ensures EntriesEstimate(Replaced(entries, key, List(items)), w) == EntriesEstimate(Replaced(entries, key, List([])), w0) + Costs(items)
    decreases |entries|
  {
    hide Estimate, TextTokens, Costs, EntriesEstimate;
    var a, b := Replaced(entries, key, List([])), Replaced(entries, key, List(items));
    ListCost(items);
    ListCost([]);
    NothingCosts();
    FirstEntry(a, w0);
    FirstEntry(b, w);
    if entries == [] || entries[0].0 == key {
      SameEntries(a[1..], w0, w);
      assert a[1..] == b[1..];
    } else {
      assert a[1..] == Replaced(entries[1..], key, List([])) && b[1..] == Replaced(entries[1..], key, List(items));
      EntriesCost(entries[1..], key, items, w0, w);
    }
  }

  lemma {:induction false} SameEntries(entries: seq<(string, Value)>, w0: Value, w: Value)
    requires forall k | 0 <= k < |entries| :: entries[k].1 < w0 && entries[k].1 < w
    ensures EntriesEstimate(entries, w0) == EntriesEstimate(entries, w)
  {
    hide Estimate, TextTokens;
    if entries != [] {
      SameEntries(entries[1..], w0, w);
    }
  }

  /** The estimate is that of the payload without history plus the cost of the history. */
  lemma HistoryCost(payload: Value, key: string, items: seq<Value>)
    requires payload.Dict?
    ensures Estimate(WithHistory(payload, key, items)) == Estimate(WithHistory(payload, key, [])) + Costs(items)
  {
    EntriesCost(payload.entries, key, items, WithHistory(payload, key, []), WithHistory(payload, key, items));
    hide EntriesEstimate, Replaced, Costs;
  }

  // ---------------------------------------------------------------- which segments are left

  predicate Increasing(kept: seq<nat>) {
    forall i, j | 0 <= i < j < |kept| :: kept[i] < kept[j]
  }

  function Select(all: seq<seq<Value>>, kept: seq<nat>): (r: seq<seq<Value>>)
    requires forall k | 0 <= k < |kept| :: kept[k] < |all|
    ensures |r| == |kept| && forall k | 0 <= k < |r| :: r[k] == all[kept[k]]
  {
    seq(|kept|, k requires 0 <= k < |kept| => all[kept[k]])
  }

  /**
    A choice of segments that trimming may leave: the newest is there, a dropped system segment means that of the older
    ones only system segments are left, and of each kind the oldest go first.
   */
  ghost predicate Fair(all: seq<seq<Value>>, kept: seq<nat>) {
    && Increasing(kept) && (forall k | 0 <= k < |kept| :: kept[k] < |all|)
    && (all != [] ==> kept != [] && kept[|kept| - 1] == |all| - 1)
    && (forall i, j | 0 <= i < |all| && i !in kept && j in kept && j != |all| - 1 ::
          (AllSystem(all[i]) ==> AllSystem(all[j])) && (AllSystem(all[i]) == AllSystem(all[j]) ==> i < j))
  }

  lemma FirstDrop(segments: seq<seq<Value>>)
    requires |segments| > 1
    ensures var d := DropAt(segments);
            && (AllSystem(segments[d]) ==> d == 0 && forall k | 0 <= k < |segments| - 1 :: AllSystem(segments[k]))
            && (!AllSystem(segments[d]) ==> forall k | 0 <= k < d :: AllSystem(segments[k]))
  {
    hide AllSystem;
  }

  /** The dropped segment against those that stay. */
  lemma DropAgainst(all: seq<seq<Value>>, kept: seq<nat>, j: nat)
    requires Fair(all, kept) && |kept| > 1 && j in kept && j != |all| - 1
    ensures var e := kept[DropAt(Select(all, kept))];
            j != e ==> (AllSystem(all[e]) ==> AllSystem(all[j])) && (AllSystem(all[e]) == AllSystem(all[j]) ==> e < j)
  {
    hide AllSystem, DropAt;
    var segments := Select(all, kept);
    FirstDrop(segments);
    var k :| 0 <= k < |kept| && kept[k] == j;
    assert segments[k] == all[j];
  }

  lemma DropFair(all: seq<seq<Value>>, kept: seq<nat>)
    requires Fair(all, kept) && |kept| > 1
    ensures var d := DropAt(Select(all, kept)); Fair(all, Without(kept, d))
  {
    hide AllSystem, DropAt, Increasing;
    var d := DropAt(Select(all, kept));
    var e: nat, rest: seq<nat> := kept[d], Without<nat>(kept, d);
    WithoutMembers(kept, d);
    WithoutShape(kept, d, |all|);
    forall i, j | 0 <= i < |all| && i !in rest && j in rest && j != |all| - 1
      ensures (AllSystem(all[i]) ==> AllSystem(all[j])) && (AllSystem(all[i]) == AllSystem(all[j]) ==> i < j)
    {
      DropAgainst(all, kept, j);
    }
  }

  lemma SelectWithout(all: seq<seq<Value>>, kept: seq<nat>, d: nat)
    requires d < |kept| && forall k | 0 <= k < |kept| :: kept[k] < |all|
    ensures Select(all, Without(kept, d)) == Without(Select(all, kept), d)
  {
  }

  lemma WithoutShape(kept: seq<nat>, d: nat, n: nat)
    requires d < |kept| - 1 && Increasing(kept) && forall k | 0 <= k < |kept| :: kept[k] < n
    ensures var rest := Without(kept, d);
            && Increasing(rest) && (forall k | 0 <= k < |rest| :: rest[k] < n)
            && rest != [] && rest[|rest| - 1] == kept[|kept| - 1]
  {
  }

  lemma WithoutMembers(kept: seq<nat>, d: nat)
    requires d < |kept| && Increasing(kept)
    ensures forall j :: j in Without(kept, d) <==> j in kept && j != kept[d]
  {
    forall j | j in kept && j != kept[d] ensures j in Without(kept, d) {
      var k :| 0 <= k < |kept| && kept[k] == j;
      assert Without(kept, d)[if k < d then k else k - 1] == j;
    }
  }

  ghost predicate OverLimit(payload: Value, key: string, all: seq<seq<Value>>, kept: seq<nat>, limit: int)
    requires payload.Dict? && forall k | 0 <= k < |kept| :: kept[k] < |all|
  {
    PromptTokens(WithHistory(payload, key, Flatten(Select(all, kept)))) > limit
  }

  /** Everything kept, or one segment more would have been too much. */
  ghost predicate Needed(payload: Value, key: string, all: seq<seq<Value>>, kept: seq<nat>, limit: int)
    requires payload.Dict? && Fair(all, kept)
  {
    |kept| == |all| || exists prev :: Fair(all, prev) && |prev| == |kept| + 1 && OverLimit(payload, key, all, prev, limit)
  }

  lemma {:induction false} TrimFrom(payload: Value, key: string, all: seq<seq<Value>>, kept0: seq<nat>, limit: int) returns (kept: seq<nat>)
    requires payload.Dict? && Fair(all, kept0) && Needed(payload, key, all, kept0, limit)
    ensures Fair(all, kept) && Needed(payload, key, all, kept, limit)
    ensures Trimmed(payload, key, Select(all, kept0), limit) == Select(all, kept)
    ensures !OverLimit(payload, key, all, kept, limit) || |kept| <= 1
    decreases |kept0|
  {
    hide PromptTokens, WithHistory, Fair, DropAt, Flatten;
    FairRange(all, kept0);
    var segments := Select(all, kept0);
    if PromptTokens(WithHistory(payload, key, Flatten(segments))) <= limit || |segments| <= 1 {
      kept := kept0;
    } else {
      var d := DropAt(segments);
      DropFair(all, kept0);
      SelectWithout(all, kept0, d);
      FairRange(all, Without(kept0, d));
      assert OverLimit(payload, key, all, kept0, limit);
      kept := TrimFrom(payload, key, all, Without(kept0, d), limit);
    }
  }

  lemma FairRange(all: seq<seq<Value>>, kept: seq<nat>)
    requires Fair(all, kept)
    ensures forall k | 0 <= k < |kept| :: kept[k] < |all|
  {
  }

  // ---------------------------------------------------------------- no more than needed

  function Members(kept: seq<nat>): (s: set<nat>)
    ensures forall j :: j in s <==> j in kept
  {
    set j | j in kept
  }

  lemma {:induction false} MembersSize(kept: seq<nat>)
    requires Increasing(kept)
    ensures |Members(kept)| == |kept|
  {
    if kept != [] {
      var front := kept[..|kept| - 1];
      MembersSize(front);
      assert kept == front + [kept[|kept| - 1]];
      assert Members(kept) == Members(front) + {kept[|kept| - 1]};
    }
  }

  lemma SmallerSet(a: set<nat>, b: set<nat>, x: nat)
    requires a <= b && x in b && x !in a
    ensures |a| < |b|
  {
    assert b == a + (b - a);
    assert x in b - a;
  }

  lemma MissingOne(a: set<nat>, b: set<nat>, x: nat) returns (y: nat)
    requires |a| >= |b| && x in b && x !in a
    ensures y in a && y !in b
  {
    if a <= b {
      SmallerSet(a, b, x);
      assert false;
    }
    y :| y in a && y !in b;
  }

  /** Fair choices are nested. */
  lemma FairNested(all: seq<seq<Value>>, a: seq<nat>, b: seq<nat>)
    requires Fair(all, a) && Fair(all, b) && |a| >= |b|
    ensures forall x :: x in b ==> x in a
  {
    hide AllSystem;
    MembersSize(a);
    MembersSize(b);
    assert all != [] ==> |all| - 1 in a && |all| - 1 in b;
    forall x | x in b ensures x in a {
      if x !in a {
        var y := MissingOne(Members(a), Members(b), x);
      }
    }
  }

  /** The cost of the chosen segments, by place. */
  function CostIn(all: seq<seq<Value>>, kept: seq<nat>, n: nat): nat
    requires n <= |all|
  {
    if n == 0 then 0 else CostIn(all, kept, n - 1) + if n - 1 in kept then Costs(all[n - 1]) else 0
  }

  lemma {:induction false} CostInMonotone(all: seq<seq<Value>>, a: seq<nat>, b: seq<nat>, n: nat)
    requires n <= |all| && forall x :: x in b && x < n ==> x in a
    ensures CostIn(all, b, n) <= CostIn(all, a, n)
  {
    if n > 0 {
      CostInMonotone(all, a, b, n - 1);
    }
  }

  lemma {:induction false} SelectCost(all: seq<seq<Value>>, kept: seq<nat>, n: nat)
    requires n <= |all| && Increasing(kept) && forall k | 0 <= k < |kept| :: kept[k] < n
    ensures Costs(Flatten(Select(all, kept))) == CostIn(all, kept, n)
    decreases n
  {
    hide Costs, Flatten;
    if n == 0 {
      assert kept == [] && Select(all, kept) == [];
      NothingCosts();
    } else if kept != [] && kept[|kept| - 1] == n - 1 {
      var front := kept[..|kept| - 1];
      SelectCost(all, front, n - 1);
      SelectLast(all, front, kept, n);
    } else {
      SelectCost(all, kept, n - 1);
    }
  }

  lemma SelectLast(all: seq<seq<Value>>, front: seq<nat>, kept: seq<nat>, n: nat)
    requires 0 < n <= |all| && Increasing(kept) && (forall k | 0 <= k < |kept| :: kept[k] < n)
    requires kept != [] && kept[|kept| - 1] == n - 1 && front == kept[..|kept| - 1]
    ensures Costs(Flatten(Select(all, kept))) == Costs(Flatten(Select(all, front))) + Costs(all[n - 1])
    ensures CostIn(all, kept, n) == CostIn(all, front, n - 1) + Costs(all[n - 1])
  {
    hide Costs, Flatten;
    assert kept == front + [n - 1];
    CostInMonotone(all, kept, front, n - 1);
    CostInMonotone(all, front, kept, n - 1);
    assert Select(all, kept) == Select(all, front) + [all[n - 1]];
    FlattenSnoc(Select(all, front), all[n - 1]);
    CostsAppend(Flatten(Select(all, front)), all[n - 1]);
  }

  lemma NothingCosts()
    ensures Flatten([]) == [] && Costs([]) == 0
  {
  }

  lemma {:induction false} FlattenSnoc(s: seq<seq<Value>>, x: seq<Value>)
    ensures Flatten(s + [x]) == Flatten(s) + x
  {
    if s == [] {
      assert s + [x] == [x] && [x][1..] == [] && x + [] == x && [] + x == x;
    } else {
      assert (s + [x])[0] == s[0] && (s + [x])[1..] == s[1..] + [x];
      FlattenSnoc(s[1..], x);
      assert s[0] + (Flatten(s[1..]) + x) == s[0] + Flatten(s[1..]) + x;
    }
  }

  lemma OverMonotone(payload: Value, key: string, all: seq<seq<Value>>, a: seq<nat>, b: seq<nat>, limit: int)
    requires payload.Dict? && Fair(all, a) && Fair(all, b) && |a| >= |b| && OverLimit(payload, key, all, b, limit)
    ensures OverLimit(payload, key, all, a, limit)
  {
    hide Estimate, WithHistory, Costs, Flatten, AllSystem;
    FairNested(all, a, b);
    CostInMonotone(all, a, b, |all|);
    SelectCost(all, a, |all|);
    SelectCost(all, b, |all|);
    HistoryCost(payload, key, Flatten(Select(all, a)));
    HistoryCost(payload, key, Flatten(Select(all, b)));
  }

  // ---------------------------------------------------------------- main result

  /** What the drop of some segments does to the estimate. */
  lemma EstimateFalls(payload: Value, key: string, all: seq<seq<Value>>, kept: seq<nat>)
    requires payload.Dict? && Fair(all, kept)
    ensures Estimate(WithHistory(payload, key, Flatten(Select(all, kept)))) ==
              Estimate(WithHistory(payload, key, [])) + CostIn(all, kept, |all|)
  {
    hide Estimate, WithHistory, Costs, Flatten, AllSystem;
    SelectCost(all, kept, |all|);
    HistoryCost(payload, key, Flatten(Select(all, kept)));
  }

  /**
    Trimming leaves whole segments: a fair choice of them.  It fits or is the newest segment alone, and every fair choice with
    more segments is over the limit.
   */
  lemma TrimIsGreedy(payload: Value, key: string, limit: int) returns (kept: seq<nat>)
    requires payload.Dict? && Get(payload, key).List?
    ensures var all := Segments(Get(payload, key).items);
            && Fair(all, kept) && Trimmed(payload, key, all, limit) == Select(all, kept)
            && (!OverLimit(payload, key, all, kept, limit) || |kept| <= 1)
            && forall more | Fair(all, more) && |more| > |kept| :: OverLimit(payload, key, all, more, limit)
  {
    var all := Segments(Get(payload, key).items);
    var every := Places(|all|);
    assert Select(all, every) == all;
    hide AllSystem, Segments, OverLimit, Flatten;
    kept := TrimFrom(payload, key, all, every, limit);
    forall more | Fair(all, more) && |more| > |kept| ensures OverLimit(payload, key, all, more, limit) {
      FairBound(all, more);
      var prev :| Fair(all, prev) && |prev| == |kept| + 1 && OverLimit(payload, key, all, prev, limit);
      OverMonotone(payload, key, all, more, prev, limit);
    }
  }

  lemma FairBound(all: seq<seq<Value>>, kept: seq<nat>)
    requires Fair(all, kept)
    ensures |kept| <= |all|
  {
    IncreasingBound(kept, |all|);
  }

  lemma {:induction false} IncreasingBound(kept: seq<nat>, n: nat)
    requires Increasing(kept) && forall k | 0 <= k < |kept| :: kept[k] < n
    ensures |kept| <= n
  {
    if kept != [] {
      IncreasingBound(kept[..|kept| - 1], kept[|kept| - 1]);
    }
  }

  function Places(n: nat): (s: seq<nat>)
    ensures |s| == n && forall k | 0 <= k < n :: s[k] == k
  {
    seq(n, k requires 0 <= k < n => k)
  }
}
