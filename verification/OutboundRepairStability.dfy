/** Dropping orphans, and when the two passes together are stable. */
module OutboundRepairStability {
  import opened Options
  import opened OutboundRepair
  import opened OutboundRepairTheorems

  // ---------------------------------------------------------------- dropping

  lemma {:induction false} SurvivorsPaired(calls: seq<Call>, all: seq<Message>, id: string)
    ensures id in IdsOf(SurvivingCalls(calls, all)) <==> id in IdsOf(calls) && Paired(all, id)
  {
    hide Paired;
    if calls != [] {
      SurvivorsPaired(calls[1..], all, id);
      FirstId(calls, id);
      var s := SurvivingCalls(calls, all);
      if calls[0].Call? && Paired(all, calls[0].id) {
        FirstId(s, id);
        assert s[1..] == SurvivingCalls(calls[1..], all);
      } else {
        assert s == SurvivingCalls(calls[1..], all);
      }
    }
  }

  lemma FirstId(calls: seq<Call>, id: string)
    requires calls != []
    ensures id in IdsOf(calls) <==> (calls[0].Call? && calls[0].id != "" && calls[0].id == id) || id in IdsOf(calls[1..])
  {
    if id in IdsOf(calls) {
      var k :| 0 <= k < |calls| && calls[k].Call? && calls[k].id != "" && calls[k].id == id;
      if k > 0 {
        assert calls[1..][k - 1] == calls[k];
      }
    }
    if id in IdsOf(calls[1..]) {
      var k :| 0 <= k < |calls[1..]| && calls[1..][k].Call? && calls[1..][k].id != "" && calls[1..][k].id == id;
      assert calls[k + 1] == calls[1..][k];
    }
  }

  lemma {:induction false} SurvivorsFixed(calls: seq<Call>, a: seq<Message>, b: seq<Message>)
    requires forall id :: Paired(a, id) ==> Paired(b, id)
    ensures SurvivingCalls(SurvivingCalls(calls, a), b) == SurvivingCalls(calls, a)
  {
    hide Paired;
    if calls != [] {
      SurvivorsFixed(calls[1..], a, b);
      var s := SurvivingCalls(calls, a);
      if calls[0].Call? && Paired(a, calls[0].id) {
        assert s[0] == calls[0] && s[1..] == SurvivingCalls(calls[1..], a);
      } else {
        assert s == SurvivingCalls(calls[1..], a);
      }
    }
  }

  /** What is left of a message calls the paired ids that it called, and answers the same id if that is paired. */
  lemma LeftMeans(m: Message, all: seq<Message>, id: string)
    ensures Left(m, all).Some? ==> (id in CallIds(Left(m, all).value) <==> id in CallIds(m) && Paired(all, id))
    ensures Left(m, all).Some? ==> ToolId(Left(m, all).value) == ToolId(m)
    ensures Left(m, all).None? ==> CallIds(m) == {} && !Paired(all, ToolId(m))
    ensures Left(m, all).Some? && ToolId(m) != "" ==> Paired(all, ToolId(m))
  {
    hide Paired, IdsOf, SurvivingCalls;
    NoIds();
    if m.Message? && m.calls.Calls? {
      SurvivorsPaired(m.calls.list, all, id);
      if SurvivingCalls(m.calls.list, all) == [] {
        NoSurvivorsNoIds(m.calls.list, all, id);
      }
    }
  }

  lemma NoIds()
    ensures IdsOf([]) == {}
  {
  }

  lemma NoSurvivorsNoIds(calls: seq<Call>, all: seq<Message>, id: string)
    requires SurvivingCalls(calls, all) == []
    ensures id in IdsOf(calls) ==> !Paired(all, id)
  {
    SurvivorsPaired(calls, all, id);
  }

  lemma FirstMessage(messages: seq<Message>, id: string)
    requires messages != []
    ensures CalledIn(messages, id) <==> id in CallIds(messages[0]) || CalledIn(messages[1..], id)
    ensures AnsweredIn(messages, id) <==> (id != "" && ToolId(messages[0]) == id) || AnsweredIn(messages[1..], id)
  {
    hide CallIds, ToolId;
    if CalledIn(messages, id) {
      var k :| 0 <= k < |messages| && id in CallIds(messages[k]);
      if k > 0 {
        assert messages[1..][k - 1] == messages[k];
      }
    }
    if AnsweredIn(messages, id) {
      var k :| 0 <= k < |messages| && ToolId(messages[k]) == id;
      if k > 0 {
        assert messages[1..][k - 1] == messages[k];
      }
    }
    if CalledIn(messages[1..], id) {
      var k :| 0 <= k < |messages[1..]| && id in CallIds(messages[1..][k]);
      assert messages[k + 1] == messages[1..][k];
    }
    if AnsweredIn(messages[1..], id) {
      var k :| 0 <= k < |messages[1..]| && ToolId(messages[1..][k]) == id;
      assert messages[k + 1] == messages[1..][k];
    }
  }

  /** What is left of a list calls, and answers, exactly the paired ids that it called and answered. */
  lemma {:induction false} LeaveIds(messages: seq<Message>, all: seq<Message>, id: string)
    ensures CalledIn(Leave(messages, all), id) <==> CalledIn(messages, id) && Paired(all, id)
    ensures AnsweredIn(Leave(messages, all), id) <==> AnsweredIn(messages, id) && Paired(all, id)
  {
    hide CalledIn, AnsweredIn, Paired, Left, CallIds, ToolId;
    if messages == [] {
      NoneIn(id);
    } else {
      LeaveIds(messages[1..], all, id);
      FirstMessage(messages, id);
      LeftMeans(messages[0], all, id);
      var left := Leave(messages, all);
      if Left(messages[0], all).Some? {
        FirstMessage(left, id);
        assert left[1..] == Leave(messages[1..], all);
      } else {
        assert left == Leave(messages[1..], all);
      }
    }
  }

  lemma NoneIn(id: string)
    ensures !CalledIn([], id) && !AnsweredIn([], id)
  {
  }

  /** After dropping orphans the called ids are the answered ids, namely those that were both before. */
  lemma DropPairs(messages: seq<Message>, id: string)
    ensures CalledIn(DropOrphans(messages), id) <==> Paired(messages, id)
    ensures AnsweredIn(DropOrphans(messages), id) <==> Paired(messages, id)
  {
    hide Leave, CalledIn, AnsweredIn;
    LeaveIds(messages, messages, id);
  }

  lemma LeftTwice(m: Message, a: seq<Message>, b: seq<Message>)
    requires Left(m, a).Some? && forall id :: Paired(a, id) ==> Paired(b, id)
    ensures Left(Left(m, a).value, b) == Left(m, a)
  {
    hide Paired, SurvivingCalls;
    if m.Message? && m.calls.Calls? {
      SurvivorsFixed(m.calls.list, a, b);
    }
  }

  lemma {:induction false} LeaveTwice(messages: seq<Message>, a: seq<Message>, b: seq<Message>)
    requires forall id :: Paired(a, id) ==> Paired(b, id)
    ensures Leave(Leave(messages, a), b) == Leave(messages, a)
    ensures forall k | 0 <= k < |Leave(messages, a)| :: Left(Leave(messages, a)[k], b) == Some(Leave(messages, a)[k])
  {
    hide Paired, Left;
    if messages != [] {
      LeaveTwice(messages[1..], a, b);
      var left := Leave(messages, a);
      if Left(messages[0], a).Some? {
        LeftTwice(messages[0], a, b);
        assert left[1..] == Leave(messages[1..], a);
      } else {
        assert left == Leave(messages[1..], a);
      }
    }
  }

  /** Dropping orphans twice is dropping them once. */
  lemma DropIdempotent(messages: seq<Message>)
    ensures DropOrphans(DropOrphans(messages)) == DropOrphans(messages)
  {
    hide Leave, CalledIn, AnsweredIn;
    forall id ensures Paired(messages, id) ==> Paired(DropOrphans(messages), id) {
      DropPairs(messages, id);
    }
    LeaveTwice(messages, messages, DropOrphans(messages));
  }

  // ---------------------------------------------------------------- the second repair only repacks

  lemma SameIds(a: seq<Message>, b: seq<Message>, id: string)
    requires multiset(a) == multiset(b)
    ensures CalledIn(a, id) <==> CalledIn(b, id)
    ensures AnsweredIn(a, id) <==> AnsweredIn(b, id)
  {
    hide CallIds, ToolId;
    SameIdsOneWay(a, b, id);
    SameIdsOneWay(b, a, id);
  }

  lemma SameIdsOneWay(a: seq<Message>, b: seq<Message>, id: string)
    requires multiset(a) == multiset(b)
    ensures CalledIn(a, id) ==> CalledIn(b, id)
    ensures AnsweredIn(a, id) ==> AnsweredIn(b, id)
  {
    hide CallIds, ToolId;
    if CalledIn(a, id) {
      var k :| 0 <= k < |a| && id in CallIds(a[k]);
      assert a[k] in multiset(b);
    }
    if AnsweredIn(a, id) {
      var k :| 0 <= k < |a| && ToolId(a[k]) == id;
      assert a[k] in multiset(b);
    }
  }

  lemma {:induction false} LeaveFixed(messages: seq<Message>, all: seq<Message>)
    requires forall k | 0 <= k < |messages| :: Left(messages[k], all) == Some(messages[k])
    ensures Leave(messages, all) == messages
  {
    hide Left;
    if messages != [] {
      LeaveFixed(messages[1..], all);
    }
  }

  /** After a repair, another one only repacks. */
  lemma SecondRepair(messages: seq<Message>)
    ensures Repair(Repair(messages)) == Repack(Repair(messages))
  {
    hide Leave, Repack, Left, CalledIn, AnsweredIn;
    var packed := Repack(messages);
    var d := DropOrphans(packed);
    var again := Repack(d);
    RepackPermutes(d);
    forall id ensures Paired(packed, id) ==> Paired(again, id) {
      DropPairs(packed, id);
      SameIds(again, d, id);
    }
    LeaveTwice(packed, packed, again);
    forall k | 0 <= k < |again| ensures Left(again[k], again) == Some(again[k]) {
      assert again[k] in multiset(d);
      assert again[k] in d;
    }
    LeaveFixed(again, again);
  }

  // ---------------------------------------------------------------- when a repair is stable

  /** An assistant that loses all its calls: none of them is answered anywhere. */
  predicate Forgets(m: Message, all: seq<Message>) {
    forall id | id in CallIds(m) :: !AnsweredIn(all, id)
  }

  /**
    A result that an assistant asks for stands behind a later assistant that loses all its calls, with no other calling
    assistant in between.  `wanted` are the ids of the last assistant that keeps a call, `crossed` says that one that keeps
    none came after it.
   */
  predicate Crosses(messages: seq<Message>, wanted: set<string>, crossed: bool, all: seq<Message>) {
    if messages == [] then false
    else if IsCalling(messages[0]) then
      if Forgets(messages[0], all) then Crosses(messages[1..], wanted, true, all)
      else Crosses(messages[1..], CallIds(messages[0]), false, all)
    else (crossed && Answers(messages[0], wanted)) || Crosses(messages[1..], wanted, crossed, all)
  }

  /** What the scans of a packed list and of its remains know at the same place. */
  ghost predicate InStep(all: seq<Message>, wanted: set<string>, crossed: bool, own: set<string>, ownDirty: bool, left: set<string>, leftDirty: bool) {
    && (forall id :: id in left <==> id in wanted && Paired(all, id))
    && (forall id :: id in wanted ==> CalledIn(all, id))
    && (!crossed ==> own == wanted && (leftDirty ==> ownDirty))
    && (crossed ==> leftDirty && forall id | id in own :: !AnsweredIn(all, id))
  }

  lemma LeftCalling(m: Message, all: seq<Message>)
    requires IsCalling(m) && forall id | id in CallIds(m) :: CalledIn(all, id)
    ensures Left(m, all).Some? && (IsCalling(Left(m, all).value) <==> !Forgets(m, all))
    ensures forall id :: id in CallIds(Left(m, all).value) <==> id in CallIds(m) && Paired(all, id)
    ensures ToolId(Left(m, all).value) == ""
  {
    hide CalledIn, AnsweredIn, Left, CallIds;
    forall id ensures Left(m, all).Some? ==> (id in CallIds(Left(m, all).value) <==> id in CallIds(m) && Paired(all, id)) {
      LeftMeans(m, all, id);
    }
    LeftMeans(m, all, "");
    CallingNotTool(m);
  }

  lemma CallingNotTool(m: Message)
    requires IsCalling(m)
    ensures ToolId(m) == ""
  {
  }

  lemma LeftQuiet(m: Message, all: seq<Message>, wanted: set<string>, left: set<string>)
    requires !IsCalling(m) && "" !in wanted && forall id :: id in left <==> id in wanted && Paired(all, id)
    ensures Left(m, all).Some? ==> !IsCalling(Left(m, all).value) && (Answers(Left(m, all).value, left) <==> Answers(m, wanted))
    ensures Left(m, all).None? ==> !Paired(all, ToolId(m))
  {
    hide Paired, Left, CallIds;
    LeftMeans(m, all, ToolId(m));
    forall id ensures Left(m, all).Some? ==> id !in CallIds(Left(m, all).value) {
      LeftMeans(m, all, id);
    }
  }

  /** The messages call and answer only ids that the whole list calls and answers. */
  predicate PartOf(messages: seq<Message>, all: seq<Message>) {
    forall k | 0 <= k < |messages| ::
      (forall id | id in CallIds(messages[k]) :: CalledIn(all, id)) && (ToolId(messages[k]) != "" ==> AnsweredIn(all, ToolId(messages[k])))
  }

  lemma WantedNotEmpty(all: seq<Message>, wanted: set<string>)
    requires forall id :: id in wanted ==> CalledIn(all, id)
    ensures "" !in wanted
  {
  }

  /** The scans at a message that calls. */
  lemma StepCalling(m: Message, all: seq<Message>, wanted: set<string>, crossed: bool, own: set<string>, ownDirty: bool,
                    left: set<string>, leftDirty: bool)
    requires InStep(all, wanted, crossed, own, ownDirty, left, leftDirty)
    requires IsCalling(m) && forall id | id in CallIds(m) :: CalledIn(all, id)
    ensures Left(m, all).Some?
    ensures Forgets(m, all) ==> !IsCalling(Left(m, all).value) && !Answers(Left(m, all).value, left)
                                && InStep(all, wanted, true, CallIds(m), false, left, true)
    ensures !Forgets(m, all) ==> IsCalling(Left(m, all).value)
                                 && InStep(all, CallIds(m), false, CallIds(m), false, CallIds(Left(m, all).value), false)
  {
    hide CalledIn, AnsweredIn, Left, CallIds, IsCalling, ToolId;
    LeftCalling(m, all);
    WantedNotEmpty(all, wanted);
  }

  /** The scans at a message that does not call. */
  lemma StepQuiet(m: Message, all: seq<Message>, wanted: set<string>, crossed: bool, own: set<string>, ownDirty: bool,
                  left: set<string>, leftDirty: bool)
    requires InStep(all, wanted, crossed, own, ownDirty, left, leftDirty)
    requires !IsCalling(m) && (ToolId(m) != "" ==> AnsweredIn(all, ToolId(m)))
    requires (Answers(m, own) ==> !ownDirty) && "" !in own
    ensures Left(m, all).None? ==> !Answers(m, own) && !Answers(m, wanted) && InStep(all, wanted, crossed, own, true, left, leftDirty)
    ensures Left(m, all).Some? ==> !IsCalling(Left(m, all).value) && (Answers(Left(m, all).value, left) <==> Answers(m, wanted))
    ensures InStep(all, wanted, crossed, own, true, left, true)
    ensures crossed ==> leftDirty && !Answers(m, own)
    ensures !crossed && leftDirty ==> ownDirty
    ensures !crossed ==> (Answers(m, own) <==> Answers(m, wanted))
  {
    hide CalledIn, AnsweredIn, Left, CallIds, IsCalling, ToolId;
    WantedNotEmpty(all, wanted);
    LeftQuiet(m, all, wanted, left);
    EmptyIdAnswersNothing(all);
  }

  lemma EmptyIdAnswersNothing(all: seq<Message>)
    ensures !AnsweredIn(all, "") && !CalledIn(all, "")
  {
  }

  /** The remains of a packed list are settled exactly when no result crosses. */
  lemma {:induction false} ScansAgree(messages: seq<Message>, all: seq<Message>, wanted: set<string>, crossed: bool,
                                      own: set<string>, ownDirty: bool, left: set<string>, leftDirty: bool)
    requires InStep(all, wanted, crossed, own, ownDirty, left, leftDirty)
    requires Settled(messages, own, ownDirty) && PartOf(messages, all) && "" !in own
    ensures Settled(Leave(messages, all), left, leftDirty) <==> !Crosses(messages, wanted, crossed, all)
    decreases |messages|
  {
    hide CalledIn, AnsweredIn, Left, CallIds, IsCalling, ToolId, Answers, InStep, Forgets;
    if messages != [] {
      var m, rest := messages[0], messages[1..];
      var kept := Left(m, all);
      var remains := Leave(messages, all);
      assert PartOf(rest, all);
      assert kept.Some? ==> remains[0] == kept.value && remains[1..] == Leave(rest, all);
      assert kept.None? ==> remains == Leave(rest, all);
      if IsCalling(m) {
        StepCalling(m, all, wanted, crossed, own, ownDirty, left, leftDirty);
        OwnIds(m);
        if Forgets(m, all) {
          ScansAgree(rest, all, wanted, true, CallIds(m), false, left, true);
        } else {
          ScansAgree(rest, all, CallIds(m), false, CallIds(m), false, CallIds(kept.value), false);
        }
      } else {
        StepQuiet(m, all, wanted, crossed, own, ownDirty, left, leftDirty);
        if kept.None? {
          ScansAgree(rest, all, wanted, crossed, own, true, left, leftDirty);
        } else if !Answers(m, wanted) {
          ScansAgree(rest, all, wanted, crossed, own, true, left, true);
        } else if !crossed {
          ScansAgree(rest, all, wanted, crossed, own, ownDirty, left, leftDirty);
        }
      }
    }
  }

  lemma OwnIds(m: Message)
    ensures "" !in CallIds(m)
  {
  }

  // ---------------------------------------------------------------- crossing does not depend on repacking

  lemma ForgetsSame(m: Message, a: seq<Message>, b: seq<Message>)
    requires forall id :: AnsweredIn(a, id) <==> AnsweredIn(b, id)
    ensures Forgets(m, a) <==> Forgets(m, b)
  {
  }

  lemma {:induction false} CrossesSame(messages: seq<Message>, wanted: set<string>, crossed: bool, a: seq<Message>, b: seq<Message>)
    requires forall id :: AnsweredIn(a, id) <==> AnsweredIn(b, id)
    ensures Crosses(messages, wanted, crossed, a) == Crosses(messages, wanted, crossed, b)
  {
    hide AnsweredIn, Forgets, Answers, IsCalling;
    if messages != [] {
      ForgetsSame(messages[0], a, b);
      CrossesSame(messages[1..], wanted, true, a, b);
      CrossesSame(messages[1..], CallIds(messages[0]), false, a, b);
      CrossesSame(messages[1..], wanted, crossed, a, b);
    }
  }

  /** Over messages that do not call, only whether one of them answers matters. */
  lemma {:induction false} CrossesWindow(window: seq<Message>, tail: seq<Message>, wanted: set<string>, crossed: bool, all: seq<Message>)
    requires forall k | 0 <= k < |window| :: !IsCalling(window[k])
    ensures Crosses(window + tail, wanted, crossed, all) <==>
              (crossed && exists m :: m in window && Answers(m, wanted)) || Crosses(tail, wanted, crossed, all)
  {
    hide IsCalling, Answers, Forgets;
    if window == [] {
      assert window + tail == tail;
    } else {
      assert (window + tail)[0] == window[0] && (window + tail)[1..] == window[1..] + tail;
      CrossesWindow(window[1..], tail, wanted, crossed, all);
      assert forall m :: m in window <==> m == window[0] || m in window[1..];
    }
  }

  lemma {:induction false} CrossesRepack(messages: seq<Message>, wanted: set<string>, crossed: bool, all: seq<Message>)
    ensures Crosses(Repack(messages), wanted, crossed, all) == Crosses(messages, wanted, crossed, all)
    decreases |messages|
  {
    hide IsCalling, Answers, Forgets, Sift, CallIds, Repack;
    if messages == [] {
      RepackNothing(messages);
    } else {
      RepackUnfolds(messages);
      var m := messages[0];
      if !IsCalling(m) {
        CrossesRepack(messages[1..], wanted, crossed, all);
        assert ([m] + Repack(messages[1..]))[1..] == Repack(messages[1..]);
      } else {
        var n := 1 + WindowLength(messages[1..]);
        var w1, c1 := if Forgets(m, all) then wanted else CallIds(m), Forgets(m, all);
        CrossesRepack(messages[n..], w1, c1, all);
        CrossesBlock(m, messages[1..n], messages[n..], w1, c1, all);
        assert messages[1..] == messages[1..n] + messages[n..];
      }
    }
  }

  lemma SiftedMembers(m: Message, window: seq<Message>, sifted: seq<Message>)
    requires forall k | 0 <= k < |window| :: !IsCalling(window[k])
    requires sifted == Sift(window, CallIds(m), true) + Sift(window, CallIds(m), false)
    ensures (forall k | 0 <= k < |sifted| :: !IsCalling(sifted[k])) && forall x :: x in sifted <==> x in window
  {
    hide IsCalling, Answers, Sift, CallIds;
    SiftCounts(window, CallIds(m));
    WindowParts(m, window);
    forall x ensures x in sifted <==> x in window {
      assert x in sifted <==> x in multiset(sifted);
      assert multiset(sifted) == multiset(window);
    }
  }

  lemma CrossesBlock(m: Message, window: seq<Message>, tail: seq<Message>, wanted: set<string>, crossed: bool, all: seq<Message>)
    requires forall k | 0 <= k < |window| :: !IsCalling(window[k])
    requires Crosses(Repack(tail), wanted, crossed, all) == Crosses(tail, wanted, crossed, all)
    ensures Crosses((Packed(m, window) + Repack(tail))[1..], wanted, crossed, all) == Crosses(window + tail, wanted, crossed, all)
  {
    hide IsCalling, Answers, Forgets, Sift, CallIds, Repack, Crosses;
    var sifted := Sift(window, CallIds(m), true) + Sift(window, CallIds(m), false);
    SiftedMembers(m, window, sifted);
    assert (Packed(m, window) + Repack(tail))[1..] == sifted + Repack(tail);
    CrossesSifted(sifted, window, Repack(tail), tail, wanted, crossed, all);
  }

  /** Only which messages are in a window matters, not their order. */
  lemma CrossesSifted(sifted: seq<Message>, window: seq<Message>, packed: seq<Message>, tail: seq<Message>, wanted: set<string>,
                      crossed: bool, all: seq<Message>)
    requires (forall k | 0 <= k < |window| :: !IsCalling(window[k])) && (forall k | 0 <= k < |sifted| :: !IsCalling(sifted[k]))
    requires (forall x :: x in sifted <==> x in window) && Crosses(packed, wanted, crossed, all) == Crosses(tail, wanted, crossed, all)
    ensures Crosses(sifted + packed, wanted, crossed, all) == Crosses(window + tail, wanted, crossed, all)
  {
    hide *;
    CrossesWindow(sifted, packed, wanted, crossed, all);
    CrossesWindow(window, tail, wanted, crossed, all);
  }

  // ---------------------------------------------------------------- main result

  /** One repair is enough exactly when no result stands behind an assistant that loses all its calls. */
  lemma RepairStable(messages: seq<Message>)
    ensures Repair(Repair(messages)) == Repair(messages) <==> !Crosses(messages, {}, false, messages)
  {
    hide Repack, Leave, CalledIn, AnsweredIn, Crosses, Settled, ToolId, CallIds;
    var packed := Repack(messages);
    SecondRepair(messages);
    RepackFixes(Repair(messages), false);
    RepackSettles(messages, false);
    PartOfItself(packed);
    RepackPermutes(messages);
    forall id ensures AnsweredIn(packed, id) <==> AnsweredIn(messages, id) {
      SameIds(packed, messages, id);
    }
    ScansAgree(packed, packed, {}, false, {}, false, {}, false);
    CrossesSame(packed, {}, false, packed, messages);
    CrossesRepack(messages, {}, false, messages);
  }

  lemma PartOfItself(messages: seq<Message>)
    ensures PartOf(messages, messages)
  {
    forall k | 0 <= k < |messages|
      ensures (forall id | id in CallIds(messages[k]) :: CalledIn(messages, id)) && (ToolId(messages[k]) != "" ==> AnsweredIn(messages, ToolId(messages[k])))
    {
    }
  }

  function Asks(id: string): Message {
    Message("assistant", Calls([Call(id, "")]), "", "")
  }

  /** A list on which one repair is not enough: x is answered only behind the assistant that asks for y in vain. */
  lemma RepairNotIdempotent()
    ensures var m := [Asks("x"), Asks("y"), Message("tool", NoCalls, "x", "")]; Repair(Repair(m)) != Repair(m)
  {
    var tool := Message("tool", NoCalls, "x", "");
    var m := [Asks("x"), Asks("y"), tool];
    assert m[1..] == [Asks("y"), tool] && m[1..][1..] == [tool] && [tool][1..] == [];
    AsksIs("x");
    AsksIs("y");
    assert AnsweredIn(m, "x") by {
      assert ToolId(m[2]) == "x";
    }
    assert !AnsweredIn(m, "y") by {
      assert ToolId(m[0]) == "" && ToolId(m[1]) == "" && ToolId(m[2]) == "x";
    }
    assert CallIds(tool) == {};
    assert "x" in CallIds(Asks("x")) && "x" in {"x"};
    hide Repair, AnsweredIn, CallIds, Asks;
    assert Crosses([tool], {"x"}, true, m);
    assert Crosses([Asks("y"), tool], {"x"}, false, m);
    assert Crosses(m, {}, false, m);
    RepairStable(m);
  }

  lemma AsksIs(id: string)
    requires id != ""
    ensures CallIds(Asks(id)) == {id} && ToolId(Asks(id)) == ""
  {
    var calls := [Call(id, "")];
    assert calls[0].Call? && calls[0].id == id;
    assert IdsOf(calls) == {id};
  }
}
