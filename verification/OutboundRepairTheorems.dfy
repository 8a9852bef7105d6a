/** What each pass of the WorkBuddy repair guarantees, and when the two together are stable. */
module OutboundRepairTheorems {
  import opened OutboundRepair

  // ---------------------------------------------------------------- sifting

  lemma {:induction false} SiftMembers(window: seq<Message>, wanted: set<string>, answers: bool)
    ensures forall k | 0 <= k < |Sift(window, wanted, answers)| ::
              var m := Sift(window, wanted, answers)[k]; Answers(m, wanted) == answers && m in window
  {
    hide Answers;
    if window != [] {
      SiftMembers(window[1..], wanted, answers);
      assert forall m :: m in window[1..] ==> m in window;
    }
  }

  lemma {:induction false} SiftCounts(window: seq<Message>, wanted: set<string>)
    ensures multiset(Sift(window, wanted, true)) + multiset(Sift(window, wanted, false)) == multiset(window)
    ensures |Sift(window, wanted, true)| + |Sift(window, wanted, false)| == |window|
  {
    hide Answers;
    if window != [] {
      SiftCounts(window[1..], wanted);
      assert window == [window[0]] + window[1..];
    }
  }

  // ---------------------------------------------------------------- repacking

  /** [a, hi) is the block of the calling assistant at a. */
  ghost predicate IsBlock(messages: seq<Message>, a: int, hi: int) {
    && 0 <= a < hi <= |messages| && IsCalling(messages[a]) && (forall j | a < j < hi :: !IsCalling(messages[j]))
    && (hi < |messages| ==> IsCalling(messages[hi]))
  }

  lemma PackedCounts(m: Message, window: seq<Message>)
    ensures |Packed(m, window)| == 1 + |window| && multiset(Packed(m, window)) == multiset([m] + window)
  {
    SiftCounts(window, CallIds(m));
    hide Sift, CallIds;
  }

  /** The first block, and how many messages it takes. */
  lemma RepackUnfolds(messages: seq<Message>)
    requires messages != []
    ensures var n := if IsCalling(messages[0]) then 1 + WindowLength(messages[1..]) else 1;
            var block := if IsCalling(messages[0]) then Packed(messages[0], messages[1..n]) else [messages[0]];
            0 < n <= |messages| && Repack(messages) == block + Repack(messages[n..])
  {
    hide IsCalling, Packed, WindowLength, Repack;
    if IsCalling(messages[0]) {
      RepackCalling(messages);
    } else {
      RepackPlain(messages);
    }
  }

  lemma BlockCounts(messages: seq<Message>, n: nat)
    requires 0 < n <= |messages|
    ensures |Packed(messages[0], messages[1..n])| == n
    ensures multiset(Packed(messages[0], messages[1..n])) == multiset(messages[..n])
    ensures multiset(messages) == multiset(messages[..n]) + multiset(messages[n..])
  {
    hide Packed;
    PackedCounts(messages[0], messages[1..n]);
    assert [messages[0]] + messages[1..n] == messages[..n];
    assert messages == messages[..n] + messages[n..];
  }

  /** Repacking is a permutation. */
  lemma {:induction false} RepackPermutes(messages: seq<Message>)
    ensures multiset(Repack(messages)) == multiset(messages) && |Repack(messages)| == |messages|
    decreases |messages|
  {
    hide IsCalling, Packed, Repack, WindowLength;
    if messages == [] {
      RepackNothing(messages);
    } else {
      RepackUnfolds(messages);
      var n := if IsCalling(messages[0]) then 1 + WindowLength(messages[1..]) else 1;
      RepackPermutes(messages[n..]);
      BlockCounts(messages, n);
      assert messages[..1] == [messages[0]];
    }
  }

  /** A place where a block starts, or before the first one. */
  ghost predicate Boundary(messages: seq<Message>, p: int) {
    0 <= p <= |messages| && (p < |messages| ==> IsCalling(messages[p]) || forall j | 0 <= j < p :: !IsCalling(messages[j]))
  }

  lemma BlockHere(messages: seq<Message>, p: nat)
    requires p < |messages| && IsCalling(messages[p])
    ensures var hi := p + 1 + WindowLength(messages[p + 1..]); IsBlock(messages, p, hi) && Boundary(messages, hi)
  {
    hide IsCalling, WindowLength;
    var rest := messages[p + 1..];
    var hi := p + 1 + WindowLength(rest);
    assert forall j | p < j < hi :: messages[j] == rest[j - p - 1];
    assert hi < |messages| ==> messages[hi] == rest[hi - p - 1];
  }

  lemma BlockUnique(messages: seq<Message>, a: int, hi: int, hi2: int)
    requires IsBlock(messages, a, hi) && IsBlock(messages, a, hi2)
    ensures hi == hi2
  {
    hide IsCalling;
  }

  /**
    Each block keeps its place: the calling assistant, the results of its window that it asks for, the rest of the window,
    both in their old order; and messages before the first calling assistant stay where they are.  `out` is the part of the
    result from p on.
   */
  ghost predicate BlocksKept(messages: seq<Message>, p: int, out: seq<Message>) {
    && 0 <= p <= |messages| && |out| == |messages| - p
    && (forall a, hi | p <= a && IsBlock(messages, a, hi) :: out[a - p..hi - p] == Packed(messages[a], messages[a + 1..hi]))
    && (forall i | p <= i < |messages| && (forall j | 0 <= j <= i :: !IsCalling(messages[j])) :: out[i - p] == messages[i])
  }

  lemma LeadBlocks(messages: seq<Message>, p: nat, rest: seq<Message>, a: int, hi: int)
    requires p < |messages| && !IsCalling(messages[p]) && BlocksKept(messages, p + 1, rest) && p <= a && IsBlock(messages, a, hi)
    ensures 0 <= a < hi <= |messages| && ([messages[p]] + rest)[a - p..hi - p] == Packed(messages[a], messages[a + 1..hi])
  {
    hide *;
    BlockStarts(messages, a, hi);
    assert a != p;
    LaterPart(messages, p, rest, a, hi);
    BehindBlock([messages[p]], rest, a - p, hi - p);
  }

  lemma LaterPart(messages: seq<Message>, p: nat, rest: seq<Message>, a: int, hi: int)
    requires BlocksKept(messages, p + 1, rest) && p < a < hi <= |messages| && IsBlock(messages, a, hi)
    ensures |rest| == |messages| - p - 1 && rest[a - (p + 1)..hi - (p + 1)] == Packed(messages[a], messages[a + 1..hi])
  {
    hide IsCalling, Packed, IsBlock;
  }

  lemma LeadKept(messages: seq<Message>, p: nat, rest: seq<Message>)
    requires p < |messages| && !IsCalling(messages[p]) && BlocksKept(messages, p + 1, rest)
    ensures BlocksKept(messages, p, [messages[p]] + rest)
  {
    hide IsCalling, Packed, IsBlock;
    forall a, hi | p <= a && IsBlock(messages, a, hi)
      ensures 0 <= a < hi <= |messages| && ([messages[p]] + rest)[a - p..hi - p] == Packed(messages[a], messages[a + 1..hi])
    {
      LeadBlocks(messages, p, rest, a, hi);
    }
    LeadPlain(messages, p, rest);
  }

  lemma LeadPlain(messages: seq<Message>, p: nat, rest: seq<Message>)
    requires p < |messages| && BlocksKept(messages, p + 1, rest)
    ensures forall i | p <= i < |messages| && (forall j | 0 <= j <= i :: !IsCalling(messages[j])) :: ([messages[p]] + rest)[i - p] == messages[i]
  {
    hide IsCalling, Packed, IsBlock;
    forall i | p <= i < |messages| && (forall j | 0 <= j <= i :: !IsCalling(messages[j]))
      ensures ([messages[p]] + rest)[i - p] == messages[i]
    {
      assert i > p ==> ([messages[p]] + rest)[i - p] == rest[i - (p + 1)];
    }
  }

  lemma BlockStarts(messages: seq<Message>, a: int, hi: int)
    requires IsBlock(messages, a, hi)
    ensures 0 <= a < hi <= |messages| && IsCalling(messages[a])
  {
  }

  lemma LaterBlocks(messages: seq<Message>, p: nat, hi0: nat, rest: seq<Message>, a: int, hi: int)
    requires IsBlock(messages, p, hi0) && BlocksKept(messages, hi0, rest) && p <= a && IsBlock(messages, a, hi)
    ensures 0 <= a < hi <= |messages|
    ensures |Packed(messages[p], messages[p + 1..hi0])| == hi0 - p
    ensures (Packed(messages[p], messages[p + 1..hi0]) + rest)[a - p..hi - p] == Packed(messages[a], messages[a + 1..hi])
  {
    hide IsCalling, Packed, IsBlock;
    BlockStarts(messages, a, hi);
    BlockStarts(messages, p, hi0);
    PackedCounts(messages[p], messages[p + 1..hi0]);
    var block := Packed(messages[p], messages[p + 1..hi0]);
    if a == p {
      BlockUnique(messages, a, hi, hi0);
      assert (block + rest)[0..hi0 - p] == block;
    } else {
      LaterBlock(messages, p, hi0, a, hi);
      BehindBlock(block, rest, a - p, hi - p);
    }
  }

  lemma BehindBlock(block: seq<Message>, rest: seq<Message>, from: int, to: int)
    requires |block| <= from <= to <= |block| + |rest|
    ensures (block + rest)[from..to] == rest[from - |block|..to - |block|]
  {
  }

  lemma BlockKept(messages: seq<Message>, p: nat, hi0: nat, rest: seq<Message>)
    requires IsBlock(messages, p, hi0) && BlocksKept(messages, hi0, rest)
    ensures BlocksKept(messages, p, Packed(messages[p], messages[p + 1..hi0]) + rest)
  {
    hide IsCalling, Packed, IsBlock;
    BlockStarts(messages, p, hi0);
    PackedCounts(messages[p], messages[p + 1..hi0]);
    var out := Packed(messages[p], messages[p + 1..hi0]) + rest;
    forall a, hi | p <= a && IsBlock(messages, a, hi)
      ensures 0 <= a < hi <= |messages| && out[a - p..hi - p] == Packed(messages[a], messages[a + 1..hi])
    {
      LaterBlocks(messages, p, hi0, rest, a, hi);
    }
  }

  lemma {:induction false} RepackFrom(messages: seq<Message>, p: nat)
    requires Boundary(messages, p)
    ensures BlocksKept(messages, p, Repack(messages[p..]))
    decreases |messages| - p
  {
    hide IsCalling, Packed, Repack, WindowLength, BlocksKept;
    if p == |messages| {
      NothingKept(messages);
    } else {
      RepackStep(messages, p);
      if !IsCalling(messages[p]) {
        RepackFrom(messages, p + 1);
        LeadKept(messages, p, Repack(messages[p + 1..]));
      } else {
        var hi0 := p + 1 + WindowLength(messages[p + 1..]);
        BlockHere(messages, p);
        RepackFrom(messages, hi0);
        BlockKept(messages, p, hi0, Repack(messages[hi0..]));
      }
    }
  }

  lemma NothingKept(messages: seq<Message>)
    ensures BlocksKept(messages, |messages|, Repack(messages[|messages|..]))
  {
  }

  lemma LaterBlock(messages: seq<Message>, p: int, hi0: int, a: int, hi: int)
    requires IsBlock(messages, p, hi0) && IsBlock(messages, a, hi) && p < a
    ensures hi0 <= a
  {
    hide IsCalling;
  }

  /** The whole result, block by block. */
  lemma RepackBlocks(messages: seq<Message>)
    ensures BlocksKept(messages, 0, Repack(messages))
  {
    hide Repack, BlocksKept, IsCalling;
    RepackFrom(messages, 0);
    assert messages[0..] == messages;
  }

  // ---------------------------------------------------------------- settled lists

  /** Scan a list: no result that the current assistant asks for comes after another message. */
  predicate Settled(messages: seq<Message>, wanted: set<string>, dirty: bool) {
    if messages == [] then true
    else if IsCalling(messages[0]) then Settled(messages[1..], CallIds(messages[0]), false)
    else if Answers(messages[0], wanted) then !dirty && Settled(messages[1..], wanted, dirty)
    else Settled(messages[1..], wanted, true)
  }

  lemma {:induction false} SettledRest(rest: seq<Message>, tail: seq<Message>, wanted: set<string>)
    requires forall k | 0 <= k < |rest| :: !IsCalling(rest[k]) && !Answers(rest[k], wanted)
    requires tail != [] ==> IsCalling(tail[0])
    ensures Settled(rest + tail, wanted, true) <==> Settled(tail, {}, false)
  {
    hide IsCalling, Answers;
    if rest == [] {
      assert rest + tail == tail;
    } else {
      assert (rest + tail)[0] == rest[0] && (rest + tail)[1..] == rest[1..] + tail;
      SettledRest(rest[1..], tail, wanted);
    }
  }

  lemma {:induction false} SettledWindow(matches: seq<Message>, rest: seq<Message>, tail: seq<Message>, wanted: set<string>)
    requires forall k | 0 <= k < |matches| :: !IsCalling(matches[k]) && Answers(matches[k], wanted)
    requires forall k | 0 <= k < |rest| :: !IsCalling(rest[k]) && !Answers(rest[k], wanted)
    requires tail != [] ==> IsCalling(tail[0])
    ensures Settled(matches + rest + tail, wanted, false) <==> Settled(tail, {}, false)
    decreases |matches|
  {
    hide IsCalling, Answers;
    var all := matches + rest + tail;
    if matches != [] {
      assert all[0] == matches[0] && all[1..] == matches[1..] + rest + tail;
      SettledWindow(matches[1..], rest, tail, wanted);
    } else if rest != [] {
      assert all[0] == rest[0] && all[1..] == rest[1..] + tail;
      SettledRest(rest[1..], tail, wanted);
    } else {
      assert all == tail;
    }
  }

  lemma WindowParts(m: Message, window: seq<Message>)
    requires forall k | 0 <= k < |window| :: !IsCalling(window[k])
    ensures forall k | 0 <= k < |Sift(window, CallIds(m), true)| ::
              !IsCalling(Sift(window, CallIds(m), true)[k]) && Answers(Sift(window, CallIds(m), true)[k], CallIds(m))
    ensures forall k | 0 <= k < |Sift(window, CallIds(m), false)| ::
              !IsCalling(Sift(window, CallIds(m), false)[k]) && !Answers(Sift(window, CallIds(m), false)[k], CallIds(m))
  {
    hide IsCalling, Answers, CallIds, Sift;
    SiftMembers(window, CallIds(m), true);
    SiftMembers(window, CallIds(m), false);
  }

  lemma RepackStarts(messages: seq<Message>)
    requires messages == [] || IsCalling(messages[0])
    ensures Repack(messages) != [] ==> IsCalling(Repack(messages)[0])
  {
    hide IsCalling, Sift, CallIds;
  }

  lemma {:induction false} RepackSettles(messages: seq<Message>, dirty: bool)
    ensures Settled(Repack(messages), {}, dirty)
    decreases |messages|
  {
    hide IsCalling, Sift, CallIds, Answers, Repack, Packed, WindowLength, Settled;
    if messages == [] {
      NothingSettled(messages, dirty);
    } else {
      RepackUnfolds(messages);
      if !IsCalling(messages[0]) {
        RepackSettles(messages[1..], true);
        PlainSettles(messages[0], Repack(messages[1..]), dirty);
      } else {
        var n := 1 + WindowLength(messages[1..]);
        RepackStarts(messages[n..]);
        RepackSettles(messages[n..], false);
        BlockSettles(messages[0], messages[1..n], Repack(messages[n..]), dirty);
      }
    }
  }

  lemma NothingSettled(messages: seq<Message>, dirty: bool)
    requires messages == []
    ensures Settled(Repack(messages), {}, dirty)
  {
  }

  lemma PlainSettles(m: Message, rest: seq<Message>, dirty: bool)
    requires !IsCalling(m) && Settled(rest, {}, true)
    ensures Settled([m] + rest, {}, dirty)
  {
    hide IsCalling, Answers;
    NothingAnswers(m);
    assert ([m] + rest)[1..] == rest;
  }

  lemma BlockSettles(m: Message, window: seq<Message>, tail: seq<Message>, dirty: bool)
    requires IsCalling(m) && (forall k | 0 <= k < |window| :: !IsCalling(window[k]))
    requires (tail != [] ==> IsCalling(tail[0])) && Settled(tail, {}, false)
    ensures Settled(Packed(m, window) + tail, {}, dirty)
  {
    hide IsCalling, Sift, CallIds, Answers;
    var matches, others := Sift(window, CallIds(m), true), Sift(window, CallIds(m), false);
    WindowParts(m, window);
    SettledWindow(matches, others, tail, CallIds(m));
    assert (Packed(m, window) + tail)[1..] == matches + others + tail;
  }

  lemma NothingAnswers(m: Message)
    ensures !Answers(m, {})
  {
  }

  // ---------------------------------------------------------------- a settled list is left alone

  /** The scan of one window. */
  predicate Stable(window: seq<Message>, wanted: set<string>, dirty: bool) {
    if window == [] then true
    else if Answers(window[0], wanted) then !dirty && Stable(window[1..], wanted, dirty)
    else Stable(window[1..], wanted, true)
  }

  lemma {:induction false} SettledByWindow(window: seq<Message>, tail: seq<Message>, wanted: set<string>, dirty: bool)
    requires (forall k | 0 <= k < |window| :: !IsCalling(window[k])) && (tail != [] ==> IsCalling(tail[0]))
    ensures Settled(window + tail, wanted, dirty) <==> Stable(window, wanted, dirty) && Settled(tail, {}, false)
    decreases |window|
  {
    hide IsCalling, Answers;
    if window == [] {
      assert window + tail == tail;
      EmptyTail(tail, wanted, dirty);
    } else {
      assert (window + tail)[0] == window[0] && (window + tail)[1..] == window[1..] + tail;
      SettledByWindow(window[1..], tail, wanted, if Answers(window[0], wanted) then dirty else true);
    }
  }

  lemma EmptyTail(tail: seq<Message>, wanted: set<string>, dirty: bool)
    requires tail != [] ==> IsCalling(tail[0])
    ensures Settled(tail, wanted, dirty) <==> Settled(tail, {}, false)
  {
    hide IsCalling;
  }

  lemma {:induction false} StableDirty(window: seq<Message>, wanted: set<string>)
    ensures Stable(window, wanted, true) <==> Sift(window, wanted, true) == []
    ensures Sift(window, wanted, true) == [] ==> Sift(window, wanted, false) == window
  {
    hide Answers;
    if window != [] {
      StableDirty(window[1..], wanted);
    }
  }

  lemma {:induction false} StableClean(window: seq<Message>, wanted: set<string>)
    ensures Stable(window, wanted, false) <==> Sift(window, wanted, true) + Sift(window, wanted, false) == window
  {
    hide Answers;
    if window != [] {
      var m, rest := window[0], window[1..];
      var yes, no := Sift(rest, wanted, true), Sift(rest, wanted, false);
      assert window == [m] + rest;
      if Answers(m, wanted) {
        StableClean(rest, wanted);
        assert [m] + yes + ([] + no) == [m] + (yes + no);
        assert ([m] + (yes + no))[1..] == yes + no;
      } else {
        StableDirty(rest, wanted);
        SiftMembers(rest, wanted, true);
        FirstDiffers(m, yes, no, rest, wanted);
      }
    }
  }

  lemma FirstDiffers(m: Message, yes: seq<Message>, no: seq<Message>, rest: seq<Message>, wanted: set<string>)
    requires !Answers(m, wanted) && (forall k | 0 <= k < |yes| :: Answers(yes[k], wanted)) && (yes == [] ==> no == rest)
    ensures ([] + yes) + ([m] + no) == [m] + rest <==> yes == []
  {
    hide Answers;
    if yes != [] {
      assert (([] + yes) + ([m] + no))[0] == yes[0];
    }
  }

  /** Repacking changes a list exactly when the scan finds a result out of place. */
  lemma {:induction false} RepackFixes(messages: seq<Message>, dirty: bool)
    ensures Repack(messages) == messages <==> Settled(messages, {}, dirty)
    decreases |messages|
  {
    hide IsCalling, Sift, CallIds, Answers, Repack, WindowLength, Packed;
    if messages == [] {
      RepackNothing(messages);
    } else {
      var m := messages[0];
      RepackUnfolds(messages);
      if !IsCalling(m) {
        RepackFixes(messages[1..], true);
        PlainFixes(messages, Repack(messages[1..]), dirty);
      } else {
        var n := 1 + WindowLength(messages[1..]);
        var window, tail := messages[1..n], messages[n..];
        RepackFixes(tail, false);
        assert messages[1..] == window + tail;
        WindowFixes(m, window, tail, messages);
      }
    }
  }

  lemma PlainFixes(messages: seq<Message>, packed: seq<Message>, dirty: bool)
    requires messages != [] && !IsCalling(messages[0])
    requires packed == messages[1..] <==> Settled(messages[1..], {}, true)
    ensures [messages[0]] + packed == messages <==> Settled(messages, {}, dirty)
  {
    hide IsCalling, Answers;
    NothingAnswers(messages[0]);
    assert ([messages[0]] + packed)[1..] == packed;
    assert messages == [messages[0]] + messages[1..];
  }

  lemma WindowFixes(m: Message, window: seq<Message>, tail: seq<Message>, messages: seq<Message>)
    requires messages == [m] + window + tail
    requires (forall k | 0 <= k < |window| :: !IsCalling(window[k])) && (tail != [] ==> IsCalling(tail[0]))
    requires Repack(tail) == tail <==> Settled(tail, {}, false)
    ensures Packed(m, window) + Repack(tail) == messages <==> Settled(window + tail, CallIds(m), false)
  {
    hide *;
    SettledByWindow(window, tail, CallIds(m), false);
    StableClean(window, CallIds(m));
    PackedSplit(m, window, tail, messages);
  }

  lemma PackedSplit(m: Message, window: seq<Message>, tail: seq<Message>, messages: seq<Message>)
    requires messages == [m] + window + tail
    ensures Packed(m, window) + Repack(tail) == messages <==>
            Sift(window, CallIds(m), true) + Sift(window, CallIds(m), false) == window && Repack(tail) == tail
  {
    hide Sift, CallIds, Repack;
    var sifted := Sift(window, CallIds(m), true) + Sift(window, CallIds(m), false);
    SiftCounts(window, CallIds(m));
    assert Packed(m, window) == [m] + sifted;
    ConcatSplit([m] + sifted, Repack(tail), [m] + window, tail);
    ConcatSplit([m], sifted, [m], window);
  }

  lemma ConcatSplit(a: seq<Message>, b: seq<Message>, c: seq<Message>, d: seq<Message>)
    requires |a| == |c|
    ensures a + b == c + d <==> a == c && b == d
  {
    assert (a + b)[..|a|] == a && (a + b)[|a|..] == b && (c + d)[..|c|] == c && (c + d)[|c|..] == d;
  }

  /** Repacking twice is repacking once. */
  lemma RepackIdempotent(messages: seq<Message>)
    ensures Repack(Repack(messages)) == Repack(messages)
  {
    RepackSettles(messages, false);
    RepackFixes(Repack(messages), false);
  }
}
