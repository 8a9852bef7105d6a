/** Whole runs of the failover loop. */
module StreamFailoverRuns {
  import opened Options
  import opened ChatObserver
  import opened ChatObserverTheorems
  import opened StreamFailover
  import opened StreamFailoverTheorems

  // ---------------------------------------------------------------- the loop

  /** A turn after which another account may be tried: it failed before anything was sent. */
  predicate FailsQuietly(t: Turn, s: Setting, w: Oracles) {
    !t.headers ||
    match t.response
    case Refused(status, ruling) => if ruling.Some? then !ruling.value.stop else Retryable(status)
    case Stream(chunks, broken) =>
      if Disconnects(chunks, broken, s.n, w.parse) then ReadChunks(StartReading(s.n), chunks, w.parse).sent == []
      else Read(chunks, s.n, w.parse).sent == [] && Eof(Read(chunks, s.n, w.parse).o, w.object_).Some?
  }

  /** Between two attempts: nothing was sent, every row is a retry, every account was tried once and in order. */
  ghost predicate LoopOk(l: Loop, all: seq<Turn>, s: Setting, w: Oracles) {
    && (forall k | 0 <= k < |l.tried| && k < |all| :: FailsQuietly(all[k], s, w))
    && l.out == [] && (forall k | 0 <= k < |l.rows| :: l.rows[k].retry)
    && |l.tried| <= |all| && |l.tried| == l.attempt <= s.cap
    && (forall k | 0 <= k < |l.tried| :: l.tried[k] == all[k].account)
    && (forall i, j | 0 <= i < j < |l.tried| :: l.tried[i] != l.tried[j])
  }

  /** What a turn that ended the stream delivered. */
  ghost predicate Delivered(out: seq<Out>, t: Turn, s: Setting, w: Oracles) {
    match t.response
    case Refused(_, _) => exists event, status :: out == ErrorTail(event, status)
    case Stream(chunks, broken) =>
      if Disconnects(chunks, broken, s.n, w.parse)
      then out == Datas(ReadChunks(StartReading(s.n), chunks, w.parse).sent) + [Failure(502), Done]
      else
        var r := Read(chunks, s.n, w.parse);
        if Eof(r.o, w.object_).None? then out == Datas(r.sent) + SuccessTail(r, IsStalled(r, s, w))
        else exists event :: out == Datas(r.sent) + ErrorTail(event, 502)
  }

  ghost predicate EndedOk(e: Ended, all: seq<Turn>, s: Setting, w: Oracles) {
    && |e.tried| <= |all| && |e.tried| <= s.cap
    && (forall k | 0 <= k < |e.tried| :: e.tried[k] == all[k].account)
    && (forall i, j | 0 <= i < j < |e.tried| :: e.tried[i] != e.tried[j])
    && |e.rows| > 0 && (forall k | 0 <= k < |e.rows| :: e.rows[k].retry <==> k < |e.rows| - 1)
    && (forall k | 0 <= k < |e.tried| - (if e.last.Some? then 1 else 0) :: FailsQuietly(all[k], s, w))
    && (e.last.None? ==> |e.tried| == s.cap || |e.tried| == |all| || all[|e.tried|].account in e.tried)
    && (e.last.Some? ==> e.last.value.headers && (|e.tried| == s.cap || !FailsQuietly(e.last.value, s, w)))
    && (e.last.None? ==> exists event, status :: e.out == ErrorTail(event, status))
    && (e.last.Some? ==> |e.tried| > 0 && e.last.value == all[|e.tried| - 1] && Delivered(e.out, e.last.value, s, w))
  }

  lemma FlushOk(l: Loop, all: seq<Turn>, s: Setting, w: Oracles)
    requires LoopOk(l, all, s, w)
    ensures LoopOk(Flush(l), all, s, w) && Flush(l).tried == l.tried && Flush(l).attempt == l.attempt && Flush(l).pending.None?
  {
  }

  /** A turn that is about to be taken. */
  ghost predicate Taking(l: Loop, t: Turn, all: seq<Turn>, s: Setting, w: Oracles) {
    && (forall k | 0 <= k < |l.tried| - 1 && k < |all| :: FailsQuietly(all[k], s, w))
    && l.out == [] && (forall k | 0 <= k < |l.rows| :: l.rows[k].retry)
    && 0 < |l.tried| <= |all| && |l.tried| == l.attempt + 1 <= s.cap
    && all[|l.tried| - 1] == t
    && (forall k | 0 <= k < |l.tried| :: l.tried[k] == all[k].account)
    && (forall i, j | 0 <= i < j < |l.tried| :: l.tried[i] != l.tried[j])
  }

  lemma EndsOk(l: Loop, t: Turn, all: seq<Turn>, s: Setting, w: Oracles, tail: seq<Out>, status: int)
    requires Taking(l.(out := []), t, all, s, w) && Delivered(l.out + tail, t, s, w)
    requires t.headers && (|l.tried| == s.cap || !FailsQuietly(t, s, w))
    ensures EndedOk(EndWith(l, t, tail, status), all, s, w)
  {
    hide Delivered;
  }

  lemma RefusedOk(l: Loop, t: Turn, all: seq<Turn>, s: Setting, w: Oracles)
    requires Taking(l, t, all, s, w) && t.headers && t.response.Refused?
    ensures match TurnRefused(l, t, s) case Next(n) => LoopOk(n, all, s, w) case Finished(e) => EndedOk(e, all, s, w)
  {
    hide EndedOk, ErrorTail;
    var last := l.attempt + 1 >= s.cap;
    if t.response.ruling.Some? {
      var ruled := t.response.ruling.value;
      var event := if ruled.detail.Some? then Some(FromRule(ruled.detail.value)) else None;
      var l1 := l.(status := ruled.status, errorEvent := event);
      assert [] + ErrorTail(event, ruled.status) == ErrorTail(event, ruled.status);
      if ruled.stop || last {
        EndsOk(l1, t, all, s, w, ErrorTail(event, ruled.status), ruled.status);
      }
    } else {
      var status := t.response.status;
      var l1 := l.(status := status, errorEvent := None);
      NoEventTail(status);
      assert [] + [Failure(status), Done] == [Failure(status), Done];
      if !Retryable(status) || last {
        EndsOk(l1, t, all, s, w, [Failure(status), Done], status);
      }
    }
  }

  lemma NoEventTail(status: int)
    ensures ErrorTail(None, status) == [Failure(status), Done]
  {
  }

  lemma StreamedOk(l: Loop, t: Turn, all: seq<Turn>, s: Setting, w: Oracles)
    requires Taking(l, t, all, s, w) && t.headers && t.response.Stream?
    ensures match TurnStreamed(l, t, s, w) case Next(n) => LoopOk(n, all, s, w) case Finished(e) => EndedOk(e, all, s, w)
  {
    hide EndedOk, ErrorTail, SuccessTail, Eof, Read, ReadChunks, StartReading, IsStalled, Disconnects;
    var last := l.attempt + 1 >= s.cap;
    if Disconnects(t.response.chunks, t.response.broken, s.n, w.parse) {
      var r := ReadChunks(StartReading(s.n), t.response.chunks, w.parse);
      var l1 := l.(out := l.out + Datas(r.sent), status := 502, errorEvent := None);
      assert l1.out == Datas(r.sent);
      if r.sent != [] || last {
        EndsOk(l1, t, all, s, w, [Failure(502), Done], 502);
      }
    } else {
      var r := Read(t.response.chunks, s.n, w.parse);
      var l1 := l.(out := l.out + Datas(r.sent));
      assert l1.out == Datas(r.sent);
      if Eof(r.o, w.object_).Some? {
        var event := if r.o.errorEvent.Some? then Some(FromUpstream(r.o.errorEvent.value)) else None;
        if r.sent != [] || last {
          EndsOk(l1.(status := 502, errorEvent := event), t, all, s, w, ErrorTail(event, 502), 502);
        }
      } else {
        EndsOk(l1, t, all, s, w, SuccessTail(r, IsStalled(r, s, w)), 200);
      }
    }
  }

  lemma TurnOk(l: Loop, turns: seq<Turn>, all: seq<Turn>, s: Setting, w: Oracles)
    requires LoopOk(l, all, s, w) && turns != [] && turns == all[|l.tried|..]
    requires l.attempt < s.cap && turns[0].account !in l.tried
    ensures match TakeTurn(l, turns[0], s, w)
            case Next(n) => LoopOk(n, all, s, w) && |n.tried| == |l.tried| + 1
            case Finished(e) => EndedOk(e, all, s, w)
  {
    hide EndedOk, Eof, Read, ReadChunks, StartReading, IsStalled, Retryable, SuccessTail, ErrorTail, Disconnects;
    FlushOk(l, all, s, w);
    var t := turns[0];
    var l0 := Flush(l);
    var l1 := l0.(tried := l0.tried + [t.account]);
    assert t == all[|l.tried|];
    assert Taking(l1, t, all, s, w);
    if t.headers {
      if t.response.Refused? { RefusedOk(l1, t, all, s, w); } else { StreamedOk(l1, t, all, s, w); }
    }
  }

  lemma ExhaustedOk(l: Loop, all: seq<Turn>, s: Setting, w: Oracles)
    requires LoopOk(l, all, s, w)
    requires l.attempt == s.cap || |l.tried| == |all| || all[|l.tried|].account in l.tried
    ensures EndedOk(Exhausted(l), all, s, w)
  {
    assert [] + ErrorTail(l.errorEvent, l.status) == ErrorTail(l.errorEvent, l.status);
  }

  lemma {:induction false} LoopsOk(l: Loop, turns: seq<Turn>, all: seq<Turn>, s: Setting, w: Oracles)
    requires LoopOk(l, all, s, w) && turns == all[|l.tried|..]
    ensures EndedOk(Loops(l, turns, s, w), all, s, w)
    decreases |turns|
  {
    if l.attempt >= s.cap || turns == [] || turns[0].account in l.tried {
      ExhaustedOk(l, all, s, w);
    } else {
      TurnOk(l, turns, all, s, w);
      hide EndedOk, TakeTurn;
      var step := TakeTurn(l, turns[0], s, w);
      if step.Next? {
        LoopsOk(step.l, turns[1..], all, s, w);
      }
    }
  }

  /**
    Every run: accounts are tried in the order picked, each at most once and no more than the cap; all that the client sees
    comes from the turn that ended the run, followed by one ending; and exactly one row, the last, counts as usage.
   */
  lemma RunSafe(turns: seq<Turn>, s: Setting, w: Oracles)
    requires s.cap > 0
    ensures EndedOk(StreamUpstream(turns, s, w), turns, s, w)
  {
    hide EndedOk, Loops;
    LoopsOk(START, turns, turns, s, w);
  }

  // ---------------------------------------------------------------- finish reasons

  /** Finish reasons that a chunk gives to choice i. */
  function ChunkFinishes(cs: seq<Choice>, i: int): nat {
    if cs == [] then 0
    else
      (if cs[0].Choice? && (cs[0].index == Good(i) || (cs[0].index.Absent? && i == 0)) && NonEmpty(cs[0].finish).Some? then 1 else 0)
      + ChunkFinishes(cs[1..], i)
  }

  function TerminalFinishes(cs: seq<(int, string)>, i: int): nat {
    if cs == [] then 0 else (if cs[0].0 == i then 1 else 0) + TerminalFinishes(cs[1..], i)
  }

  /** Finish reasons for choice i that the client receives. */
  function ReceivedFinishes(out: seq<Out>, i: int): nat {
    if out == [] then 0
    else
      (match out[0]
       case Data(c) => if c.choices.Good? then ChunkFinishes(c.choices.value, i) else 0
       case Terminal(cs) => TerminalFinishes(cs, i)
       case _ => 0) + ReceivedFinishes(out[1..], i)
  }

  lemma {:induction false} ReceivedAppend(a: seq<Out>, b: seq<Out>, i: int)
    ensures ReceivedFinishes(a + b, i) == ReceivedFinishes(a, i) + ReceivedFinishes(b, i)
  {
    hide ChunkFinishes, TerminalFinishes;
    if a == [] {
      assert a + b == b;
    } else {
      assert (a + b)[0] == a[0] && (a + b)[1..] == a[1..] + b;
      ReceivedAppend(a[1..], b, i);
    }
  }

  lemma {:induction false} FinishesAppend(a: seq<Atom>, b: seq<Atom>, i: int)
    ensures Finishes(a + b, i) == Finishes(a, i) + Finishes(b, i)
    decreases |b|
  {
    if b == [] {
      assert a + b == a;
    } else {
      assert (a + b)[..|a + b| - 1] == a + b[..|b| - 1];
      FinishesAppend(a, b[..|b| - 1], i);
    }
  }

  lemma {:induction false} NoFinishNone(atoms: seq<Atom>, i: int)
    requires forall k | 0 <= k < |atoms| :: !atoms[k].Finish?
    ensures Finishes(atoms, i) == 0
  {
    if atoms != [] {
      NoFinishNone(atoms[..|atoms| - 1], i);
    }
  }

  lemma ChoiceFinishes(c: GoodChoice, i: int)
    ensures Finishes(ChoiceAtoms(c), i) == if c.reason.Some? && c.index == i then 1 else 0
  {
    hide ToolAtoms, Finishes;
    var finish := if c.reason.Some? then [Finish(c.index, c.reason.value)] else [];
    var rest := (if c.content != "" then [Text(c.index, c.content)] else [])
                + (if c.reasoning != "" then [Reason(c.index)] else []) + ToolAtoms(c.index, c.tools);
    ToolAtomsShape(c.index, c.tools);
    NoFinishNone(rest, i);
    NoFinishNone([Seen(c.index)], i);
    OneFinish(finish, i);
    FinishesAppend([Seen(c.index)], finish, i);
    FinishesAppend([Seen(c.index)] + finish, rest, i);
    assert ChoiceAtoms(c) == [Seen(c.index)] + finish + rest;
  }

  lemma OneFinish(atoms: seq<Atom>, i: int)
    requires |atoms| <= 1
    ensures Finishes(atoms, i) == if |atoms| == 1 && atoms[0].Finish? && atoms[0].i == i then 1 else 0
  {
    assert |atoms| == 1 ==> atoms[..0] == [];
  }

  lemma CheckedReason(c: Choice, n: nat, closed: set<int>, seen: set<int>)
    requires CheckChoice(c, n, closed, seen).Ok?
    ensures var v := CheckChoice(c, n, closed, seen).value;
            && c.Choice? && v.reason == NonEmpty(c.finish)
            && forall i :: (c.index == Good(i) || (c.index.Absent? && i == 0)) <==> v.index == i
  {
    hide CheckTools;
  }

  /** The raw chunk and its meaning agree on finish reasons. */
  lemma {:induction false} CheckedFinishes(cs: seq<Choice>, n: nat, seen: set<int>, i: int)
    requires CheckChoices(cs, n, {}, seen).Ok?
    ensures ChunkFinishes(cs, i) == Finishes(Atoms(CheckChoices(cs, n, {}, seen).value), i)
    decreases |cs|
  {
    hide CheckChoice, ChoiceAtoms, NonEmpty;
    if cs != [] {
      var first := CheckChoice(cs[0], n, {}, seen).value;
      CheckedReason(cs[0], n, {}, seen);
      CheckedFinishes(cs[1..], n, seen + {first.index}, i);
      var rest := CheckChoices(cs[1..], n, {}, seen + {first.index}).value;
      assert ([first] + rest)[1..] == rest;
      ChoiceFinishes(first, i);
      FinishesAppend(ChoiceAtoms(first), Atoms(rest), i);
    }
  }

  /** The finish reasons in forwarded chunks are those that the observer counted. */
  lemma {:induction false} DataFinishes(cs: seq<Chunk>, n: nat, i: int)
    requires forall k | 0 <= k < |cs| :: ValidChunk(cs[k], n)
    ensures ReceivedFinishes(Datas(cs), i) == Finishes(Log(cs, n), i)
  {
    hide Atoms, CheckChoices, ChunkFinishes;
    if cs != [] {
      var front, last := cs[..|cs| - 1], cs[|cs| - 1];
      DataFinishes(front, n, i);
      assert Datas(cs) == Datas(front) + [Data(last)];
      ReceivedAppend(Datas(front), [Data(last)], i);
      assert [Data(last)][1..] == [];
      CheckedFinishes(last.choices.value, n, {}, i);
      FinishesAppend(Log(front, n), Meaning(last, n), i);
    }
  }

  lemma {:induction false} MissingFinishes(o: Obs, from: nat, i: int)
    requires from <= o.n
    ensures var m := MissingFinish(o, from);
            && TerminalFinishes(Choose(o, m), i) == (if from <= i < o.n && i in o.p.finish && o.p.finish[i].None? then 1 else 0)
    decreases o.n - from
  {
    if from < o.n {
      var m, rest := MissingFinish(o, from), MissingFinish(o, from + 1);
      MissingFinishes(o, from + 1, i);
      if m != rest {
        assert m[1..] == rest && Choose(o, m)[1..] == Choose(o, rest);
      }
    }
  }

  lemma TailFinishes(r: Reading, i: int)
    ensures ReceivedFinishes(SuccessTail(r, false), i) ==
              ReceivedFinishes(Datas(r.held), i) + TerminalFinishes(Choose(r.o, MissingFinish(r.o, 0)), i)
  {
    hide ChunkFinishes;
    var missing := MissingFinish(r.o, 0);
    var made := if missing != [] then [Terminal(Choose(r.o, missing))] else [];
    ReceivedAppend(Datas(r.held), made, i);
    ReceivedAppend(Datas(r.held) + made, [Done], i);
    assert [Done][1..] == [] && (made != [] ==> made[1..] == []);
    assert missing == [] ==> Choose(r.o, missing) == [];
  }

  lemma DatasAppend(a: seq<Chunk>, b: seq<Chunk>)
    ensures Datas(a + b) == Datas(a) + Datas(b)
  {
  }

  /** After a successful attempt each requested choice gets exactly one finish reason. */
  lemma OneFinishEach(r: Reading, n: nat, object_: string -> bool, i: int)
    requires ReadingOk(r, n) && Eof(r.o, object_).None?
    ensures ReceivedFinishes(Datas(r.sent) + SuccessTail(r, false), i) == if 0 <= i < n then 1 else 0
  {
    hide ReceivedFinishes, Log, SuccessTail, Datas, ValidChunk, ChoicesComplete, HasTerminal;
    ReceivedAppend(Datas(r.sent), SuccessTail(r, false), i);
    TailFinishes(r, i);
    ReceivedAppend(Datas(r.sent), Datas(r.held), i);
    DatasAppend(r.sent, r.held);
    DataFinishes(r.sent + r.held, n, i);
    MissingFinishes(r.o, 0, i);
    assert TracksFinish(r.o.p, Log(r.sent + r.held, n), i);
  }

  // ---------------------------------------------------------------- main results

  predicate CarriesFinish(x: Out) {
    x.Terminal? || (x.Data? && HasTerminal(x.chunk))
  }

  /** The turn ended the run and passed the final check. */
  ghost predicate Passed(e: Ended, s: Setting, w: Oracles) {
    && e.last.Some? && e.last.value.response.Stream?
    && !Disconnects(e.last.value.response.chunks, e.last.value.response.broken, s.n, w.parse)
    && Eof(Read(e.last.value.response.chunks, s.n, w.parse).o, w.object_).None?
  }

  lemma EarlyCarriesNone(r: Reading, n: nat)
    requires ReadingOk(r, n)
    ensures forall k | 0 <= k < |Datas(r.sent)| :: !CarriesFinish(Datas(r.sent)[k])
  {
    hide HasTerminal;
  }

  /** No finish reason reaches the client unless the attempt that it comes from passed its final check. */
  lemma NoEarlyFinish(turns: seq<Turn>, s: Setting, w: Oracles)
    requires s.cap > 0
    ensures var e := StreamUpstream(turns, s, w); !Passed(e, s, w) ==> forall k | 0 <= k < |e.out| :: !CarriesFinish(e.out[k])
  {
    hide StreamUpstream, HasTerminal, Read, ReadChunks, StartReading, ReadingOk, Eof, SuccessTail, Disconnects;
    RunSafe(turns, s, w);
    var e := StreamUpstream(turns, s, w);
    if e.last.Some? && e.last.value.response.Stream? {
      var chunks := e.last.value.response.chunks;
      ReadOk(chunks, s.n, w.parse);
      EarlyCarriesNone(Read(chunks, s.n, w.parse), s.n);
      EarlyCarriesNone(ReadChunks(StartReading(s.n), chunks, w.parse), s.n);
    }
  }

  /**
    A run that passed, and is not turned into a stall failure, delivers the accepted chunks in order, then at most one made-up
    chunk, then the end mark, with exactly one finish reason for each requested choice.
   */
  lemma SuccessDelivers(turns: seq<Turn>, s: Setting, w: Oracles)
    requires s.cap > 0
    requires var e := StreamUpstream(turns, s, w);
             Passed(e, s, w) && !IsStalled(Read(e.last.value.response.chunks, s.n, w.parse), s, w)
    ensures var e := StreamUpstream(turns, s, w); var r := Read(e.last.value.response.chunks, s.n, w.parse);
            var missing := MissingFinish(r.o, 0);
            && e.out == Datas(r.sent + r.held) + (if missing != [] then [Terminal(Choose(r.o, missing))] else []) + [Done]
            && forall i :: ReceivedFinishes(e.out, i) == if 0 <= i < s.n then 1 else 0
  {
    hide StreamUpstream, HasTerminal, Read, ReadingOk, Eof, ReceivedFinishes, IsStalled, Disconnects;
    RunSafe(turns, s, w);
    var e := StreamUpstream(turns, s, w);
    var r := Read(e.last.value.response.chunks, s.n, w.parse);
    ReadOk(e.last.value.response.chunks, s.n, w.parse);
    DatasAppend(r.sent, r.held);
    forall i ensures ReceivedFinishes(e.out, i) == if 0 <= i < s.n then 1 else 0 {
      OneFinishEach(r, s.n, w.object_, i);
    }
  }
}
