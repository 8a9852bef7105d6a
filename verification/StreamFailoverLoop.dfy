/** The failover loop with its decoder and observer objects, one pair for each attempt. */
module StreamFailoverLoop {
  import opened Options
  import opened SseDecoding
  import opened SseDecoder
  import opened ChatObserver
  import opened ChatStreamObservers
  import opened StreamFailover
  import opened StreamFailoverTheorems

  /** One decoded event: observe it, and send or hold what is let through. */
  method TakeEvent(observer: ChatStreamObserver, data: Bytes, parse: Bytes -> Wire, sent: seq<Chunk>, held: seq<Chunk>,
                   heldBytes: nat, ghost r: Reading)
    returns (sent1: seq<Chunk>, held1: seq<Chunk>, heldBytes1: nat)
    requires r.o == observer.View() && r.sent == sent && r.held == held && r.heldBytes == heldBytes
    modifies observer
    ensures Take(r, data, parse) ==
              Reading(r.dec, observer.View(), sent1, held1, heldBytes1, r.stop, r.seen + [data])
  {
    hide Observe, HasTerminal;
    sent1, held1, heldBytes1 := sent, held, heldBytes;
    var obj := observer.ObserveEvent(parse(data));
    if obj.Some? {
      if held != [] || HasTerminal(obj.value) {
        held1 := held + [obj.value];
        heldBytes1 := heldBytes + obj.value.encoded;
        if heldBytes1 > LIMIT {
          observer.parserError := Some(TerminalTooLong);
        }
      } else {
        sent1 := sent + [obj.value];
      }
    }
  }

  method TakeEventsUntilOver(observer: ChatStreamObserver, events: seq<Bytes>, parse: Bytes -> Wire, sent: seq<Chunk>,
                             held: seq<Chunk>, heldBytes: nat, ghost r: Reading)
    returns (sent1: seq<Chunk>, held1: seq<Chunk>, heldBytes1: nat, stop: bool, ghost seen: seq<Bytes>)
    requires r.o == observer.View() && r.sent == sent && r.held == held && r.heldBytes == heldBytes && !r.stop
    modifies observer
    ensures TakeUntilOver(r, events, parse) == Reading(r.dec, observer.View(), sent1, held1, heldBytes1, stop, seen)
  {
    hide Observe, HasTerminal, Take;
    sent1, held1, heldBytes1, stop, seen := sent, held, heldBytes, false, r.seen;
    for k := 0 to |events|
      invariant !stop
      invariant TakeUntilOver(r, events, parse) ==
                  TakeUntilOver(Reading(r.dec, observer.View(), sent1, held1, heldBytes1, false, seen), events[k..], parse)
    {
      ghost var at := Reading(r.dec, observer.View(), sent1, held1, heldBytes1, false, seen);
      assert events[k..][0] == events[k] && events[k..][1..] == events[k + 1..];
      sent1, held1, heldBytes1 := TakeEvent(observer, events[k], parse, sent1, held1, heldBytes1, at);
      seen := seen + [events[k]];
      if observer.seenDone || observer.parserError.Some? || observer.malformedDataEvent || observer.errorEvent.Some? {
        stop := true;
        return;
      }
    }
  }

  method TakeEvents(observer: ChatStreamObserver, events: seq<Bytes>, parse: Bytes -> Wire, sent: seq<Chunk>,
                    held: seq<Chunk>, heldBytes: nat, ghost r: Reading)
    returns (sent1: seq<Chunk>, held1: seq<Chunk>, heldBytes1: nat)
    requires r.o == observer.View() && r.sent == sent && r.held == held && r.heldBytes == heldBytes
    modifies observer
    ensures TakeAll(r, events, parse) == Reading(r.dec, observer.View(), sent1, held1, heldBytes1, r.stop, r.seen + events)
  {
    hide Observe, HasTerminal, Take;
    sent1, held1, heldBytes1 := sent, held, heldBytes;
    assert r.seen + events[..0] == r.seen;
    for k := 0 to |events|
      invariant TakeAll(r, events, parse) ==
                  TakeAll(Reading(r.dec, observer.View(), sent1, held1, heldBytes1, r.stop, r.seen + events[..k]), events[k..], parse)
    {
      ghost var at := Reading(r.dec, observer.View(), sent1, held1, heldBytes1, r.stop, r.seen + events[..k]);
      assert events[k..][0] == events[k] && events[k..][1..] == events[k + 1..];
      assert r.seen + events[..k + 1] == r.seen + events[..k] + [events[k]];
      sent1, held1, heldBytes1 := TakeEvent(observer, events[k], parse, sent1, held1, heldBytes1, at);
    }
    assert events[..|events|] == events;
  }

  lemma FedEvents(d: Decoder, e: Decoder, events: seq<Bytes>)
    requires e.fields.events == d.fields.events + events
    ensures NewEvents(d, e) == events
  {
  }

  method ReadAttempt(chunks: seq<Bytes>, broken: bool, n: Field<int>, parse: Bytes -> Wire)
    returns (observer: ChatStreamObserver, sent: seq<Chunk>, held: seq<Chunk>, cut: bool)
    ensures fresh(observer) && cut == Disconnects(chunks, broken, Expected(n), parse)
    ensures var r := if cut then ReadChunks(StartReading(Expected(n)), chunks, parse) else Read(chunks, Expected(n), parse);
            observer.View() == r.o && sent == r.sent && held == r.held
  {
    hide Observe, HasTerminal, Take, FeedOf, FinishOf, TakeUntilOver, TakeAll, NewEvents;
    observer := new ChatStreamObserver(n);
    var decoder := new SseEventDecoder();
    sent, held := [], [];
    var heldBytes, stop := 0, false;
    ghost var seen: seq<Bytes> := [];
    ghost var start := StartReading(Expected(n));
    var i := 0;
    while i < |chunks| && !stop
      invariant 0 <= i <= |chunks| && fresh(observer) && fresh(decoder)
      invariant ReadChunks(start, chunks, parse) ==
                  ReadChunks(Reading(decoder.View(), observer.View(), sent, held, heldBytes, stop, seen), chunks[i..], parse)
    {
      assert chunks[i..][0] == chunks[i] && chunks[i..][1..] == chunks[i + 1..];
      if chunks[i] != [] {
        ghost var at := Reading(decoder.View(), observer.View(), sent, held, heldBytes, stop, seen);
        var events := decoder.Feed(chunks[i]);
        FedEvents(at.dec, decoder.View(), events);
        sent, held, heldBytes, stop, seen := TakeEventsUntilOver(observer, events, parse, sent, held, heldBytes, at.(dec := decoder.View()));
        if decoder.parserError.Some? && !observer.seenDone {
          observer.parserError := Some(Undecodable);
          stop := true;
        }
      }
      i := i + 1;
    }
    cut := broken && !stop;
    if cut {
      return;
    }
    ghost var at := Reading(decoder.View(), observer.View(), sent, held, heldBytes, stop, seen);
    if !stop {
      var events := decoder.Finish();
      FedEvents(at.dec, decoder.View(), events);
      sent, held, heldBytes := TakeEvents(observer, events, parse, sent, held, heldBytes, at.(dec := decoder.View()));
    }
    if decoder.parserError.Some? && !observer.seenDone {
      observer.parserError := Some(Undecodable);
    }
  }

  /** The chunks that end a successful attempt. */
  method FinishStream(observer: ChatStreamObserver, held: seq<Chunk>, stalled: bool, ghost r: Reading) returns (tail: seq<Out>)
    requires r.o == observer.View() && r.held == held
    ensures tail == SuccessTail(r, stalled)
  {
    if stalled {
      return [Stalled, Done];
    }
    tail := [];
    for k := 0 to |held|
      invariant tail == Datas(held)[..k]
    {
      tail := tail + [Data(held[k])];
    }
    var missing := MissingFinish(observer.View(), 0);
    if missing != [] {
      tail := tail + [Terminal(Choose(observer.View(), missing))];
    }
    tail := tail + [Done];
    assert Datas(held)[..|held|] == Datas(held);
    assert Datas(held) + [] + [Done] == Datas(held) + [Done];
  }

  /** One pass of the loop over an account with headers and a stream; `ended` says that the run is over. */
  method StreamTurn(t: Turn, n: Field<int>, s: Setting, w: Oracles, last: bool, ghost l: Loop)
    returns (sent: seq<Out>, tail: seq<Out>, status: int, errorEvent: Option<ErrorEvent>, ended: bool)
    requires t.response.Stream? && s.n == Expected(n) && last == (l.attempt + 1 >= s.cap)
    ensures TurnStreamed(l, t, s, w) ==
              if ended then Finished(EndWith(l.(out := l.out + sent), t, tail, status))
              else Next(Again(l.(out := l.out + sent, status := status, errorEvent := errorEvent), Some(Pending(t.account, status))))
  {
    hide ReadChunks, Read, SuccessTail, Eof, Disconnects;
    var observer, chunks, held, cut := ReadAttempt(t.response.chunks, t.response.broken, n, w.parse);
    sent := Datas(chunks);
    if cut {
      status, errorEvent := 502, None;
      ended := chunks != [] || last;
      tail := [Failure(502), Done];
      return;
    }
    ghost var r := Read(t.response.chunks, s.n, w.parse);
    var eofError := Eof(observer.View(), w.object_);
    if eofError.Some? {
      status := 502;
      errorEvent := if observer.errorEvent.Some? then Some(FromUpstream(observer.errorEvent.value)) else None;
      ended := chunks != [] || last;
      tail := ErrorTail(errorEvent, 502);
      return;
    }
    status, errorEvent, ended := 200, None, true;
    var stalled := s.failStalled && w.stall(FirstReason(observer.View(), observer.order), observer.toolCallChoices != {}, observer.contentParts);
    tail := FinishStream(observer, held, stalled, r);
  }

  method RefusedTurn(t: Turn, s: Setting, last: bool, ghost l: Loop)
    returns (tail: seq<Out>, status: int, errorEvent: Option<ErrorEvent>, ended: bool)
    requires t.response.Refused? && last == (l.attempt + 1 >= s.cap)
    ensures TurnRefused(l, t, s) ==
              if ended then Finished(EndWith(l, t, tail, status))
              else Next(Again(l.(status := status, errorEvent := errorEvent), Some(Pending(t.account, status))))
  {
    hide Retryable;
    if t.response.ruling.Some? {
      var ruled := t.response.ruling.value;
      status := ruled.status;
      errorEvent := if ruled.detail.Some? then Some(FromRule(ruled.detail.value)) else None;
      ended := ruled.stop || last;
      tail := ErrorTail(errorEvent, status);
    } else {
      status, errorEvent := t.response.status, None;
      ended := !Retryable(status) || last;
      tail := [Failure(status), Done];
    }
  }

  /** One pass of the loop once the account counts as tried. */
  method OneTurn(t: Turn, n: Field<int>, s: Setting, w: Oracles, last: bool, ghost l: Loop)
    returns (sent: seq<Out>, tail: seq<Out>, status: int, errorEvent: Option<ErrorEvent>, pending: Option<Pending>, ended: bool)
    requires s.n == Expected(n) && last == (l.attempt + 1 >= s.cap)
    ensures (if !t.headers then Next(Again(l.(status := 401, errorEvent := None), None))
             else if t.response.Refused? then TurnRefused(l, t, s) else TurnStreamed(l, t, s, w)) ==
              if ended then Finished(EndWith(l.(out := l.out + sent), t, tail, status))
              else Next(Again(l.(out := l.out + sent, status := status, errorEvent := errorEvent), pending))
  {
    hide TurnRefused, TurnStreamed;
    sent, tail, ended := [], [], false;
    assert l.out + [] == l.out;
    if !t.headers {
      status, errorEvent, pending := 401, None, None;
      return;
    }
    if t.response.Refused? {
      tail, status, errorEvent, ended := RefusedTurn(t, s, last, l);
    } else {
      sent, tail, status, errorEvent, ended := StreamTurn(t, n, s, w, last, l);
    }
    pending := Some(Pending(t.account, status));
  }

  method RunStreamUpstream(turns: seq<Turn>, configured: int, n: Field<int>, failStalled: bool, w: Oracles)
    returns (out: seq<Out>, rows: seq<Row>, triedIds: seq<int>)
    ensures var run := StreamUpstream(turns, Setting(Cap(configured), Expected(n), failStalled), w);
            out == run.out && rows == run.rows && triedIds == run.tried
  {
    hide TurnStreamed, TurnRefused, Exhausted, Cap;
    var s := Setting(Cap(configured), Expected(n), failStalled);
    out, rows, triedIds := [], [], [];
    var pending: Option<Pending> := None;
    var status, errorEvent: Option<ErrorEvent> := 503, None;
    var attempt := 0;
    while attempt < s.cap && attempt < |turns|
      invariant attempt <= |turns|
      invariant StreamUpstream(turns, s, w) ==
                  Loops(Loop(out, rows, triedIds, pending, attempt, status, errorEvent), turns[attempt..], s, w)
    {
      var t := turns[attempt];
      assert turns[attempt..][0] == t && turns[attempt..][1..] == turns[attempt + 1..];
      if t.account in triedIds {
        break;
      }
      if pending.Some? {
        rows := rows + [Row(Some(pending.value.account), pending.value.status, true)];
      }
      triedIds := triedIds + [t.account];
      ghost var l := Loop(out, rows, triedIds, None, attempt, status, errorEvent);
      var sent, tail, ended;
      sent, tail, status, errorEvent, pending, ended := OneTurn(t, n, s, w, attempt + 1 >= s.cap, l);
      out := out + sent;
      if ended {
        rows := rows + [Row(Some(t.account), status, false)];
        out := out + tail;
        return;
      }
      attempt := attempt + 1;
    }
    AfterLoop(Loop(out, rows, triedIds, pending, attempt, status, errorEvent));
    if pending.Some? {
      rows := rows + [Row(Some(pending.value.account), pending.value.status, false)];
    } else {
      rows := rows + [Row(if triedIds == [] then None else Some(triedIds[|triedIds| - 1]), status, false)];
    }
    out := out + ErrorTail(errorEvent, status);
  }

  lemma AfterLoop(l: Loop)
    ensures Exhausted(l) ==
              Ended(l.out + ErrorTail(l.errorEvent, l.status),
                    l.rows + [if l.pending.Some? then Row(Some(l.pending.value.account), l.pending.value.status, false)
                              else Row(if l.tried == [] then None else Some(l.tried[|l.tried| - 1]), l.status, false)], l.tried, None)
  {
  }
}
