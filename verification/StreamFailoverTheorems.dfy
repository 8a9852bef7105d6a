/** What a client of a streaming request can see, whatever the accounts and the network do. */
module StreamFailoverTheorems {
  import opened Options
  import opened SseDecoding
  import opened ChatObserver
  import opened ChatObserverTheorems
  import opened StreamFailover

  // ---------------------------------------------------------------- one attempt

  predicate ValidChunk(c: Chunk, n: nat) {
    c.choices.Good? && CheckChoices(c.choices.value, n, {}, {}).Ok?
  }

  ghost predicate ReadingOk(r: Reading, n: nat) {
    && r.o.n == n && Faithful(Watch(r.o, r.sent + r.held))
    && (forall k | 0 <= k < |r.sent| :: !HasTerminal(r.sent[k]) && ValidChunk(r.sent[k], n))
    && (forall k | 0 <= k < |r.held| :: ValidChunk(r.held[k], n))
    && (r.held != [] ==> HasTerminal(r.held[0]))
  }

  lemma AcceptedValid(o: Obs, e: Wire)
    requires Observe(o, e).1.Some?
    ensures ValidChunk(Observe(o, e).1.value, o.n)
  {
    hide Atoms, ApplyAll, CheckChoices, Merged;
    var c := e.chunk;
    MergedKeeps(o, c);
    CheckedFresh(c.choices.value, o.n, o.p.closed, {}, {});
    CleanChoicesCheck(c.choices.value, Clean(c).choices.value, o.n, {}, {});
  }

  lemma TakeOk(r: Reading, data: Bytes, parse: Bytes -> Wire, n: nat)
    requires ReadingOk(r, n)
    ensures ReadingOk(Take(r, data, parse), n)
  {
    hide Observe, HasTerminal, ValidChunk, Tracks, Within, Log;
    var e := parse(data);
    var w := Watch(r.o, r.sent + r.held);
    WatchOneFaithful(w, e);
    var obj := Observe(r.o, e).1;
    if obj.Some? {
      AcceptedValid(r.o, e);
      assert r.sent + r.held + [obj.value] == r.sent + (r.held + [obj.value]);
      assert r.held == [] ==> r.sent + r.held + [obj.value] == r.sent + [obj.value] + r.held;
    } else {
      assert r.sent + r.held + [] == r.sent + r.held;
    }
  }

  lemma {:induction false} TakeUntilOverOk(r: Reading, events: seq<Bytes>, parse: Bytes -> Wire, n: nat)
    requires ReadingOk(r, n)
    ensures ReadingOk(TakeUntilOver(r, events, parse), n)
    decreases |events|
  {
    hide ReadingOk, Take, Over;
    if events != [] {
      TakeOk(r, events[0], parse, n);
      var r1 := Take(r, events[0], parse);
      StopOk(r1, n);
      TakeUntilOverOk(r1, events[1..], parse, n);
    }
  }

  lemma StopOk(r: Reading, n: nat)
    requires ReadingOk(r, n)
    ensures ReadingOk(r.(stop := true), n) && forall dec :: ReadingOk(r.(dec := dec), n)
    ensures ReadingOk(CheckDecoder(r), n)
  {
  }

  lemma {:induction false} TakeAllOk(r: Reading, events: seq<Bytes>, parse: Bytes -> Wire, n: nat)
    requires ReadingOk(r, n)
    ensures ReadingOk(TakeAll(r, events, parse), n)
    decreases |events|
  {
    hide ReadingOk, Take;
    if events != [] {
      TakeOk(r, events[0], parse, n);
      TakeAllOk(Take(r, events[0], parse), events[1..], parse, n);
    }
  }

  lemma {:induction false} ReadChunksOk(r: Reading, chunks: seq<Bytes>, parse: Bytes -> Wire, n: nat)
    requires ReadingOk(r, n)
    ensures ReadingOk(ReadChunks(r, chunks, parse), n)
    decreases |chunks|
  {
    hide ReadingOk, TakeUntilOver, FeedOf, NewEvents, CheckDecoder;
    if chunks != [] && !r.stop {
      if chunks[0] != [] {
        StopOk(r, n);
        var r1 := r.(dec := FeedOf(r.dec, chunks[0]));
        var events := NewEvents(r.dec, r1.dec);
        TakeUntilOverOk(r1, events, parse, n);
        StopOk(TakeUntilOver(r1, events, parse), n);
      }
      ReadChunksOk(ReadChunk(r, chunks[0], parse), chunks[1..], parse, n);
    }
  }

  lemma StartOk(n: nat)
    ensures ReadingOk(StartReading(n), n)
  {
    FaithfulAtStart(n);
  }

  /** What is sent early carries no finish reason, and what is sent and held are the accepted chunks in order. */
  lemma ReadOk(chunks: seq<Bytes>, n: nat, parse: Bytes -> Wire)
    ensures ReadingOk(Read(chunks, n, parse), n)
    ensures ReadingOk(ReadChunks(StartReading(n), chunks, parse), n)
  {
    hide ReadingOk, FinishOf, NewEvents, TakeAll, CheckDecoder, ReadChunks;
    StartOk(n);
    ReadChunksOk(StartReading(n), chunks, parse, n);
    var r := ReadChunks(StartReading(n), chunks, parse);
    StopOk(r, n);
    var r1 := r.(dec := FinishOf(r.dec));
    var events := NewEvents(r.dec, r1.dec);
    TakeAllOk(r1, events, parse, n);
    StopOk(TakeAll(r1, events, parse), n);
  }

  // ---------------------------------------------------------------- the chunks are those of the bytes

  function Parsed(events: seq<Bytes>, parse: Bytes -> Wire): (r: seq<Wire>)
    ensures |r| == |events|
  {
    seq(|events|, k requires 0 <= k < |events| => parse(events[k]))
  }

  /** Until something goes wrong, the observer has seen exactly these events. */
  ghost predicate Traced(r: Reading, n: nat, parse: Bytes -> Wire) {
    r.o.parserError.None? ==> WatchAll(Watch(NewObs(n), []), Parsed(r.seen, parse)) == Watch(r.o, r.sent + r.held)
  }

  lemma {:induction false} WatchSnoc(w: Watch, es: seq<Wire>, e: Wire)
    ensures WatchAll(w, es + [e]) == WatchOne(WatchAll(w, es), e)
    decreases |es|
  {
    hide WatchOne;
    if es == [] {
      assert [e][1..] == [] && es + [e] == [e];
    } else {
      assert (es + [e])[0] == es[0] && (es + [e])[1..] == es[1..] + [e];
      WatchSnoc(WatchOne(w, es[0]), es[1..], e);
    }
  }

  lemma ErrorsStay(o: Obs, e: Wire)
    ensures o.parserError.Some? ==> Observe(o, e).0.parserError.Some?
  {
    hide CheckChoices, ApplyAll, Atoms;
  }

  lemma TakeTraced(r: Reading, data: Bytes, n: nat, parse: Bytes -> Wire)
    requires Traced(r, n, parse)
    ensures Traced(Take(r, data, parse), n, parse)
  {
    hide Observe, WatchAll, HasTerminal;
    ErrorsStay(r.o, parse(data));
    if r.o.parserError.None? {
      assert Parsed(r.seen + [data], parse) == Parsed(r.seen, parse) + [parse(data)];
      WatchSnoc(Watch(NewObs(n), []), Parsed(r.seen, parse), parse(data));
      var obj := Observe(r.o, parse(data)).1;
      if obj.Some? {
        assert r.sent + r.held + [obj.value] == r.sent + (r.held + [obj.value]);
        assert r.held == [] ==> r.sent + r.held + [obj.value] == r.sent + [obj.value] + r.held;
      } else {
        assert r.sent + r.held + [] == r.sent + r.held;
      }
    }
  }

  /** What the reading saw of the decoder's events: all of them, or a part if it stopped. */
  predicate SeenOk(r: Reading) {
    r.seen <= r.dec.fields.events && (!r.stop ==> r.seen == r.dec.fields.events)
  }

  lemma {:induction false} TakeUntilOverTraced(r: Reading, events: seq<Bytes>, n: nat, parse: Bytes -> Wire)
    requires Traced(r, n, parse) && !r.stop
    ensures var q := TakeUntilOver(r, events, parse);
            && Traced(q, n, parse) && q.dec == r.dec && r.seen <= q.seen <= r.seen + events
            && (!q.stop ==> q.seen == r.seen + events)
    decreases |events|
  {
    hide Traced, Observe, Over, HasTerminal;
    if events == [] {
      assert r.seen + events == r.seen;
    } else {
      TakeTraced(r, events[0], n, parse);
      var r1 := Take(r, events[0], parse);
      assert r.seen + events == r1.seen + events[1..];
      StopTraced(r1, n, parse);
      if !Over(r1.o) {
        TakeUntilOverTraced(r1, events[1..], n, parse);
      }
    }
  }

  lemma StopTraced(r: Reading, n: nat, parse: Bytes -> Wire)
    requires Traced(r, n, parse)
    ensures Traced(r.(stop := true), n, parse) && Traced(CheckDecoder(r), n, parse) && forall dec :: Traced(r.(dec := dec), n, parse)
  {
    hide WatchAll;
  }

  lemma {:induction false} TakeAllTraced(r: Reading, events: seq<Bytes>, n: nat, parse: Bytes -> Wire)
    requires Traced(r, n, parse)
    ensures var q := TakeAll(r, events, parse);
            Traced(q, n, parse) && q.dec == r.dec && q.stop == r.stop && q.seen == r.seen + events
    decreases |events|
  {
    hide Traced, Observe, HasTerminal;
    if events == [] {
      assert r.seen + events == r.seen;
    } else {
      TakeTraced(r, events[0], n, parse);
      var r1 := Take(r, events[0], parse);
      assert r.seen + events == r1.seen + events[1..];
      TakeAllTraced(r1, events[1..], n, parse);
    }
  }

  lemma AcceptGrows(f: Fields, line: Bytes)
    requires f.error.None?
    ensures f.events <= AcceptLine(f, line).events
  {
    hide Join;
  }

  lemma {:induction false} DrainGrows(d: Decoder, final: bool)
    ensures d.fields.events <= Drain(d, final).fields.events
    decreases |d.buffer|
  {
    hide AcceptLine, BreakAt;
    if d.fields.error.None? {
      var (line, rest) := TakeLineOf(d.buffer, final);
      if line.Some? {
        AcceptGrows(d.fields, line.value);
        DrainGrows(Decoder(rest, AcceptLine(d.fields, line.value)), final);
      }
    }
  }

  lemma FeedGrows(d: Decoder, chunk: Bytes)
    ensures d.fields.events <= FeedOf(d, chunk).fields.events
    ensures d.fields.events + NewEvents(d, FeedOf(d, chunk)) == FeedOf(d, chunk).fields.events
  {
    DrainGrows(d.(buffer := d.buffer + chunk), false);
    hide Drain, Join;
  }

  lemma FinishGrows(d: Decoder)
    ensures d.fields.events <= FinishOf(d).fields.events
    ensures d.fields.events + NewEvents(d, FinishOf(d)) == FinishOf(d).fields.events
  {
    DrainGrows(d, true);
    hide Drain, Join;
  }

  /** The chunks that are not empty; empty ones are skipped. */
  function Filled(chunks: seq<Bytes>): seq<Bytes> {
    if chunks == [] then [] else (if chunks[0] == [] then [] else [chunks[0]]) + Filled(chunks[1..])
  }

  lemma {:induction false} ReadChunksTraced(r: Reading, chunks: seq<Bytes>, n: nat, parse: Bytes -> Wire) returns (k: nat)
    requires Traced(r, n, parse) && SeenOk(r)
    ensures var q := ReadChunks(r, chunks, parse);
            && Traced(q, n, parse) && SeenOk(q) && k <= |Filled(chunks)| && q.dec == FeedAll(r.dec, Filled(chunks)[..k])
            && (!q.stop ==> k == |Filled(chunks)|)
    decreases |chunks|
  {
    hide Traced, TakeUntilOver, FeedOf, NewEvents;
    k := 0;
    assert Filled(chunks)[..0] == [];
    if chunks != [] && !r.stop {
      if chunks[0] == [] {
        assert Filled(chunks) == Filled(chunks[1..]);
        k := ReadChunksTraced(r, chunks[1..], n, parse);
      } else {
        var dec := FeedOf(r.dec, chunks[0]);
        var events := NewEvents(r.dec, dec);
        FeedGrows(r.dec, chunks[0]);
        StopTraced(r, n, parse);
        TakeUntilOverTraced(r.(dec := dec), events, n, parse);
        var r1 := TakeUntilOver(r.(dec := dec), events, parse);
        StopTraced(r1, n, parse);
        k := ReadChunksTraced(ReadChunk(r, chunks[0], parse), chunks[1..], n, parse);
        k := k + 1;
        assert Filled(chunks)[0] == chunks[0];
        assert Filled(chunks)[..k][1..] == Filled(chunks[1..])[..k - 1];
      }
    }
  }

  lemma {:induction false} FilledFlatten(chunks: seq<Bytes>)
    ensures Flatten(Filled(chunks)) == Flatten(chunks)
  {
    if chunks != [] {
      FilledFlatten(chunks[1..]);
      if chunks[0] == [] {
        assert Filled(chunks) == Filled(chunks[1..]);
        assert [] + Flatten(chunks[1..]) == Flatten(chunks[1..]);
      } else {
        assert Filled(chunks)[0] == chunks[0] && Filled(chunks)[1..] == Filled(chunks[1..]);
      }
    }
  }

  lemma {:induction false} FeedAllGrows(d: Decoder, chunks: seq<Bytes>, k: nat)
    requires k <= |chunks|
    ensures FeedAll(d, chunks[..k]).fields.events <= FeedAll(d, chunks).fields.events
    decreases |chunks|
  {
    hide FeedOf;
    if k == 0 {
      FeedAllMore(d, chunks);
    } else {
      assert chunks[..k][1..] == chunks[1..][..k - 1];
      FeedAllGrows(FeedOf(d, chunks[0]), chunks[1..], k - 1);
    }
  }

  lemma {:induction false} FeedAllMore(d: Decoder, chunks: seq<Bytes>)
    ensures d.fields.events <= FeedAll(d, chunks).fields.events
    decreases |chunks|
  {
    if chunks != [] {
      FeedGrows(d, chunks[0]);
      hide FeedOf;
      FeedAllMore(FeedOf(d, chunks[0]), chunks[1..]);
    }
  }

  /**
    The chunks of an attempt that did not fail are exactly those that the observer lets through from the decoded events of
    the bytes, up to the event where the reading stopped.
   */
  lemma ReadMeans(chunks: seq<Bytes>, n: nat, parse: Bytes -> Wire) returns (events: seq<Bytes>)
    ensures var r := Read(chunks, n, parse);
            && events <= Run(Filled(chunks)).events && (!r.stop ==> events == Run(Filled(chunks)).events)
            && (r.o.parserError.None? ==> WatchAll(Watch(NewObs(n), []), Parsed(events, parse)) == Watch(r.o, r.sent + r.held))
    ensures Flatten(Filled(chunks)) == Flatten(chunks)
  {
    hide FeedAll, FinishOf, NewEvents, ReadChunks, TakeAll, WatchAll;
    FilledFlatten(chunks);
    var start := StartReading(n);
    assert Parsed([], parse) == [];
    WatchNothing(Watch(NewObs(n), []));
    var k := ReadChunksTraced(start, chunks, n, parse);
    var r := ReadChunks(start, chunks, parse);
    FeedAllGrows(NewDecoder, Filled(chunks), k);
    var full := FeedAll(NewDecoder, Filled(chunks));
    FinishGrows(full);
    assert Filled(chunks)[..|Filled(chunks)|] == Filled(chunks);
    FinishGrows(r.dec);
    StopTraced(r, n, parse);
    var r1 := r.(dec := FinishOf(r.dec));
    TakeAllTraced(r1, NewEvents(r.dec, r1.dec), n, parse);
    StopTraced(TakeAll(r1, NewEvents(r.dec, r1.dec), parse), n, parse);
    events := Read(chunks, n, parse).seen;
  }

  lemma WatchNothing(w: Watch)
    ensures WatchAll(w, []) == w
  {
  }
}
