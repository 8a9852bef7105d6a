/** The imperative decoders: the class of proxy.py and the generator of responses.py. */
module SseDecoder {
  import opened Options
  import opened SseDecoding

  class SseEventDecoder {
    var parserError: Option<DecodeError>
    var buffer: Bytes
    var dataLines: seq<Bytes>
    var eventBytes: nat
    ghost var log: seq<Bytes>  // every event returned so far

    ghost function View(): Decoder
      reads this
    {
      Decoder(buffer, Fields(dataLines, eventBytes, log, parserError))
    }

    constructor ()
      ensures View() == NewDecoder
    {
      parserError, buffer, dataLines, eventBytes, log := None, [], [], 0, [];
    }

    method Feed(chunk: Bytes) returns (events: seq<Bytes>)
      modifies this
      ensures View() == FeedOf(old(View()), chunk)
      ensures log == old(log) + events
    {
      events := [];
      if parserError.Some? {
        return;
      }
      buffer := buffer + chunk;
      events := TakeEvents(false);
      if parserError.None? && |buffer| > LIMIT {
        Fail(LineTooLong);
      }
    }

    method Finish() returns (events: seq<Bytes>)
      modifies this
      ensures View() == FinishOf(old(View()))
      ensures log == old(log) + events
    {
      events := [];
      if parserError.Some? {
        return;
      }
      events := TakeEvents(true);
      if parserError.Some? {
        return;
      }
      if dataLines != [] {
        var event := JoinLines(dataLines);
        events, log := events + [event], log + [event];
        dataLines, eventBytes := [], 0;
      }
    }

    /** The loop that `feed` and `finish` share. */
    method TakeEvents(final: bool) returns (events: seq<Bytes>)
      requires parserError.None?
      modifies this
      ensures View() == Drain(old(View()), final)
      ensures log == old(log) + events
    {
      events := [];
      while parserError.None?
        invariant Drain(View(), final) == Drain(old(View()), final)
        invariant parserError.Some? ==> buffer == []
        invariant log == old(log) + events
        decreases parserError.None?, |buffer|
      {
        ghost var before := View();
        var line := TakeLine(final);
        if line.None? {
          break;
        }
        TakeLineShortens(before.buffer, final);
        var event := ConsumeLine(line.value);
        if event.Some? {
          events := events + [event.value];
        }
      }
    }

    method TakeLine(final: bool) returns (line: Option<Bytes>)
      modifies `buffer
      ensures (line, buffer) == TakeLineOf(old(buffer), final)
    {
      var index := 0;
      while index < |buffer|
        invariant index <= |buffer| && NoBreak(buffer[..index]) && buffer == old(buffer)
      {
        var value := buffer[index];
        if IsBreak(value) {
          BreakIsAt(buffer, index);
        }
        if value == LF {
          line := Some(buffer[..index]);
          buffer := buffer[index + 1..];
          return;
        }
        if value == CR {
          if index + 1 == |buffer| && !final {
            return None;
          }
          var end := if index + 1 < |buffer| && buffer[index + 1] == LF then index + 2 else index + 1;
          line := Some(buffer[..index]);
          buffer := buffer[end..];
          return;
        }
        assert buffer[..index + 1] == buffer[..index] + [value];
        index := index + 1;
      }
      NoBreakAt(buffer);
      if final && buffer != [] {
        line := Some(buffer);
        buffer := [];
        return;
      }
      line := None;
    }

    method ConsumeLine(line: Bytes) returns (event: Option<Bytes>)
      requires parserError.None?
      modifies this
      ensures View().fields == AcceptLine(old(View().fields), line)
      ensures buffer == if parserError.Some? then [] else old(buffer)
      ensures log == old(log) + if event.Some? then [event.value] else []
    {
      event := None;
      if |line| > LIMIT {
        Fail(LineTooLong);
        return;
      }
      if line == [] {
        if dataLines == [] {
          return;
        }
        var joined := JoinLines(dataLines);
        event, log := Some(joined), log + [joined];
        dataLines, eventBytes := [], 0;
        return;
      }
      if !IsDataLine(line) {
        return;
      }
      var data := line[5..];
      if data != [] && data[0] == 32 {
        data := data[1..];
      }
      assert data == DataOf(line);
      eventBytes := eventBytes + |data| + 1;
      if eventBytes > LIMIT {
        Fail(EventTooLong);
        return;
      }
      dataLines := dataLines + [data];
    }

    method Fail(e: DecodeError)
      modifies this
      ensures View() == Decoder([], old(View()).fields.Fail(e))
    {
      parserError, buffer, dataLines, eventBytes := Some(e), [], [], 0;
    }
  }

  method JoinLines(lines: seq<Bytes>) returns (joined: Bytes)
    requires lines != []
    ensures joined == Join(lines)
  {
    var i := |lines| - 1;
    joined := lines[i];
    while i > 0
      invariant 0 <= i < |lines| && joined == Join(lines[i..])
    {
      i := i - 1;
      joined := lines[i] + [LF] + joined;
    }
  }

  lemma NoBreakBefore(s: Bytes, k: nat)
    requires k <= |s| && NoBreak(s[..k])
    ensures forall i | 0 <= i < k :: !IsBreak(s[i])
  {
    forall i | 0 <= i < k ensures !IsBreak(s[i]) {
      assert s[i] == s[..k][i];
    }
  }

  lemma BreakIsAt(s: Bytes, k: nat)
    requires k < |s| && NoBreak(s[..k]) && IsBreak(s[k])
    ensures BreakAt(s) == k
  {
    NoBreakBefore(s, k);
    NoBreakBefore(s, BreakAt(s));
  }

  lemma NoBreakAt(s: Bytes)
    requires NoBreak(s[..|s|])
    ensures BreakAt(s) == |s|
  {
    NoBreakBefore(s, |s|);
  }

  lemma TakeLineShortens(s: Bytes, final: bool)
    ensures TakeLineOf(s, final).0.Some? ==> |TakeLineOf(s, final).1| < |s|
  {
  }

  /** Scanning one more chunk. */
  lemma ScanChunk(chunks: seq<Bytes>, i: nat)
    requires i < |chunks|
    ensures Flatten(chunks[..i + 1]) == Flatten(chunks[..i]) + chunks[i]
    ensures ScanAll(ScanStart, Flatten(chunks[..i + 1])) == ScanAll(ScanAll(ScanStart, Flatten(chunks[..i])), chunks[i])
  {
    FlattenAppend(chunks[..i], chunks[i]);
    assert chunks[..i] + [chunks[i]] == chunks[..i + 1];
    ScanAppend(ScanStart, Flatten(chunks[..i]), chunks[i]);
  }

  lemma {:induction false} FlattenAppend(chunks: seq<Bytes>, last: Bytes)
    ensures Flatten(chunks + [last]) == Flatten(chunks) + last
  {
    if chunks == [] {
      assert Flatten([last]) == last + Flatten([]) == last;
    } else {
      assert (chunks + [last])[1..] == chunks[1..] + [last];
      FlattenAppend(chunks[1..], last);
    }
  }

  lemma {:induction false} FlattenSplit(chunks: seq<Bytes>, i: nat)
    requires i <= |chunks|
    ensures Flatten(chunks) == Flatten(chunks[..i]) + Flatten(chunks[i..])
    decreases |chunks| - i
  {
    if i == |chunks| {
      assert chunks[..i] == chunks;
    } else {
      FlattenSplit(chunks, i + 1);
      ScanChunk(chunks, i);
      assert chunks[i..][1..] == chunks[i + 1..];
    }
  }

  /** Once the generator raises, the rest of the bytes cannot change what the scanner reports. */
  lemma RaisedForGood(chunks: seq<Bytes>, i: nat, f: Fields)
    requires i <= |chunks| && f.error.Some? && Doomed(ScanAll(ScanStart, Flatten(chunks[..i])), f)
    ensures Decode(Flatten(chunks)) == OutcomeOf(f)
  {
    FlattenSplit(chunks, i);
    ScanAppend(ScanStart, Flatten(chunks[..i]), Flatten(chunks[i..]));
    DoomedForever(ScanAll(ScanStart, Flatten(chunks[..i])), f, Flatten(chunks[i..]));
  }

  lemma DrainAgrees(f: Fields, buffer: Bytes, chunk: Bytes, s: Scan)
    requires f.error.None? && s == ScanAll(LineStart(f), buffer)
    ensures var e := Drain(Decoder(buffer + chunk, f), false);
            if e.fields.error.Some? then ScanAll(s, chunk).fields == e.fields
            else Settled(e.buffer) && ScanAll(s, chunk) == ScanAll(LineStart(e.fields), e.buffer)
  {
    ScanAppend(LineStart(f), buffer, chunk);
    var eaten, cr := DrainScans(Decoder(buffer + chunk, f));
    var e := Drain(Decoder(buffer + chunk, f), false);
    if e.fields.error.None? {
      ScanAppend(LineStart(f), eaten, e.buffer);
      if cr {
        AfterCrIgnored(e.fields, e.buffer);
      }
    }
  }

  // ---------------------------------------------------------------- the generator of responses.py

  /** How the generator can fail: a limit, or an event whose bytes are no UTF-8. */
  datatype StreamError = Limit(e: DecodeError) | NotUtf8

  /** The first event that is no UTF-8, or their number if all are. */
  function FirstBad(events: seq<Bytes>, utf8: Bytes -> bool): (k: nat)
    ensures k <= |events| && (forall i | 0 <= i < k :: utf8(events[i])) && (k < |events| ==> !utf8(events[k]))
  {
    if events == [] || !utf8(events[0]) then 0 else 1 + FirstBad(events[1..], utf8)
  }

  /** What a stream yields: its events up to the first that is no UTF-8. */
  function YieldedOf(o: Outcome, utf8: Bytes -> bool): (seq<Bytes>, Option<StreamError>) {
    var k := FirstBad(o.events, utf8);
    if k < |o.events| then (o.events[..k], Some(NotUtf8))
    else (o.events, if o.error.Some? then Some(Limit(o.error.value)) else None)
  }

  predicate AllUtf8(events: seq<Bytes>, utf8: Bytes -> bool) {
    forall i | 0 <= i < |events| :: utf8(events[i])
  }

  lemma {:induction false} DrainGrows(d: Decoder, final: bool)
    ensures d.fields.events <= Drain(d, final).fields.events
    decreases |d.buffer|
  {
    if d.fields.error.None? {
      var (line, rest) := TakeLineOf(d.buffer, final);
      if line.Some? {
        TakeLineShortens(d.buffer, final);
        DrainGrows(Decoder(rest, AcceptLine(d.fields, line.value)), final);
      }
    }
  }

  lemma {:induction false} ScanGrows(s: Scan, input: Bytes)
    ensures s.fields.events <= ScanAll(s, input).fields.events
    decreases |input|
  {
    if input != [] {
      ScanGrows(ScanByte(s, input[0]), input[1..]);
    }
  }

  /** An event once complete stays among the events, whatever follows. */
  lemma YieldedForGood(chunks: seq<Bytes>, i: nat, events: seq<Bytes>)
    requires i <= |chunks| && events <= ScanAll(ScanStart, Flatten(chunks[..i])).fields.events
    ensures events <= Decode(Flatten(chunks)).events
  {
    hide ScanAll, EndScan, Flatten;
    FlattenSplit(chunks, i);
    var s, rest := ScanAll(ScanStart, Flatten(chunks[..i])), Flatten(chunks[i..]);
    ScanAppend(ScanStart, Flatten(chunks[..i]), rest);
    ScanGrows(s, rest);
    EndGrows(ScanAll(s, rest));
    assert events <= s.fields.events <= ScanAll(s, rest).fields.events <= EndScan(ScanAll(s, rest)).events;
  }

  lemma EndGrows(s: Scan)
    ensures s.fields.events <= EndScan(s).events
  {
  }

  lemma BadStops(o: Outcome, utf8: Bytes -> bool, good: seq<Bytes>, bad: Bytes)
    requires AllUtf8(good, utf8) && !utf8(bad) && good + [bad] <= o.events
    ensures YieldedOf(o, utf8) == (good, Some(NotUtf8))
  {
    var k := FirstBad(o.events, utf8);
    assert o.events[|good|] == bad;
    assert forall i | 0 <= i < |good| :: o.events[i] == good[i];
    assert k == |good|;
    assert o.events[..k] == good;
  }

  lemma AllGood(o: Outcome, utf8: Bytes -> bool)
    requires AllUtf8(o.events, utf8)
    ensures YieldedOf(o, utf8) == (o.events, if o.error.Some? then Some(Limit(o.error.value)) else None)
  {
  }

  /** The events of a chunk, line by line, up to a failure. */
  method TakeWhole(start: Bytes, f0: Fields, final: bool, utf8: Bytes -> bool)
    returns (buffer: Bytes, f: Fields, bad: Option<Bytes>)
    requires f0.error.None? && AllUtf8(f0.events, utf8)
    ensures AllUtf8(f.events, utf8)
    ensures bad.Some? ==> !utf8(bad.value) && f.events + [bad.value] <= Drain(Decoder(start, f0), final).fields.events
    ensures bad.None? && f.error.Some? ==> Drain(Decoder(start, f0), final) == Decoder([], f)
    ensures bad.None? && f.error.None? ==> Drain(Decoder(start, f0), final) == Decoder(buffer, f)
  {
    buffer, f, bad := start, f0, None;
    while true
      invariant f.error.None? && AllUtf8(f.events, utf8)
      invariant Drain(Decoder(buffer, f), final) == Drain(Decoder(start, f0), final)
      decreases |buffer|
    {
      var (line, rest) := TakeLineOf(buffer, final);
      if line.None? {
        return;
      }
      TakeLineShortens(buffer, final);
      var g := AcceptLine(f, line.value);
      DrainGrows(Decoder(rest, g), final);
      assert Drain(Decoder(buffer, f), final) == Drain(Decoder(rest, g), final);
      assert g.events == f.events || (|g.events| == |f.events| + 1 && g.events[..|f.events|] == f.events);
      if |g.events| > |f.events| && !utf8(g.events[|f.events|]) {
        bad := Some(g.events[|f.events|]);
        assert g.events == f.events + [bad.value];
        return;
      }
      buffer, f := rest, g;
      if f.error.Some? {
        return;
      }
    }
  }

  /**
    The generator of responses.py: it tests the size only while the buffer holds no line end at all, so it decodes
    every cut of the same bytes alike, with no exception.  It ends with the first event that is no UTF-8.
   */
  method IterChatSseData(chunks: seq<Bytes>, utf8: Bytes -> bool) returns (events: seq<Bytes>, error: Option<StreamError>)
    ensures (events, error) == YieldedOf(Decode(Flatten(chunks)), utf8)
  {
    hide ScanAll, Drain, Settled, AcceptLine, YieldedOf;
    var buffer: Bytes, f := [], NoFields;
    StartScan();
    for i := 0 to |chunks|
      invariant f.error.None? && AllUtf8(f.events, utf8)
      invariant ScanAll(ScanStart, Flatten(chunks[..i])) == ScanAll(LineStart(f), buffer)
    {
      ScanChunk(chunks, i);
      var chunk := chunks[i];
      if chunk == [] {
        ScanNothing(ScanAll(ScanStart, Flatten(chunks[..i])));
        continue;
      }
      DrainAgrees(f, buffer, chunk, ScanAll(LineStart(f), buffer));
      if |buffer + chunk| > LIMIT && NoBreak(buffer + chunk) {
        ScanAppend(LineStart(f), buffer, chunk);
        PlainLine(f, buffer + chunk);
        RaisedForGood(chunks, i + 1, f.Fail(LineTooLong));
        AllGood(Decode(Flatten(chunks)), utf8);
        return f.events, Some(Limit(LineTooLong));
      }
      var bad;
      ghost var e := Drain(Decoder(buffer + chunk, f), false);
      DrainedGrows(e, ScanAll(ScanStart, Flatten(chunks[..i + 1])));
      buffer, f, bad := TakeWhole(buffer + chunk, f, false, utf8);
      if bad.Some? {
        YieldedForGood(chunks, i + 1, f.events + [bad.value]);
        BadStops(Decode(Flatten(chunks)), utf8, f.events, bad.value);
        return f.events, Some(NotUtf8);
      }
      if f.error.Some? {
        RaisedForGood(chunks, i + 1, f);
        AllGood(Decode(Flatten(chunks)), utf8);
        return f.events, Some(Limit(f.error.value));
      }
    }
    assert chunks[..|chunks|] == chunks;
    events, error := LastEvents(buffer, f, utf8);
  }

  lemma StartScan()
    ensures ScanAll(ScanStart, Flatten([])) == ScanAll(LineStart(NoFields), [])
  {
  }

  lemma ScanNothing(s: Scan)
    ensures ScanAll(s, []) == s
  {
  }

  /** What draining has completed the scanner has seen as well. */
  lemma DrainedGrows(e: Decoder, s: Scan)
    requires if e.fields.error.Some? then s.fields == e.fields else s == ScanAll(LineStart(e.fields), e.buffer)
    ensures e.fields.events <= s.fields.events
  {
    ScanGrows(LineStart(e.fields), e.buffer);
    hide ScanAll;
  }

  /** The end of the input: the rest of the buffer, and the event that is still open. */
  method LastEvents(buffer: Bytes, f0: Fields, utf8: Bytes -> bool) returns (events: seq<Bytes>, error: Option<StreamError>)
    requires f0.error.None? && AllUtf8(f0.events, utf8)
    ensures (events, error) == YieldedOf(OutcomeOf(EndScan(ScanAll(LineStart(f0), buffer))), utf8)
  {
    hide ScanAll, Drain, AcceptLine, YieldedOf, EndScan;
    FinishScans(Decoder(buffer, f0));
    ghost var o := OutcomeOf(FinishOf(Decoder(buffer, f0)).fields);
    ghost var e := Drain(Decoder(buffer, f0), true);
    assert e.fields.events <= o.events;
    var rest, f, bad := TakeWhole(buffer, f0, true, utf8);
    if bad.Some? {
      BadStops(o, utf8, f.events, bad.value);
      return f.events, Some(NotUtf8);
    }
    if f.error.Some? {
      AllGood(o, utf8);
      return f.events, Some(Limit(f.error.value));
    }
    var g := f.Flush();
    assert o == OutcomeOf(g);
    if |g.events| > |f.events| && !utf8(g.events[|f.events|]) {
      assert g.events == f.events + [g.events[|f.events|]];
      BadStops(o, utf8, f.events, g.events[|f.events|]);
      return f.events, Some(NotUtf8);
    }
    AllGood(o, utf8);
    return g.events, None;
  }
}
