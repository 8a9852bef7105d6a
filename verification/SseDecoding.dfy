/**
  Server-sent-event decoding of upstream byte chunks (proxy.py, class `_SSEEventDecoder`, and the generator
  `_iter_chat_sse_data` of responses.py).

  The reference is a byte-at-a-time scanner, which has no notion of a chunk: a line ends at LF, CR or CRLF, `data:`
  lines are collected, a blank line dispatches what was collected, and the end of input flushes it.  The decoder
  instead keeps a buffer and looks for line ends in it, and the theorems say when the two agree.
 */
module SseDecoding {
  import opened Options

  type Byte = b: int | 0 <= b < 256
  type Bytes = seq<Byte>

  const LF: Byte := 10
  const CR: Byte := 13
  const LIMIT: nat := 8 * 1024 * 1024

  datatype DecodeError = LineTooLong | EventTooLong

  /** What whole lines have produced so far: the open event, the dispatched events, and the sticky failure. */
  datatype Fields = Fields(dataLines: seq<Bytes>, eventBytes: nat, events: seq<Bytes>, error: Option<DecodeError>) {
    function Fail(e: DecodeError): Fields {
      Fields([], 0, events, Some(e))
    }

    function Flush(): Fields {
      if dataLines == [] then this else Fields([], 0, events + [Join(dataLines)], error)
    }
  }

  const NoFields := Fields([], 0, [], None)

  predicate IsBreak(b: Byte) {
    b == LF || b == CR
  }

  predicate NoBreak(s: Bytes) {
    forall i | 0 <= i < |s| :: !IsBreak(s[i])
  }

  /** The event text: data lines joined by LF. */
  function Join(lines: seq<Bytes>): Bytes
    requires lines != []
  {
    if |lines| == 1 then lines[0] else lines[0] + [LF] + Join(lines[1..])
  }

  predicate IsDataLine(line: Bytes) {
    |line| >= 5 && line[..5] == [100, 97, 116, 97, 58]
  }

  /** The value of a `data:` line, without the one optional space. */
  function DataOf(line: Bytes): Bytes
    requires IsDataLine(line)
  {
    if |line| > 5 && line[5] == 32 then line[6..] else line[5..]
  }

  function AcceptLine(f: Fields, line: Bytes): Fields
    requires f.error.None?
  {
    if |line| > LIMIT then f.Fail(LineTooLong)
    else if line == [] then f.Flush()
    else if !IsDataLine(line) then f
    else
      var size := f.eventBytes + |DataOf(line)| + 1;
      if size > LIMIT then f.Fail(EventTooLong)
      else f.(dataLines := f.dataLines + [DataOf(line)], eventBytes := size)
  }

  // ---------------------------------------------------------------- reference scanner

  datatype Scan = Scan(line: Bytes, afterCr: bool, fields: Fields)

  const ScanStart := Scan([], false, NoFields)

  function ScanByte(s: Scan, b: Byte): Scan {
    if s.fields.error.Some? then s
    else if b == LF && s.afterCr then s.(afterCr := false)
    else if IsBreak(b) then Scan([], b == CR, AcceptLine(s.fields, s.line))
    else Scan(s.line + [b], false, s.fields)
  }

  function ScanAll(s: Scan, input: Bytes): Scan
    decreases |input|
  {
    if input == [] then s else ScanAll(ScanByte(s, input[0]), input[1..])
  }

  function EndScan(s: Scan): Fields {
    if s.fields.error.Some? then s.fields
    else
      var f := if s.line == [] then s.fields else AcceptLine(s.fields, s.line);
      if f.error.Some? then f else f.Flush()
  }

  /** The events and the failure of a whole byte stream. */
  datatype Outcome = Outcome(events: seq<Bytes>, error: Option<DecodeError>)

  function OutcomeOf(f: Fields): Outcome {
    Outcome(f.events, f.error)
  }

  function Decode(input: Bytes): Outcome {
    OutcomeOf(EndScan(ScanAll(ScanStart, input)))
  }

  /** A line of exactly the limit is ended by a CR: the one place where waiting for a possible LF matters. */
  ghost predicate FullLineEndsInCr(input: Bytes) {
    exists k :: FullLineAt(input, k)
  }

  ghost predicate FullLineAt(input: Bytes, k: int) {
    0 <= k < |input| && input[k] == CR &&
    var s := ScanAll(ScanStart, input[..k]);
    s.fields.error.None? && |s.line| == LIMIT
  }

  // ---------------------------------------------------------------- the buffered decoder

  function BreakAt(s: Bytes): (k: nat)
    ensures k <= |s| && NoBreak(s[..k])
    ensures k < |s| ==> IsBreak(s[k])
  {
    if s == [] || IsBreak(s[0]) then 0
    else
      var k := 1 + BreakAt(s[1..]);
      assert s[..k] == [s[0]] + s[1..][..k - 1];
      k
  }

  /** One line and the rest of the buffer; a CR at the very end waits for the next byte unless the input is over. */
  function TakeLineOf(s: Bytes, final: bool): (Option<Bytes>, Bytes) {
    var k := BreakAt(s);
    if k < |s| && s[k] == LF then (Some(s[..k]), s[k + 1..])
    else if k < |s| then
      if k + 1 == |s| && !final then (None, s)
      else (Some(s[..k]), if k + 1 < |s| && s[k + 1] == LF then s[k + 2..] else s[k + 1..])
    else if final && s != [] then (Some(s), [])
    else (None, s)
  }

  datatype Decoder = Decoder(buffer: Bytes, fields: Fields)

  const NewDecoder := Decoder([], NoFields)

  function Drain(d: Decoder, final: bool): Decoder
    decreases |d.buffer|
  {
    if d.fields.error.Some? then Decoder([], d.fields)
    else
      var (line, rest) := TakeLineOf(d.buffer, final);
      if line.None? then d else Drain(Decoder(rest, AcceptLine(d.fields, line.value)), final)
  }

  function FeedOf(d: Decoder, chunk: Bytes): Decoder {
    if d.fields.error.Some? then d
    else
      var e := Drain(d.(buffer := d.buffer + chunk), false);
      if e.fields.error.None? && |e.buffer| > LIMIT then Decoder([], e.fields.Fail(LineTooLong)) else e
  }

  function FinishOf(d: Decoder): Decoder {
    if d.fields.error.Some? then d
    else
      var e := Drain(d, true);
      if e.fields.error.Some? then e else e.(fields := e.fields.Flush())
  }

  function FeedAll(d: Decoder, chunks: seq<Bytes>): Decoder
    decreases |chunks|
  {
    if chunks == [] then d else FeedAll(FeedOf(d, chunks[0]), chunks[1..])
  }

  function Run(chunks: seq<Bytes>): Outcome {
    OutcomeOf(FinishOf(FeedAll(NewDecoder, chunks)).fields)
  }

  function Flatten(chunks: seq<Bytes>): Bytes {
    if chunks == [] then [] else chunks[0] + Flatten(chunks[1..])
  }

  // ---------------------------------------------------------------- scanner lemmas

  lemma {:induction false} ScanAppend(s: Scan, a: Bytes, b: Bytes)
    ensures ScanAll(s, a + b) == ScanAll(ScanAll(s, a), b)
    decreases |a|
  {
    if a == [] {
      assert a + b == b;
    } else {
      assert (a + b)[1..] == a[1..] + b;
      ScanAppend(ScanByte(s, a[0]), a[1..], b);
    }
  }

  lemma ScanThenByte(s: Scan, a: Bytes, b: Byte)
    ensures ScanAll(s, a + [b]) == ScanByte(ScanAll(s, a), b)
  {
    ScanAppend(s, a, [b]);
    assert [b][1..] == [];
    assert ScanAll(ScanAll(s, a), [b]) == ScanAll(ScanByte(ScanAll(s, a), b), []);
  }

  lemma {:induction false} ScanFailed(s: Scan, input: Bytes)
    requires s.fields.error.Some?
    ensures ScanAll(s, input) == s
  {
    if input != [] {
      ScanFailed(s, input[1..]);
    }
  }

  lemma {:induction false} ScanPlain(s: Scan, input: Bytes)
    requires s.fields.error.None? && NoBreak(input)
    ensures ScanAll(s, input) == if input == [] then s else Scan(s.line + input, false, s.fields)
    decreases |input|
  {
    if input != [] {
      ScanPlain(ScanByte(s, input[0]), input[1..]);
      assert s.line + [input[0]] + input[1..] == s.line + input;
    }
  }

  /** A scanner state at the start of a line. */
  function LineStart(f: Fields): Scan {
    Scan([], false, f)
  }

  lemma PlainLine(f: Fields, line: Bytes)
    requires f.error.None? && NoBreak(line)
    ensures ScanAll(LineStart(f), line) == Scan(line, false, f)
  {
    ScanPlain(LineStart(f), line);
    assert [] + line == line;
  }

  /** Whether the last byte was a CR only matters for an LF. */
  lemma AfterCrIgnored(f: Fields, input: Bytes)
    requires f.error.None? && input != [] && input[0] != LF
    ensures ScanAll(Scan([], true, f), input) == ScanAll(LineStart(f), input)
  {
  }

  /** Taking one ended line off the buffer is scanning up to its end: `eaten` is what was scanned. */
  lemma TakeLineScans(f: Fields, s: Bytes, final: bool) returns (eaten: Bytes, cr: bool)
    requires f.error.None? && BreakAt(s) < |s| && TakeLineOf(s, final).0.Some?
    ensures var (line, rest) := TakeLineOf(s, final);
            var g := AcceptLine(f, line.value);
            && |rest| < |s|
            && if g.error.Some? then ScanAll(LineStart(f), s).fields == g
               else
                 && s == eaten + rest && ScanAll(LineStart(f), eaten) == Scan([], cr, g)
                 && (cr ==> if rest == [] then final else rest[0] != LF)
  {
    hide AcceptLine, ScanAll, BreakAt;
    var k := BreakAt(s);
    var (line, rest) := TakeLineOf(s, final);
    var g := AcceptLine(f, line.value);
    PlainLine(f, s[..k]);
    ScanThenByte(LineStart(f), s[..k], s[k]);
    eaten, cr := s[..k + 1], s[k] == CR;
    assert s[..k] + [s[k]] == eaten;
    if g.error.Some? {
      ScanAppend(LineStart(f), eaten, s[k + 1..]);
      ScanFailed(Scan([], cr, g), s[k + 1..]);
      assert s == eaten + s[k + 1..];
    } else if s[k] == CR && k + 1 < |s| && s[k + 1] == LF {
      ScanThenByte(LineStart(f), eaten, LF);
      eaten, cr := s[..k + 2], false;
      assert s[..k + 1] + [LF] == eaten;
    }
  }

  /** What a buffer still holds after draining: an unfinished line, perhaps with a CR that waits. */
  predicate Settled(s: Bytes) {
    TakeLineOf(s, false).0.None?
  }

  /** Scanning goes on behind `head` as if a line started there. */
  lemma ScanBehind(f: Fields, g: Fields, head: Bytes, cr: bool, rest: Bytes)
    requires ScanAll(LineStart(f), head) == Scan([], cr, g) && g.error.None? && (cr ==> rest != [] && rest[0] != LF)
    ensures ScanAll(LineStart(f), head + rest) == ScanAll(LineStart(g), rest)
  {
    ScanAppend(LineStart(f), head, rest);
    hide ScanAll;
    if cr {
      AfterCrIgnored(g, rest);
    }
  }

  /** Two runs of whole lines, one behind the other; a CR that ends the first counts unless the second holds something. */
  lemma JoinScans(f: Fields, g: Fields, e: Fields, head: Bytes, headCr: bool, tail: Bytes, tailCr: bool, left: Bytes) returns (cr: bool)
    requires g.error.None? && ScanAll(LineStart(f), head) == Scan([], headCr, g)
    requires headCr ==> tail + left != [] && (tail + left)[0] != LF
    requires ScanAll(LineStart(g), tail) == Scan([], tailCr, e) && (tailCr ==> left != [] && left[0] != LF)
    ensures ScanAll(LineStart(f), head + tail) == Scan([], cr, e) && (cr ==> left != [] && left[0] != LF)
  {
    if tail == [] {
      assert head + tail == head && tail + left == left;
      cr := headCr;
    } else {
      assert (tail + left)[0] == tail[0];
      hide ScanAll;
      ScanBehind(f, g, head, headCr, tail);
      cr := tailCr;
    }
  }

  lemma {:induction false} DrainScans(d: Decoder) returns (eaten: Bytes, cr: bool)
    requires d.fields.error.None?
    ensures var e := Drain(d, false);
            if e.fields.error.Some? then ScanAll(LineStart(d.fields), d.buffer).fields == e.fields
            else
              && Settled(e.buffer) && d.buffer == eaten + e.buffer
              && ScanAll(LineStart(d.fields), eaten) == Scan([], cr, e.fields)
              && (cr ==> e.buffer != [] && e.buffer[0] != LF)
    decreases |d.buffer|
  {
    hide ScanAll, TakeLineOf, AcceptLine, Drain, Settled, BreakAt, LineStart;
    eaten, cr := [], false;
    var next := DrainStep(d);
    if next.Some? {
      var g, rest := next.value.fields, next.value.buffer;
      var head, headCr := TakeLineScans(d.fields, d.buffer, false);
      if g.error.None? {
        var tail, tailCr := DrainScans(next.value);
        ScanBehind(d.fields, g, head, headCr, rest);
        var e := Drain(next.value, false);
        if e.fields.error.None? {
          cr := JoinScans(d.fields, g, e.fields, head, headCr, tail, tailCr, e.buffer);
          eaten := head + tail;
          assert head + (tail + e.buffer) == eaten + e.buffer;
        }
      }
    }
  }

  /** One turn of draining, if there is a line to take. */
  lemma DrainStep(d: Decoder) returns (next: Option<Decoder>)
    requires d.fields.error.None?
    ensures next.None? ==> Drain(d, false) == d && Settled(d.buffer) && ScanAll(LineStart(d.fields), []) == Scan([], false, d.fields)
    ensures next.Some? ==>
              var (line, rest) := TakeLineOf(d.buffer, false);
              && line.Some? && BreakAt(d.buffer) < |d.buffer| && next.value == Decoder(rest, AcceptLine(d.fields, line.value))
              && Drain(d, false) == Drain(next.value, false)
              && (next.value.fields.error.Some? ==> Drain(d, false).fields == next.value.fields)
  {
    var (line, rest) := TakeLineOf(d.buffer, false);
    hide AcceptLine, BreakAt;
    next := if line.None? then None else Some(Decoder(rest, AcceptLine(d.fields, line.value)));
  }

  /** Finishing consumes the rest of the buffer as the scanner would, and flushes. */
  lemma {:induction false} FinishScans(d: Decoder)
    requires d.fields.error.None?
    ensures FinishOf(d).fields == EndScan(ScanAll(LineStart(d.fields), d.buffer))
    decreases |d.buffer|
  {
    var (line, rest) := TakeLineOf(d.buffer, true);
    if line.None? {
    } else if BreakAt(d.buffer) == |d.buffer| {
      ScanPlain(LineStart(d.fields), d.buffer);
      assert [] + d.buffer == d.buffer;
      assert Drain(d, true) == Drain(Decoder([], AcceptLine(d.fields, d.buffer)), true);
    } else {
      var eaten, cr := TakeLineScans(d.fields, d.buffer, true);
      var next := Decoder(rest, AcceptLine(d.fields, line.value));
      assert Drain(d, true) == Drain(next, true);
      if next.fields.error.None? {
        ScanAppend(LineStart(d.fields), eaten, rest);
        if cr && rest != [] {
          AfterCrIgnored(next.fields, rest);
        }
        FinishScans(next);
      }
    }
  }

  // ---------------------------------------------------------------- the decoder follows the scanner

  /** The scanner will report a too long line, if it has not yet: its events are final. */
  predicate Doomed(s: Scan, f: Fields) {
    && s.fields.events == f.events
    && (s.fields.error == f.error || (f.error == Some(LineTooLong) && s.fields.error.None? && |s.line| > LIMIT))
  }

  predicate Follows(d: Decoder, s: Scan) {
    if d.fields.error.None? then Settled(d.buffer) && |d.buffer| <= LIMIT && s == ScanAll(LineStart(d.fields), d.buffer)
    else Doomed(s, d.fields)
  }

  lemma {:induction false} DoomedForever(s: Scan, f: Fields, input: Bytes)
    requires f.error.Some? && Doomed(s, f)
    ensures Doomed(ScanAll(s, input), f)
    ensures OutcomeOf(EndScan(ScanAll(s, input))) == OutcomeOf(f)
    decreases |input|
  {
    if input != [] {
      DoomedForever(ScanByte(s, input[0]), f, input[1..]);
    }
  }

  /** The buffer test at the end of `feed` met a full line whose CR is the last byte so far. */
  predicate FullLineWaits(d: Decoder, chunk: Bytes) {
    && d.fields.error.None?
    && var e := Drain(d.(buffer := d.buffer + chunk), false);
    && e.fields.error.None? && |e.buffer| == LIMIT + 1 && e.buffer[LIMIT] == CR && NoBreak(e.buffer[..LIMIT])
  }

  /** Draining an extended buffer is scanning the new chunk. */
  lemma DrainFollows(d: Decoder, s: Scan, chunk: Bytes) returns (eaten: Bytes, cr: bool)
    requires d.fields.error.None? && Follows(d, s)
    ensures var e := Drain(d.(buffer := d.buffer + chunk), false);
            if e.fields.error.Some? then ScanAll(s, chunk).fields == e.fields
            else
              && Settled(e.buffer) && ScanAll(s, chunk) == ScanAll(LineStart(e.fields), e.buffer)
              && d.buffer + chunk == eaten + e.buffer
              && ScanAll(LineStart(d.fields), eaten) == Scan([], cr, e.fields)
              && (cr ==> e.buffer != [] && e.buffer[0] != LF)
  {
    var full := d.(buffer := d.buffer + chunk);
    var e := Drain(full, false);
    ScanAppend(LineStart(d.fields), d.buffer, chunk);
    eaten, cr := DrainScans(full);
    if e.fields.error.None? {
      ScanAppend(LineStart(d.fields), eaten, e.buffer);
      if cr {
        AfterCrIgnored(e.fields, e.buffer);
      }
    }
  }

  /** A settled buffer has no line end but a CR at its very end. */
  lemma WaitingCr(buffer: Bytes)
    requires Settled(buffer)
    ensures var k := BreakAt(buffer); k < |buffer| ==> buffer[k] == CR && k + 1 == |buffer|
  {
  }

  /** A settled buffer, as the scanner sees it. */
  lemma SettledScan(f: Fields, buffer: Bytes)
    requires f.error.None? && Settled(buffer)
    ensures var k := BreakAt(buffer);
            && ScanAll(LineStart(f), buffer[..k]) == Scan(buffer[..k], false, f)
            && if k < |buffer| then buffer == buffer[..k] + [CR] && ScanAll(LineStart(f), buffer) == Scan([], true, AcceptLine(f, buffer[..k]))
               else ScanAll(LineStart(f), buffer) == Scan(buffer, false, f)
  {
    hide AcceptLine, ScanAll, BreakAt, Settled;
    var k := BreakAt(buffer);
    var line := buffer[..k];
    WaitingCr(buffer);
    PlainLine(f, line);
    if k < |buffer| {
      assert buffer == line + [CR];
      ScanThenByte(LineStart(f), line, CR);
    } else {
      assert line == buffer;
    }
  }

  lemma FeedFollows(d: Decoder, s: Scan, chunk: Bytes)
    requires Follows(d, s)
    ensures FeedOf(d, chunk).fields.error.None? || !FullLineWaits(d, chunk) ==> Follows(FeedOf(d, chunk), ScanAll(s, chunk))
  {
    if d.fields.error.Some? {
      DoomedForever(s, d.fields, chunk);
    } else {
      var e := Drain(d.(buffer := d.buffer + chunk), false);
      var eaten, cr := DrainFollows(d, s, chunk);
      if e.fields.error.None? {
        SettledScan(e.fields, e.buffer);
      }
    }
  }

  /** A buffer longer than the one before the chunk ends with the end of the chunk. */
  lemma ChunkEnds(buffer: Bytes, chunk: Bytes, eaten: Bytes, line: Bytes)
    requires buffer + chunk == eaten + line + [CR] && |line| >= |buffer|
    ensures chunk != [] && chunk[|chunk| - 1] == CR && eaten + line == buffer + chunk[..|chunk| - 1]
  {
    assert |buffer + chunk| == |eaten| + |line| + 1;
    assert (buffer + chunk)[|buffer| + |chunk| - 1] == CR;
    assert (buffer + chunk)[..|buffer| + |chunk| - 1] == buffer + chunk[..|chunk| - 1];
    assert (eaten + line + [CR])[..|eaten| + |line|] == eaten + line;
  }

  /** When the full line waits, the feed fails although the scanner stands at the end of a full line. */
  lemma FullLineFails(d: Decoder, s: Scan, chunk: Bytes)
    requires Follows(d, s) && FullLineWaits(d, chunk)
    ensures FeedOf(d, chunk).fields.error.Some? && chunk != [] && chunk[|chunk| - 1] == CR
    ensures var t := ScanAll(s, chunk[..|chunk| - 1]); t.fields.error.None? && |t.line| == LIMIT
  {
    var e := Drain(d.(buffer := d.buffer + chunk), false);
    var eaten, cr := DrainFollows(d, s, chunk);
    hide Drain, ScanAll, Settled;
    FullLineScan(d, s, chunk, eaten, cr, e.fields, e.buffer[..LIMIT]) by {
      assert e.buffer == e.buffer[..LIMIT] + [CR];
    }
  }

  lemma FullLineScan(d: Decoder, s: Scan, chunk: Bytes, eaten: Bytes, cr: bool, f: Fields, line: Bytes)
    requires d.fields.error.None? && |d.buffer| <= LIMIT && s == ScanAll(LineStart(d.fields), d.buffer)
    requires d.buffer + chunk == eaten + (line + [CR]) && |line| == LIMIT && NoBreak(line)
    requires f.error.None? && ScanAll(LineStart(d.fields), eaten) == Scan([], cr, f)
    ensures chunk != [] && chunk[|chunk| - 1] == CR
    ensures ScanAll(s, chunk[..|chunk| - 1]) == Scan(line, false, f)
  {
    assert eaten + (line + [CR]) == eaten + line + [CR];
    ChunkEnds(d.buffer, chunk, eaten, line);
    ScanAppend(LineStart(d.fields), eaten, line);
    ScanPlain(Scan([], cr, f), line);
    assert [] + line == line;
    ScanAppend(LineStart(d.fields), d.buffer, chunk[..|chunk| - 1]);
  }

  lemma FinishFollows(d: Decoder, s: Scan)
    requires Follows(d, s)
    ensures OutcomeOf(FinishOf(d).fields) == OutcomeOf(EndScan(s))
  {
    if d.fields.error.None? {
      FinishScans(d);
    }
  }

  lemma {:induction false} FailureSticks(d: Decoder, chunks: seq<Bytes>)
    requires d.fields.error.Some?
    ensures FeedAll(d, chunks) == d
    decreases |chunks|
  {
    if chunks != [] {
      FailureSticks(d, chunks[1..]);
    }
  }

  lemma FullLineIsAt(seen: Bytes, chunk: Bytes, rest: Bytes)
    requires chunk != [] && chunk[|chunk| - 1] == CR
    requires var t := ScanAll(ScanAll(ScanStart, seen), chunk[..|chunk| - 1]); t.fields.error.None? && |t.line| == LIMIT
    ensures FullLineAt(seen + (chunk + rest), |seen| + |chunk| - 1)
  {
    var input := seen + (chunk + rest);
    assert input[..|seen| + |chunk| - 1] == seen + chunk[..|chunk| - 1];
    ScanAppend(ScanStart, seen, chunk[..|chunk| - 1]);
  }

  lemma {:induction false} FeedAllFollows(d: Decoder, seen: Bytes, chunks: seq<Bytes>)
    requires Follows(d, ScanAll(ScanStart, seen))
    requires FeedAll(d, chunks).fields.error.None? || !FullLineEndsInCr(seen + Flatten(chunks))
    ensures Follows(FeedAll(d, chunks), ScanAll(ScanStart, seen + Flatten(chunks)))
    decreases |chunks|
  {
    hide ScanAll, Follows, FeedOf, FullLineWaits, FullLineAt;
    if chunks == [] {
      assert seen + Flatten(chunks) == seen;
    } else {
      var s := ScanAll(ScanStart, seen);
      var next := FeedOf(d, chunks[0]);
      if next.fields.error.Some? {
        FailureSticks(next, chunks[1..]);
        if FullLineWaits(d, chunks[0]) {
          FullLineFails(d, s, chunks[0]);
          FullLineIsAt(seen, chunks[0], Flatten(chunks[1..]));
        }
      }
      FeedFollows(d, s, chunks[0]);
      ScanAppend(ScanStart, seen, chunks[0]);
      assert seen + Flatten(chunks) == seen + chunks[0] + Flatten(chunks[1..]);
      FeedAllFollows(next, seen + chunks[0], chunks[1..]);
    }
  }

  /** Cutting the bytes differently changes neither the events nor the failure, unless a full line ends in CR. */
  lemma ChunkingDoesNotMatter(chunks: seq<Bytes>)
    requires Run(chunks).error.None? || !FullLineEndsInCr(Flatten(chunks))
    ensures Run(chunks) == Decode(Flatten(chunks))
  {
    var d := FeedAll(NewDecoder, chunks);
    assert [] + Flatten(chunks) == Flatten(chunks);
    assert Follows(NewDecoder, ScanAll(ScanStart, []));
    FeedAllFollows(NewDecoder, [], chunks);
    FinishFollows(d, ScanAll(ScanStart, Flatten(chunks)));
  }

  /** Exactly when every way of cutting the bytes is accepted. */
  lemma AcceptedUnderEveryChunking(input: Bytes)
    ensures (forall chunks | Flatten(chunks) == input :: Run(chunks).error.None?)
            <==> Decode(input).error.None? && !FullLineEndsInCr(input)
  {
    if forall chunks | Flatten(chunks) == input :: Run(chunks).error.None? {
      assert Flatten([input]) == input + Flatten([]) == input;
      assert Run([input]).error.None?;
      ChunkingDoesNotMatter([input]);
      if FullLineEndsInCr(input) {
        var k :| FullLineAt(input, k);
        CutAtFullLine(input, k);
      }
    }
    if Decode(input).error.None? && !FullLineEndsInCr(input) {
      forall chunks | Flatten(chunks) == input ensures Run(chunks).error.None? {
        ChunkingDoesNotMatter(chunks);
      }
    }
  }

  /** The failing cut: the bytes up to the full line, then its CR alone, then the rest. */
  lemma CutAtFullLine(input: Bytes, k: int)
    requires FullLineAt(input, k)
    ensures exists chunks :: Flatten(chunks) == input && Run(chunks).error.Some?
  {
    var before, after := input[..k], input[k + 1..];
    var chunks := [before, [CR], after];
    assert chunks[1..] == [[CR], after] && chunks[1..][1..] == [after];
    assert Flatten([after]) == after + Flatten([]) == after;
    assert Flatten(chunks) == before + ([CR] + after) == input;
    var d := FeedOf(NewDecoder, before);
    assert Follows(NewDecoder, ScanAll(ScanStart, []));
    var s := ScanAll(ScanStart, before);
    FeedFollows(NewDecoder, ScanStart, before);
    var e := FeedOf(d, [CR]);
    if d.fields.error.None? {
      SettledScan(d.fields, d.buffer);
      assert d.buffer == s.line && NoBreak(d.buffer) by {
        assert s == ScanAll(LineStart(d.fields), d.buffer);
        assert d.buffer[..BreakAt(d.buffer)] == d.buffer;
      }
      CrWaits(d);
    } else {
      assert e == d;
    }
    assert FeedAll(NewDecoder, chunks) == FeedAll(e, [after]);
    FailureSticks(e, [after]);
    assert Run(chunks).error.Some?;
  }

  lemma BreakAtEnd(line: Bytes, b: Byte)
    requires NoBreak(line) && IsBreak(b)
    ensures BreakAt(line + [b]) == |line|
  {
    var s := line + [b];
    assert s[|line|] == b;
    assert forall i | 0 <= i < |line| :: s[i] == line[i];
    assert NoBreak(s[..BreakAt(s)]);
    if BreakAt(s) > |line| {
      assert s[..BreakAt(s)][|line|] == b;
    }
  }

  lemma CrWaits(d: Decoder)
    requires d.fields.error.None? && |d.buffer| == LIMIT && NoBreak(d.buffer)
    ensures FeedOf(d, [CR]).fields.error.Some?
  {
    BreakAtEnd(d.buffer, CR);
    assert TakeLineOf(d.buffer + [CR], false).0.None?;
    assert Drain(d.(buffer := d.buffer + [CR]), false).buffer == d.buffer + [CR];
  }

  // ---------------------------------------------------------------- encoding and decoding

  /** `data: <payload>` and a blank line, as the proxy writes every chunk. */
  function JsonSseEvent(payload: Bytes): Bytes {
    [100, 97, 116, 97, 58, 32] + payload + [LF, LF]
  }

  function Encode(payloads: seq<Bytes>): Bytes {
    if payloads == [] then [] else JsonSseEvent(payloads[0]) + Encode(payloads[1..])
  }

  /** Printed JSON holds no line break; this also asks that the line with its `data: ` is within the limit. */
  predicate Encodable(payload: Bytes) {
    NoBreak(payload) && |payload| + 6 <= LIMIT
  }

  lemma ScanEvent(payload: Bytes, events: seq<Bytes>)
    requires Encodable(payload)
    ensures ScanAll(LineStart(NoFields.(events := events)), JsonSseEvent(payload))
         == LineStart(NoFields.(events := events + [payload]))
  {
    var f := NoFields.(events := events);
    var line := [100, 97, 116, 97, 58, 32] + payload;
    ScanPlain(LineStart(f), line);
    assert [] + line == line;
    assert line[..5] == [100, 97, 116, 97, 58] && line[6..] == payload;
    assert DataOf(line) == payload by {
      if payload == [] {
        assert line[6..] == [];
      }
    }
    ScanThenByte(LineStart(f), line, LF);
    ScanThenByte(LineStart(f), line + [LF], LF);
    assert line + [LF] + [LF] == JsonSseEvent(payload);
    assert Join([payload]) == payload;
  }

  lemma {:induction false} ScanEncoded(payloads: seq<Bytes>, events: seq<Bytes>)
    requires forall p | p in payloads :: Encodable(p)
    ensures ScanAll(LineStart(NoFields.(events := events)), Encode(payloads))
         == LineStart(NoFields.(events := events + payloads))
    decreases |payloads|
  {
    if payloads == [] {
      assert events + payloads == events;
    } else {
      ScanEvent(payloads[0], events);
      ScanAppend(LineStart(NoFields.(events := events)), JsonSseEvent(payloads[0]), Encode(payloads[1..]));
      ScanEncoded(payloads[1..], events + [payloads[0]]);
      assert events + [payloads[0]] + payloads[1..] == events + payloads;
    }
  }

  /** A payload over the limit is a failure for good. */
  lemma ScanTooLong(payload: Bytes, rest: Bytes, events: seq<Bytes>)
    requires NoBreak(payload) && |payload| + 6 > LIMIT
    ensures ScanAll(LineStart(NoFields.(events := events)), JsonSseEvent(payload) + rest).fields.error == Some(LineTooLong)
  {
    var f := NoFields.(events := events);
    var line := [100, 97, 116, 97, 58, 32] + payload;
    assert NoBreak(line);
    PlainLine(f, line);
    ScanThenByte(LineStart(f), line, LF);
    assert JsonSseEvent(payload) + rest == (line + [LF]) + ([LF] + rest);
    ScanAppend(LineStart(f), line + [LF], [LF] + rest);
    ScanFailed(ScanAll(LineStart(f), line + [LF]), [LF] + rest);
  }

  lemma {:induction false} ScanSomeTooLong(payloads: seq<Bytes>, events: seq<Bytes>)
    requires (forall p | p in payloads :: NoBreak(p)) && exists p :: p in payloads && !Encodable(p)
    ensures ScanAll(LineStart(NoFields.(events := events)), Encode(payloads)).fields.error.Some?
    decreases |payloads|
  {
    if Encodable(payloads[0]) {
      ScanEvent(payloads[0], events);
      ScanAppend(LineStart(NoFields.(events := events)), JsonSseEvent(payloads[0]), Encode(payloads[1..]));
      ScanSomeTooLong(payloads[1..], events + [payloads[0]]);
    } else {
      ScanTooLong(payloads[0], Encode(payloads[1..]), events);
    }
  }

  /**
    Decoding what the proxy encoded returns the payloads in order, however the bytes are cut, exactly when each payload is within the
    limit; otherwise decoding fails.
   */
  lemma DecodeEncoded(payloads: seq<Bytes>, chunks: seq<Bytes>)
    requires forall p | p in payloads :: NoBreak(p)
    requires Flatten(chunks) == Encode(payloads)
    ensures Run(chunks) == Outcome(payloads, None) <==> forall p | p in payloads :: |p| + 6 <= LIMIT
    ensures Run(chunks) == Outcome(payloads, None) || Run(chunks).error.Some?
  {
    hide ScanAll, Run;
    EncodedNoCr(payloads);
    NoFullLine(Encode(payloads));
    ChunkingDoesNotMatter(chunks);
    if forall p | p in payloads :: |p| + 6 <= LIMIT {
      ScanEncoded(payloads, []);
      assert [] + payloads == payloads;
    } else {
      ScanSomeTooLong(payloads, []);
    }
  }

  lemma {:induction false} EncodedNoCr(payloads: seq<Bytes>)
    requires forall p | p in payloads :: NoBreak(p)
    ensures forall i | 0 <= i < |Encode(payloads)| :: Encode(payloads)[i] != CR
  {
    if payloads != [] {
      EncodedNoCr(payloads[1..]);
      assert NoBreak(payloads[0]);
      assert forall i | 0 <= i < |payloads[0]| :: !IsBreak(payloads[0][i]) && payloads[0][i] != CR;
    }
  }

  lemma NoFullLine(input: Bytes)
    requires forall i | 0 <= i < |input| :: input[i] != CR
    ensures !FullLineEndsInCr(input)
  {
  }
}
