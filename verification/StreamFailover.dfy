/**
  Streaming with failover (proxy.py, `_stream_upstream`).

  Accounts are tried in the order in which the picker hands them out.  The chunks of an attempt are forwarded as they come,
  except that everything from the first finish reason on is held back until the attempt has passed its final check.
  What the network does is given: which accounts are picked, how upstream answers, the bytes, and where a connection breaks.
 */
module StreamFailover {
  import opened Options
  import opened SseDecoding
  import opened ChatObserver
  import opened ChatObserverTheorems

  // ---------------------------------------------------------------- one attempt

  /** `seen` are the events given to the observer, `stop` says that no more bytes are wanted. */
  datatype Reading = Reading(dec: Decoder, o: Obs, sent: seq<Chunk>, held: seq<Chunk>, heldBytes: nat, stop: bool, seen: seq<Bytes>)

  function StartReading(n: nat): Reading {
    Reading(NewDecoder, NewObs(n), [], [], 0, false, [])
  }

  predicate HasTerminal(c: Chunk) {
    c.choices.Good? && exists k | 0 <= k < |c.choices.value| ::
      c.choices.value[k].Choice? && (c.choices.value[k].finish.Bad? || NonEmpty(c.choices.value[k].finish).Some?)
  }

  function Take(r: Reading, data: Bytes, parse: Bytes -> Wire): Reading {
    var (o, obj) := Observe(r.o, parse(data));
    var seen := r.seen + [data];
    if obj.None? then r.(o := o, seen := seen)
    else if r.held != [] || HasTerminal(obj.value) then
      var bytes := r.heldBytes + obj.value.encoded;
      r.(o := if bytes > LIMIT then o.Fail(TerminalTooLong) else o, held := r.held + [obj.value], heldBytes := bytes, seen := seen)
    else r.(o := o, sent := r.sent + [obj.value], seen := seen)
  }

  predicate Over(o: Obs) {
    o.seenDone || o.parserError.Some? || o.malformed || o.errorEvent.Some?
  }

  /** The events of one feed, up to the one that ends the reading. */
  function TakeUntilOver(r: Reading, events: seq<Bytes>, parse: Bytes -> Wire): Reading
    decreases |events|
  {
    if events == [] then r
    else
      var r1 := Take(r, events[0], parse);
      if Over(r1.o) then r1.(stop := true) else TakeUntilOver(r1, events[1..], parse)
  }

  function TakeAll(r: Reading, events: seq<Bytes>, parse: Bytes -> Wire): Reading
    decreases |events|
  {
    if events == [] then r else TakeAll(Take(r, events[0], parse), events[1..], parse)
  }

  function NewEvents(was: Decoder, is_: Decoder): seq<Bytes> {
    if |was.fields.events| <= |is_.fields.events| then is_.fields.events[|was.fields.events|..] else []
  }

  function CheckDecoder(r: Reading): Reading {
    if r.dec.fields.error.Some? && !r.o.seenDone then r.(o := r.o.Fail(Undecodable), stop := true) else r
  }

  function ReadChunk(r: Reading, chunk: Bytes, parse: Bytes -> Wire): Reading {
    if chunk == [] then r
    else
      var dec := FeedOf(r.dec, chunk);
      CheckDecoder(TakeUntilOver(r.(dec := dec), NewEvents(r.dec, dec), parse))
  }

  function ReadChunks(r: Reading, chunks: seq<Bytes>, parse: Bytes -> Wire): Reading
    decreases |chunks|
  {
    if chunks == [] || r.stop then r else ReadChunks(ReadChunk(r, chunks[0], parse), chunks[1..], parse)
  }

  /** The end of the input: what is left in the decoder, unless the reading stopped before. */
  function ReadEnd(r: Reading, parse: Bytes -> Wire): Reading {
    if r.stop then CheckDecoder(r)
    else
      var dec := FinishOf(r.dec);
      CheckDecoder(TakeAll(r.(dec := dec), NewEvents(r.dec, dec), parse))
  }

  function Read(chunks: seq<Bytes>, n: nat, parse: Bytes -> Wire): Reading {
    ReadEnd(ReadChunks(StartReading(n), chunks, parse), parse)
  }

  // ---------------------------------------------------------------- the failover loop

  /** An error object that is passed on: an error event of upstream, or the detail that an account rule made. */
  datatype ErrorEvent = FromUpstream(chunk: Chunk) | FromRule(detail: string)

  /** A refusal that an account rule decides: whether to stop, and the status and detail shown to the client. */
  datatype Ruling = Ruling(stop: bool, status: int, detail: Option<string>)

  /** `broken` means that the connection fails after these chunks, possibly before any byte. */
  datatype Response = Refused(status: int, ruling: Option<Ruling>) | Stream(chunks: seq<Bytes>, broken: bool)

  /** One pick of the account picker, and what happens with the account. */
  datatype Turn = Turn(account: int, headers: bool, response: Response)

  /** Events sent to the client. */
  datatype Out =
    | Data(chunk: Chunk)
    | Terminal(choices: seq<(int, string)>)    // made up for choices without a finish reason
    | ErrorObject(e: ErrorEvent)
    | Failure(status: int)
    | Stalled
    | Done

  /** A row of the request log; only rows that are no retries count as usage. */
  datatype Row = Row(account: Option<int>, status: int, retry: bool)

  datatype Pending = Pending(account: int, status: int)

  datatype Loop = Loop(out: seq<Out>, rows: seq<Row>, tried: seq<int>, pending: Option<Pending>, attempt: nat,
                       status: int, errorEvent: Option<ErrorEvent>)

  /** How a stream ended: `last` is the turn that ended it, if one did. */
  datatype Ended = Ended(out: seq<Out>, rows: seq<Row>, tried: seq<int>, last: Option<Turn>)

  datatype Setting = Setting(cap: nat, n: nat, failStalled: bool)

  function Cap(configured: int): nat {
    if configured > 0 then configured else 1000000
  }

  predicate Retryable(status: int) {
    status in {408, 409, 425, 429, 500, 502, 503, 504, 401, 403}
  }

  function Datas(cs: seq<Chunk>): (r: seq<Out>)
    ensures |r| == |cs|
  {
    seq(|cs|, k requires 0 <= k < |cs| => Data(cs[k]))
  }

  function Choose(o: Obs, missing: seq<int>): (r: seq<(int, string)>)
    ensures |r| == |missing|
  {
    seq(|missing|, k requires 0 <= k < |missing| => (missing[k], if missing[k] in o.p.tools then "tool_calls" else "stop"))
  }

  /** The finish reasons after the missing ones are filled in, the first nonempty one in order of arrival. */
  function FirstReason(o: Obs, order: seq<int>): Option<string> {
    if order == [] then None
    else
      var i := order[0];
      var r := if i !in o.p.finish then None
               else if o.p.finish[i].None? then Some(if i in o.p.tools then "tool_calls" else "stop") else o.p.finish[i];
      if r.Some? && r.value != "" then r else FirstReason(o, order[1..])
  }

  function ErrorTail(errorEvent: Option<ErrorEvent>, status: int): seq<Out> {
    if errorEvent.Some? then [ErrorObject(errorEvent.value), Done] else [Failure(status), Done]
  }

  /** What follows the chunks already sent when the attempt passed its check. */
  function SuccessTail(r: Reading, stalled: bool): seq<Out> {
    if stalled then [Stalled, Done]
    else
      var missing := MissingFinish(r.o, 0);
      Datas(r.held) + (if missing != [] then [Terminal(Choose(r.o, missing))] else []) + [Done]
  }

  /** The oracles: the JSON parser, whether a text is a JSON object, and whether a turn is a tool stall. */
  datatype Oracles = Oracles(parse: Bytes -> Wire, object_: string -> bool, stall: (Option<string>, bool, seq<string>) -> bool)

  function IsStalled(r: Reading, s: Setting, w: Oracles): bool {
    s.failStalled && w.stall(FirstReason(r.o, r.o.p.order), r.o.p.tools != {}, r.o.p.text)
  }

  /** Log the attempt that is now retried. */
  function Flush(l: Loop): Loop {
    if l.pending.None? then l
    else l.(rows := l.rows + [Row(Some(l.pending.value.account), l.pending.value.status, true)], pending := None)
  }

  function Again(l: Loop, pending: Option<Pending>): Loop {
    l.(pending := pending, attempt := l.attempt + 1)
  }

  function EndWith(l: Loop, t: Turn, tail: seq<Out>, status: int): Ended {
    Ended(l.out + tail, l.rows + [Row(Some(t.account), status, false)], l.tried, Some(t))
  }

  /** No account is left, or the cap is reached. */
  function Exhausted(l: Loop): Ended {
    var row := if l.pending.Some? then Row(Some(l.pending.value.account), l.pending.value.status, false)
               else Row(if l.tried == [] then None else Some(l.tried[|l.tried| - 1]), l.status, false);
    Ended(l.out + ErrorTail(l.errorEvent, l.status), l.rows + [row], l.tried, None)
  }

  datatype Step = Next(l: Loop) | Finished(e: Ended)

  function TurnRefused(l: Loop, t: Turn, s: Setting): Step
    requires t.response.Refused?
  {
    var status := t.response.status;
    var last := l.attempt + 1 >= s.cap;
    if t.response.ruling.Some? then
      var ruled := t.response.ruling.value;
      var l1 := l.(status := ruled.status, errorEvent := if ruled.detail.Some? then Some(FromRule(ruled.detail.value)) else None);
      if ruled.stop || last then Finished(EndWith(l1, t, ErrorTail(l1.errorEvent, ruled.status), ruled.status))
      else Next(Again(l1, Some(Pending(t.account, ruled.status))))
    else
      var l1 := l.(status := status, errorEvent := None);
      if Retryable(status) && !last then Next(Again(l1, Some(Pending(t.account, status))))
      else Finished(EndWith(l1, t, [Failure(status), Done], status))
  }

  /** The connection failed while the attempt was still reading: once reading has stopped, nobody notices. */
  predicate Disconnects(chunks: seq<Bytes>, broken: bool, n: nat, parse: Bytes -> Wire) {
    broken && !ReadChunks(StartReading(n), chunks, parse).stop
  }

  function TurnStreamed(l: Loop, t: Turn, s: Setting, w: Oracles): Step
    requires t.response.Stream?
  {
    var last := l.attempt + 1 >= s.cap;
    if Disconnects(t.response.chunks, t.response.broken, s.n, w.parse) then
      var r := ReadChunks(StartReading(s.n), t.response.chunks, w.parse);
      var l1 := l.(out := l.out + Datas(r.sent), status := 502, errorEvent := None);
      if r.sent == [] && !last then Next(Again(l1, Some(Pending(t.account, 502))))
      else Finished(EndWith(l1, t, [Failure(502), Done], 502))
    else
      var r := Read(t.response.chunks, s.n, w.parse);
      var l1 := l.(out := l.out + Datas(r.sent));
      if Eof(r.o, w.object_).Some? then
        var event := if r.o.errorEvent.Some? then Some(FromUpstream(r.o.errorEvent.value)) else None;
        var l2 := l1.(status := 502, errorEvent := event);
        if r.sent == [] && !last then Next(Again(l2, Some(Pending(t.account, 502))))
        else Finished(EndWith(l2, t, ErrorTail(event, 502), 502))
      else Finished(EndWith(l1, t, SuccessTail(r, IsStalled(r, s, w)), 200))
  }

  /** One pass of the loop, for an account that was not tried before. */
  function TakeTurn(l: Loop, t: Turn, s: Setting, w: Oracles): Step {
    var l0 := Flush(l);
    var l1 := l0.(tried := l0.tried + [t.account]);
    if !t.headers then Next(Again(l1.(status := 401, errorEvent := None), None))
    else if t.response.Refused? then TurnRefused(l1, t, s)
    else TurnStreamed(l1, t, s, w)
  }

  function Loops(l: Loop, turns: seq<Turn>, s: Setting, w: Oracles): Ended
    decreases |turns|
  {
    if l.attempt >= s.cap || turns == [] || turns[0].account in l.tried then Exhausted(l)
    else
      var step := TakeTurn(l, turns[0], s, w);
      if step.Finished? then step.e else Loops(step.l, turns[1..], s, w)
  }

  const START := Loop([], [], [], None, 0, 503, None)

  function StreamUpstream(turns: seq<Turn>, s: Setting, w: Oracles): Ended {
    Loops(START, turns, s, w)
  }
}
