/**
  Sending a request within a context budget, with one retry after upstream rejects the context (context_budget.py).

  Recognising a rejection, an HTML page or content in a stream is a matter of word lists and is given.
 */
module ContextDispatch {
  import opened Options
  import opened HistoryTrim
  import opened HistoryTrimTheorems

  const OUTPUT_RESERVE := 8192
  const MAX_OUTPUT_RESERVE := 32768

  type Detail = string
  type Bytes = string

  datatype Result = Json(body: string) | Error(status: int, detail: Detail) | Stream(chunks: seq<Bytes>)

  /** What the text of a stream so far amounts to. */
  datatype Look = Content | OnlyErrors(detail: Detail) | Undecided

  datatype Oracles = Oracles(toInt: Value -> Option<int>, rejects: (int, Detail, nat) -> bool, html: Detail -> bool,
                             look: seq<Bytes> -> Look, upstream: (Value, bool) -> Result)

  /** What the caller gets: a result as it came, or an error written by the gateway. */
  datatype Answer = Passed(r: Result) | ContextError(trimmed: bool, status: int) | HtmlError(status: int) | Streamed(pieces: seq<Piece>)

  datatype Piece = Chunk(b: Bytes) | ErrorPiece(a: Answer)

  // ---------------------------------------------------------------- limits

  /** The output length that the request asks for. */
  function Asked(payload: Value, w: Oracles): Option<int>
    requires payload.Dict?
  {
    w.toInt(if Get(payload, "max_tokens") != Null then Get(payload, "max_tokens") else Get(payload, "max_completion_tokens"))
  }

  /** Room for the answer: what the request asks for, up to a maximum, or else the usual reserve. */
  function Reserve(payload: Value, w: Oracles): (r: int)
    requires payload.Dict?
    ensures 1 <= r <= MAX_OUTPUT_RESERVE
    ensures forall n | n > 0 && Asked(payload, w) == Some(n) :: r <= n && (r < n ==> r == MAX_OUTPUT_RESERVE)
    ensures (forall n | n > 0 :: Asked(payload, w) != Some(n)) ==> r == OUTPUT_RESERVE
  {
    var asked := Asked(payload, w);
    if asked.Some? && asked.value > 0 then
      if asked.value < MAX_OUTPUT_RESERVE then asked.value else MAX_OUTPUT_RESERVE
    else OUTPUT_RESERVE
  }

  /** Prompt and reserve share the budget; where the reserve takes it all, the prompt gets half, and at least one token. */
  function InputLimit(payload: Value, budget: int, w: Oracles): (limit: int)
    requires payload.Dict? && budget > 0
    ensures 1 <= limit <= budget
    ensures Reserve(payload, w) < budget ==> limit + Reserve(payload, w) == budget
    ensures Reserve(payload, w) >= budget ==> budget <= 2 * limit + 1 && (2 * limit <= budget || limit == 1)
  {
    var reserve := Reserve(payload, w);
    if budget > reserve then budget - reserve else if budget / 2 < 1 then 1 else budget / 2
  }

  function TrimToLimit(payload: Value, limit: int): (r: (Value, bool))
    requires payload.Dict?
    ensures r.0.Dict? && (!r.1 && r.0 != payload ==> Get(payload, "messages").List?)
  {
    var messages := Get(payload, "messages");
    if !messages.List? || limit <= 0 || PromptTokens(payload) <= limit then (payload, false)
    else
      var items := Flatten(Trimmed(payload, "messages", Segments(messages.items), limit));
      (WithHistory(payload, "messages", items), |items| < |messages.items|)
  }

  function PrepareDispatch(payload: Value, budget: int, w: Oracles): (r: (Value, bool))
    requires payload.Dict?
    ensures r.0.Dict? && (!r.1 ==> r.0 == payload)
  {
    if budget <= 0 || PromptTokens(payload) <= InputLimit(payload, budget, w) then (payload, false)
    else
      var r := TrimToLimit(payload, InputLimit(payload, budget, w));
      if r.1 then r else (payload, false)
  }

  function RecoveryTarget(payload: Value): (target: int)
    ensures 1 <= target <= PromptTokens(payload)
  {
    if PromptTokens(payload) / 2 < 1 then 1 else PromptTokens(payload) / 2
  }

  // ---------------------------------------------------------------- dispatch

  /** The answer, and the payloads sent upstream. */
  datatype Sent = Sent(answer: Answer, calls: seq<Value>)

  function Finalize(r: Result, trimmed: bool, tokens: nat, w: Oracles): Answer {
    if !r.Error? then Passed(r)
    else if w.rejects(r.status, r.detail, tokens) then ContextError(trimmed, r.status)
    else if w.html(r.detail) then HtmlError(r.status)
    else Passed(r)
  }

  function Retry(payload: Value, alreadyTrimmed: bool, w: Oracles): Sent
    requires payload.Dict?
  {
    var (trimmed, changed) := TrimToLimit(payload, RecoveryTarget(payload));
    if !changed then Sent(ContextError(alreadyTrimmed, 400), [])
    else Sent(Finalize(w.upstream(trimmed, true), true, PromptTokens(trimmed), w), [trimmed])
  }

  function Chunks(bs: seq<Bytes>): (r: seq<Piece>)
    ensures |r| == |bs|
  {
    seq(|bs|, k requires 0 <= k < |bs| => Chunk(bs[k]))
  }

  /** What a client of the stream sees of a retry. */
  function Replayed(a: Answer): seq<Piece> {
    if a.Passed? && a.r.Stream? then Chunks(a.r.chunks) else [ErrorPiece(a)]
  }

  /** Watch the first chunks of a stream; at most four are held back. */
  function GuardStream(payload: Value, chunks: seq<Bytes>, seen: nat, alreadyTrimmed: bool, tokens: nat, w: Oracles): Sent
    requires payload.Dict? && seen <= |chunks|
    decreases |chunks| - seen
  {
    if seen == |chunks| then Sent(Streamed(Chunks(chunks)), [])
    else
      match w.look(chunks[..seen + 1])
      case Content => Sent(Streamed(Chunks(chunks)), [])
      case OnlyErrors(detail) =>
        if w.rejects(502, detail, tokens) then
          var retry := Retry(payload, alreadyTrimmed, w);
          Sent(Streamed(Replayed(retry.answer)), retry.calls)
        else if w.html(detail) then Sent(Streamed([ErrorPiece(HtmlError(502))]), [])
        else Sent(Streamed(Chunks(chunks)), [])
      case Undecided =>
        if seen + 1 >= 4 then Sent(Streamed(Chunks(chunks)), [])
        else GuardStream(payload, chunks, seen + 1, alreadyTrimmed, tokens, w)
  }

  function Recover(payload: Value, result: Result, retried: bool, alreadyTrimmed: bool, w: Oracles): Sent
    requires payload.Dict?
  {
    var tokens := PromptTokens(payload);
    if retried then Sent(Finalize(result, alreadyTrimmed, tokens, w), [])
    else
      match result
      case Error(status, detail) =>
        if w.rejects(status, detail, tokens) then Retry(payload, alreadyTrimmed, w)
        else if w.html(detail) then Sent(HtmlError(status), [])
        else Sent(Passed(result), [])
      case Stream(chunks) => GuardStream(payload, chunks, 0, alreadyTrimmed, tokens, w)
      case Json(_) => Sent(Passed(result), [])
  }

  function Dispatch(payload: Value, budget: int, retried: bool, w: Oracles): Sent
    requires payload.Dict?
  {
    var (dispatch, pretrimmed) := PrepareDispatch(payload, budget, w);
    if pretrimmed && budget > 0 && PromptTokens(dispatch) > InputLimit(payload, budget, w) then Sent(ContextError(true, 400), [])
    else
      var s := Recover(dispatch, w.upstream(dispatch, retried), retried, pretrimmed, w);
      Sent(s.answer, [dispatch] + s.calls)
  }

  /** The watching loop: chunks are buffered until they show what the stream is. */
  method GuardStreamChunks(payload: Value, chunks: seq<Bytes>, alreadyTrimmed: bool, tokens: nat, w: Oracles)
    returns (pieces: seq<Piece>, calls: seq<Value>)
    requires payload.Dict?
    ensures GuardStream(payload, chunks, 0, alreadyTrimmed, tokens, w) == Sent(Streamed(pieces), calls)
  {
    hide Retry;
    pieces, calls := Chunks(chunks), [];
    var buffered: seq<Bytes> := [];
    for k := 0 to |chunks|
      invariant buffered == chunks[..k] && pieces == Chunks(chunks) && calls == []
      invariant GuardStream(payload, chunks, 0, alreadyTrimmed, tokens, w) == GuardStream(payload, chunks, k, alreadyTrimmed, tokens, w)
    {
      buffered := buffered + [chunks[k]];
      assert buffered == chunks[..k + 1];
      var look := w.look(buffered);
      if look.Content? {
        return;
      }
      if look.OnlyErrors? {
        if w.rejects(502, look.detail, tokens) {
          var retry := Retry(payload, alreadyTrimmed, w);
          return Replayed(retry.answer), retry.calls;
        }
        if w.html(look.detail) {
          return [ErrorPiece(HtmlError(502))], [];
        }
        return;
      }
      if |buffered| >= 4 {
        return;
      }
    }
  }

  // ---------------------------------------------------------------- what is sent

  /** There is no older history to drop. */
  predicate Untrimmable(payload: Value)
    requires payload.Dict?
  {
    !Get(payload, "messages").List? || |Segments(Get(payload, "messages").items)| <= 1
  }

  /** The same request with part of its history, in whole segments. */
  ghost predicate TrimmedFrom(payload: Value, shorter: Value)
    requires payload.Dict?
  {
    Get(payload, "messages").List? &&
    var all := Segments(Get(payload, "messages").items);
    exists kept :: Fair(all, kept) && |kept| < |all| && shorter == WithHistory(payload, "messages", Flatten(Select(all, kept)))
  }

  lemma {:induction false} FlattenWithout(segments: seq<seq<Value>>, d: nat)
    requires d < |segments|
    ensures |Flatten(Without(segments, d))| == |Flatten(segments)| - |segments[d]|
  {
    if d == 0 {
      assert Without(segments, 0) == segments[1..];
    } else {
      assert Without(segments, d)[0] == segments[0] && Without(segments, d)[1..] == Without(segments[1..], d - 1);
      FlattenWithout(segments[1..], d - 1);
    }
  }

  lemma {:induction false} TrimmedShrinks(payload: Value, key: string, segments: seq<seq<Value>>, limit: int)
    requires payload.Dict? && forall k | 0 <= k < |segments| :: segments[k] != []
    ensures var left := Trimmed(payload, key, segments, limit);
            |Flatten(left)| + |segments| - |left| <= |Flatten(segments)|
    decreases |segments|
  {
    hide PromptTokens, WithHistory, Flatten, DropAt;
    if PromptTokens(WithHistory(payload, key, Flatten(segments))) > limit && |segments| > 1 {
      var d := DropAt(segments);
      FlattenWithout(segments, d);
      TrimmedShrinks(payload, key, Without(segments, d), limit);
    }
  }

  lemma SegmentsNonEmpty(items: seq<Value>)
    ensures forall k | 0 <= k < |Segments(items)| :: Segments(items)[k] != []
    ensures Flatten(Segments(items)) == items
  {
    SegmentsCut(items);
    hide Segments, IsLinked;
  }

  lemma HistoryIsSame(payload: Value)
    requires payload.Dict? && Get(payload, "messages").List?
    ensures WithHistory(payload, "messages", Get(payload, "messages").items) == payload
  {
    ReplaceSame(payload.entries, "messages", Get(payload, "messages"));
  }

  lemma TrimmedStops(payload: Value, key: string, segments: seq<seq<Value>>, limit: int)
    requires payload.Dict?
    ensures var left := Trimmed(payload, key, segments, limit);
            if PromptTokens(WithHistory(payload, key, Flatten(segments))) <= limit || |segments| <= 1 then left == segments
            else |left| < |segments|
  {
    hide PromptTokens, WithHistory, Flatten, DropAt;
  }

  /** Trimming changes a payload exactly when it is over the limit and has older history. */
  lemma TrimChanges(payload: Value, limit: int)
    requires payload.Dict? && limit > 0
    ensures TrimToLimit(payload, limit).1 <==> PromptTokens(payload) > limit && !Untrimmable(payload)
  {
    hide Segments, Flatten, PromptTokens, WithHistory, Trimmed, Fair;
    if Get(payload, "messages").List? {
      var items := Get(payload, "messages").items;
      var all := Segments(items);
      SegmentsNonEmpty(items);
      HistoryIsSame(payload);
      TrimmedShrinks(payload, "messages", all, limit);
      TrimmedStops(payload, "messages", all, limit);
    }
  }

  /** Only the newest segment is left. */
  ghost predicate SingleLeft(payload: Value, shorter: Value)
    requires payload.Dict?
  {
    Get(payload, "messages").List? &&
    var all := Segments(Get(payload, "messages").items);
    all != [] && shorter == WithHistory(payload, "messages", all[|all| - 1])
  }

  /** What a changed payload keeps: whole segments, and only the newest one if that is still too long. */
  lemma TrimKeeps(payload: Value, limit: int)
    requires payload.Dict? && limit > 0 && TrimToLimit(payload, limit).1
    ensures var r := TrimToLimit(payload, limit).0;
            TrimmedFrom(payload, r) && (PromptTokens(r) <= limit || SingleLeft(payload, r))
  {
    hide Segments, Flatten, PromptTokens, WithHistory, Trimmed, Untrimmable;
    TrimChanges(payload, limit);
    TrimFacts(payload, limit);
    var all := Segments(Get(payload, "messages").items);
    HistoryIsSame(payload);
    SegmentsNonEmpty(Get(payload, "messages").items);
    TrimmedStops(payload, "messages", all, limit);
    var kept := TrimIsGreedy(payload, "messages", limit);
    if |kept| <= 1 {
      OneKept(all, kept);
    }
  }

  lemma TrimFacts(payload: Value, limit: int)
    requires payload.Dict? && TrimToLimit(payload, limit).1
    ensures Get(payload, "messages").List? && PromptTokens(payload) > limit && |Segments(Get(payload, "messages").items)| > 1
    ensures TrimToLimit(payload, limit).0 ==
              WithHistory(payload, "messages", Flatten(Trimmed(payload, "messages", Segments(Get(payload, "messages").items), limit)))
  {
    hide Segments, PromptTokens, WithHistory, Trimmed;
    if limit > 0 {
      TrimChanges(payload, limit);
    }
  }

  lemma OneKept(all: seq<seq<Value>>, kept: seq<nat>)
    requires Fair(all, kept) && |kept| <= 1 && all != []
    ensures Flatten(Select(all, kept)) == all[|all| - 1]
  {
    var x := all[|all| - 1];
    assert Select(all, kept) == [x] && [x][1..] == [];
    assert Flatten([x]) == x + [] == x;
  }

  // ---------------------------------------------------------------- main result

  lemma RetryCalls(payload: Value, alreadyTrimmed: bool, w: Oracles)
    requires payload.Dict?
    ensures var s := Retry(payload, alreadyTrimmed, w);
            && |s.calls| <= 1 && (|s.calls| == 1 <==> PromptTokens(payload) > RecoveryTarget(payload) && !Untrimmable(payload))
            && SecondOk(payload, s.calls)
  {
    hide TrimToLimit, PromptTokens, Untrimmable, TrimmedFrom, SingleLeft, Finalize;
    TrimChanges(payload, RecoveryTarget(payload));
    if TrimToLimit(payload, RecoveryTarget(payload)).1 {
      TrimKeeps(payload, RecoveryTarget(payload));
    }
  }

  /** The second call of a dispatch, if there is one. */
  ghost predicate SecondOk(payload: Value, calls: seq<Value>)
    requires payload.Dict?
  {
    && |calls| <= 1
    && (|calls| == 1 ==> TrimmedFrom(payload, calls[0]))
    && (|calls| == 1 ==> PromptTokens(calls[0]) <= RecoveryTarget(payload) || SingleLeft(payload, calls[0]))
  }

  lemma {:induction false} GuardCalls(payload: Value, chunks: seq<Bytes>, seen: nat, alreadyTrimmed: bool, tokens: nat, w: Oracles)
    requires payload.Dict? && seen <= |chunks|
    ensures SecondOk(payload, GuardStream(payload, chunks, seen, alreadyTrimmed, tokens, w).calls)
    decreases |chunks| - seen
  {
    hide Retry, SecondOk, PromptTokens, RecoveryTarget, Untrimmable;
    RetryCalls(payload, alreadyTrimmed, w);
    NoSecond(payload);
    if seen < |chunks| && w.look(chunks[..seen + 1]).Undecided? {
      GuardCalls(payload, chunks, seen + 1, alreadyTrimmed, tokens, w);
    }
  }

  lemma NoSecond(payload: Value)
    requires payload.Dict?
    ensures SecondOk(payload, [])
  {
  }

  lemma RecoverCalls(payload: Value, result: Result, retried: bool, alreadyTrimmed: bool, w: Oracles)
    requires payload.Dict?
    ensures var s := Recover(payload, result, retried, alreadyTrimmed, w);
            SecondOk(payload, s.calls) && (retried ==> s.calls == [])
  {
    hide Retry, GuardStream, SecondOk, PromptTokens, RecoveryTarget, Untrimmable;
    RetryCalls(payload, alreadyTrimmed, w);
    NoSecond(payload);
    if result.Stream? {
      GuardCalls(payload, result.chunks, 0, alreadyTrimmed, PromptTokens(payload), w);
    }
  }

  /**
    With a budget, the first payload sent is within the limit, or it is the request itself, which has nothing older to drop.
    There is at most one more call, with whole segments dropped, at most half as long unless only the newest segment is left,
    and none if the request is a retry.
   */
  lemma DispatchSends(payload: Value, budget: int, retried: bool, w: Oracles)
    requires payload.Dict?
    ensures var calls := Dispatch(payload, budget, retried, w).calls;
            && |calls| <= 2 && (retried ==> |calls| <= 1)
            && (|calls| > 0 && budget > 0 ==>
                  PromptTokens(calls[0]) <= InputLimit(payload, budget, w) || (calls[0] == payload && Untrimmable(payload)))
            && (|calls| > 0 && calls[0] != payload ==> budget > 0 && TrimmedFrom(payload, calls[0]))
            && (|calls| > 0 ==> calls[0].Dict? && SecondOk(calls[0], calls[1..]))
  {
    hide PrepareDispatch, Recover, TrimmedFrom, PromptTokens, RecoveryTarget, InputLimit, Segments, SecondOk, WithHistory, NewestFits, Untrimmable, SingleLeft;
    PrepareMeans(payload, budget, w);
    var (dispatch, pretrimmed) := PrepareDispatch(payload, budget, w);
    RecoverCalls(dispatch, w.upstream(dispatch, retried), retried, pretrimmed, w);
    var rest := Recover(dispatch, w.upstream(dispatch, retried), retried, pretrimmed, w).calls;
    assert ([dispatch] + rest)[1..] == rest;
    SecondLength(dispatch, rest);
  }

  /** Nothing is sent exactly when there is older history to drop and even the newest segment alone is too long. */
  lemma NothingSent(payload: Value, budget: int, retried: bool, w: Oracles)
    requires payload.Dict?
    ensures Dispatch(payload, budget, retried, w).calls == [] <==>
            && budget > 0 && PromptTokens(payload) > InputLimit(payload, budget, w) && !Untrimmable(payload)
            && var all := Segments(Get(payload, "messages").items);
               PromptTokens(WithHistory(payload, "messages", all[|all| - 1])) > InputLimit(payload, budget, w)
    ensures Dispatch(payload, budget, retried, w).calls == [] ==> Dispatch(payload, budget, retried, w).answer == ContextError(true, 400)
  {
    hide PrepareDispatch, Recover, TrimmedFrom, PromptTokens, RecoveryTarget, InputLimit, Segments, WithHistory, SingleLeft;
    PrepareMeans(payload, budget, w);
  }

  lemma SecondLength(payload: Value, calls: seq<Value>)
    requires payload.Dict? && SecondOk(payload, calls)
    ensures |calls| <= 1
  {
  }

  /** A payload that was trimmed before it is sent. */
  ghost predicate Pretrimmed(payload: Value, shorter: Value, limit: int)
    requires payload.Dict?
  {
    && TrimmedFrom(payload, shorter) && PromptTokens(payload) > limit && !Untrimmable(payload)
    && (PromptTokens(shorter) <= limit || SingleLeft(payload, shorter)) && NewestFits(payload, shorter, limit)
  }

  lemma PrepareMeans(payload: Value, budget: int, w: Oracles)
    requires payload.Dict?
    ensures var r := PrepareDispatch(payload, budget, w);
            && (!r.1 ==> r.0 == payload)
            && (budget <= 0 ==> !r.1)
            && (budget > 0 && !r.1 ==> PromptTokens(payload) <= InputLimit(payload, budget, w) || Untrimmable(payload))
            && (budget > 0 && r.1 ==> Pretrimmed(payload, r.0, InputLimit(payload, budget, w)))
  {
    hide TrimToLimit, PromptTokens, InputLimit, Untrimmable, TrimmedFrom, SingleLeft, NewestFits;
    if budget > 0 {
      var limit := InputLimit(payload, budget, w);
      TrimChanges(payload, limit);
      if TrimToLimit(payload, limit).1 {
        TrimKeeps(payload, limit);
        NewestIsLeast(payload, limit);
      }
    }
  }

  /** Whether the trimmed payload fits is whether the newest segment alone fits. */
  ghost predicate NewestFits(payload: Value, shorter: Value, limit: int)
    requires payload.Dict?
  {
    Get(payload, "messages").List? &&
    var all := Segments(Get(payload, "messages").items);
    all != [] && (PromptTokens(shorter) <= limit <==> PromptTokens(WithHistory(payload, "messages", all[|all| - 1])) <= limit)
  }

  lemma NewestIsLeast(payload: Value, limit: int)
    requires payload.Dict? && limit > 0 && TrimToLimit(payload, limit).1
    ensures NewestFits(payload, TrimToLimit(payload, limit).0, limit)
  {
    hide Segments, Flatten, PromptTokens, WithHistory, Trimmed, OverLimit;
    TrimFacts(payload, limit);
    var all := Segments(Get(payload, "messages").items);
    var kept := TrimIsGreedy(payload, "messages", limit);
    NewestAlone(payload, limit, all, kept);
  }

  lemma NewestAlone(payload: Value, limit: int, all: seq<seq<Value>>, kept: seq<nat>)
    requires payload.Dict? && all != [] && Fair(all, kept) && (!OverLimit(payload, "messages", all, kept, limit) || |kept| <= 1)
    ensures PromptTokens(WithHistory(payload, "messages", Flatten(Select(all, kept)))) <= limit <==>
            PromptTokens(WithHistory(payload, "messages", all[|all| - 1])) <= limit
  {
    hide Flatten, PromptTokens, WithHistory, AllSystem;
    var newest := [|all| - 1 as nat];
    if |kept| <= 1 {
      OneKept(all, kept);
    } else {
      NewestCost(payload, all, kept);
      PromptMonotone(WithHistory(payload, "messages", all[|all| - 1]), WithHistory(payload, "messages", Flatten(Select(all, kept))));
    }
  }

  lemma PromptMonotone(a: Value, b: Value)
    requires Estimate(a) <= Estimate(b)
    ensures PromptTokens(a) <= PromptTokens(b)
  {
    hide Estimate;
  }

  lemma NewestCost(payload: Value, all: seq<seq<Value>>, kept: seq<nat>)
    requires payload.Dict? && all != [] && Fair(all, kept)
    ensures Estimate(WithHistory(payload, "messages", all[|all| - 1])) <= Estimate(WithHistory(payload, "messages", Flatten(Select(all, kept))))
  {
    hide Flatten, Estimate, WithHistory, AllSystem, Costs;
    EstimateFalls(payload, "messages", all, kept);
    HistoryCost(payload, "messages", all[|all| - 1]);
    assert |all| - 1 in kept;
  }
}
