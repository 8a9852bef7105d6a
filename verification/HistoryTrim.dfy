/**
  Trimming old history from a request that is too long (router.py, `_estimate_value`, `_history_segments`, `_trim_history`).

  A payload is a JSON value; integers, floats and booleans are `Other` with the text that `str` gives.
 */
module HistoryTrim {
  datatype Value = Null | Str(s: string) | List(items: seq<Value>) | Dict(entries: seq<(string, Value)>) | Other(printed: string, truthy: bool)

  // ---------------------------------------------------------------- estimating

  predicate IsWide(c: char) {
    var code := c as int;
    0x3400 <= code <= 0x9FFF || 0xF900 <= code <= 0xFAFF || 0x3000 <= code <= 0x303F || 0xFF00 <= code <= 0xFFEF
  }

  function WideCount(text: string): nat {
    if text == "" then 0 else (if IsWide(text[0]) then 1 else 0) + WideCount(text[1..])
  }

  function TextTokens(text: string): int {
    WideCount(text) + (|text| - WideCount(text) + 3) / 4
  }

  lemma {:induction false} TextTokensNat(text: string)
    ensures WideCount(text) <= |text| && TextTokens(text) >= 0
  {
    if text != "" {
      TextTokensNat(text[1..]);
    }
  }

  function Estimate(v: Value): nat
    decreases v
  {
    match v
    case Null => 0
    case Str(s) => TextTokensNat(s); TextTokens(s)
    case List(items) => ItemsEstimate(items, v)
    case Dict(entries) => EntriesEstimate(entries, v)
    case Other(printed, _) => TextTokensNat(printed); TextTokens(printed)
  }

  function ItemsEstimate(items: seq<Value>, ghost whole: Value): nat
    requires forall k | 0 <= k < |items| :: items[k] < whole
    decreases whole, |items|
  {
    if items == [] then 0 else Estimate(items[0]) + ItemsEstimate(items[1..], whole)
  }

  function EntriesEstimate(entries: seq<(string, Value)>, ghost whole: Value): nat
    requires forall k | 0 <= k < |entries| :: entries[k].1 < whole
    decreases whole, |entries|
  {
    if entries == [] then 0
    else
      TextTokensNat(entries[0].0);
      TextTokens(entries[0].0) + Estimate(entries[0].1) + EntriesEstimate(entries[1..], whole)
  }

  function PromptTokens(payload: Value): nat {
    if Estimate(payload) < 1 then 1 else Estimate(payload)
  }

  method EstimateText(text: string) returns (tokens: int)
    ensures tokens == TextTokens(text)
  {
    var cjk, other := 0, 0;
    for k := 0 to |text|
      invariant cjk + WideCount(text[k..]) == WideCount(text) && other == k - cjk
    {
      assert text[k..][1..] == text[k + 1..];
      if IsWide(text[k]) {
        cjk := cjk + 1;
      } else {
        other := other + 1;
      }
    }
    tokens := cjk + (other + 3) / 4;
  }

  // ---------------------------------------------------------------- segments

  function Lookup(entries: seq<(string, Value)>, key: string): Value {
    if entries == [] then Null else if entries[0].0 == key then entries[0].1 else Lookup(entries[1..], key)
  }

  function Get(v: Value, key: string): Value
    requires v.Dict?
  {
    Lookup(v.entries, key)
  }

  predicate Truthy(v: Value) {
    match v
    case Null => false
    case Str(s) => s != ""
    case List(items) => items != []
    case Dict(entries) => entries != []
    case Other(_, truthy) => truthy
  }

  predicate IsSystem(item: Value) {
    item.Dict? && Get(item, "role") in {Str("system"), Str("developer")}
  }

  predicate IsToolCarrier(item: Value) {
    item.Dict? &&
    if Get(item, "type") in {Str("function_call"), Str("function_call_output")} then true
    else if Get(item, "role") == Str("tool") then true
    else Get(item, "role") == Str("assistant") && Truthy(Get(item, "tool_calls"))
  }

  /** Items that stay together: calls, results and the reasoning between them. */
  predicate IsLinked(item: Value) {
    IsToolCarrier(item) || (item.Dict? && Get(item, "type") == Str("reasoning"))
  }

  function LinkedRun(items: seq<Value>): (n: nat)
    ensures n <= |items| && forall k | 0 <= k < n :: IsLinked(items[k])
    ensures n < |items| ==> !IsLinked(items[n])
  {
    if items == [] || !IsLinked(items[0]) then 0 else 1 + LinkedRun(items[1..])
  }

  function Segments(items: seq<Value>): seq<seq<Value>>
    decreases |items|
  {
    if items == [] then []
    else if IsLinked(items[0]) then [items[..LinkedRun(items)]] + Segments(items[LinkedRun(items)..])
    else [[items[0]]] + Segments(items[1..])
  }

  lemma RunIs(items: seq<Value>, n: nat)
    requires n <= |items| && (forall k | 0 <= k < n :: IsLinked(items[k])) && (n < |items| ==> !IsLinked(items[n]))
    ensures LinkedRun(items) == n
  {
    hide IsLinked;
  }

  /** The inner loop: one group of linked items. */
  method TakeLinked(items: seq<Value>, start: nat) returns (group: seq<Value>, index: nat)
    requires start < |items|
    ensures index == start + LinkedRun(items[start..]) <= |items| && group == items[start..index]
  {
    hide IsLinked;
    group, index := [], start;
    while index < |items| && IsLinked(items[index])
      invariant start <= index <= |items| && group == items[start..index]
      invariant forall k | start <= k < index :: IsLinked(items[k])
    {
      group := group + [items[index]];
      index := index + 1;
    }
    RunIs(items[start..], index - start);
  }

  /** The segment at a place, and where the next one starts. */
  lemma SegmentAt(items: seq<Value>, index: nat)
    requires index < |items|
    ensures var n := if IsLinked(items[index]) then LinkedRun(items[index..]) else 1;
            0 < n <= |items| - index && Segments(items[index..]) == [items[index..index + n]] + Segments(items[index + n..])
  {
    hide IsLinked;
    assert items[index..index + 1] == [items[index]];
    var rest := items[index..];
    var n := if IsLinked(items[index]) then LinkedRun(rest) else 1;
    assert rest[0] == items[index] && rest[..n] == items[index..index + n] && rest[n..] == items[index + n..];
  }

  method HistorySegments(items: seq<Value>) returns (segments: seq<seq<Value>>)
    ensures segments == Segments(items)
  {
    hide IsLinked, LinkedRun, Segments;
    segments := [];
    var index := 0;
    assert items[0..] == items && [] + Segments(items) == Segments(items);
    while index < |items|
      invariant index <= |items| && segments + Segments(items[index..]) == Segments(items)
      decreases |items| - index
    {
      SegmentAt(items, index);
      ghost var before := segments;
      if IsLinked(items[index]) {
        var group, next := TakeLinked(items, index);
        segments := segments + [group];
        index := next;
      } else {
        assert items[index..index + 1] == [items[index]];
        segments := segments + [[items[index]]];
        index := index + 1;
      }
      assert before + ([segments[|before|]] + Segments(items[index..])) == segments + Segments(items[index..]);
    }
    NoSegments(items[index..]);
  }

  lemma NoSegments(items: seq<Value>)
    requires items == []
    ensures Segments(items) == []
  {
  }

  // ---------------------------------------------------------------- dropping

  predicate AllSystem(segment: seq<Value>) {
    forall k | 0 <= k < |segment| :: IsSystem(segment[k])
  }

  /** The first segment before the newest that is not all system messages. */
  function FirstOrdinary(segments: seq<seq<Value>>, from: nat): (k: nat)
    requires from < |segments|
    ensures from <= k < |segments| && forall j | from <= j < k :: AllSystem(segments[j])
    ensures k < |segments| - 1 ==> !AllSystem(segments[k])
    decreases |segments| - from
  {
    if from == |segments| - 1 || !AllSystem(segments[from]) then from else FirstOrdinary(segments, from + 1)
  }

  function DropAt(segments: seq<seq<Value>>): (k: nat)
    requires |segments| > 1
    ensures k < |segments| - 1
  {
    var k := FirstOrdinary(segments, 0);
    if k < |segments| - 1 then k else 0
  }

  function Without<T>(s: seq<T>, k: nat): (r: seq<T>)
    requires k < |s|
    ensures |r| == |s| - 1
  {
    s[..k] + s[k + 1..]
  }

  function Flatten(segments: seq<seq<Value>>): seq<Value> {
    if segments == [] then [] else segments[0] + Flatten(segments[1..])
  }

  function Replaced(entries: seq<(string, Value)>, key: string, v: Value): seq<(string, Value)> {
    if entries == [] then [(key, v)]
    else if entries[0].0 == key then [(key, v)] + entries[1..]
    else [entries[0]] + Replaced(entries[1..], key, v)
  }

  /** The payload with another history. */
  function WithHistory(payload: Value, key: string, items: seq<Value>): (r: Value)
    requires payload.Dict?
    ensures r.Dict?
  {
    Dict(Replaced(payload.entries, key, List(items)))
  }

  /** The segments that are left. */
  function Trimmed(payload: Value, key: string, segments: seq<seq<Value>>, limit: int): (r: seq<seq<Value>>)
    requires payload.Dict?
    ensures |r| <= |segments|
    decreases |segments|
  {
    if PromptTokens(WithHistory(payload, key, Flatten(segments))) <= limit || |segments| <= 1 then segments
    else Trimmed(payload, key, Without(segments, DropAt(segments)), limit)
  }

  method FindDrop(segments: seq<seq<Value>>) returns (k: nat)
    requires |segments| > 1
    ensures k == DropAt(segments)
  {
    for i := 0 to |segments| - 1
      invariant FirstOrdinary(segments, 0) == FirstOrdinary(segments, i)
    {
      if !AllSystem(segments[i]) {
        return i;
      }
    }
    k := 0;
  }

  method JoinSegments(segments: seq<seq<Value>>) returns (items: seq<Value>)
    ensures items == Flatten(segments)
  {
    items := [];
    assert segments[0..] == segments;
    for k := 0 to |segments|
      invariant items + Flatten(segments[k..]) == Flatten(segments)
    {
      assert segments[k..][1..] == segments[k + 1..];
      assert items + (segments[k] + Flatten(segments[k + 1..])) == items + segments[k] + Flatten(segments[k + 1..]);
      items := items + segments[k];
    }
  }

  method TrimHistory(payload: Value, key: string, limit: int) returns (trimmed: Value)
    requires payload.Dict? && Get(payload, key).List?
    ensures trimmed == WithHistory(payload, key, Flatten(Trimmed(payload, key, Segments(Get(payload, key).items), limit)))
  {
    hide Estimate, Segments, DropAt, AllSystem, Replaced;
    var segments := HistorySegments(Get(payload, key).items);
    ghost var all := segments;
    SegmentsJoin(Get(payload, key).items);
    ReplaceSame(payload.entries, key, Get(payload, key));
    trimmed := payload;
    while PromptTokens(trimmed) > limit && |segments| > 1
      invariant trimmed == WithHistory(payload, key, Flatten(segments))
      invariant Trimmed(payload, key, segments, limit) == Trimmed(payload, key, all, limit)
      decreases |segments|
    {
      var k := FindDrop(segments);
      segments := segments[..k] + segments[k + 1..];
      var items := JoinSegments(segments);
      trimmed := WithHistory(payload, key, items);
    }
  }

  lemma {:induction false} SegmentsJoin(items: seq<Value>)
    ensures Flatten(Segments(items)) == items
    decreases |items|
  {
    hide IsLinked;
    if items != [] {
      var n := if IsLinked(items[0]) then LinkedRun(items) else 1;
      SegmentsJoin(items[n..]);
      var s := Segments(items);
      assert s[0] == items[..n] && s[1..] == Segments(items[n..]);
    }
  }

  lemma {:induction false} ReplaceSame(entries: seq<(string, Value)>, key: string, v: Value)
    requires Lookup(entries, key) == v && v != Null
    ensures Replaced(entries, key, v) == entries
  {
    if entries != [] && entries[0].0 != key {
      ReplaceSame(entries[1..], key, v);
    }
  }
}
